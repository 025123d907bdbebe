/**
 Planning the idle shutdown of a connection (swarm/src/connection.rs, `compute_new_shutdown` and
 `checked_add_fraction`). Durations and instants are counted in nanoseconds.
 */
module IdleShutdown {
  import opened Common

  /** `futures_timer::Delay`: armed at an instant for a duration. */
  datatype Delay = Delay(start: nat, duration: nat) {
    predicate Elapsed(now: nat) {
      now >= start + duration
    }
  }

  datatype Shutdown = NotPlanned | Asap | Later(delay: Delay)

  /**
   The duration that is left after halving until it can be added. `headroom` is the longest duration
   that can be added to the current instant; it is at least zero because the instant itself exists.
   The result is the duration asked for if that fits, and otherwise at least half of what would fit.
   */
  function SafeDelay(headroom: nat, duration: nat): (r: nat)
    ensures r <= headroom && r <= duration
    ensures duration <= headroom ==> r == duration
    ensures duration > headroom ==> r >= (headroom + 1) / 2
  {
    if duration <= headroom then duration else SafeDelay(headroom, duration / 2)
  }

  /** `checked_add_fraction`: the loop over `Instant::checked_add`. */
  method CheckedAddFraction(headroom: nat, requested: nat) returns (duration: nat)
    ensures duration == SafeDelay(headroom, requested)
  {
    duration := requested;
    while !(duration <= headroom)
      invariant SafeDelay(headroom, duration) == SafeDelay(headroom, requested)
      decreases duration
    {
      duration := duration / 2;
    }
  }

  /** A duration after k halvings, each rounding down. */
  function Halved(duration: nat, k: nat): nat {
    if k == 0 then duration else Halved(duration / 2, k - 1)
  }

  /** It is halved as often as it takes, and no more often. */
  lemma {:induction false} HalvesUntilItFits(headroom: nat, duration: nat) returns (k: nat)
    ensures SafeDelay(headroom, duration) == Halved(duration, k) <= headroom
    ensures forall j :: 0 <= j < k ==> Halved(duration, j) > headroom
    decreases duration
  {
    if duration <= headroom {
      k := 0;
    } else {
      var rest := HalvesUntilItFits(headroom, duration / 2);
      k := rest + 1;
      forall j | 0 <= j < k ensures Halved(duration, j) > headroom {
        assert j > 0 ==> Halved(duration, j) == Halved(duration / 2, j - 1);
      }
    }
  }

  /** `compute_new_shutdown`; `None` leaves the current plan, and a running timer, alone. */
  function ComputeNewShutdown(keepAlive: bool, current: Shutdown, idleTimeout: nat, now: nat, headroom: nat)
    : Option<Shutdown>
  {
    if keepAlive then Some(NotPlanned)
    else if idleTimeout == 0 then Some(Asap)
    else if current.Later? then None
    else Some(Later(Delay(now, SafeDelay(headroom, idleTimeout))))
  }
}
