/**
 The swarm's event loop (swarm/src/lib.rs, `poll_next_event`): a queue of events for the user, one slot
 for an event on its way from the behaviour to a connection handler, and three sources polled in a
 fixed order. The behaviour is not polled while the slot is taken.

 The connection pool is taken at its contract: it says which connections are established, and for
 each whether its command channel is full, closing, or has room, and whether a command sent into
 that room was still accepted. Answers of one iteration come as one `Answer`; a run is a sequence of
 them, across any number of calls of `poll_next_event`.
 */
module SwarmModel {
  import opened Common
  import opened ListenAddresses

  /** `poll_ready_notify_handler`, and for a ready connection what `notify_handler` then says. */
  datatype Readiness = Full | Closing | Ready(accepts: bool)

  datatype Target = One(connection: nat) | Any(connections: seq<nat>)

  /** The connections an event may be delivered to. */
  function Ids(target: Target): set<nat> {
    match target
    case One(c) => {c}
    case Any(ids) => Elements(ids)
  }

  /** An event the behaviour addressed to handlers, with the connections there were at the time. */
  datatype Emission = Emission(peer: nat, target: Target, event: nat, established: map<nat, nat>)

  datatype Fate = DeliveredTo(connection: nat) | Lost

  datatype Settled = Settled(serial: nat, event: nat, fate: Fate)

  /** `pending_handler_event`. The serial number is that of its emission. */
  datatype Pending = Pending(serial: nat, peer: nat, target: Target, event: nat)

  /** `unavailable` holds the emissions and connections that were found not to go together any more. */
  datatype State = State(
    slot: Option<Pending>,
    established: map<nat, nat>,
    listening: Listening, popped: nat,
    emitted: seq<Emission>, settled: seq<Settled>, unavailable: set<(nat, nat)>)

  datatype BehaviourPoll =
    | BehaviourPending
    | NotifyHandler(peer: nat, target: Target, event: nat)
    | OtherBehaviourEvent(events: nat)

  datatype PoolPoll =
    | PoolPending
    | ConnectionEstablished(connection: nat, peer: nat)
    | ConnectionClosed(connection: nat)
    | OtherPoolEvent(events: nat)

  datatype Answer = Answer(
    readiness: nat -> Readiness,
    behaviour: BehaviourPoll,
    pool: PoolPoll,
    transport: Option<TransportEvent>)

  datatype Control = Continue | Return(event: Option<SwarmEvent>) | AssertionFailed

  const START := State(None, map[], IDLE, 0, [], [], {})

  /** What the pool promises about `iter_established_connections_of_peer`: each connection once. */
  ghost predicate Legal(s: State, a: Answer) {
    a.behaviour.NotifyHandler? && a.behaviour.target.Any? ==>
      && NoDuplicates(a.behaviour.target.connections)
      && forall c :: c in a.behaviour.target.connections <==> c in s.established && s.established[c] == a.behaviour.peer
  }

  // ----- notifying -----

  predicate Takes(c: nat, established: map<nat, nat>, readiness: nat -> Readiness) {
    c in established && readiness(c) == Ready(true)
  }

  predicate Waits(c: nat, established: map<nat, nat>, readiness: nat -> Readiness) {
    c in established && readiness(c) == Full
  }

  /** The first of the connections that takes the event. */
  function Taker(ids: seq<nat>, established: map<nat, nat>, readiness: nat -> Readiness): (c: Option<nat>)
    ensures c.Some? ==> c.value in ids && Takes(c.value, established, readiness)
    ensures c.None? ==> forall i :: i in ids ==> !Takes(i, established, readiness)
  {
    if ids == [] then None
    else if Takes(ids[0], established, readiness) then Some(ids[0])
    else Taker(ids[1..], established, readiness)
  }

  /** The connections that may still become ready, in order. */
  function Waiters(ids: seq<nat>, established: map<nat, nat>, readiness: nat -> Readiness): (r: seq<nat>)
    ensures forall c :: c in r <==> c in ids && Waits(c, established, readiness)
  {
    if ids == [] then []
    else (if Waits(ids[0], established, readiness) then [ids[0]] else []) + Waiters(ids[1..], established, readiness)
  }

  datatype Notified = Gone(fate: Fate) | Kept(target: Target)

  /** `notify_one` and `notify_any`: what becomes of an event that is tried on its target. */
  function Notify(target: Target, established: map<nat, nat>, readiness: nat -> Readiness): Notified {
    match target
    case One(c) =>
      if Takes(c, established, readiness) then Gone(DeliveredTo(c))
      else if Waits(c, established, readiness) then Kept(target)
      else Gone(Lost)
    case Any(ids) =>
      match Taker(ids, established, readiness)
      case Some(c) => Gone(DeliveredTo(c))
      case None =>
        var waiters := Waiters(ids, established, readiness);
        if waiters == [] then Gone(Lost) else Kept(Any(waiters))
  }

  /** An event that is not delivered can no longer go to those that neither take it nor wait. */
  ghost function Dismissed(p: Pending, established: map<nat, nat>, readiness: nat -> Readiness): set<(nat, nat)> {
    match Notify(p.target, established, readiness)
    case Gone(DeliveredTo(_)) => {}
    case _ =>
      set c | c in Ids(p.target) && !Takes(c, established, readiness) && !Waits(c, established, readiness) ::
        (p.serial, c)
  }

  // ----- the loop -----

  function Push(s: State, n: nat): State {
    s.(listening := s.listening.(events := s.listening.events + seq(n, i => UserOther)))
  }

  /** `handle_behaviour_event`, with its assertion that the slot is free. */
  function OnBehaviourEvent(s: State, e: BehaviourPoll): (State, Control) {
    match e
    case BehaviourPending => (s, Continue)
    case OtherBehaviourEvent(n) => (Push(s, n), Continue)
    case NotifyHandler(peer, target, event) =>
      if s.slot.Some? then (s, AssertionFailed)
      else (s.(slot := Some(Pending(|s.emitted|, peer, target, event)),
               emitted := s.emitted + [Emission(peer, target, event, s.established)]),
            Continue)
  }

  /** The slot first; only with the slot free is the behaviour polled. None goes on to the pool. */
  ghost function NotifyStage(s: State, a: Answer): (State, Option<Control>) {
    match s.slot
    case Some(p) =>
      var unavailable := s.unavailable + Dismissed(p, s.established, a.readiness);
      (match Notify(p.target, s.established, a.readiness)
       case Gone(fate) =>
         (s.(slot := None, settled := s.settled + [Settled(p.serial, p.event, fate)], unavailable := unavailable),
             Some(Continue))
       case Kept(target) => (s.(slot := Some(p.(target := target)), unavailable := unavailable), None))
    case None =>
      if a.behaviour.BehaviourPending? then (s, None)
      else
        var (s', control) := OnBehaviourEvent(s, a.behaviour);
        (s', Some(control))
  }

  function PoolStage(s: State, a: Answer): (State, Option<Control>) {
    match a.pool
    case PoolPending => (s, None)
    case ConnectionEstablished(c, peer) => (Push(s.(established := s.established[c := peer]), 1), Some(Continue))
    case ConnectionClosed(c) => (Push(s.(established := s.established - {c}), 1), Some(Continue))
    case OtherPoolEvent(n) => (Push(s, n), Some(Continue))
  }

  function TransportStage(s: State, a: Answer): (State, Control) {
    match a.transport
    case None => (s, Return(None))
    case Some(e) => (s.(listening := ListenAddresses.OnTransportEvent(s.listening, e)), Continue)
  }

  ghost function Iterate(s: State, a: Answer): (State, Control) {
    if s.popped < |s.listening.events| then
      (s.(popped := s.popped + 1), Return(Some(s.listening.events[s.popped])))
    else
      var r1 := NotifyStage(s, a);
      if r1.1.Some? then (r1.0, r1.1.value) else
      var r2 := PoolStage(r1.0, a);
      if r2.1.Some? then (r2.0, r2.1.value) else
      TransportStage(r2.0, a)
  }

  ghost function Run(s: State, answers: seq<Answer>): State
    decreases |answers|
  {
    if answers == [] then s else Run(Iterate(s, answers[0]).0, answers[1..])
  }

  lemma {:induction false} RunAppend(s: State, answers: seq<Answer>, a: Answer)
    ensures Run(s, answers + [a]) == Iterate(Run(s, answers), a).0
    decreases |answers|
  {
    hide Iterate;
    if answers == [] {
      assert (answers + [a])[1..] == [];
    } else {
      assert (answers + [a])[1..] == answers[1..] + [a];
      RunAppend(Iterate(s, answers[0]).0, answers[1..], a);
    }
  }

  ghost predicate LegalRun(s: State, answers: seq<Answer>)
    decreases |answers|
  {
    answers == [] || (Legal(s, answers[0]) && LegalRun(Iterate(s, answers[0]).0, answers[1..]))
  }

  // ----- what holds over every run -----

  ghost predicate EmissionOk(e: Emission) {
    e.target.Any? ==> forall c :: c in Ids(e.target) <==> c in e.established && e.established[c] == e.peer
  }

  ghost predicate SettledOk(s: State, i: nat)
    requires i < |s.settled|
  {
    && i < |s.emitted|
    && s.settled[i].serial == i
    && s.settled[i].event == s.emitted[i].event
    && (s.settled[i].fate.DeliveredTo? ==> s.settled[i].fate.connection in Ids(s.emitted[i].target))
    && (s.settled[i].fate.Lost? ==> forall c :: c in Ids(s.emitted[i].target) ==> (i, c) in s.unavailable)
  }

  /** Emissions are settled one by one in order; only the last can be in the slot. */
  ghost predicate Inv(s: State) {
    && |s.emitted| == |s.settled| + (if s.slot.Some? then 1 else 0)
    && (forall i :: 0 <= i < |s.settled| ==> SettledOk(s, i))
    && (forall i :: 0 <= i < |s.emitted| ==> EmissionOk(s.emitted[i]))
    && (s.slot.Some? ==>
          var p, e := s.slot.value, s.emitted[|s.settled|];
          && p.serial == |s.settled| && p.event == e.event && p.target.One? == e.target.One?
          && Ids(p.target) <= Ids(e.target)
          && forall c :: c in Ids(e.target) ==> c in Ids(p.target) || (p.serial, c) in s.unavailable)
    && s.popped <= |s.listening.events|
  }

  /**
   Nothing is lost that could still go: trying an event either gives it to an established connection
   of its target that takes it, or keeps it for exactly those that are full at the moment, or, when
   there are neither, drops it. A list is not lost by being kept: who is dropped from it could
   neither take the event nor wait.
   */
  lemma NotifyLosesNothing(target: Target, established: map<nat, nat>, readiness: nat -> Readiness)
    ensures match Notify(target, established, readiness)
            case Gone(DeliveredTo(c)) => c in Ids(target) && Takes(c, established, readiness)
            case Gone(Lost) =>
              forall c :: c in Ids(target) ==> !Takes(c, established, readiness) && !Waits(c, established, readiness)
            case Kept(target') =>
              && (forall c :: c in Ids(target) ==> !Takes(c, established, readiness))
              && (forall c :: c in Ids(target') <==> c in Ids(target) && Waits(c, established, readiness))
              && Ids(target') != {}
  {
    if target.Any? && Taker(target.connections, established, readiness).None? {
      var waiters := Waiters(target.connections, established, readiness);
      if waiters != [] {
        assert waiters[0] in Elements(waiters);
      } else {
        forall c | c in target.connections ensures !Waits(c, established, readiness) {
          assert c !in waiters;
        }
      }
    }
  }

  lemma NotifyInv(s: State, a: Answer)
    requires Inv(s) && Legal(s, a)
    ensures Inv(NotifyStage(s, a).0)
    ensures NotifyStage(s, a).1 in {None, Some(Continue)}
  {
    var t := NotifyStage(s, a).0;
    if s.slot.Some? {
      NotifyLosesNothing(s.slot.value.target, s.established, a.readiness);
    }
    hide Notify;
    forall i | 0 <= i < |t.settled| ensures SettledOk(t, i) {
      if i < |s.settled| {
        assert SettledOk(s, i);
      }
    }
    forall i | 0 <= i < |t.emitted| ensures EmissionOk(t.emitted[i]) {
      if i < |s.emitted| {
        assert EmissionOk(s.emitted[i]);
      }
    }
  }

  lemma QuietInv(s: State, t: State)
    requires Inv(s)
    requires t.slot == s.slot && t.emitted == s.emitted && t.settled == s.settled && t.unavailable == s.unavailable
    requires s.popped == t.popped && |t.listening.events| >= |s.listening.events|
    ensures Inv(t)
  {
    forall i | 0 <= i < |t.settled| ensures SettledOk(t, i) {
      assert SettledOk(s, i);
    }
  }

  lemma IterateInv(s: State, a: Answer)
    requires Inv(s) && Legal(s, a)
    ensures Inv(Iterate(s, a).0) && Iterate(s, a).1 != AssertionFailed
  {
    if s.popped < |s.listening.events| {
      var t := Iterate(s, a).0;
      forall i | 0 <= i < |t.settled| ensures SettledOk(t, i) {
        assert SettledOk(s, i);
      }
    } else {
      NotifyInv(s, a);
      var r1 := NotifyStage(s, a);
      if r1.1.None? {
        var r2 := PoolStage(r1.0, a);
        QuietInv(r1.0, r2.0);
        if r2.1.None? {
          QuietInv(r2.0, TransportStage(r2.0, a).0);
        }
      }
    }
  }

  lemma {:induction false} RunInv(s: State, answers: seq<Answer>)
    requires Inv(s) && LegalRun(s, answers)
    ensures Inv(Run(s, answers))
    decreases |answers|
  {
    hide Inv, Iterate, Legal;
    if answers == [] {
    } else {
      IterateInv(s, answers[0]);
      RunInv(Iterate(s, answers[0]).0, answers[1..]);
    }
  }

  /** The assertion that the slot is free holds from any state: the behaviour is only polled when it is. */
  lemma SlotAssertionNeverFires(s: State, a: Answer)
    ensures Iterate(s, a).1 != AssertionFailed
  {
  }
}
