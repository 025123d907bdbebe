/**
 `Swarm` as the object it is (swarm/src/lib.rs): the slot, the pool's view of connections, the listen
 addresses and the event queue as fields, `notify_any` with its loop, and `poll_next_event`. Each
 method is proved to do what `SwarmModel` says.
 */
module Swarm {
  import opened Common
  import opened ListenAddresses
  import opened SwarmModel
  import Dialing

  /**
   `notify_one`: an event comes back only if the connection is full.
   */
  method NotifyOne(c: nat, established: map<nat, nat>, readiness: nat -> Readiness, event: nat)
    returns (delivered: bool, left: Option<nat>)
    requires c in established
    ensures delivered <==> Notify(One(c), established, readiness) == Gone(DeliveredTo(c))
    ensures left == if Notify(One(c), established, readiness) == Kept(One(c)) then Some(event) else None
  {
    match readiness(c) {
      case Full => return false, Some(event);
      case Closing => return false, None;
      case Ready(accepts) => return accepts, None;
    }
  }

  lemma OneMore(ids: seq<nat>, established: map<nat, nat>, readiness: nat -> Readiness)
    requires ids != []
    ensures Taker(ids, established, readiness) ==
            if Takes(ids[0], established, readiness) then Some(ids[0]) else Taker(ids[1..], established, readiness)
    ensures Waiters(ids, established, readiness) ==
            (if Waits(ids[0], established, readiness) then [ids[0]] else []) + Waiters(ids[1..], established, readiness)
  {
  }

  lemma NoMore(established: map<nat, nat>, readiness: nat -> Readiness)
    ensures Taker([], established, readiness) == None && Waiters([], established, readiness) == []
  {
  }

  /**
   `notify_any`. The event is taken out of its Option before each attempt and put back when the
   attempt fails, so it is always there to be taken: the `expect` cannot fail.
   */
  method NotifyAny(ids: seq<nat>, established: map<nat, nat>, readiness: nat -> Readiness, event: nat)
    returns (delivered: Option<nat>, left: Option<(nat, seq<nat>)>)
    ensures delivered == Taker(ids, established, readiness)
    ensures left == (var waiters := Waiters(ids, established, readiness);
                     if delivered.Some? || waiters == [] then None else Some((event, waiters)))
  {
    hide Taker, Waiters;
    var pending: seq<nat> := [];
    var held: Option<nat> := Some(event);
    delivered := None;
    var i := 0;
    while i < |ids|
      invariant 0 <= i <= |ids|
      invariant held == Some(event) && delivered.None?
      invariant Taker(ids, established, readiness) == Taker(ids[i..], established, readiness)
      invariant Waiters(ids, established, readiness) == pending + Waiters(ids[i..], established, readiness)
    {
      var c := ids[i];
      OneMore(ids[i..], established, readiness);
      assert ids[i..][1..] == ids[i + 1..];
      if c in established {
        match readiness(c) {
          case Full => pending := pending + [c];
          case Closing =>
          case Ready(accepts) =>
            assert held.Some?;
            var e := held.value;
            held := None;
            if accepts {
              delivered := Some(c);
              break;
            }
            held := Some(e);
        }
      }
      i := i + 1;
    }
    assert delivered.None? ==> ids[i..] == [];
    NoMore(established, readiness);
    assert delivered.None? ==> Waiters(ids, established, readiness) == pending + [] == pending;
    left := if held.Some? && pending != [] then Some((held.value, pending)) else None;
  }

  class Swarm {
    var pendingHandlerEvent: Option<Pending>
    var established: map<nat, nat>
    var listenedAddrs: map<nat, seq<Address>>
    var told: seq<FromSwarm>
    var swarmEvents: seq<SwarmEvent>
    var popped: nat
    var emitted: seq<Emission>
    var settled: seq<Settled>
    ghost var unavailable: set<(nat, nat)>
    var dialFailures: seq<Dialing.DialFailure>
    var outgoing: seq<Dialing.Outgoing>

    ghost function View(): State
      reads this
    {
      State(pendingHandlerEvent, established, Listening(listenedAddrs, told, swarmEvents), popped, emitted, settled,
          unavailable)
    }

    constructor ()
      ensures View() == START && SwarmModel.Inv(View())
    {
      pendingHandlerEvent, established, listenedAddrs := None, map[], map[];
      told, swarmEvents, popped, emitted, settled := [], [], 0, [], [];
      dialFailures, outgoing, unavailable := [], [], {};
    }

    method PushEvents(n: nat)
      modifies this`swarmEvents
      ensures View() == Push(old(View()), n)
    {
      swarmEvents := swarmEvents + seq(n, i => UserOther);
    }

    /** The slot taken out, tried, and put back if the event has to wait; else the behaviour's turn. */
    method Deliver(a: Answer) returns (control: Option<Control>)
      modifies this`pendingHandlerEvent, this`settled, this`emitted, this`swarmEvents, this`unavailable
      ensures (View(), control) == NotifyStage(old(View()), a)
    {
      var taken := pendingHandlerEvent;
      pendingHandlerEvent := None;
      match taken {
        case Some(p) =>
          unavailable := unavailable + Dismissed(p, established, a.readiness);
          match p.target {
            case One(c) =>
              var delivered, left := false, None;
              if c in established {
                delivered, left := NotifyOne(c, established, a.readiness, p.event);
              }
              if left.Some? {
                pendingHandlerEvent := Some(p);
                return None;
              }
              settled := settled + [Settled(p.serial, p.event, if delivered then DeliveredTo(c) else Lost)];
              return Some(Continue);
            case Any(ids) =>
              var delivered, left := NotifyAny(ids, established, a.readiness, p.event);
              if left.Some? {
                pendingHandlerEvent := Some(p.(target := Any(left.value.1)));
                return None;
              }
              settled := settled + [Settled(p.serial, p.event, if delivered.Some? then DeliveredTo(delivered.value)
                  else Lost)];
              return Some(Continue);
          }
        case None =>
          match a.behaviour {
            case BehaviourPending => return None;
            case OtherBehaviourEvent(n) => PushEvents(n);
            case NotifyHandler(peer, target, event) =>
              assert pendingHandlerEvent.None?;
              pendingHandlerEvent := Some(Pending(|emitted|, peer, target, event));
              emitted := emitted + [Emission(peer, target, event, established)];
          }
          return Some(Continue);
      }
    }

    /** `handle_pool_event`, as far as connections come and go. */
    method PollPool(a: Answer) returns (control: Option<Control>)
      modifies this`established, this`swarmEvents
      ensures (View(), control) == PoolStage(old(View()), a)
    {
      match a.pool {
        case PoolPending => return None;
        case ConnectionEstablished(c, peer) =>
          established := established[c := peer];
          PushEvents(1);
        case ConnectionClosed(c) =>
          established := established - {c};
          PushEvents(1);
        case OtherPoolEvent(n) => PushEvents(n);
      }
      return Some(Continue);
    }

    /** `handle_transport_event`. */
    method HandleTransportEvent(e: TransportEvent)
      modifies this`listenedAddrs, this`told, this`swarmEvents
      ensures View() == old(View()).(listening := ListenAddresses.OnTransportEvent(old(View()).listening, e))
    {
      match e {
        case Incoming =>
          swarmEvents := swarmEvents + [UserIncoming];
        case NewAddress(l, a) =>
          var addrs := if l in listenedAddrs then listenedAddrs[l] else [];
          if a !in addrs {
            addrs := addrs + [a];
          }
          listenedAddrs := listenedAddrs[l := addrs];
          told := told + [NewListenAddr(l, a)];
          swarmEvents := swarmEvents + [UserNewListenAddr(l, a)];
        case AddressExpired(l, a) =>
          if l in listenedAddrs {
            listenedAddrs := listenedAddrs[l := Retain(listenedAddrs[l], a)];
          }
          told := told + [ExpiredListenAddr(l, a)];
          swarmEvents := swarmEvents + [UserExpiredListenAddr(l, a)];
        case ListenerClosed(l) =>
          var addrs := if l in listenedAddrs then listenedAddrs[l] else [];
          listenedAddrs := listenedAddrs - {l};
          for i := 0 to |addrs|
            modifies this`told
            invariant told == old(told) + Expiries(l, addrs)[..i]
          {
            assert Expiries(l, addrs)[..i + 1] == Expiries(l, addrs)[..i] + [ExpiredListenAddr(l, addrs[i])];
            told := told + [ExpiredListenAddr(l, addrs[i])];
          }
          assert Expiries(l, addrs)[..|addrs|] == Expiries(l, addrs);
          told := told + [ClosedListener(l)];
          swarmEvents := swarmEvents + [UserListenerClosed(l, addrs)];
        case ListenerError(l) =>
          told := told + [FailedListener(l)];
          swarmEvents := swarmEvents + [UserListenerError(l)];
      }
    }

    /** Every address of every listener. */
    function OwnAddresses(): (own: set<Address>)
      reads this
      ensures forall l, a :: l in listenedAddrs && a in listenedAddrs[l] ==> a in own
      ensures forall a :: a in own ==> exists l :: l in listenedAddrs && a in listenedAddrs[l]
    {
      set l, a | l in listenedAddrs && a in listenedAddrs[l] :: a
    }

    /**
     `dial` on the swarm's own state: one failure or one attempt more, never both. The candidates that
     a listener listens on are dropped, each other is kept once; an attempt is at an address a
     listener listens on exactly if a kept one becomes such by having the peer appended.
     */
    method Dial(opts: Dialing.DialOpts, dialing: set<nat>, behaviour: Option<seq<Address>>)
      returns (result: Option<Dialing.DialError>)
      modifies this`dialFailures, this`outgoing
      ensures result == Some(Dialing.DialPeerConditionFalse(opts.condition)) <==>
                exists p :: && Dialing.PeerOf(opts) == Some(p)
                            && ((&& p in established.Values
                                 && opts.condition in {Dialing.Disconnected, Dialing.DisconnectedAndNotDialing})
                                || (&& p in dialing
                                    && opts.condition in {Dialing.NotDialing, Dialing.DisconnectedAndNotDialing}))
      ensures result.Some? && result.value.DialPeerConditionFalse? ==> result.value.condition == opts.condition
      ensures result == Some(Dialing.Denied) <==>
                behaviour.None? && result != Some(Dialing.DialPeerConditionFalse(opts.condition))
      ensures result == Some(Dialing.NoAddresses) <==>
                && behaviour.Some? && result != Some(Dialing.DialPeerConditionFalse(opts.condition))
                && forall a :: a in opts.addresses || (opts.extend && a in behaviour.value) ==> a in OwnAddresses()
      ensures result.Some? ==>
                && dialFailures == old(dialFailures) +
                    [Dialing.DialFailure(Dialing.PeerOf(opts), result.value, opts.connection)]
                && outgoing == old(outgoing)
      ensures result.None? ==>
                && dialFailures == old(dialFailures) && behaviour.Some?
                && var kept := Dialing.Retained(Dialing.Candidates(opts, behaviour.value), OwnAddresses());
                   && outgoing == old(outgoing) + [Dialing.Outgoing(Dialing.Attempts(kept, Dialing.PeerOf(opts)),
                       Dialing.PeerOf(opts), opts.connection)]
                   && kept != [] && NoDuplicates(kept)
                   && (forall l, a :: l in listenedAddrs && a in listenedAddrs[l] ==> a !in kept)
                   && var attempts := outgoing[|outgoing| - 1].attempts;
                      (exists i :: 0 <= i < |attempts| && attempts[i].Dialed?
                          && attempts[i].address in OwnAddresses()) <==>
                      (Dialing.PeerOf(opts).Some? &&
                       exists a :: Dialing.Grows(Dialing.Candidates(opts, behaviour.value), OwnAddresses(), a) &&
                                   a + [P2p(Dialing.PeerOf(opts).value)] in OwnAddresses())
    {
      var failures, attempts;
      result, failures, attempts := Dialing.Dial(opts, established.Values, dialing, OwnAddresses(), behaviour);
      dialFailures := dialFailures + failures;
      outgoing := outgoing + attempts;
      if result.None? {
        Dialing.RetainedIsFirstOccurrences(Dialing.Candidates(opts, behaviour.value), OwnAddresses());
        Dialing.AttemptsOwnAddress(opts, behaviour.value, OwnAddresses());
      }
    }

    method Turn(a: Answer) returns (control: Control)
      modifies this
      ensures (View(), control) == Iterate(old(View()), a)
    {
      hide NotifyStage, PoolStage, ListenAddresses.OnTransportEvent;
      if popped < |swarmEvents| {
        popped := popped + 1;
        return Return(Some(swarmEvents[popped - 1]));
      }
      var c := Deliver(a);
      if c.Some? { return c.value; }
      c := PollPool(a);
      if c.Some? { return c.value; }
      if a.transport.None? { return Return(None); }
      HandleTransportEvent(a.transport.value);
      return Continue;
    }

    /** `poll_next_event`: to the first iteration that returns, or through all the answers there are. */
    method PollNextEvent(answers: seq<Answer>) returns (result: Option<Option<SwarmEvent>>, turns: nat)
      requires SwarmModel.Inv(View()) && LegalRun(View(), answers)
      modifies this
      ensures SwarmModel.Inv(View())
      ensures turns <= |answers| && View() == SwarmModel.Run(old(View()), answers[..turns])
      ensures result.None? ==> turns == |answers|
      ensures result.Some? ==>
                turns > 0 && Iterate(SwarmModel.Run(old(View()), answers[..turns - 1]), answers[turns - 1]).1 ==
                    Return(result.value)
      ensures forall k :: 0 <= k < turns - (if result.Some? then 1 else 0) ==>
                Iterate(SwarmModel.Run(old(View()), answers[..k]), answers[k]).1 == Continue
    {
      hide SwarmModel.Inv, Iterate, Legal;
      turns := 0;
      while turns < |answers|
        invariant 0 <= turns <= |answers|
        invariant SwarmModel.Inv(View()) && View() == SwarmModel.Run(old(View()), answers[..turns])
        invariant LegalRun(View(), answers[turns..])
        invariant forall k :: 0 <= k < turns ==>
                  Iterate(SwarmModel.Run(old(View()), answers[..k]), answers[k]).1 == Continue
      {
        SwarmModel.RunAppend(old(View()), answers[..turns], answers[turns]);
        assert answers[..turns + 1] == answers[..turns] + [answers[turns]];
        assert answers[turns..][1..] == answers[turns + 1..];
        IterateInv(View(), answers[turns]);
        var control := Turn(answers[turns]);
        turns := turns + 1;
        match control {
          case Continue =>
          case Return(e) => return Some(e), turns;
        }
      }
      result := None;
    }
  }
}
