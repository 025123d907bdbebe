/**
 The swarm's promises traced back over the run to the answers that made them true: what the user was
 handed, what the behaviour emitted, which connection took an event, and who turned it down.
 */
module SwarmOrigins {
  import opened Common
  import opened ListenAddresses
  import opened SwarmModel
  import opened SwarmTrace

  ghost function After(answers: seq<Answer>): State {
    SwarmModel.Run(START, answers)
  }

  // ----- what one iteration does -----

  ghost function ReturnedBy(s: State, a: Answer): seq<SwarmEvent> {
    match Iterate(s, a).1
    case Return(Some(e)) => [e]
    case _ => []
  }

  /** Queued events stay in order, and the first that was not handed out yet is handed out. */
  lemma IterateEvents(s: State, a: Answer)
    requires s.popped <= |s.listening.events|
    ensures var t := Iterate(s, a).0;
            && t.popped <= |t.listening.events| && |s.listening.events| <= |t.listening.events|
            && t.listening.events[..|s.listening.events|] == s.listening.events
            && t.listening.events[..t.popped] == s.listening.events[..s.popped] + ReturnedBy(s, a)
  {
    hide Notify, Dismissed;
  }

  /** An event is settled as delivered to a connection that took it. */
  lemma IterateSettles(s: State, a: Answer)
    ensures var t := Iterate(s, a).0;
            || t.settled == s.settled
            || (&& |t.settled| == |s.settled| + 1 && t.settled[..|s.settled|] == s.settled
                && var x := t.settled[|s.settled|];
                   x.fate.DeliveredTo? ==> TakesIt(s, a, x.serial, x.fate.connection))
  {
    hide Dismissed, ListenAddresses.OnTransportEvent;
    if s.slot.Some? {
      NotifyLosesNothing(s.slot.value.target, s.established, a.readiness);
    }
    hide Notify;
  }

  lemma IterateDismisses(s: State, a: Answer, i: nat, c: nat)
    requires (i, c) in Iterate(s, a).0.unavailable && (i, c) !in s.unavailable
    ensures TurnsItDown(s, a, i, c)
  {
    hide Notify, ListenAddresses.OnTransportEvent;
  }

  // ----- over whole runs -----

  /** What the user got from `poll_next_event`. */
  ghost function EventsReturned(answers: seq<Answer>): seq<SwarmEvent>
    decreases |answers|
  {
    if answers == [] then []
    else
      var init, last := answers[..|answers| - 1], answers[|answers| - 1];
      EventsReturned(init) + ReturnedBy(After(init), last)
  }

  /** What the behaviour emitted for handlers. */
  ghost function EventsEmitted(answers: seq<Answer>): seq<Emission>
    decreases |answers|
  {
    if answers == [] then []
    else
      var init, last := answers[..|answers| - 1], answers[|answers| - 1];
      EventsEmitted(init) + EmittedBy(After(init), last)
  }

  ghost predicate WasTaken(answers: seq<Answer>, i: nat, c: nat) {
    exists k :: 0 <= k < |answers| && TakesIt(After(answers[..k]), answers[k], i, c)
  }

  ghost predicate WasTurnedDown(answers: seq<Answer>, i: nat, c: nat) {
    exists k :: 0 <= k < |answers| && TurnsItDown(After(answers[..k]), answers[k], i, c)
  }

  lemma LastStep(answers: seq<Answer>)
    requires answers != []
    ensures After(answers) == Iterate(After(answers[..|answers| - 1]), answers[|answers| - 1]).0
  {
    hide Iterate;
    var init, last := answers[..|answers| - 1], answers[|answers| - 1];
    assert answers == init + [last];
    SwarmModel.RunAppend(START, init, last);
  }

  lemma Longer(answers: seq<Answer>, i: nat, c: nat)
    requires answers != []
    ensures var init, last := answers[..|answers| - 1], answers[|answers| - 1];
            && (WasTaken(init, i, c) || TakesIt(After(init), last, i, c) ==> WasTaken(answers, i, c))
            && (WasTurnedDown(init, i, c) || TurnsItDown(After(init), last, i, c) ==> WasTurnedDown(answers, i, c))
  {
    hide After, TakesIt, TurnsItDown;
    var init := answers[..|answers| - 1];
    assert answers[..|init|] == init;
    assert forall k :: 0 <= k < |init| ==> init[..k] == answers[..k] && init[k] == answers[k];
    if k :| 0 <= k < |init| && TakesIt(After(init[..k]), init[k], i, c) {
      assert TakesIt(After(answers[..k]), answers[k], i, c);
    }
    if k :| 0 <= k < |init| && TurnsItDown(After(init[..k]), init[k], i, c) {
      assert TurnsItDown(After(answers[..k]), answers[k], i, c);
    }
  }

  /** The user is handed the queued events in order, each once. */
  lemma {:induction false} ReturnedInOrder(answers: seq<Answer>)
    ensures var s := After(answers);
            s.popped <= |s.listening.events| && EventsReturned(answers) == s.listening.events[..s.popped]
    decreases |answers|
  {
    if answers == [] {
    } else {
      hide After, Iterate, ReturnedBy;
      var init, last := answers[..|answers| - 1], answers[|answers| - 1];
      ReturnedInOrder(init);
      LastStep(answers);
      IterateEvents(After(init), last);
    }
  }

  lemma {:induction false} EmittedInOrder(answers: seq<Answer>)
    ensures After(answers).emitted == EventsEmitted(answers)
    decreases |answers|
  {
    if answers == [] {
    } else {
      hide After, Iterate, SlotTraced, ListeningAfter, ConnectedAfter, Outcome;
      EmittedInOrder(answers[..|answers| - 1]);
      LastStep(answers);
      IterateTrace(After(answers[..|answers| - 1]), answers[|answers| - 1]);
    }
  }

  lemma {:induction false} DeliveriesWereTaken(answers: seq<Answer>, k: nat)
    requires k < |After(answers).settled| && After(answers).settled[k].fate.DeliveredTo?
    ensures var x := After(answers).settled[k]; WasTaken(answers, x.serial, x.fate.connection)
    decreases |answers|
  {
    if answers == [] {
    } else {
      hide After, Iterate, WasTaken, WasTurnedDown, TakesIt, TurnsItDown;
      var init, last := answers[..|answers| - 1], answers[|answers| - 1];
      var before, after := After(init).settled, After(answers).settled;
      LastStep(answers);
      IterateSettles(After(init), last);
      Longer(answers, after[k].serial, after[k].fate.connection);
      if k < |before| {
        assert after[k] == before[k] by { assert after[..|before|][k] == after[k]; }
        DeliveriesWereTaken(init, k);
      }
    }
  }

  lemma {:induction false} UnavailableTurnedItDown(answers: seq<Answer>, i: nat, c: nat)
    requires (i, c) in After(answers).unavailable
    ensures WasTurnedDown(answers, i, c)
    decreases |answers|
  {
    if answers == [] {
    } else {
      hide After, Iterate, WasTaken, WasTurnedDown, TakesIt, TurnsItDown;
      var init, last := answers[..|answers| - 1], answers[|answers| - 1];
      LastStep(answers);
      Longer(answers, i, c);
      if (i, c) in After(init).unavailable {
        UnavailableTurnedItDown(init, i, c);
      } else {
        IterateDismisses(After(init), last, i, c);
      }
    }
  }

  lemma AfterInv(answers: seq<Answer>)
    requires LegalRun(START, answers)
    ensures SwarmModel.Inv(After(answers))
  {
    SwarmModel.RunInv(START, answers);
  }

  lemma {:induction false} LegalInit(s: State, answers: seq<Answer>)
    requires answers != [] && LegalRun(s, answers)
    ensures LegalRun(s, answers[..|answers| - 1])
    decreases |answers|
  {
    if |answers| > 1 {
      hide Iterate, Legal;
      assert answers[..|answers| - 1][1..] == answers[1..][..|answers| - 2];
      LegalInit(Iterate(s, answers[0]).0, answers[1..]);
    }
  }

  /** Settled events stay settled. */
  lemma SettledStays(s: State, a: Answer)
    ensures s.settled <= Iterate(s, a).0.settled
  {
    IterateTrace(s, a);
    hide Iterate, GoesOn, ListeningAfter, ConnectedAfter, Outcome, SomeTake, SomeWait, InOrder, IsFirst;
  }

  /** Once a connection took it, it is delivered at once. */
  lemma TakenIsDelivered(s: State, a: Answer, i: nat, c: nat)
    requires SwarmModel.Inv(s) && TakesIt(s, a, i, c)
    ensures var t := Iterate(s, a).0; i == |s.settled| < |t.settled| && t.settled[i].fate.DeliveredTo?
  {
    IterateTrace(s, a);
    assert SomeTake(s.slot.value, s, a);
    hide Iterate, GoesOn, ListeningAfter, ConnectedAfter, Outcome, InOrder, IsFirst, SettledOk, EmissionOk;
  }

  lemma {:induction false} TakenMeansDelivered(answers: seq<Answer>, i: nat, c: nat)
    requires LegalRun(START, answers) && WasTaken(answers, i, c)
    ensures i < |After(answers).settled| && After(answers).settled[i].fate.DeliveredTo?
    decreases |answers|
  {
    hide After, Iterate, TakesIt, Legal, SwarmModel.Inv;
    var init, last := answers[..|answers| - 1], answers[|answers| - 1];
    var k :| 0 <= k < |answers| && TakesIt(After(answers[..k]), answers[k], i, c);
    LegalInit(START, answers);
    LastStep(answers);
    if k < |init| {
      assert answers[..k] == init[..k];
      assert WasTaken(init, i, c);
      TakenMeansDelivered(init, i, c);
      SettledStays(After(init), last);
    } else {
      AfterInv(init);
      TakenIsDelivered(After(init), last, i, c);
    }
  }

  // ----- connections and listeners over whole runs -----

  /** Whom a connection is to, by what the pool said last about it when it was asked. */
  ghost function ConnectedTo(answers: seq<Answer>, c: nat): Option<nat>
    decreases |answers|
  {
    if answers == [] then None
    else
      var init, last := answers[..|answers| - 1], answers[|answers| - 1];
      if !GoesOn(After(init), last) then ConnectedTo(init, c)
      else
        match last.pool
        case ConnectionEstablished(d, peer) => if d == c then Some(peer) else ConnectedTo(init, c)
        case ConnectionClosed(d) => if d == c then None else ConnectedTo(init, c)
        case _ => ConnectedTo(init, c)
  }

  /** The transport events handled, in order. */
  ghost function Handled(answers: seq<Answer>): seq<TransportEvent>
    decreases |answers|
  {
    if answers == [] then []
    else
      var init, last := answers[..|answers| - 1], answers[|answers| - 1];
      Handled(init) + HandledBy(After(init), last)
  }

  /** How many events about other things were queued. */
  ghost function Others(answers: seq<Answer>): nat
    decreases |answers|
  {
    if answers == [] then 0
    else
      var init, last := answers[..|answers| - 1], answers[|answers| - 1];
      Others(init) + OthersBy(After(init), last)
  }

  /** The events that are about listeners and incoming connections. */
  function OfTransport(events: seq<SwarmEvent>): seq<SwarmEvent> {
    if events == [] then []
    else
      var init, last := events[..|events| - 1], events[|events| - 1];
      OfTransport(init) + if last.UserOther? then [] else [last]
  }

  lemma OfTransportAppend(events: seq<SwarmEvent>, e: SwarmEvent)
    ensures OfTransport(events + [e]) == OfTransport(events) + if e.UserOther? then [] else [e]
  {
    assert (events + [e])[..|events|] == events;
  }

  lemma {:induction false} OthersAppend(events: seq<SwarmEvent>, n: nat)
    ensures OfTransport(events + seq(n, i => UserOther)) == OfTransport(events)
    decreases n
  {
    if n == 0 {
      assert events + seq(n, i => UserOther) == events;
    } else {
      OthersAppend(events, n - 1);
      OfTransportAppend(events + seq(n - 1, i => UserOther), UserOther);
      assert (events + seq(n - 1, i => UserOther)) + [UserOther] == events + seq(n, i => UserOther);
    }
  }

  /** The same listeners and notifications, and the same events but for those about other things. */
  ghost predicate Agrees(s: Listening, l: Listening, others: nat) {
    && s.listened == l.listened && s.told == l.told
    && OfTransport(s.events) == l.events && |s.events| == |l.events| + others
  }

  lemma AgreesHandles(s: Listening, l: Listening, others: nat, e: TransportEvent)
    requires Agrees(s, l, others)
    ensures Agrees(ListenAddresses.OnTransportEvent(s, e), ListenAddresses.OnTransportEvent(l, e), others)
  {
    hide OfTransport;
    var t := ListenAddresses.OnTransportEvent(s, e);
    var u := t.events[|s.events|];
    assert t.events == s.events + [u];
    OfTransportAppend(s.events, u);
  }

  lemma AgreesOthers(s: Listening, l: Listening, others: nat, n: nat)
    requires Agrees(s, l, others)
    ensures Agrees(s.(events := s.events + seq(n, i => UserOther)), l, others + n)
  {
    OthersAppend(s.events, n);
  }

  lemma NoOthers(s: State, a: Answer)
    requires HandledBy(s, a) != []
    ensures OthersBy(s, a) == 0
  {
  }

  lemma {:induction false} LoopAgrees(answers: seq<Answer>)
    ensures Agrees(After(answers).listening, ListenAddresses.Run(IDLE, Handled(answers)), Others(answers))
    decreases |answers|
  {
    if answers == [] {
    } else {
      hide After, Iterate, Agrees, GoesOn, SlotTraced, ConnectedAfter, Outcome, ListenAddresses.OnTransportEvent;
      hide ListenAddresses.Run;
      var init, last := answers[..|answers| - 1], answers[|answers| - 1];
      var s, l := After(init), ListenAddresses.Run(IDLE, Handled(init));
      LoopAgrees(init);
      LastStep(answers);
      IterateTrace(s, last);
      if HandledBy(s, last) != [] {
        ListenAddresses.RunAppend(IDLE, Handled(init), HandledBy(s, last)[0]);
        AgreesHandles(s.listening, l, Others(init), HandledBy(s, last)[0]);
        assert Handled(answers) == Handled(init) + [HandledBy(s, last)[0]];
        NoOthers(s, last);
      } else {
        AgreesOthers(s.listening, l, Others(init), OthersBy(s, last));
        assert Handled(answers) == Handled(init);
      }
    }
  }

  /**
   The loop hands every transport event it handles to the behaviour and to the user, once and in
   order, whatever else it queues in between.
   */
  lemma LoopTellsEverybody(answers: seq<Answer>)
    ensures var s, handled := After(answers).listening, Handled(answers);
            var heard := OfTransport(s.events);
            && ToldInTurn(handled, s.told)
            && |heard| == |handled| && |s.events| == |handled| + Others(answers)
            && forall i :: 0 <= i < |handled| ==> UserHears(handled[..i], handled[i], heard[i])
  {
    LoopAgrees(answers);
    EverybodyIsTold(Handled(answers));
    hide After, Handled, Others, OfTransport, ListenAddresses.Run, ToldInTurn, UserHears;
  }

  /** A connection is on record, and to whom, as the pool last said. */
  lemma {:induction false} ConnectionsFollowThePool(answers: seq<Answer>, c: nat)
    ensures var s := After(answers);
            && (c in s.established <==> ConnectedTo(answers, c).Some?)
            && (c in s.established ==> Some(s.established[c]) == ConnectedTo(answers, c))
    decreases |answers|
  {
    if answers == [] {
    } else {
      hide After, Iterate, GoesOn, SlotTraced, ListeningAfter, Outcome;
      ConnectionsFollowThePool(answers[..|answers| - 1], c);
      LastStep(answers);
      IterateTrace(After(answers[..|answers| - 1]), answers[|answers| - 1]);
    }
  }

  // ----- the properties -----

  /**
   Handler notifications over whole runs. The emissions on record are the behaviour's, in order. They
   are settled strictly in that order, each once, so a connection receives its events in that order.
   A delivered event was taken by the connection it is recorded for, which is the one that was named,
   or one of the named peer's at the time; an event that was taken is delivered. A lost event was, at
   some point each, turned down by every one of these: gone, closing, or refusing. At most the newest
   emission is still on its way.
   */
  lemma NotificationsSettleInOrder(answers: seq<Answer>)
    requires LegalRun(START, answers)
    ensures After(answers).emitted == EventsEmitted(answers)
    ensures var s := After(answers);
            && |s.emitted| == |s.settled| + (if s.slot.Some? then 1 else 0)
            && forall i :: 0 <= i < |s.settled| ==>
                 s.settled[i].serial == i && s.settled[i].event == s.emitted[i].event
    ensures var s := After(answers);
            forall i :: 0 <= i < |s.settled| && s.settled[i].fate.DeliveredTo? ==>
              var e, c := s.emitted[i], s.settled[i].fate.connection;
              && WasTaken(answers, i, c)
              && (e.target.One? ==> c == e.target.connection)
              && (e.target.Any? ==> c in e.established && e.established[c] == e.peer)
    ensures var s := After(answers);
            forall i :: 0 <= i < |s.settled| && s.settled[i].fate.Lost? ==>
              var e := s.emitted[i];
              && (e.target.One? ==> WasTurnedDown(answers, i, e.target.connection))
              && (e.target.Any? ==>
                    forall c :: c in e.established && e.established[c] == e.peer ==> WasTurnedDown(answers, i, c))
    ensures var s := After(answers);
            forall i: nat, c: nat :: WasTaken(answers, i, c) ==> i < |s.settled| && s.settled[i].fate.DeliveredTo?
  {
    var s := After(answers);
    AfterInv(answers);
    EmittedInOrder(answers);
    hide After, WasTaken, WasTurnedDown, EventsEmitted;
    forall i | 0 <= i < |s.settled|
      ensures s.settled[i].serial == i && s.settled[i].event == s.emitted[i].event
      ensures SettledOk(s, i) && EmissionOk(s.emitted[i])
      ensures s.settled[i].fate.DeliveredTo? ==> WasTaken(answers, i, s.settled[i].fate.connection)
    {
      assert SettledOk(s, i) && EmissionOk(s.emitted[i]);
      if s.settled[i].fate.DeliveredTo? {
        DeliveriesWereTaken(answers, i);
      }
    }
    forall i: nat, c: nat | (i, c) in s.unavailable ensures WasTurnedDown(answers, i, c) {
      UnavailableTurnedItDown(answers, i, c);
    }
    forall i: nat, c: nat | WasTaken(answers, i, c) ensures i < |s.settled| && s.settled[i].fate.DeliveredTo? {
      TakenMeansDelivered(answers, i, c);
    }
  }

  /** An iteration that is Pending found nothing to do and changed nothing but who the slot waits for. */
  lemma RestStep(s: State, a: Answer)
    requires Iterate(s, a).1 == Return(None)
    ensures var t := Iterate(s, a).0;
            && Drained(s) && a.pool.PoolPending? && a.transport.None?
            && t.listening == s.listening && t.established == s.established
            && (if t.slot.Some? then
                  forall c :: c in Ids(t.slot.value.target) ==> c in t.established && a.readiness(c) == Full
                else a.behaviour.BehaviourPending?)
  {
    hide ListenAddresses.OnTransportEvent, Dismissed;
    if s.slot.Some? {
      NotifyLosesNothing(s.slot.value.target, s.established, a.readiness);
    }
    hide Notify;
  }

  /** Events about other things mean nothing to a user who replays. */
  lemma {:induction false} ReplayIgnoresOthers(events: seq<SwarmEvent>)
    ensures UserReplayAll(events) == UserReplayAll(OfTransport(events))
    decreases |events|
  {
    if events == [] {
    } else {
      var init, last := events[..|events| - 1], events[|events| - 1];
      ReplayIgnoresOthers(init);
      if last.UserOther? {
        assert OfTransport(events) == OfTransport(init);
      } else {
        UserReplayAppend(OfTransport(init), last);
      }
    }
  }

  /**
   In every run of the loop the swarm listens exactly on what the handled events say, no address twice,
   and the behaviour and the user, replaying what they were told, hold just that.
   */
  lemma LoopIsTruthful(answers: seq<Answer>)
    ensures var s := After(answers).listening;
            && Truthful(s.listened, ReplayAll(s.told)) && Truthful(s.listened, UserReplayAll(s.events))
            && ExpiredBeforeClosed(s.told) && (forall l :: l in s.listened ==> NoDuplicates(s.listened[l]))
            && forall l: nat, x: Address :: Listens(s.listened, l, x) <==> Stands(Handled(answers), l, x)
  {
    hide After, Handled, Others, OfTransport, Stands, ReplayAll, UserReplayAll, Truthful, ExpiredBeforeClosed, Listens,
         ListenAddresses.Run;
    var handled := Handled(answers);
    LoopAgrees(answers);
    IdleInv();
    ListenAddresses.RunInv(IDLE, handled);
    ReplayIgnoresOthers(After(answers).listening.events);
    forall l: nat, x: Address ensures Listens(After(answers).listening.listened, l, x) <==> Stands(handled, l, x) {
      ListensMeansStands(handled, l, x);
    }
  }

  /**
   At rest. `poll_next_event` is Pending only with every queued event handed out, nothing from the three
   sources, and an event in the slot only if it waits for full connections. What the user was handed
   over the whole run then has the one event for each transport event handled, in order. A user who
   replays it knows exactly the listen addresses, as does the behaviour.
   */
  lemma PendingIsUpToDate(answers: seq<Answer>, a: Answer)
    requires Iterate(After(answers), a).1 == Return(None)
    ensures var t := Iterate(After(answers), a).0;
            && a.pool.PoolPending? && a.transport.None?
            && (if t.slot.Some? then
                  forall c :: c in Ids(t.slot.value.target) ==> c in t.established && a.readiness(c) == Full
                else a.behaviour.BehaviourPending?)
            && EventsReturned(answers) == t.listening.events
            && OfTransport(EventsReturned(answers)) == ListenAddresses.Run(IDLE, Handled(answers)).events
            && |EventsReturned(answers)| == |Handled(answers)| + Others(answers)
            && (forall l: nat, x: Address :: Listens(t.listening.listened, l, x) <==> Stands(Handled(answers), l, x))
            && Truthful(t.listening.listened, UserReplayAll(EventsReturned(answers)))
            && Truthful(t.listening.listened, ReplayAll(t.listening.told))
  {
    hide After, Iterate, EventsReturned, Handled, Others, OfTransport, ListenAddresses.Run, Stands, ToldInTurn,
         UserHears, Truthful, Listens, ReplayAll, UserReplayAll;
    var s := After(answers);
    ReturnedInOrder(answers);
    LoopIsTruthful(answers);
    LoopAgrees(answers);
    EverybodyIsTold(Handled(answers));
    RestStep(s, a);
    assert s.listening.events[..|s.listening.events|] == s.listening.events;
  }
}
