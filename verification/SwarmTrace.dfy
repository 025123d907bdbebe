/**
 One iteration of `poll_next_event` told flat: what it does to each part of the swarm, by the state it
 found and the answers it got, without the stages it goes through.
 */
module SwarmTrace {
  import opened Common
  import opened ListenAddresses
  import opened SwarmModel

  /** Every queued event has been handed out, so that the iteration goes on to the slot. */
  predicate Drained(s: State) {
    s.popped >= |s.listening.events|
  }

  /** The event with that number is tried, and the connection is among those it may still go to. */
  predicate Tries(s: State, i: nat, c: nat) {
    Drained(s) && s.slot.Some? && s.slot.value.serial == i && c in Ids(s.slot.value.target)
  }

  predicate TakesIt(s: State, a: Answer, i: nat, c: nat) {
    Tries(s, i, c) && c in s.established && a.readiness(c) == Ready(true)
  }

  /** Gone, closing, or refusing. */
  predicate TurnsItDown(s: State, a: Answer, i: nat, c: nat) {
    Tries(s, i, c) && (c !in s.established || a.readiness(c) == Closing || a.readiness(c) == Ready(false))
  }

  ghost predicate SomeTake(p: Pending, s: State, a: Answer) {
    exists c :: c in Ids(p.target) && c in s.established && a.readiness(c) == Ready(true)
  }

  ghost predicate SomeWait(p: Pending, s: State, a: Answer) {
    exists c :: c in Ids(p.target) && c in s.established && a.readiness(c) == Full
  }

  /** The iteration gets as far as the pool: nothing to hand out, and nothing moves before it. */
  ghost predicate GoesOn(s: State, a: Answer) {
    && Drained(s)
    && (if s.slot.Some? then !SomeTake(s.slot.value, s, a) && SomeWait(s.slot.value, s, a)
        else a.behaviour.BehaviourPending?)
  }

  /** The behaviour is polled, and has an event for a handler. */
  function EmittedBy(s: State, a: Answer): seq<Emission> {
    if Drained(s) && s.slot.None? && a.behaviour.NotifyHandler?
    then [Emission(a.behaviour.peer, a.behaviour.target, a.behaviour.event, s.established)] else []
  }

  /** The transport event it handles. */
  ghost function HandledBy(s: State, a: Answer): seq<TransportEvent> {
    if GoesOn(s, a) && a.pool.PoolPending? && a.transport.Some? then [a.transport.value] else []
  }

  /** How many events about other things it queues for the user. */
  ghost function OthersBy(s: State, a: Answer): nat {
    if Drained(s) && s.slot.None? && a.behaviour.OtherBehaviourEvent? then a.behaviour.events
    else if !GoesOn(s, a) || a.pool.PoolPending? then 0
    else if a.pool.OtherPoolEvent? then a.pool.events
    else 1
  }

  ghost function ListeningAfter(s: State, a: Answer): Listening {
    if HandledBy(s, a) != [] then ListenAddresses.OnTransportEvent(s.listening, HandledBy(s, a)[0])
    else s.listening.(events := s.listening.events + seq(OthersBy(s, a), i => UserOther))
  }

  /** Whom a connection is to, once the iteration is over. */
  ghost function ConnectedAfter(s: State, a: Answer, c: nat): Option<nat> {
    if GoesOn(s, a) && a.pool == ConnectionClosed(c) then None
    else if GoesOn(s, a) && a.pool.ConnectionEstablished? && a.pool.connection == c then Some(a.pool.peer)
    else if c in s.established then Some(s.established[c]) else None
  }

  /** What `poll_next_event` does next: hand out the oldest event, give up for now, or go round again. */
  ghost function Outcome(s: State, a: Answer): Control {
    if !Drained(s) then Return(Some(s.listening.events[s.popped]))
    else if GoesOn(s, a) && a.pool.PoolPending? && a.transport.None? then Return(None)
    else Continue
  }

  function Listed(target: Target): seq<nat> {
    match target
    case One(c) => [c]
    case Any(ids) => ids
  }

  /** The first of the connections that takes the event. */
  ghost predicate IsFirst(ids: seq<nat>, k: nat, s: State, a: Answer) {
    && k < |ids| && ids[k] in s.established && a.readiness(ids[k]) == Ready(true)
    && forall j :: 0 <= j < k ==> ids[j] !in s.established || a.readiness(ids[j]) != Ready(true)
  }

  /** What is left of a list is in the order of the list, each once. */
  ghost predicate InOrder(left: seq<nat>, ids: seq<nat>) {
    exists at: seq<nat> ::
      && |at| == |left|
      && (forall i :: 0 <= i < |at| ==> at[i] < |ids| && ids[at[i]] == left[i])
      && (forall i, j :: 0 <= i < j < |at| ==> at[i] < at[j])
  }

  /**
   An event in the slot is tried: the first connection that takes it has it; if none takes it, it is
   kept for those that are full; if there are none of these either, it is lost.
   */
  ghost predicate Tried(p: Pending, s: State, a: Answer, t: State) {
    var ids := Listed(p.target);
    && (SomeTake(p, s, a) ==>
          && t.slot.None?
          && exists k: nat ::
               && IsFirst(ids, k, s, a)
               && t.settled == s.settled + [Settled(p.serial, p.event, DeliveredTo(ids[k]))])
    && (!SomeTake(p, s, a) && !SomeWait(p, s, a) ==>
          t.slot.None? && t.settled == s.settled + [Settled(p.serial, p.event, Lost)])
    && (!SomeTake(p, s, a) && SomeWait(p, s, a) ==>
          && t.settled == s.settled
          && t.slot.Some? && t.slot.value == p.(target := t.slot.value.target)
          && t.slot.value.target.One? == p.target.One?
          && (forall c :: c in Ids(t.slot.value.target) <==>
                c in Ids(p.target) && c in s.established && a.readiness(c) == Full)
          && InOrder(Listed(t.slot.value.target), ids))
  }

  ghost predicate SlotTraced(s: State, a: Answer, t: State) {
    if Drained(s) && s.slot.Some? then Tried(s.slot.value, s, a, t)
    else
      && t.settled == s.settled
      && t.slot == if EmittedBy(s, a) == [] then s.slot
                   else Some(Pending(|s.emitted|, a.behaviour.peer, a.behaviour.target, a.behaviour.event))
  }

  ghost predicate Traced(s: State, a: Answer, t: State, control: Control) {
    && control == Outcome(s, a)
    && t.popped == s.popped + (if Drained(s) then 0 else 1)
    && t.emitted == s.emitted + EmittedBy(s, a)
    && (forall c :: c in t.established <==> ConnectedAfter(s, a, c).Some?)
    && (forall c :: c in t.established ==> Some(t.established[c]) == ConnectedAfter(s, a, c))
    && t.listening == ListeningAfter(s, a)
    && SlotTraced(s, a, t)
  }

  // ----- the proof -----

  lemma {:induction false} TakerIsFirst(ids: seq<nat>, s: State, a: Answer) returns (k: nat)
    requires exists c :: c in ids && Takes(c, s.established, a.readiness)
    ensures IsFirst(ids, k, s, a) && Taker(ids, s.established, a.readiness) == Some(ids[k])
    decreases |ids|
  {
    if Takes(ids[0], s.established, a.readiness) {
      k := 0;
    } else {
      var c :| c in ids && Takes(c, s.established, a.readiness);
      assert c in ids[1..];
      var rest := TakerIsFirst(ids[1..], s, a);
      k := rest + 1;
    }
  }

  lemma {:induction false} WaitersInOrder(ids: seq<nat>, s: State, a: Answer) returns (at: seq<nat>)
    ensures var left := Waiters(ids, s.established, a.readiness);
            && |at| == |left|
            && (forall i :: 0 <= i < |at| ==> at[i] < |ids| && ids[at[i]] == left[i])
            && (forall i, j :: 0 <= i < j < |at| ==> at[i] < at[j])
    decreases |ids|
  {
    if ids == [] {
      at := [];
    } else {
      var rest := WaitersInOrder(ids[1..], s, a);
      var moved := seq(|rest|, i requires 0 <= i < |rest| => rest[i] + 1);
      at := if Waits(ids[0], s.established, a.readiness) then [0] + moved else moved;
    }
  }

  lemma OneInOrder(c: nat)
    ensures InOrder([c], [c])
  {
    var at: seq<nat> := [0];
    assert |at| == 1 && [c][at[0]] == [c][0];
  }

  lemma OneTried(p: Pending, s: State, a: Answer)
    requires Drained(s) && s.slot == Some(p) && p.target.One?
    ensures Tried(p, s, a, NotifyStage(s, a).0)
  {
    hide InOrder, Dismissed;
    var c := p.target.connection;
    OneInOrder(c);
    assert c in Ids(p.target);
    if Takes(c, s.established, a.readiness) {
      assert IsFirst(Listed(p.target), 0, s, a);
    }
  }

  lemma AnyTried(p: Pending, s: State, a: Answer)
    requires Drained(s) && s.slot == Some(p) && p.target.Any?
    ensures Tried(p, s, a, NotifyStage(s, a).0)
  {
    hide Taker, Waiters, Dismissed;
    var ids := p.target.connections;
    assert forall c :: c in Ids(p.target) <==> c in ids;
    NotifyLosesNothing(p.target, s.established, a.readiness);
    if SomeTake(p, s, a) {
      var k := TakerIsFirst(ids, s, a);
      var t := NotifyStage(s, a).0;
      assert t.settled == s.settled + [Settled(p.serial, p.event, DeliveredTo(Listed(p.target)[k]))];
    } else {
      var at := WaitersInOrder(ids, s, a);
      assert InOrder(Waiters(ids, s.established, a.readiness), ids);
      hide InOrder;
      var waiters := Waiters(ids, s.established, a.readiness);
      assert Taker(ids, s.established, a.readiness).None?;
      if SomeWait(p, s, a) {
        var c :| c in ids && Waits(c, s.established, a.readiness);
        assert c in waiters;
      }
    }
  }

  /** The first stage, which ends the iteration unless it goes on. */
  lemma NotifyTrace(s: State, a: Answer)
    requires Drained(s)
    ensures var r := NotifyStage(s, a);
            && SlotTraced(s, a, r.0)
            && r.1 == (if GoesOn(s, a) then None else Some(Continue))
            && r.0.emitted == s.emitted + EmittedBy(s, a)
            && r.0 == s.(slot := r.0.slot, settled := r.0.settled, unavailable := r.0.unavailable,
                         emitted := r.0.emitted,
                         listening := if GoesOn(s, a) then s.listening else ListeningAfter(s, a))
  {
    if s.slot.Some? {
      var p := s.slot.value;
      if p.target.One? {
        OneTried(p, s, a);
      } else {
        AnyTried(p, s, a);
      }
      NotifyLosesNothing(p.target, s.established, a.readiness);
      hide Notify, Dismissed, Tried;
      assert s.listening.events + [] == s.listening.events;
      match Notify(p.target, s.established, a.readiness) {
        case Gone(_) =>
        case Kept(kept) =>
          var c :| c in Ids(kept);
      }
    } else {
      assert s.listening.events + [] == s.listening.events;
    }
  }

  lemma SlotFrame(s: State, a: Answer, t: State, u: State)
    requires SlotTraced(s, a, t) && u.slot == t.slot && u.settled == t.settled
    ensures SlotTraced(s, a, u)
  {
    hide SomeTake, SomeWait, InOrder, IsFirst;
  }

  lemma HandsOutTrace(s: State, a: Answer)
    requires !Drained(s)
    ensures Traced(s, a, Iterate(s, a).0, Iterate(s, a).1)
  {
    assert s.listening.events + [] == s.listening.events;
    assert s.emitted + [] == s.emitted;
  }

  lemma StoppedTrace(s: State, a: Answer)
    requires Drained(s) && !GoesOn(s, a)
    ensures Traced(s, a, Iterate(s, a).0, Iterate(s, a).1)
  {
    hide NotifyStage, SlotTraced, ListeningAfter, GoesOn;
    NotifyTrace(s, a);
  }

  /** With nothing in its way, the pool and then the transport. */
  lemma GoesOnTrace(s: State, a: Answer)
    requires GoesOn(s, a)
    ensures Traced(s, a, Iterate(s, a).0, Iterate(s, a).1)
  {
    hide NotifyStage, SlotTraced, SomeTake, SomeWait, ListenAddresses.OnTransportEvent;
    NotifyTrace(s, a);
    SlotFrame(s, a, NotifyStage(s, a).0, Iterate(s, a).0);
  }

  /** Every part of the state and the outcome, for any state and any answers. */
  lemma IterateTrace(s: State, a: Answer)
    ensures Traced(s, a, Iterate(s, a).0, Iterate(s, a).1)
  {
    hide Traced, Iterate, GoesOn;
    if !Drained(s) {
      HandsOutTrace(s, a);
    } else if GoesOn(s, a) {
      GoesOnTrace(s, a);
    } else {
      StoppedTrace(s, a);
    }
  }
}
