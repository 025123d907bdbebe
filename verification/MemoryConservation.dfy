/**
 Nothing is lost between dialer and listener: on every listener's channel, the dials that were reported
 followed by those still queued are the dials that were sent, in the order they were sent. A dial
 can also be sent to the ephemeral port of a dialer that is just being made; those are dropped.
 */
module MemoryConservation {
  import opened MemoryModel
  import opened MemoryCore
  import opened MemoryDelivery

  function SentOn(log: seq<Event>, c: nat): seq<Message> {
    if log == [] then []
    else
      var e := log[|log| - 1];
      SentOn(log[..|log| - 1], c) + (if e.Sent? && e.channel == c then [Message(e.dial, e.sendBack)] else [])
  }

  function ReceivedOn(log: seq<Event>, c: nat): seq<Message> {
    if log == [] then []
    else
      var e := log[|log| - 1];
      ReceivedOn(log[..|log| - 1], c) + (if e.Incoming? && e.channel == c then [Message(e.dial, e.sendBack)] else [])
  }

  function DiscardedOn(log: seq<Event>, c: nat): seq<Message> {
    if log == [] then []
    else
      var e := log[|log| - 1];
      DiscardedOn(log[..|log| - 1], c) + (if e.Discarded? && e.channel == c then e.messages else [])
  }

  function Queued(w: World, c: nat): seq<Message> {
    if c < |w.channels| then w.channels[c].queue else []
  }

  function SentBy(e: Event, c: nat): seq<Message> {
    if e.Sent? && e.channel == c then [Message(e.dial, e.sendBack)] else []
  }

  function TakenBy(e: Event, c: nat): seq<Message> {
    if e.Incoming? && e.channel == c then [Message(e.dial, e.sendBack)]
    else if e.Discarded? && e.channel == c then e.messages
    else []
  }

  lemma LogAppend(log: seq<Event>, e: Event, c: nat)
    ensures SentOn(log + [e], c) == SentOn(log, c) + SentBy(e, c)
    ensures ReceivedOn(log + [e], c) == ReceivedOn(log, c) + (if e.Incoming? then TakenBy(e, c) else [])
    ensures DiscardedOn(log + [e], c) == DiscardedOn(log, c) + (if e.Discarded? then TakenBy(e, c) else [])
  {
    assert (log + [e])[..|log|] == log;
  }

  /** Listeners only report and dialers only discard, so one of the two parts is always empty. */
  ghost predicate Conserved(w: World, c: nat) {
    && SentOn(w.log, c) == ReceivedOn(w.log, c) + DiscardedOn(w.log, c) + Queued(w, c)
    && (ReceivedOn(w.log, c) != [] ==> c < |w.channels| && w.channels[c].role.ListenerOf?)
    && (DiscardedOn(w.log, c) != [] ==> c < |w.channels| && w.channels[c].role.DialerOf?)
  }

  /** A dialer that got its connection has sent the other end of it. */
  ghost predicate HasDelivered(w: World, d: nat)
    requires d < |w.dialers|
  {
    w.dialers[d].stage == Connected ==>
      w.dialers[d].own < |w.channels| && Sent(w.dialers[d].sender, d, w.channels[w.dialers[d].own].port) in w.log
  }

  ghost predicate FifoInv(w: World) {
    && (forall c: nat :: Conserved(w, c))
    && (forall d :: 0 <= d < |w.dialers| ==> HasDelivered(w, d))
  }

  /** Nothing sent, nothing taken, and nobody newly connected. */
  lemma IdleFifo(w: World, v: World)
    requires FifoInv(w) && v.log == w.log && SameChannels(w, v)
    requires forall c: nat :: Queued(v, c) == Queued(w, c)
    requires |v.dialers| >= |w.dialers|
    requires forall d :: 0 <= d < |v.dialers| && v.dialers[d].stage == Connected ==>
             d < |w.dialers| && v.dialers[d] == w.dialers[d]
    ensures FifoInv(v)
  {
    forall c: nat ensures Conserved(v, c) {
      assert Conserved(w, c);
    }
    forall d | 0 <= d < |v.dialers| ensures HasDelivered(v, d) {
      if v.dialers[d].stage == Connected {
        assert HasDelivered(w, d);
      }
    }
  }

  lemma Regroup(before: seq<Message>, queue: seq<Message>, sent: seq<Message>, taken: seq<Message>, left: seq<Message>)
    requires queue + sent == taken + left
    ensures before + queue + sent == before + taken + left
  {
    assert before + queue + sent == before + (queue + sent);
    assert before + taken + left == before + (taken + left);
  }

  /** One event, and a queue that changes with it. */
  lemma EventConserved(w: World, v: World, e: Event, c: nat)
    requires Conserved(w, c) && v.log == w.log + [e] && SameChannels(w, v)
    requires Queued(w, c) + SentBy(e, c) == TakenBy(e, c) + Queued(v, c)
    requires e.Incoming? ==> e.channel < |w.channels| && w.channels[e.channel].role.ListenerOf?
    requires e.Discarded? ==> e.channel < |w.channels| && w.channels[e.channel].role.DialerOf?
    ensures Conserved(v, c)
  {
    LogAppend(w.log, e, c);
    hide SentOn, ReceivedOn, DiscardedOn;
    var received, discarded := ReceivedOn(w.log, c), DiscardedOn(w.log, c);
    var taken, queue := TakenBy(e, c), Queued(v, c);
    assert ReceivedOn(v.log, c) + DiscardedOn(v.log, c) == received + discarded + taken;
    Regroup(received + discarded, Queued(w, c), SentBy(e, c), taken, queue);
  }

  lemma EventFifo(w: World, v: World, e: Event)
    requires FifoInv(w) && v.log == w.log + [e] && SameChannels(w, v)
    requires forall c: nat :: Queued(w, c) + SentBy(e, c) == TakenBy(e, c) + Queued(v, c)
    requires e.Incoming? ==> e.channel < |w.channels| && w.channels[e.channel].role.ListenerOf?
    requires e.Discarded? ==> e.channel < |w.channels| && w.channels[e.channel].role.DialerOf?
    requires |v.dialers| == |w.dialers|
    requires forall d :: 0 <= d < |v.dialers| && v.dialers[d].stage == Connected ==>
               || v.dialers[d] == w.dialers[d]
               || (v.dialers[d].own < |v.channels| && e ==
                   Sent(v.dialers[d].sender, d, v.channels[v.dialers[d].own].port))
    ensures FifoInv(v)
  {
    forall c: nat ensures Conserved(v, c) {
      assert Conserved(w, c);
      EventConserved(w, v, e, c);
    }
    forall d | 0 <= d < |v.dialers| ensures HasDelivered(v, d) {
      assert v.log[|w.log|] == e;
      assert HasDelivered(w, d);
    }
  }

  lemma PollDialFifo(w: World, d: nat, room: bool)
    requires FifoInv(w) && d < |w.dialers|
    ensures FifoInv(PollDialer(w, d, room))
  {
    hide FifoInv;
    var v := PollDialer(w, d, room);
    if v.log == w.log {
      IdleFifo(w, v);
    } else {
      EventFifo(w, v, v.log[|w.log|]);
    }
  }

  lemma SettleFifo(w: World, d: nat)
    requires FifoInv(w) && CoreInv(w) && d < |w.dialers|
    ensures FifoInv(Apply(w, Settle(d)))
  {
    assert DialerOk(w, d);
    hide FifoInv;
    var v := Apply(w, Settle(d));
    if v.log == w.log {
      IdleFifo(w, v);
    } else {
      EventFifo(w, v, v.log[|w.log|]);
    }
  }

  lemma PollFifo(w: World, t: nat)
    requires FifoInv(w) && CoreInv(w) && Free(w, t)
    ensures FifoInv(Apply(w, PollTransport(t)))
  {
    hide FifoInv;
    var v := Apply(w, PollTransport(t));
    var stop := Stop(w.transports[t], w.channels, Senders(w));
    if stop.None? {
      assert v == w;
    } else {
      EventFifo(w, v, News(w.transports[t][stop.value], w.channels).1);
    }
  }

  lemma ApplyFifo(w: World, a: Action)
    requires FifoInv(w) && CoreInv(w)
    ensures FifoInv(Apply(w, a))
  {
    hide FifoInv, CoreInv, PollListeners;
    var v := Apply(w, a);
    match a
    case Listen(t, id, port, random) => IdleFifo(w, v);
    case RemoveListener(t, id) =>
      if Free(w, t) && Position(w.transports[t], id).Some? {
        PositionFinds(w.transports[t], id);
        assert v == RemoveAt(w, t, w.transports[t][Position(w.transports[t], id).value]);
      }
      IdleFifo(w, v);
    case CloseReceiver(t) => IdleFifo(w, v);
    case Locate(port) => IdleFifo(w, v);
    case Register(d, random) => IdleFifo(w, v);
    case Settle(d) =>
      if d < |w.dialers| {
        SettleFifo(w, d);
      }
    case PollDial(d, room) =>
      if d < |w.dialers| {
        PollDialFifo(w, d, room);
      }
    case DropDialer(d) => IdleFifo(w, v);
    case PollTransport(t) =>
      if Free(w, t) {
        PollFifo(w, t);
      }
  }

  lemma {:induction false} RunFifo(w: World, actions: seq<Action>)
    requires FifoInv(w) && CoreInv(w)
    ensures FifoInv(Run(w, actions))
    decreases |actions|
  {
    hide FifoInv, CoreInv, Apply;
    if actions == [] {
    } else {
      ApplyFifo(w, actions[0]);
      ApplyCore(w, actions[0]);
      RunFifo(Apply(w, actions[0]), actions[1..]);
    }
  }

  lemma StartFifo(n: nat)
    ensures FifoInv(Start(n)) && CoreInv(Start(n))
  {
  }

  lemma FifoMeans(w: World, c: nat)
    requires FifoInv(w)
    ensures c < |w.channels| && w.channels[c].role.ListenerOf? ==>
              SentOn(w.log, c) == ReceivedOn(w.log, c) + w.channels[c].queue && DiscardedOn(w.log, c) == []
    ensures c < |w.channels| && w.channels[c].role.DialerOf? ==>
              SentOn(w.log, c) == DiscardedOn(w.log, c) + w.channels[c].queue && ReceivedOn(w.log, c) == []
    ensures c >= |w.channels| ==> SentOn(w.log, c) == ReceivedOn(w.log, c) == DiscardedOn(w.log, c) == []
    ensures forall d :: 0 <= d < |w.dialers| && w.dialers[d].stage == Connected ==>
              && w.dialers[d].own < |w.channels|
              && Sent(w.dialers[d].sender, d, w.channels[w.dialers[d].own].port) in w.log
  {
    hide SentOn, ReceivedOn, DiscardedOn;
    assert Conserved(w, c);
    forall d | 0 <= d < |w.dialers| && w.dialers[d].stage == Connected
      ensures w.dialers[d].own < |w.channels|
              && Sent(w.dialers[d].sender, d, w.channels[w.dialers[d].own].port) in w.log
    {
      assert HasDelivered(w, d);
    }
  }

  /**
   Conservation, over every run, disciplined or not. On a listener's channel, what came in and what
   is still queued is what was sent, in order. On a dialer's channel nothing comes in, and what was
   sent while it was open is dropped with it. A dialer is handed its connection only when the other
   end has been sent.
   */
  lemma DialsAreConserved(n: nat, actions: seq<Action>, c: nat)
    ensures var w := Run(Start(n), actions);
            && (c < |w.channels| && w.channels[c].role.ListenerOf? ==>
                  SentOn(w.log, c) == ReceivedOn(w.log, c) + w.channels[c].queue && DiscardedOn(w.log, c) == [])
            && (c < |w.channels| && w.channels[c].role.DialerOf? ==>
                  SentOn(w.log, c) == DiscardedOn(w.log, c) + w.channels[c].queue && ReceivedOn(w.log, c) == [])
            && (c >= |w.channels| ==> SentOn(w.log, c) == ReceivedOn(w.log, c) == DiscardedOn(w.log, c) == [])
            && forall d :: 0 <= d < |w.dialers| && w.dialers[d].stage == Connected ==>
                 && w.dialers[d].own < |w.channels|
                 && Sent(w.dialers[d].sender, d, w.channels[w.dialers[d].own].port) in w.log
  {
    hide FifoInv, CoreInv, Run, SentOn, ReceivedOn, DiscardedOn;
    StartFifo(n);
    RunFifo(Start(n), actions);
    FifoMeans(Run(Start(n), actions), c);
  }

  /** A listener that has closed reported every dial it was ever sent, and is sent no more. */
  lemma ClosedListenersReportedAll(w: World, c: nat)
    requires Reachable(w) && PhaseOf(w.log, c) == Ended
    ensures ReceivedOn(w.log, c) == SentOn(w.log, c)
  {
    var n: nat, actions: seq<Action> :| w == Run(Start(n), actions);
    DialsAreConserved(n, actions, c);
    ListenersLiveInOrder(w, c);
    assert SentOn(w.log, c) == ReceivedOn(w.log, c) + [];
  }
}
