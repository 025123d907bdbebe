/**
 Who hears from whom on the in-memory transport, over every run: a dial is delivered at most once, to
 the listener whose channel it looked up; and each listener announces its own address, then reports
 dials on that address, then closes once, all under its own id.
 */
module MemoryDelivery {
  import opened Common
  import opened MemoryModel
  import opened MemoryCore

  // ----- deliveries -----

  /** The dial may have gone into the channel it looked up; only then can it be seen on the other side. */
  ghost predicate HasSent(w: World, d: nat, c: nat) {
    && d < |w.dialers| && w.dialers[d].sender == c && w.dialers[d].own < |w.channels|
    && (w.dialers[d].stage == Connected || w.dialers[d].stage == Dropped)
  }

  ghost predicate MessageOk(w: World, c: nat, m: Message) {
    HasSent(w, m.dial, c) && m.dialPort == w.channels[w.dialers[m.dial].own].port
  }

  ghost predicate QueuesInv(w: World) {
    && (forall c, k :: 0 <= c < |w.channels| && 0 <= k < |w.channels[c].queue| ==>
        MessageOk(w, c, w.channels[c].queue[k]))
    && (forall c, j, k :: 0 <= c < |w.channels| && 0 <= j < k < |w.channels[c].queue| ==>
          w.channels[c].queue[j].dial != w.channels[c].queue[k].dial)
  }

  /** An event of a listener carries the id and the port its channel was made for. */
  ghost predicate NamesItsListener(w: World, e: Event) {
    && e.channel < |w.channels| && w.channels[e.channel].role.ListenerOf?
    && (e.NewAddress? || e.Incoming? ==> e.port == w.channels[e.channel].port)
    && (e.FromListener() ==> e.id == w.channels[e.channel].role.id)
  }

  /** A delivered dial comes from the port of its dialer and is no longer in any queue. */
  ghost predicate EntryOk(w: World, k: nat)
    requires k < |w.log|
  {
    var e := w.log[k];
    && (e.FromListener() ==> NamesItsListener(w, e))
    && (e.Incoming? ==>
          && MessageOk(w, e.channel, Message(e.dial, e.sendBack))
          && forall j :: 0 <= j < |w.channels[e.channel].queue| ==> w.channels[e.channel].queue[j].dial != e.dial)
  }

  ghost predicate LogInv(w: World) {
    && (forall k :: 0 <= k < |w.log| ==> EntryOk(w, k))
    && (forall j, k :: 0 <= j < k < |w.log| && w.log[j].Incoming? && w.log[k].Incoming? ==>
        w.log[j].dial != w.log[k].dial)
  }

  ghost predicate TrafficInv(w: World) {
    QueuesInv(w) && LogInv(w)
  }

  /** Channels keep who they are, and nothing that was sent is unsent. */
  ghost predicate Continues(w: World, v: World) {
    && |v.channels| >= |w.channels|
    && (forall c :: 0 <= c < |w.channels| ==>
        v.channels[c].port == w.channels[c].port && v.channels[c].role == w.channels[c].role)
    && |v.dialers| >= |w.dialers|
    && (forall d :: 0 <= d < |w.dialers| ==>
          && v.dialers[d].sender == w.dialers[d].sender
          && (w.dialers[d].stage == Connected || w.dialers[d].stage == Dropped ==>
                v.dialers[d].own == w.dialers[d].own
                    && (v.dialers[d].stage == Connected || v.dialers[d].stage == Dropped)))
  }

  /** No dial goes in or comes out: queues stay or are dropped, and what is told is about a listener. */
  lemma QuietStep(w: World, v: World)
    requires TrafficInv(w) && Continues(w, v)
    requires forall c :: 0 <= c < |w.channels| ==>
             v.channels[c].queue == w.channels[c].queue || v.channels[c].queue == []
    requires forall c :: |w.channels| <= c < |v.channels| ==> v.channels[c].queue == []
    requires v.log == w.log || (|v.log| == |w.log| + 1 && v.log[..|w.log|] == w.log &&
                                !v.log[|w.log|].Incoming? && (v.log[|w.log|].FromListener() ==>
                                    NamesItsListener(v, v.log[|w.log|])))
    ensures TrafficInv(v)
  {
    forall c, k | 0 <= c < |v.channels| && 0 <= k < |v.channels[c].queue|
      ensures MessageOk(v, c, v.channels[c].queue[k])
    {
      assert MessageOk(w, c, w.channels[c].queue[k]);
    }
    forall k | 0 <= k < |v.log| ensures EntryOk(v, k) {
      if k < |w.log| {
        assert v.log[k] == w.log[k] by { assert v.log[..|w.log|][k] == w.log[k]; }
        assert EntryOk(w, k);
      }
    }
    assert forall k :: 0 <= k < |w.log| ==> v.log[..|w.log|][k] == w.log[k];
  }

  /** A dial goes in: it was nowhere before, because a dialer that has not sent is nowhere. */
  lemma SendTraffic(w: World, d: nat)
    requires TrafficInv(w) && d < |w.dialers|
    requires w.dialers[d].stage == Dialing && w.dialers[d].sender < |w.channels| && w.dialers[d].own < |w.channels|
    requires !w.channels[w.dialers[d].sender].closed
    ensures TrafficInv(PollDialer(w, d, true))
  {
    var v := PollDialer(w, d, true);
    var x := w.dialers[d];
    forall c, k | 0 <= c < |v.channels| && 0 <= k < |v.channels[c].queue|
      ensures MessageOk(v, c, v.channels[c].queue[k])
    {
      if c != x.sender || k < |w.channels[c].queue| {
        assert MessageOk(w, c, w.channels[c].queue[k]);
      }
    }
    forall c, j, k | 0 <= c < |v.channels| && 0 <= j < k < |v.channels[c].queue|
      ensures v.channels[c].queue[j].dial != v.channels[c].queue[k].dial
    {
      assert MessageOk(w, c, w.channels[c].queue[j]);
    }
    forall k | 0 <= k < |v.log| ensures EntryOk(v, k) {
      if k < |w.log| {
        assert EntryOk(w, k);
      }
    }
  }

  lemma PoppedQueues(w: World, v: World, c: nat)
    requires QueuesInv(w) && c < |w.channels| && w.channels[c].queue != []
    requires v.channels == Popped(w.channels, c) && v.dialers == w.dialers
    ensures QueuesInv(v)
  {
    forall b, k | 0 <= b < |v.channels| && 0 <= k < |v.channels[b].queue|
      ensures MessageOk(v, b, v.channels[b].queue[k])
    {
      var off := if b == c then 1 else 0;
      assert v.channels[b].queue[k] == w.channels[b].queue[k + off];
      assert MessageOk(w, b, w.channels[b].queue[k + off]);
    }
    forall b, j, k | 0 <= b < |v.channels| && 0 <= j < k < |v.channels[b].queue|
      ensures v.channels[b].queue[j].dial != v.channels[b].queue[k].dial
    {
      var off := if b == c then 1 else 0;
      assert v.channels[b].queue[j] == w.channels[b].queue[j + off]
          && v.channels[b].queue[k] == w.channels[b].queue[k + off];
    }
  }

  lemma EarlierEntry(w: World, v: World, c: nat, k: nat)
    requires k < |w.log| && EntryOk(w, k) && c < |w.channels| && w.channels[c].queue != []
    requires v.channels == Popped(w.channels, c) && v.dialers == w.dialers
    requires |v.log| == |w.log| + 1 && v.log[..|w.log|] == w.log
    ensures EntryOk(v, k)
  {
    var e := w.log[k];
    assert v.log[k] == v.log[..|w.log|][k] == e;
    if e.Incoming? {
      forall j | 0 <= j < |v.channels[e.channel].queue| ensures v.channels[e.channel].queue[j].dial != e.dial {
        assert v.channels[e.channel].queue[j] == w.channels[e.channel].queue[if e.channel == c then j + 1 else j];
      }
    }
  }

  /** A dial comes out: it is recorded as it leaves the queue, so it stays in one place. */
  lemma ReceiveTraffic(w: World, v: World, l: Listener, t: nat)
    requires TrafficInv(w) && ListenerOk(w, t, l) && w.channels[l.channel].queue != []
    requires v.channels == Popped(w.channels, l.channel) && v.dialers == w.dialers
    requires var m := w.channels[l.channel].queue[0];
             v.log == w.log + [Incoming(l.channel, l.id, l.port, m.dialPort, m.dial)]
    ensures TrafficInv(v)
  {
    PoppedQueues(w, v, l.channel);
    var queue := w.channels[l.channel].queue;
    assert MessageOk(w, l.channel, queue[0]);
    forall j | 0 <= j < |w.log| && w.log[j].Incoming? ensures w.log[j].dial != queue[0].dial {
      assert EntryOk(w, j);
    }
    forall k | 0 <= k < |v.log| ensures EntryOk(v, k) {
      if k < |w.log| {
        EarlierEntry(w, v, l.channel, k);
      } else {
        forall j | 0 <= j < |v.channels[l.channel].queue| ensures v.channels[l.channel].queue[j].dial != queue[0].dial {
          assert v.channels[l.channel].queue[j] == queue[j + 1];
        }
      }
    }
  }

  lemma PollTraffic(w: World, t: nat)
    requires CoreInv(w) && TrafficInv(w) && Free(w, t)
    ensures TrafficInv(Apply(w, PollTransport(t)))
  {
    var v := Apply(w, PollTransport(t));
    var stop := Stop(w.transports[t], w.channels, Senders(w));
    if stop.None? {
      assert v == w;
    } else {
      var l := w.transports[t][stop.value];
      assert ListenerOk(w, t, l);
      hide CoreInv, TrafficInv;
      if !l.tellListenAddr && w.channels[l.channel].queue != [] {
        ReceiveTraffic(w, v, l, t);
      } else {
        QuietStep(w, v);
      }
    }
  }

  lemma PollDialTraffic(w: World, d: nat, room: bool)
    requires TrafficInv(w) && d < |w.dialers|
    ensures TrafficInv(PollDialer(w, d, room))
  {
    hide TrafficInv;
    var x := w.dialers[d];
    if x.stage == Dialing && room && x.sender < |w.channels| && x.own < |w.channels| && !w.channels[x.sender].closed {
      SendTraffic(w, d);
    } else {
      QuietStep(w, PollDialer(w, d, room));
    }
  }

  lemma DialerTraffic(w: World, a: Action)
    requires TrafficInv(w) && (a.Locate? || a.Register? || a.Settle? || a.DropDialer?)
    ensures TrafficInv(Apply(w, a))
  {
    hide TrafficInv;
    QuietStep(w, Apply(w, a));
  }

  lemma ApplyTraffic(w: World, a: Action)
    requires CoreInv(w) && TrafficInv(w)
    ensures TrafficInv(Apply(w, a))
  {
    hide CoreInv, TrafficInv, PollListeners, PollDialer;
    var v := Apply(w, a);
    match a
    case Listen(t, id, port, random) => QuietStep(w, v);
    case RemoveListener(t, id) =>
      if Free(w, t) && Position(w.transports[t], id).Some? {
        PositionFinds(w.transports[t], id);
        assert v == RemoveAt(w, t, w.transports[t][Position(w.transports[t], id).value]);
      }
      QuietStep(w, v);
    case CloseReceiver(t) => QuietStep(w, v);
    case PollDial(d, room) =>
      if d < |w.dialers| {
        PollDialTraffic(w, d, room);
      }
    case PollTransport(t) =>
      if Free(w, t) {
        PollTraffic(w, t);
      }
    case _ => DialerTraffic(w, a);
  }

  // ----- life cycles -----

  datatype Phase = Quiet | Announced | Ended | Broken

  function Advance(phase: Phase, e: Event): Phase {
    match (phase, e)
    case (_, Sent(_, _, _)) => phase
    case (_, Discarded(_, _)) => phase
    case (Quiet, NewAddress(_, _, _)) => Announced
    case (Announced, Incoming(_, _, _, _, _)) => Announced
    case (Announced, ListenerClosed(_, _)) => Ended
    case _ => Broken
  }

  /** How far the listener on a channel has come, judged by its own events alone. */
  function PhaseOf(log: seq<Event>, c: nat): Phase {
    if log == [] then Quiet
    else
      var before := PhaseOf(log[..|log| - 1], c);
      if log[|log| - 1].channel == c then Advance(before, log[|log| - 1]) else before
  }

  lemma PhaseAppend(log: seq<Event>, e: Event, c: nat)
    ensures PhaseOf(log + [e], c) == if e.channel == c then Advance(PhaseOf(log, c), e) else PhaseOf(log, c)
  {
    assert (log + [e])[..|log|] == log;
  }

  ghost predicate LifeOk(w: World, c: nat) {
    if c < |w.channels| && w.channels[c].role.ListenerOf? && !InQueue(w, w.channels[c].role.transport, c)
    then PhaseOf(w.log, c) == Ended && w.channels[c].closed && w.channels[c].queue == []
    else PhaseOf(w.log, c) in {Quiet, Announced}
  }

  ghost predicate LifeInv(w: World) {
    && (forall c: nat :: LifeOk(w, c))
    && (forall c: nat :: c >= |w.channels| ==> PhaseOf(w.log, c) == Quiet)
    && (forall t, i :: 0 <= t < |w.transports| && 0 <= i < |w.transports[t]| ==>
          PhaseOf(w.log, w.transports[t][i].channel) == if w.transports[t][i].tellListenAddr then Quiet else Announced)
  }

  /** Nothing is told and no queue loses a listener. */
  lemma UntoldStep(w: World, v: World)
    requires CoreInv(w) && LifeInv(w)
    requires v.log == w.log && v.transports == w.transports && |v.channels| >= |w.channels|
    requires forall c :: 0 <= c < |w.channels| ==>
               && v.channels[c].role == w.channels[c].role && v.channels[c].queue == w.channels[c].queue
               && (w.channels[c].closed ==> v.channels[c].closed)
    requires forall c :: |w.channels| <= c < |v.channels| ==> v.channels[c].role.DialerOf?
    ensures LifeInv(v)
  {
    forall c: nat ensures LifeOk(v, c) {
      assert LifeOk(w, c);
    }
  }

  lemma ListenLife(w: World, t: nat, id: nat, port: nat, random: nat)
    requires CoreInv(w) && LifeInv(w) && t < |w.transports|
    ensures LifeInv(ListenOn(w, t, id, port, random))
  {
    var v := ListenOn(w, t, id, port, random);
    if v != w {
      assert v.transports[t][|w.transports[t]|].channel == |w.channels|;
      forall c: nat ensures LifeOk(v, c) {
        assert LifeOk(w, c);
        if c < |w.channels| && w.channels[c].role.ListenerOf? && InQueue(w, w.channels[c].role.transport, c) {
          var u := w.channels[c].role.transport;
          var i :| 0 <= i < |w.transports[u]| && w.transports[u][i].channel == c;
          assert v.transports[u][i].channel == c;
        }
      }
    }
  }

  /** An event of the dialing side moves no listener. */
  lemma DialingLife(w: World, v: World, e: Event)
    requires LifeInv(w) && !e.FromListener() && v.log == w.log + [e]
    requires v.transports == w.transports && |v.channels| == |w.channels|
    requires forall c :: 0 <= c < |w.channels| ==>
               && v.channels[c].role == w.channels[c].role
               && (w.channels[c].closed ==> v.channels[c].closed && v.channels[c].queue == w.channels[c].queue)
    ensures LifeInv(v)
  {
    forall c: nat ensures PhaseOf(v.log, c) == PhaseOf(w.log, c) {
      PhaseAppend(w.log, e, c);
    }
    forall c: nat ensures LifeOk(v, c) {
      assert LifeOk(w, c);
    }
  }

  lemma SettleLife(w: World, d: nat)
    requires CoreInv(w) && LifeInv(w) && d < |w.dialers| && Apply(w, Settle(d)).log != w.log
    ensures LifeInv(Apply(w, Settle(d)))
  {
    assert DialerOk(w, d) && DialerEndOk(w, w.dialers[d].own);
    hide CoreInv, LifeInv;
    DialingLife(w, Apply(w, Settle(d)), Discarded(w.dialers[d].own, w.channels[w.dialers[d].own].queue));
  }

  lemma PollDialLife(w: World, d: nat, room: bool)
    requires CoreInv(w) && LifeInv(w) && d < |w.dialers|
    ensures LifeInv(PollDialer(w, d, room))
  {
    hide CoreInv, LifeInv;
    var v := PollDialer(w, d, room);
    if v.log == w.log {
      UntoldStep(w, v);
    } else {
      DialingLife(w, v, v.log[|w.log|]);
    }
  }

  /** Membership in the polled queue: all stay but a listener that has come to its end. */
  lemma PolledMembers(w: World, t: nat, k: nat, c: nat)
    requires CoreInv(w) && Free(w, t) && Stop(w.transports[t], w.channels, Senders(w)) == Some(k)
    ensures var l := w.transports[t][k];
            InQueue(Apply(w, PollTransport(t)), t, c) <==>
            InQueue(w, t, c) && (c == l.channel ==> Kept(l, w.channels) != [])
  {
    var ls := w.transports[t];
    var v := Apply(w, PollTransport(t));
    var r := Rotated(ls, k, Kept(ls[k], w.channels));
    assert v.transports[t] == r;
    assert DistinctChannels(ls);
    if InQueue(v, t, c) {
      var x :| 0 <= x < |r| && r[x].channel == c;
      var i := RotatedFromOld(ls, k, w.channels, x);
      assert ls[i].channel == c;
    }
    if InQueue(w, t, c) && (c == ls[k].channel ==> Kept(ls[k], w.channels) != []) {
      var i :| 0 <= i < |ls| && ls[i].channel == c;
      var x := RotatedKeeps(ls, k, w.channels, i);
    }
  }

  lemma PolledLife(w: World, t: nat, k: nat, c: nat)
    requires CoreInv(w) && LifeInv(w) && Free(w, t) && Stop(w.transports[t], w.channels, Senders(w)) == Some(k)
    ensures LifeOk(Apply(w, PollTransport(t)), c)
    ensures c >= |w.channels| ==> PhaseOf(Apply(w, PollTransport(t)).log, c) == Quiet
  {
    var v := Apply(w, PollTransport(t));
    var l := w.transports[t][k];
    var (channels', e) := News(l, w.channels);
    assert ListenerOk(w, t, l) && InQueue(w, t, l.channel);
    PolledWorld(w, t, k);
    assert PhaseOf(w.log, w.transports[t][k].channel) == if l.tellListenAddr then Quiet else Announced;
    assert v.log == w.log + [e];
    PhaseAppend(w.log, e, c);
    assert LifeOk(w, c);
    PolledMembers(w, t, k, c);
    if c < |w.channels| && w.channels[c].role.ListenerOf? && w.channels[c].role.transport != t {
      var u := w.channels[c].role.transport;
      assert u < |w.transports| ==> v.transports[u] == w.transports[u];
    }
  }

  /** The flag that asks for the address and the phase move together. */
  lemma PolledPhases(w: World, t: nat, k: nat)
    requires CoreInv(w) && LifeInv(w) && Free(w, t) && Stop(w.transports[t], w.channels, Senders(w)) == Some(k)
    ensures var v := Apply(w, PollTransport(t));
            forall u, x :: 0 <= u < |v.transports| && 0 <= x < |v.transports[u]| ==>
              PhaseOf(v.log, v.transports[u][x].channel) == if v.transports[u][x].tellListenAddr then Quiet
                  else Announced
  {
    var v := Apply(w, PollTransport(t));
    var ls := w.transports[t];
    assert ListenerOk(w, t, ls[k]);
    forall u, x | 0 <= u < |v.transports| && 0 <= x < |v.transports[u]|
      ensures PhaseOf(v.log, v.transports[u][x].channel) == if v.transports[u][x].tellListenAddr then Quiet
              else Announced
    {
      PhaseAppend(w.log, v.log[|w.log|], v.transports[u][x].channel);
      if u == t {
        var i := RotatedFromOld(ls, k, w.channels, x);
        assert DistinctChannels(ls);
        assert i != k ==> ls[i].channel != ls[k].channel;
      } else {
        assert ListenerOk(w, u, w.transports[u][x]);
      }
    }
  }

  lemma PollLife(w: World, t: nat)
    requires CoreInv(w) && LifeInv(w) && Free(w, t)
    ensures LifeInv(Apply(w, PollTransport(t)))
  {
    var stop := Stop(w.transports[t], w.channels, Senders(w));
    if stop.None? {
      assert Apply(w, PollTransport(t)) == w;
    } else {
      hide CoreInv, PhaseOf, LifeOk;
      forall c: nat
        ensures LifeOk(Apply(w, PollTransport(t)), c)
        ensures c >= |w.channels| ==> PhaseOf(Apply(w, PollTransport(t)).log, c) == Quiet
      {
        PolledLife(w, t, stop.value, c);
      }
      PolledPhases(w, t, stop.value);
    }
  }

  lemma ApplyLife(w: World, a: Action)
    requires CoreInv(w) && LifeInv(w)
    ensures LifeInv(Apply(w, a))
  {
    hide CoreInv, LifeInv, PollListeners;
    var v := Apply(w, a);
    match a
    case Listen(t, id, port, random) =>
      if Free(w, t) && (port == 0 ==> Unoccupied(w, random)) {
        ListenLife(w, t, id, port, random);
      }
    case RemoveListener(t, id) =>
      if Free(w, t) && Position(w.transports[t], id).Some? {
        PositionFinds(w.transports[t], id);
        assert v == RemoveAt(w, t, w.transports[t][Position(w.transports[t], id).value]);
      }
      UntoldStep(w, v);
    case CloseReceiver(t) => UntoldStep(w, v);
    case Locate(port) => UntoldStep(w, v);
    case Register(d, random) => UntoldStep(w, v);
    case Settle(d) =>
      if d < |w.dialers| && v.log != w.log {
        SettleLife(w, d);
      }
    case PollDial(d, room) =>
      if d < |w.dialers| {
        PollDialLife(w, d, room);
      }
    case DropDialer(d) => UntoldStep(w, v);
    case PollTransport(t) =>
      if Free(w, t) {
        PollLife(w, t);
      }
  }

  // ----- over whole runs -----

  ghost predicate Inv(w: World) {
    CoreInv(w) && TrafficInv(w) && LifeInv(w)
  }

  lemma {:induction false} RunInv(w: World, actions: seq<Action>)
    requires Inv(w)
    ensures Inv(Run(w, actions))
    decreases |actions|
  {
    hide CoreInv, TrafficInv, LifeInv, Apply;
    if actions == [] {
    } else {
      ApplyCore(w, actions[0]);
      ApplyTraffic(w, actions[0]);
      ApplyLife(w, actions[0]);
      RunInv(Apply(w, actions[0]), actions[1..]);
    }
  }

  lemma StartInv(n: nat)
    ensures Inv(Start(n))
  {
  }

  lemma ReachableInv(w: World)
    requires Reachable(w)
    ensures Inv(w)
  {
    var n: nat, actions: seq<Action> :| w == Run(Start(n), actions);
    StartInv(n);
    RunInv(Start(n), actions);
  }

  /**
   Life cycles. No listener ever departs from NewAddress, Incoming and so on, ListenerClosed. Every
   one of these events carries the listener's own id, and the first two its own port. It is out of
   the queue exactly when it has closed, and then it has reported every dial it was sent.
   */
  lemma ListenersLiveInOrder(w: World, c: nat)
    requires Reachable(w)
    ensures PhaseOf(w.log, c) != Broken
    ensures forall k :: 0 <= k < |w.log| && w.log[k].channel == c && w.log[k].FromListener() ==>
              && c < |w.channels| && w.channels[c].role.ListenerOf?
              && w.log[k].id == w.channels[c].role.id
              && (w.log[k].NewAddress? || w.log[k].Incoming? ==> w.log[k].port == w.channels[c].port)
    ensures c < |w.channels| && w.channels[c].role.ListenerOf? ==>
              (PhaseOf(w.log, c) == Ended <==> !InQueue(w, w.channels[c].role.transport, c))
    ensures PhaseOf(w.log, c) == Ended ==>
              && c < |w.channels| && w.channels[c].role.ListenerOf?
              && w.channels[c].closed && w.channels[c].queue == []
  {
    ReachableInv(w);
    assert LifeOk(w, c);
    forall k | 0 <= k < |w.log| && w.log[k].FromListener() ensures NamesItsListener(w, w.log[k]) {
      assert EntryOk(w, k);
    }
  }
}
