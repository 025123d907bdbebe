/**
 The registry of the in-memory transport over every interleaving in which each listener is removed once
 at most: it holds exactly the ports in use.
 */
module MemorySafety {
  import opened MemoryModel
  import opened MemoryCore

  // ----- the registry invariant -----

  predicate Registered(w: World, c: nat) {
    c < |w.channels| && w.channels[c].port in w.hub && w.hub[w.channels[c].port] == c
  }

  /** A listener is being removed when its port is gone and its receiver is not closed yet. */
  predicate Removing(w: World, c: nat) {
    c < |w.channels| && w.channels[c].removed && !w.channels[c].closed
  }

  /**
   A listener's channel is registered, and its listener queued, until it is removed; it is closed by
   the same removal. A dialer's channel is registered while the dialer lives.
   */
  ghost predicate ChannelOk(w: World, c: nat)
    requires c < |w.channels|
  {
    var x := w.channels[c];
    match x.role
    case ListenerOf(t, _) =>
      && (Registered(w, c) <==> !x.removed)
      && (!x.removed ==> InQueue(w, t, c))
      && (x.closed ==> x.removed)
      && (Removing(w, c) ==> t in w.closing && w.closing[t] == c)
    case DialerOf(d) =>
      d < |w.dialers| && (Registered(w, c) <==> w.dialers[d].Live())
  }

  ghost predicate ClosingInv(w: World) {
    forall t :: t in w.closing ==>
      && Removing(w, w.closing[t])
      && w.channels[w.closing[t]].role.ListenerOf? && w.channels[w.closing[t]].role.transport == t
  }

  ghost predicate UseInv(w: World) {
    ClosingInv(w) && forall c :: 0 <= c < |w.channels| ==> ChannelOk(w, c)
  }

  ghost predicate RegistryInv(w: World) {
    CoreInv(w) && UseInv(w)
  }

  /** The one thing asked of callers: a listener is removed once. */
  predicate Disciplined(w: World, a: Action) {
    a.RemoveListener? && Free(w, a.transport) && Position(w.transports[a.transport], a.id).Some? ==>
      (PositionFinds(w.transports[a.transport], a.id);
       var l := w.transports[a.transport][Position(w.transports[a.transport], a.id).value];
       l.channel < |w.channels| && !w.channels[l.channel].removed)
  }

  // ----- action by action -----

  lemma ListenUse(w: World, t: nat, id: nat, port: nat, random: nat)
    requires RegistryInv(w) && t < |w.transports| && (port == 0 ==> Unoccupied(w, random))
    ensures UseInv(ListenOn(w, t, id, port, random))
  {
    hide ListenersInv, DialersInv;
    var v := ListenOn(w, t, id, port, random);
    if v != w {
      var n := |w.channels|;
      assert forall c :: Registered(v, c) <==> Registered(w, c) || c == n;
      assert v.transports[t][|w.transports[t]|].channel == n;
      assert InQueue(v, t, n);
      forall c | 0 <= c < |v.channels| ensures ChannelOk(v, c) {
        if c < n {
          assert ChannelOk(w, c);
          if w.channels[c].role.ListenerOf? && !w.channels[c].removed {
            var u := w.channels[c].role.transport;
            var i :| 0 <= i < |w.transports[u]| && w.transports[u][i].channel == c;
            assert v.transports[u][i].channel == c;
          }
        }
      }
    }
  }

  lemma RegisterUse(w: World, d: nat, random: nat)
    requires RegistryInv(w) && d < |w.dialers| && w.dialers[d].stage == Located && Unoccupied(w, random)
    ensures UseInv(Apply(w, Register(d, random)))
  {
    hide ListenersInv;
    var v := Apply(w, Register(d, random));
    var n := |w.channels|;
    assert forall c :: Registered(v, c) <==> Registered(w, c) || c == n;
    forall c | 0 <= c < |v.channels| ensures ChannelOk(v, c) {
      if c < n {
        assert ChannelOk(w, c) && DialerEndOk(w, c);
      }
    }
  }

  /** Taking one entry out of the registry unregisters one channel and no other. */
  lemma Unregister(w: World, v: World, c: nat)
    requires HubInv(w) && Registered(w, c)
    requires v.hub == w.hub - {w.channels[c].port}
    requires |v.channels| == |w.channels|
    requires forall k :: 0 <= k < |w.channels| ==> v.channels[k].port == w.channels[k].port
    ensures forall k :: Registered(v, k) <==> Registered(w, k) && k != c
  {
    forall k: nat ensures Registered(v, k) <==> Registered(w, k) && k != c {
      if Registered(w, k) && k != c {
        assert w.channels[k].port != w.channels[c].port;
      }
    }
  }

  lemma RemoveUse(w: World, t: nat, i: nat)
    requires RegistryInv(w) && Free(w, t) && i < |w.transports[t]|
    requires !w.channels[w.transports[t][i].channel].removed
    ensures UseInv(RemoveAt(w, t, w.transports[t][i]))
    ensures w.transports[t][i].port in w.hub
  {
    var l := w.transports[t][i];
    var v := RemoveAt(w, t, l);
    assert ListenerOk(w, t, l) && ChannelOk(w, l.channel);
    hide ListenersInv, DialersInv;
    Unregister(w, v, l.channel);
    forall c | 0 <= c < |v.channels| ensures ChannelOk(v, c) {
      assert ChannelOk(w, c);
    }
  }

  /** The second half of a removal: the receiver is closed, and the transport is free again. */
  lemma CloseUse(w: World, t: nat)
    requires RegistryInv(w) && t in w.closing
    ensures UseInv(Apply(w, CloseReceiver(t)))
  {
    hide ListenersInv, DialersInv;
    var v := Apply(w, CloseReceiver(t));
    assert Removing(w, w.closing[t]) && ChannelOk(w, w.closing[t]);
    assert forall k: nat :: Registered(v, k) <==> Registered(w, k);
    forall k | 0 <= k < |v.channels| ensures ChannelOk(v, k) {
      assert ChannelOk(w, k);
    }
    forall u | u in v.closing ensures Removing(v, v.closing[u]) {
      assert ChannelOk(w, w.closing[u]);
      assert Removing(w, w.closing[u]);
    }
  }

  lemma DropUse(w: World, d: nat)
    requires RegistryInv(w) && d < |w.dialers| && w.dialers[d].Live() && w.dialers[d].stage != Opening
    ensures UseInv(Apply(w, DropDialer(d)))
    ensures AssertsHold(w, DropDialer(d))
  {
    hide ListenersInv;
    var v := Apply(w, DropDialer(d));
    assert DialerOk(w, d) && ChannelOk(w, w.dialers[d].own);
    Unregister(w, v, w.dialers[d].own);
    forall c | 0 <= c < |v.channels| ensures ChannelOk(v, c) {
      assert ChannelOk(w, c) && DialerEndOk(w, c);
    }
  }

  /** Registry, listeners and removals are left alone, and nobody starts or stops living. */
  lemma SameUse(w: World, v: World)
    requires RegistryInv(w) && v.hub == w.hub && v.transports == w.transports && v.closing == w.closing
    requires |v.channels| == |w.channels|
    requires forall c :: 0 <= c < |w.channels| ==>
               && v.channels[c] == w.channels[c].(queue := v.channels[c].queue, closed := v.channels[c].closed)
               && (w.channels[c].role.ListenerOf? ==> v.channels[c].closed == w.channels[c].closed)
    requires |v.dialers| >= |w.dialers|
    requires forall d :: 0 <= d < |w.dialers| ==> v.dialers[d].Live() == w.dialers[d].Live()
    ensures UseInv(v)
  {
    hide ListenersInv, DialersInv;
    assert forall k: nat :: Registered(v, k) <==> Registered(w, k);
    forall c | 0 <= c < |v.channels| ensures ChannelOk(v, c) {
      assert ChannelOk(w, c);
    }
    forall u | u in v.closing ensures Removing(v, v.closing[u]) {
      assert Removing(w, w.closing[u]);
    }
  }

  lemma SettleUse(w: World, d: nat)
    requires RegistryInv(w)
    ensures UseInv(Apply(w, Settle(d)))
  {
    assert d < |w.dialers| ==> DialerOk(w, d);
    hide RegistryInv;
    SameUse(w, Apply(w, Settle(d)));
  }

  lemma PollDialUse(w: World, d: nat, room: bool)
    requires RegistryInv(w) && d < |w.dialers|
    ensures UseInv(PollDialer(w, d, room))
  {
    hide RegistryInv;
    SameUse(w, PollDialer(w, d, room));
  }

  /** A listener whose transport is polled and comes to its end was removed, and its receiver closed. */
  lemma EndMeansClosed(w: World, t: nat, l: Listener)
    requires RegistryInv(w) && Free(w, t) && ListenerOk(w, t, l)
    requires Reports(l, w.channels, Senders(w)) && Kept(l, w.channels) == []
    ensures w.channels[l.channel].closed && w.channels[l.channel].removed && w.channels[l.channel].queue == []
  {
    assert ChannelOk(w, l.channel);
    assert Registered(w, l.channel) ==> l.channel in w.hub.Values;
  }

  lemma StaysQueued(w: World, t: nat, k: nat, c: nat) returns (x: nat)
    requires RegistryInv(w) && Free(w, t) && k < |w.transports[t]| && c < |w.channels| && !w.channels[c].removed
    requires Reports(w.transports[t][k], w.channels, Senders(w)) && InQueue(w, t, c)
    ensures var r := Rotated(w.transports[t], k, Kept(w.transports[t][k], w.channels));
            x < |r| && r[x].channel == c
  {
    var ls := w.transports[t];
    assert ListenerOk(w, t, ls[k]);
    if Kept(ls[k], w.channels) == [] {
      EndMeansClosed(w, t, ls[k]);
    }
    hide Rotated, Kept, Reports, Senders;
    var i :| 0 <= i < |ls| && ls[i].channel == c;
    x := RotatedKeeps(ls, k, w.channels, i);
  }

  lemma PollUse(w: World, t: nat)
    requires RegistryInv(w) && Free(w, t)
    ensures UseInv(Apply(w, PollTransport(t)))
  {
    var v := Apply(w, PollTransport(t));
    var stop := Stop(w.transports[t], w.channels, Senders(w));
    if stop.None? {
      assert v == w;
    } else {
      var k := stop.value;
      var l := w.transports[t][k];
      PolledWorld(w, t, k);
      assert ListenerOk(w, t, l);
      if Kept(l, w.channels) == [] {
        EndMeansClosed(w, t, l);
      }
      hide Rotated, Kept, Reports, Senders, News, Apply, ListenersInv, DialersInv;
      assert forall c: nat :: Registered(v, c) <==> Registered(w, c);
      forall c | 0 <= c < |v.channels| ensures ChannelOk(v, c) {
        assert ChannelOk(w, c);
        if w.channels[c].role.ListenerOf? && !w.channels[c].removed {
          var u := w.channels[c].role.transport;
          if u == t {
            var x := StaysQueued(w, t, k, c);
            assert v.transports[t][x].channel == c;
          } else {
            var i :| 0 <= i < |w.transports[u]| && w.transports[u][i].channel == c;
            assert v.transports[u][i].channel == c;
          }
        }
      }
      forall u | u in v.closing ensures Removing(v, v.closing[u]) {
        assert Removing(w, w.closing[u]);
      }
    }
  }

  /** Any action of a disciplined caller keeps the registry right, and no `debug_assert` fires. */
  lemma ApplyRegistry(w: World, a: Action)
    requires RegistryInv(w) && Disciplined(w, a)
    ensures RegistryInv(Apply(w, a)) && AssertsHold(w, a)
  {
    hide CoreInv, UseInv, ListenOn, PollDialer, RemoveAt, PollListeners;
    ApplyCore(w, a);
    match a
    case Listen(t, id, port, random) =>
      if Free(w, t) && (port == 0 ==> Unoccupied(w, random)) {
        ListenUse(w, t, id, port, random);
      }
    case RemoveListener(t, id) =>
      if Free(w, t) && Position(w.transports[t], id).Some? {
        PositionFinds(w.transports[t], id);
        RemoveUse(w, t, Position(w.transports[t], id).value);
      }
    case CloseReceiver(t) =>
      if t in w.closing {
        CloseUse(w, t);
      }
    case Locate(port) => SameUse(w, Apply(w, a));
    case Register(d, random) =>
      if d < |w.dialers| && w.dialers[d].stage == Located && Unoccupied(w, random) {
        RegisterUse(w, d, random);
      }
    case Settle(d) => SettleUse(w, d);
    case PollDial(d, room) =>
      if d < |w.dialers| {
        PollDialUse(w, d, room);
      }
    case DropDialer(d) =>
      if d < |w.dialers| && w.dialers[d].Live() && w.dialers[d].stage != Opening {
        DropUse(w, d);
      }
    case PollTransport(t) =>
      if Free(w, t) {
        PollUse(w, t);
      }
  }

  // ----- runs -----

  ghost predicate DisciplinedRun(w: World, actions: seq<Action>)
    decreases |actions|
  {
    actions == [] || (Disciplined(w, actions[0]) && DisciplinedRun(Apply(w, actions[0]), actions[1..]))
  }

  /** The states of disciplined runs. */
  ghost predicate ReachableDisciplined(w: World) {
    exists n: nat, actions: seq<Action> :: DisciplinedRun(Start(n), actions) && w == Run(Start(n), actions)
  }

  lemma {:induction false} RunRegistry(w: World, actions: seq<Action>)
    requires RegistryInv(w) && DisciplinedRun(w, actions)
    ensures RegistryInv(Run(w, actions))
    decreases |actions|
  {
    hide RegistryInv, Apply, Disciplined;
    if actions == [] {
    } else {
      ApplyRegistry(w, actions[0]);
      RunRegistry(Apply(w, actions[0]), actions[1..]);
    }
  }

  lemma DisciplinedRegistry(w: World)
    requires ReachableDisciplined(w)
    ensures RegistryInv(w) && Reachable(w)
  {
    var n: nat, actions: seq<Action> :| DisciplinedRun(Start(n), actions) && w == Run(Start(n), actions);
    assert RegistryInv(Start(n));
    RunRegistry(Start(n), actions);
  }

  // ----- dropping a transport -----

  /** Its listeners go with their receivers; there is no `Drop` that would unregister their ports. */
  function DropTransport(w: World, t: nat): World
    requires t < |w.transports|
  {
    w.(transports := w.transports[t := []],
       channels := seq(|w.channels|, c requires 0 <= c < |w.channels| =>
                         if InQueue(w, t, c) then w.channels[c].(closed := true, queue := []) else w.channels[c]))
  }

  lemma TransportDropCore(w: World, t: nat)
    requires CoreInv(w) && t < |w.transports|
    ensures CoreInv(DropTransport(w, t))
  {
    var v := DropTransport(w, t);
    forall u, j | 0 <= u < |v.transports| && 0 <= j < |v.transports[u]|
      ensures ListenerOk(v, u, v.transports[u][j])
    {
      assert ListenerOk(w, u, w.transports[u][j]);
    }
    forall d | 0 <= d < |v.dialers| ensures DialerOk(v, d) {
      assert DialerOk(w, d);
    }
    forall c | 0 <= c < |v.channels| ensures DialerEndOk(v, c) {
      assert DialerEndOk(w, c);
      if InQueue(w, t, c) {
        var i :| 0 <= i < |w.transports[t]| && w.transports[t][i].channel == c;
        assert ListenerOk(w, t, w.transports[t][i]);
      }
    }
  }

  /** A transport can go without leaving ports behind if and only if all its listeners were removed. */
  lemma DroppingATransport(w: World, t: nat)
    requires RegistryInv(w) && Free(w, t)
    ensures RegistryInv(DropTransport(w, t)) <==>
            forall i :: 0 <= i < |w.transports[t]| ==> w.channels[w.transports[t][i].channel].removed
  {
    var v := DropTransport(w, t);
    assert forall c: nat :: Registered(v, c) <==> Registered(w, c);
    if i :| 0 <= i < |w.transports[t]| && !w.channels[w.transports[t][i].channel].removed {
      assert ListenerOk(w, t, w.transports[t][i]);
      assert !ChannelOk(v, w.transports[t][i].channel);
    } else {
      TransportDropCore(w, t);
      forall c | 0 <= c < |v.channels| ensures ChannelOk(v, c) {
        assert ChannelOk(w, c);
      }
      forall u | u in v.closing ensures Removing(v, v.closing[u]) {
        assert Removing(w, w.closing[u]);
      }
    }
  }
}
