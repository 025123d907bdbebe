/**
 What every action of the in-memory transport keeps, whatever its callers do: registry entries lead to
 channels made for their port, listeners and dialers hold on to channels made for them, and no two
 listeners share one.
 */
module MemoryCore {
  import opened Common
  import opened MemoryModel

  /** The listener found by its id is the first with it, and none is found only if there is none. */
  lemma {:induction false} PositionIsFirst(ls: seq<Listener>, id: nat)
    ensures Position(ls, id).Some? ==>
              var i := Position(ls, id).value;
              i < |ls| && ls[i].id == id && forall j :: 0 <= j < i ==> ls[j].id != id
    ensures Position(ls, id).None? ==> forall j :: 0 <= j < |ls| ==> ls[j].id != id
  {
    if ls != [] && ls[0].id != id {
      PositionIsFirst(ls[1..], id);
      assert forall j :: 0 < j < |ls| ==> ls[j] == ls[1..][j - 1];
    }
  }

  /** Every entry is a real port and leads to the channel that was made for it. */
  ghost predicate HubInv(w: World) {
    forall p :: p in w.hub ==> p != 0 && w.hub[p] < |w.channels| && w.channels[w.hub[p]].port == p
  }

  ghost predicate ListenerOk(w: World, t: nat, l: Listener) {
    && l.channel < |w.channels|
    && w.channels[l.channel].role == ListenerOf(t, l.id)
    && w.channels[l.channel].port == l.port
  }

  ghost predicate ListenersInv(w: World) {
    && (forall t, i :: 0 <= t < |w.transports| && 0 <= i < |w.transports[t]| ==>
          ListenerOk(w, t, w.transports[t][i]))
    && (forall t, i, j :: 0 <= t < |w.transports| && 0 <= i < j < |w.transports[t]| ==>
          w.transports[t][i].channel != w.transports[t][j].channel)
  }

  ghost predicate DialerOk(w: World, d: nat)
    requires d < |w.dialers|
  {
    var x := w.dialers[d];
    && x.sender < |w.channels| && w.channels[x.sender].port == x.target
    && (x.stage != Located ==> x.own < |w.channels| && w.channels[x.own].role == DialerOf(d))
  }

  /** A dialer's channel belongs to its dialer and is open only while the dialer is being made. */
  ghost predicate DialerEndOk(w: World, c: nat)
    requires c < |w.channels|
  {
    match w.channels[c].role
    case ListenerOf(_, _) => true
    case DialerOf(d) =>
      && d < |w.dialers| && w.dialers[d].stage != Located && w.dialers[d].own == c
      && (w.channels[c].closed <==> w.dialers[d].stage != Opening)
      && !w.channels[c].removed
  }

  ghost predicate DialersInv(w: World) {
    && (forall d :: 0 <= d < |w.dialers| ==> DialerOk(w, d))
    && (forall c :: 0 <= c < |w.channels| ==> DialerEndOk(w, c))
  }

  /** What is to be closed is a listener's. */
  ghost predicate BorrowInv(w: World) {
    forall t :: t in w.closing ==> w.closing[t] < |w.channels| && w.channels[w.closing[t]].role.ListenerOf?
  }

  ghost predicate CoreInv(w: World) {
    HubInv(w) && ListenersInv(w) && DialersInv(w) && BorrowInv(w)
  }

  predicate InQueue(w: World, t: nat, c: nat) {
    t < |w.transports| && exists i :: 0 <= i < |w.transports[t]| && w.transports[t][i].channel == c
  }

  // ----- rotation -----

  /** Where an element of the rotated queue came from, past the listener that moved. */
  function Source(n: nat, k: nat, x: nat): (j: nat)
    requires k < n && x < n - 1
    ensures j < n && j != k
  {
    if x < n - 1 - k then k + 1 + x else x - (n - 1 - k)
  }

  lemma RotatedElements(ls: seq<Listener>, k: nat, back: seq<Listener>)
    requires k < |ls|
    ensures |Rotated(ls, k, back)| == |back| + |ls| - 1
    ensures forall x :: 0 <= x < |back| ==> Rotated(ls, k, back)[x] == back[x]
    ensures forall x :: 0 <= x < |ls| - 1 ==> Rotated(ls, k, back)[|back| + x] == ls[Source(|ls|, k, x)]
    ensures forall j :: 0 <= j < |ls| && j != k ==>
              ls[j] == Rotated(ls, k, back)[|back| + (if j > k then j - k - 1 else |ls| - 1 - k + j)]
  {
  }

  ghost predicate DistinctChannels(ls: seq<Listener>) {
    forall i, j :: 0 <= i < j < |ls| ==> ls[i].channel != ls[j].channel
  }

  /** Rotation neither doubles nor invents a listener. */
  lemma RotatedDistinct(ls: seq<Listener>, k: nat, channels: seq<Channel>)
    requires k < |ls| && DistinctChannels(ls)
    ensures DistinctChannels(Rotated(ls, k, Kept(ls[k], channels)))
  {
    var back := Kept(ls[k], channels);
    var r := Rotated(ls, k, back);
    RotatedElements(ls, k, back);
    forall x, y | 0 <= x < y < |r| ensures r[x].channel != r[y].channel {
      var j := Source(|ls|, k, y - |back|);
      assert r[|back| + (y - |back|)] == ls[j];
      if x >= |back| {
        assert r[|back| + (x - |back|)] == ls[Source(|ls|, k, x - |back|)];
      }
    }
  }

  /** Every listener of the new queue is one of the old queue, up to having told its address. */
  lemma RotatedFromOld(ls: seq<Listener>, k: nat, channels: seq<Channel>, x: nat) returns (i: nat)
    requires k < |ls| && x < |Rotated(ls, k, Kept(ls[k], channels))|
    ensures i < |ls|
    ensures Kept(ls[k], channels) != [] && x == 0 ==>
            i == k && Rotated(ls, k, Kept(ls[k], channels))[0] == ls[k].(tellListenAddr := false)
    ensures !(Kept(ls[k], channels) != [] && x == 0) ==> i != k && Rotated(ls, k, Kept(ls[k], channels))[x] == ls[i]
  {
    var back := Kept(ls[k], channels);
    RotatedElements(ls, k, back);
    if x < |back| {
      i := k;
    } else {
      i := Source(|ls|, k, x - |back|);
      assert Rotated(ls, k, back)[|back| + (x - |back|)] == ls[i];
    }
  }

  /** And the other way: only a listener that has come to its end is missing. */
  lemma RotatedKeeps(ls: seq<Listener>, k: nat, channels: seq<Channel>, i: nat) returns (x: nat)
    requires k < |ls| && i < |ls| && (i == k ==> Kept(ls[k], channels) != [])
    ensures x < |Rotated(ls, k, Kept(ls[k], channels))|
    ensures Rotated(ls, k, Kept(ls[k], channels))[x].channel == ls[i].channel
    ensures i != k ==> Rotated(ls, k, Kept(ls[k], channels))[x] == ls[i]
  {
    var back := Kept(ls[k], channels);
    RotatedElements(ls, k, back);
    x := if i == k then 0 else |back| + (if i > k then i - k - 1 else |ls| - 1 - k + i);
  }

  /** What a poll does to the world besides the log. */
  lemma PolledWorld(w: World, t: nat, k: nat)
    requires Free(w, t) && Stop(w.transports[t], w.channels, Senders(w)) == Some(k)
    ensures var v := Apply(w, PollTransport(t));
            var l := w.transports[t][k];
            && v.hub == w.hub && v.dialers == w.dialers && v.closing == w.closing
            && v.transports == w.transports[t := Rotated(w.transports[t], k, Kept(l, w.channels))]
            && |v.channels| == |w.channels|
            && (forall c :: 0 <= c < |w.channels| ==>
                  v.channels[c] == w.channels[c].(queue := v.channels[c].queue, closed := v.channels[c].closed))
            && (forall c :: 0 <= c < |w.channels| && !(c == l.channel && Kept(l, w.channels) == []) ==>
                  v.channels[c].closed == w.channels[c].closed)
            && (l.channel < |w.channels| && Kept(l, w.channels) == [] ==>
                  v.channels[l.channel] == w.channels[l.channel].(closed := true) && w.channels[l.channel].queue == [])
            && v.log == w.log + [News(l, w.channels).1]
  {
  }

  // ----- action by action -----

  /** Channels keep their port and their role, whatever happens. */
  ghost predicate SameChannels(w: World, v: World) {
    |v.channels| >= |w.channels| &&
    forall c :: 0 <= c < |w.channels| ==>
      v.channels[c].port == w.channels[c].port && v.channels[c].role == w.channels[c].role
  }

  /** Listeners, and dialers that are left alone, stay right. */
  lemma SameUsers(w: World, v: World)
    requires CoreInv(w) && v.transports == w.transports && SameChannels(w, v)
    ensures ListenersInv(v)
    ensures forall d :: 0 <= d < |v.dialers| && d < |w.dialers| && v.dialers[d] == w.dialers[d] ==> DialerOk(v, d)
  {
    forall u, j | 0 <= u < |v.transports| && 0 <= j < |v.transports[u]|
      ensures ListenerOk(v, u, v.transports[u][j])
    {
      assert ListenerOk(w, u, w.transports[u][j]);
    }
    forall d | 0 <= d < |v.dialers| && d < |w.dialers| && v.dialers[d] == w.dialers[d] ensures DialerOk(v, d) {
      assert DialerOk(w, d);
    }
  }

  lemma ListenListeners(w: World, t: nat, id: nat, port: nat, random: nat)
    requires CoreInv(w) && t < |w.transports|
    ensures ListenersInv(ListenOn(w, t, id, port, random))
  {
    var v := ListenOn(w, t, id, port, random);
    forall u, i | 0 <= u < |v.transports| && 0 <= i < |v.transports[u]|
      ensures ListenerOk(v, u, v.transports[u][i])
    {
      if v == w || !(u == t && i == |w.transports[t]|) {
        assert v.transports[u][i] == w.transports[u][i];
        assert ListenerOk(w, u, w.transports[u][i]);
      }
    }
    forall u, i, j | 0 <= u < |v.transports| && 0 <= i < j < |v.transports[u]|
      ensures v.transports[u][i].channel != v.transports[u][j].channel
    {
      assert ListenerOk(w, u, w.transports[u][i]);
    }
  }

  lemma ListenCore(w: World, t: nat, id: nat, port: nat, random: nat)
    requires CoreInv(w) && t < |w.transports| && (port == 0 ==> Unoccupied(w, random))
    ensures CoreInv(ListenOn(w, t, id, port, random))
  {
    var v := ListenOn(w, t, id, port, random);
    ListenListeners(w, t, id, port, random);
    hide ListenersInv;
    forall d | 0 <= d < |v.dialers| ensures DialerOk(v, d) {
      assert DialerOk(w, d);
    }
    forall c | 0 <= c < |v.channels| ensures DialerEndOk(v, c) {
      assert c < |w.channels| ==> DialerEndOk(w, c);
    }
  }

  lemma RemoveCore(w: World, t: nat, i: nat)
    requires CoreInv(w) && Free(w, t) && i < |w.transports[t]|
    ensures CoreInv(RemoveAt(w, t, w.transports[t][i]))
  {
    var l := w.transports[t][i];
    var v := RemoveAt(w, t, l);
    assert ListenerOk(w, t, l);
    SameUsers(w, v);
    forall c | 0 <= c < |v.channels| ensures DialerEndOk(v, c) {
      assert DialerEndOk(w, c);
    }
  }

  lemma CloseCore(w: World, t: nat)
    requires CoreInv(w)
    ensures CoreInv(Apply(w, CloseReceiver(t)))
  {
    var v := Apply(w, CloseReceiver(t));
    SameUsers(w, v);
    forall c | 0 <= c < |v.channels| ensures DialerEndOk(v, c) {
      assert DialerEndOk(w, c);
    }
  }

  lemma LocateCore(w: World, port: nat)
    requires CoreInv(w)
    ensures CoreInv(Apply(w, Locate(port)))
  {
    var v := Apply(w, Locate(port));
    SameUsers(w, v);
    forall c | 0 <= c < |v.channels| ensures DialerEndOk(v, c) {
      assert DialerEndOk(w, c);
    }
  }

  lemma RegisterCore(w: World, d: nat, random: nat)
    requires CoreInv(w) && d < |w.dialers| && w.dialers[d].stage == Located && Unoccupied(w, random)
    ensures CoreInv(Apply(w, Register(d, random)))
  {
    var v := Apply(w, Register(d, random));
    assert DialerOk(w, d);
    SameUsers(w, v);
    forall c | 0 <= c < |v.channels| ensures DialerEndOk(v, c) {
      assert c < |w.channels| ==> DialerEndOk(w, c);
    }
  }

  lemma SettleCore(w: World, d: nat)
    requires CoreInv(w)
    ensures CoreInv(Apply(w, Settle(d)))
  {
    var v := Apply(w, Settle(d));
    assert d < |w.dialers| ==> DialerOk(w, d);
    SameUsers(w, v);
    forall c | 0 <= c < |v.channels| ensures DialerEndOk(v, c) {
      assert DialerEndOk(w, c);
    }
  }

  lemma DropCore(w: World, d: nat)
    requires CoreInv(w)
    ensures CoreInv(Apply(w, DropDialer(d)))
  {
    var v := Apply(w, DropDialer(d));
    assert d < |w.dialers| ==> DialerOk(w, d);
    SameUsers(w, v);
    forall c | 0 <= c < |v.channels| ensures DialerEndOk(v, c) {
      assert DialerEndOk(w, c);
    }
  }

  lemma PollDialCore(w: World, d: nat, room: bool)
    requires CoreInv(w) && d < |w.dialers|
    ensures CoreInv(PollDialer(w, d, room))
  {
    var v := PollDialer(w, d, room);
    assert DialerOk(w, d);
    SameUsers(w, v);
    forall c | 0 <= c < |v.channels| ensures DialerEndOk(v, c) {
      assert DialerEndOk(w, c);
    }
  }

  lemma RotatedListeners(w: World, v: World, t: nat, k: nat)
    requires CoreInv(w) && t < |w.transports| && k < |w.transports[t]| && SameChannels(w, v)
    requires v.transports == w.transports[t := Rotated(w.transports[t], k, Kept(w.transports[t][k], w.channels))]
    ensures ListenersInv(v)
  {
    hide Rotated, Kept;
    var ls := w.transports[t];
    assert DistinctChannels(ls);
    RotatedDistinct(ls, k, w.channels);
    forall u, x | 0 <= u < |v.transports| && 0 <= x < |v.transports[u]|
      ensures ListenerOk(v, u, v.transports[u][x])
    {
      if u == t {
        var i := RotatedFromOld(ls, k, w.channels, x);
        assert ListenerOk(w, t, ls[i]);
      } else {
        assert ListenerOk(w, u, w.transports[u][x]);
      }
    }
  }

  lemma PollCore(w: World, t: nat)
    requires CoreInv(w) && Free(w, t)
    ensures CoreInv(Apply(w, PollTransport(t)))
  {
    var v := Apply(w, PollTransport(t));
    var stop := Stop(w.transports[t], w.channels, Senders(w));
    if stop.None? {
      assert v == w;
    } else {
      assert ListenerOk(w, t, w.transports[t][stop.value]);
      PolledWorld(w, t, stop.value);
      RotatedListeners(w, v, t, stop.value);
      hide ListenersInv, Rotated, Kept, Senders, News, Apply;
      forall d | 0 <= d < |v.dialers| ensures DialerOk(v, d) {
        assert DialerOk(w, d);
      }
      forall c | 0 <= c < |v.channels| ensures DialerEndOk(v, c) {
        assert DialerEndOk(w, c);
      }
    }
  }

  lemma ApplyCore(w: World, a: Action)
    requires CoreInv(w)
    ensures CoreInv(Apply(w, a))
  {
    hide CoreInv, ListenOn, PollDialer, RemoveAt, PollListeners;
    match a
    case Listen(t, id, port, random) =>
      if Free(w, t) && (port == 0 ==> Unoccupied(w, random)) {
        ListenCore(w, t, id, port, random);
      }
    case RemoveListener(t, id) =>
      if Free(w, t) && Position(w.transports[t], id).Some? {
        PositionFinds(w.transports[t], id);
        RemoveCore(w, t, Position(w.transports[t], id).value);
      }
    case CloseReceiver(t) => CloseCore(w, t);
    case PollDial(d, room) =>
      if d < |w.dialers| {
        PollDialCore(w, d, room);
      }
    case PollTransport(t) =>
      if Free(w, t) {
        PollCore(w, t);
      }
    case Locate(port) => LocateCore(w, port);
    case Register(d, random) =>
      if d < |w.dialers| && w.dialers[d].stage == Located && Unoccupied(w, random) {
        RegisterCore(w, d, random);
      }
    case Settle(d) => SettleCore(w, d);
    case DropDialer(d) => DropCore(w, d);
  }

  // ----- runs -----

  function Run(w: World, actions: seq<Action>): World
    decreases |actions|
  {
    if actions == [] then w else Run(Apply(w, actions[0]), actions[1..])
  }

  lemma {:induction false} RunAppend(w: World, actions: seq<Action>, a: Action)
    ensures Run(w, actions + [a]) == Apply(Run(w, actions), a)
    decreases |actions|
  {
    hide Apply;
    if actions == [] {
      assert (actions + [a])[1..] == [];
    } else {
      assert (actions + [a])[1..] == actions[1..] + [a];
      RunAppend(Apply(w, actions[0]), actions[1..], a);
    }
  }

  /** The states of runs of any kind. */
  ghost predicate Reachable(w: World) {
    exists n: nat, actions: seq<Action> :: w == Run(Start(n), actions)
  }
}
