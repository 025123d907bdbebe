/**
 Round-robin polling of the listeners of a transport: nobody with news is passed over for long.
 */
module MemoryFairness {
  import opened MemoryModel
  import opened MemoryCore

  /** Nobody can send to the channel: no entry leads to it, and no dialer that may still send holds it. */
  ghost predicate Forsaken(w: World, c: nat) {
    && (forall p :: p in w.hub ==> w.hub[p] != c)
    && forall d :: 0 <= d < |w.dialers| && w.dialers[d].sender == c ==> w.dialers[d].stage in {Connected, Dropped}
  }

  /** Its address is untold, a dial is waiting, or its channel is at its end. */
  ghost predicate HasNews(w: World, l: Listener) {
    || l.tellListenAddr
    || (l.channel < |w.channels| && (w.channels[l.channel].queue != [] || w.channels[l.channel].closed))
    || Forsaken(w, l.channel)
  }

  lemma NewsIsReported(w: World, l: Listener)
    requires l.channel < |w.channels|
    ensures HasNews(w, l) <==> Reports(l, w.channels, Senders(w))
  {
    assert l.channel in w.hub.Values <==> exists p :: p in w.hub && w.hub[p] == l.channel;
    assert Forsaken(w, l.channel) <==> l.channel !in Senders(w);
  }

  lemma AllNewsIsReported(w: World, t: nat)
    requires CoreInv(w) && t < |w.transports|
    ensures forall i :: 0 <= i < |w.transports[t]| ==>
              (HasNews(w, w.transports[t][i]) <==> Reports(w.transports[t][i], w.channels, Senders(w)))
  {
    forall i | 0 <= i < |w.transports[t]|
      ensures HasNews(w, w.transports[t][i]) <==> Reports(w.transports[t][i], w.channels, Senders(w))
    {
      assert ListenerOk(w, t, w.transports[t][i]);
      NewsIsReported(w, w.transports[t][i]);
    }
  }

  /** `poll` is Pending, and changes nothing, just when it has examined every listener and none had anything. */
  lemma PendingMeansNoNews(w: World, t: nat)
    requires CoreInv(w) && Free(w, t)
    ensures Apply(w, PollTransport(t)).log == w.log <==>
            forall i :: 0 <= i < |w.transports[t]| ==> !HasNews(w, w.transports[t][i])
    ensures Apply(w, PollTransport(t)).log == w.log ==> Apply(w, PollTransport(t)) == w
  {
    hide HasNews, Reports, CoreInv;
    AllNewsIsReported(w, t);
  }

  /**
   One poll: either listener i is the one reported, or it stays, unchanged, and is now strictly nearer
   to the end of the queue that `poll` starts from.
   */
  lemma PollBringsNearer(ls: seq<Listener>, channels: seq<Channel>, senders: set<nat>, i: nat) returns (x: nat)
    requires i < |ls| && Reports(ls[i], channels, senders)
    ensures var p := PollListeners(ls, channels, senders);
            && p.event.Some?
            && (|| p.event.value.channel == ls[i].channel
                || (x < |p.listeners| && p.listeners[x] == ls[i] && |p.listeners| - x < |ls| - i))
    ensures PollListeners(ls, channels, senders).event.value.FromListener()
  {
    var k := Stop(ls, channels, senders).value;
    x := 0;
    if k != i {
      var back := Kept(ls[k], channels);
      RotatedElements(ls, k, back);
      x := |back| + (|ls| - 1 - k + i);
    }
  }

  /** News does not go away by what others do: a queue only grows, closed stays closed, and no sender comes back. */
  lemma NewsStays(w: World, v: World, l: Listener)
    requires HasNews(w, l) && l.channel < |w.channels| <= |v.channels|
    requires w.channels[l.channel].queue <= v.channels[l.channel].queue
    requires w.channels[l.channel].closed ==> v.channels[l.channel].closed
    requires l.channel !in Senders(w) ==> l.channel !in Senders(v)
    ensures HasNews(v, l)
  {
  }

  /** An address that is not registered and that no dialer holds cannot be dialed any more. */
  lemma NoSenderComesBack(w: World, a: Action, c: nat)
    requires HubInv(w) && c < |w.channels| && c !in Senders(w)
    ensures c !in Senders(Apply(w, a))
  {
    hide PollListeners;
    if a.RemoveListener? && Free(w, a.transport) && Position(w.transports[a.transport], a.id).Some? {
      PositionFinds(w.transports[a.transport], a.id);
    }
  }

  lemma OtherPolled(w: World, u: nat, l: Listener)
    requires CoreInv(w) && HasNews(w, l) && l.channel < |w.channels|
    requires w.channels[l.channel].role.ListenerOf? && (w.channels[l.channel].role.transport == u ==> !Free(w, u))
    ensures HasNews(Apply(w, PollTransport(u)), l)
  {
    if Free(w, u) && Stop(w.transports[u], w.channels, Senders(w)).Some? {
      assert ListenerOk(w, u, w.transports[u][Stop(w.transports[u], w.channels, Senders(w)).value]);
    }
  }

  lemma NewsLasts(w: World, a: Action, t: nat, l: Listener)
    requires CoreInv(w) && t < |w.transports| && ListenerOk(w, t, l) && HasNews(w, l)
    requires a != PollTransport(t) || !Free(w, t)
    ensures HasNews(Apply(w, a), l)
  {
    if a.PollTransport? {
      OtherPolled(w, a.transport, l);
    } else {
      var v := Apply(w, a);
      assert a.Settle? && a.dialer < |w.dialers| ==> DialerOk(w, a.dialer);
      if l.channel !in Senders(w) {
        NoSenderComesBack(w, a, l.channel);
      }
      hide CoreInv, Senders, HasNews, PollListeners;
      if a.RemoveListener? && Free(w, a.transport) && Position(w.transports[a.transport], a.id).Some? {
        PositionFinds(w.transports[a.transport], a.id);
      }
      NewsStays(w, v, l);
    }
  }

  /** How often the transport is polled in a run; one in the middle of a removal cannot be. */
  function Polls(w: World, actions: seq<Action>, t: nat): nat
    decreases |actions|
  {
    if actions == [] then 0
    else (if actions[0] == PollTransport(t) && Free(w, t) then 1 else 0) + Polls(Apply(w, actions[0]), actions[1..], t)
  }

  /** How many listeners join the transport in a run. */
  function Joins(w: World, actions: seq<Action>, t: nat): nat
    decreases |actions|
  {
    if actions == [] then 0
    else
      var v := Apply(w, actions[0]);
      (if t < |w.transports| && t < |v.transports| && |v.transports[t]| > |w.transports[t]| then 1 else 0) +
      Joins(v, actions[1..], t)
  }

  /** Between two polls the queue only grows, by one at the back. */
  lemma QueueBetweenPolls(w: World, a: Action, t: nat)
    requires t < |w.transports| && (a != PollTransport(t) || !Free(w, t))
    ensures var v := Apply(w, a);
            && |v.transports| == |w.transports|
            && |w.transports[t]| <= |v.transports[t]| <= |w.transports[t]| + 1
            && v.transports[t][..|w.transports[t]|] == w.transports[t]
  {
    hide PollListeners;
    var v := Apply(w, a);
    if a.RemoveListener? && Free(w, a.transport) && Position(w.transports[a.transport], a.id).Some? {
      PositionFinds(w.transports[a.transport], a.id);
      assert v == RemoveAt(w, a.transport, w.transports[a.transport][Position(w.transports[a.transport], a.id).value]);
    }
  }

  lemma LogStep(w: World, a: Action)
    ensures |Apply(w, a).log| >= |w.log| && Apply(w, a).log[..|w.log|] == w.log
  {
    hide PollListeners;
    if a.RemoveListener? && Free(w, a.transport) && Position(w.transports[a.transport], a.id).Some? {
      PositionFinds(w.transports[a.transport], a.id);
    }
  }

  lemma {:induction false} LogGrows(w: World, actions: seq<Action>)
    ensures |Run(w, actions).log| >= |w.log| && Run(w, actions).log[..|w.log|] == w.log
    decreases |actions|
  {
    if actions == [] {
    } else {
      var v := Apply(w, actions[0]);
      assert |v.log| >= |w.log| && v.log[..|w.log|] == w.log by { LogStep(w, actions[0]); }
      LogGrows(v, actions[1..]);
      assert Run(w, actions).log[..|w.log|] == Run(v, actions[1..]).log[..|v.log|][..|w.log|];
    }
  }

  ghost predicate Heard(log: seq<Event>, from: nat, c: nat) {
    exists k :: from <= k < |log| && log[k].channel == c && log[k].FromListener()
  }

  /**
   Fairness. A listener with something to report has an event of its own by the time its transport
   has been polled as often as there are listeners from it to the back of the queue, itself
   included, and once more for each listener that joined in the meantime, because those join at the
   back, where `poll` starts. Whatever else happens in between does not matter.
   */
  lemma {:induction false} EveryListenerGetsItsTurn(w: World, actions: seq<Action>, t: nat, i: nat)
    requires CoreInv(w) && t < |w.transports| && i < |w.transports[t]|
    requires HasNews(w, w.transports[t][i])
    requires Polls(w, actions, t) >= |w.transports[t]| - i + Joins(w, actions, t)
    ensures Heard(Run(w, actions).log, |w.log|, w.transports[t][i].channel)
    decreases |actions|
  {
    if actions == [] {
    } else {
      var l := w.transports[t][i];
      var a, rest := actions[0], actions[1..];
      var v := Apply(w, a);
      ApplyCore(w, a);
      LogStep(w, a);
      LogGrows(v, rest);
      if a == PollTransport(t) && Free(w, t) {
        PollTurn(w, actions, t, i);
      } else {
        assert ListenerOk(w, t, l);
        NewsLasts(w, a, t, l);
        QueueBetweenPolls(w, a, t);
        assert v.transports[t][i] == v.transports[t][..|w.transports[t]|][i] == l;
        hide CoreInv, Apply, HasNews;
        EveryListenerGetsItsTurn(v, rest, t, i);
      }
    }
  }

  /** Polling past a listener leaves it its news. */
  lemma OthersPolled(w: World, t: nat, i: nat)
    requires CoreInv(w) && Free(w, t) && i < |w.transports[t]| && HasNews(w, w.transports[t][i])
    requires PollListeners(w.transports[t], w.channels, Senders(w)).event.Some?
    requires PollListeners(w.transports[t], w.channels, Senders(w)).event.value.channel != w.transports[t][i].channel
    ensures HasNews(Apply(w, PollTransport(t)), w.transports[t][i])
  {
    var k := Stop(w.transports[t], w.channels, Senders(w)).value;
    assert ListenerOk(w, t, w.transports[t][k]) && ListenerOk(w, t, w.transports[t][i]);
    assert Senders(Apply(w, PollTransport(t))) == Senders(w);
  }

  lemma {:induction false} PollTurn(w: World, actions: seq<Action>, t: nat, i: nat)
    requires CoreInv(w) && Free(w, t) && i < |w.transports[t]|
    requires HasNews(w, w.transports[t][i])
    requires Polls(w, actions, t) >= |w.transports[t]| - i + Joins(w, actions, t)
    requires actions != [] && actions[0] == PollTransport(t)
    requires CoreInv(Apply(w, actions[0]))
    ensures Heard(Run(w, actions).log, |w.log|, w.transports[t][i].channel)
    decreases |actions|, 0
  {
    var l := w.transports[t][i];
    var rest := actions[1..];
    var v := Apply(w, actions[0]);
    var x := PollBringsNearer(w.transports[t], w.channels, Senders(w), i);
    var e := PollListeners(w.transports[t], w.channels, Senders(w)).event.value;
    LogGrows(v, rest);
    assert v.log == w.log + [e];
    if e.channel == l.channel {
      assert Run(w, actions).log[|w.log|] == Run(v, rest).log[..|v.log|][|w.log|] == e;
    } else {
      assert HasNews(v, l) by { OthersPolled(w, t, i); }
      assert v.transports[t][x] == l && |v.transports[t]| - x < |w.transports[t]| - i;
      hide CoreInv, HasNews;
      EveryListenerGetsItsTurn(v, rest, t, x);
    }
  }
}
