/**
 Where the events of the in-memory transport come from, traced back over the run to the actions that
 caused them: to the `listen_on` that made the listener, to the moment the dialer looked the port up,
 and to the moment it drew its own port.
 */
module MemoryOrigins {
  import opened MemoryModel
  import opened MemoryCore
  import opened MemorySafety
  import opened MemoryDelivery
  import opened MemoryConservation

  function Before(n: nat, actions: seq<Action>, i: nat): World
    requires i <= |actions|
  {
    Run(Start(n), actions[..i])
  }

  /** Action i is the lookup of dialer d: the registry led from port p to channel c at that moment. */
  ghost predicate LookedUpAt(n: nat, actions: seq<Action>, i: nat, d: nat, p: nat, c: nat) {
    && i < |actions| && actions[i] == Locate(p)
    && var v := Before(n, actions, i);
       |v.dialers| == d && p in v.hub && v.hub[p] == c
  }

  /** Action i gives dialer d the port p, which was free at that moment. */
  ghost predicate DrewAt(n: nat, actions: seq<Action>, i: nat, d: nat, p: nat) {
    && i < |actions| && actions[i] == Register(d, p)
    && var v := Before(n, actions, i);
       d < |v.dialers| && v.dialers[d].stage == Located && Unoccupied(v, p)
  }

  /** Action i makes channel c, for a listener with that id, on the port asked for or a free one drawn. */
  ghost predicate ListenedAt(n: nat, actions: seq<Action>, i: nat, c: nat, t: nat, id: nat, port: nat) {
    && i < |actions| && actions[i].Listen? && actions[i].transport == t && actions[i].id == id
    && var v := Before(n, actions, i);
       && Free(v, t) && |v.channels| == c && port !in v.hub
       && (if actions[i].port != 0 then port == actions[i].port else port == actions[i].random && port != 0)
  }

  // ----- one action further -----

  lemma Earlier(n: nat, actions: seq<Action>, a: Action, i: nat)
    requires i <= |actions|
    ensures Before(n, actions + [a], i) == Before(n, actions, i)
    ensures i < |actions| ==> (actions + [a])[i] == actions[i]
  {
    assert (actions + [a])[..i] == actions[..i];
  }

  lemma LookupStays(n: nat, actions: seq<Action>, a: Action, i: nat, d: nat, p: nat, c: nat)
    ensures LookedUpAt(n, actions, i, d, p, c) ==> LookedUpAt(n, actions + [a], i, d, p, c)
  {
    if LookedUpAt(n, actions, i, d, p, c) {
      Earlier(n, actions, a, i);
    }
  }

  lemma DrawStays(n: nat, actions: seq<Action>, a: Action, i: nat, d: nat, p: nat)
    ensures DrewAt(n, actions, i, d, p) ==> DrewAt(n, actions + [a], i, d, p)
  {
    if DrewAt(n, actions, i, d, p) {
      Earlier(n, actions, a, i);
    }
  }

  lemma ListenStays(n: nat, actions: seq<Action>, a: Action, i: nat, c: nat, t: nat, id: nat, port: nat)
    ensures ListenedAt(n, actions, i, c, t, id, port) ==> ListenedAt(n, actions + [a], i, c, t, id, port)
  {
    if ListenedAt(n, actions, i, c, t, id, port) {
      Earlier(n, actions, a, i);
    }
  }

  lemma PollStep(w: World, t: nat)
    ensures var v := Apply(w, PollTransport(t));
            && v.dialers == w.dialers && |v.channels| == |w.channels|
            && forall c :: 0 <= c < |w.channels| ==>
                 && v.channels[c] == w.channels[c].(queue := v.channels[c].queue, closed := v.channels[c].closed)
                 && (w.channels[c].closed ==> v.channels[c].closed)
  {
    if Free(w, t) && Stop(w.transports[t], w.channels, Senders(w)).Some? {
      PolledWorld(w, t, Stop(w.transports[t], w.channels, Senders(w)).value);
    }
  }

  /** What an action leaves as it is, and the only ones that add to it. */
  lemma Step(w: World, a: Action)
    ensures var v := Apply(w, a);
            && |w.dialers| <= |v.dialers| && |w.channels| <= |v.channels|
            && (forall d :: 0 <= d < |w.dialers| ==>
                  v.dialers[d].target == w.dialers[d].target && v.dialers[d].sender == w.dialers[d].sender)
            && (forall d :: 0 <= d < |w.dialers| && w.dialers[d].stage != Located ==>
                  v.dialers[d].stage != Located && v.dialers[d].own == w.dialers[d].own)
            && (forall d :: 0 <= d < |w.dialers| && w.dialers[d].stage == Located && v.dialers[d].stage != Located ==>
                  a.Register? && a.dialer == d && Unoccupied(w, a.random) &&
                  v.dialers[d].own == |w.channels| < |v.channels| && v.channels[|w.channels|].port == a.random)
            && (forall c :: 0 <= c < |w.channels| ==>
                  v.channels[c].port == w.channels[c].port && v.channels[c].role == w.channels[c].role)
            && (forall c :: 0 <= c < |w.channels| && w.channels[c].closed ==> v.channels[c].closed)
  {
    hide PollListeners;
    if a.RemoveListener? && Free(w, a.transport) && Position(w.transports[a.transport], a.id).Some? {
      PositionFinds(w.transports[a.transport], a.id);
    } else if a.PollTransport? {
      PollStep(w, a.transport);
    }
  }

  /** Dialers are added by lookups only, channels of listeners by `listen_on` only. */
  lemma Additions(w: World, a: Action)
    ensures var v := Apply(w, a);
            && (|v.dialers| > |w.dialers| ==>
                  a.Locate? && a.port in w.hub && v.dialers == w.dialers + [Dialer(a.port, w.hub[a.port], 0, Located)])
            && (|v.channels| > |w.channels| && v.channels[|w.channels|].role.ListenerOf? ==>
                  && a.Listen? && Free(w, a.transport) && v.channels[|w.channels|].role == ListenerOf(a.transport, a.id)
                  && v.channels[|w.channels|].port == (if a.port != 0 then a.port else a.random)
                  && v.channels[|w.channels|].port !in w.hub && (a.port == 0 ==> a.random != 0))
            && |v.channels| <= |w.channels| + 1
  {
    hide PollListeners;
    if a.RemoveListener? && Free(w, a.transport) && Position(w.transports[a.transport], a.id).Some? {
      PositionFinds(w.transports[a.transport], a.id);
    } else if a.PollTransport? {
      PollStep(w, a.transport);
    }
  }

  // ----- back to the cause, over every run -----

  lemma {:induction false} Lookups(n: nat, actions: seq<Action>, d: nat)
    requires d < |Run(Start(n), actions).dialers|
    ensures var x := Run(Start(n), actions).dialers[d];
            exists i :: LookedUpAt(n, actions, i, d, x.target, x.sender)
    decreases |actions|
  {
    if actions == [] {
    } else {
      var init, a := actions[..|actions| - 1], actions[|actions| - 1];
      assert actions == init + [a];
      RunAppend(Start(n), init, a);
      var w, v := Run(Start(n), init), Run(Start(n), actions);
      Step(w, a);
      Additions(w, a);
      hide Apply;
      if d < |w.dialers| {
        Lookups(n, init, d);
        var i :| LookedUpAt(n, init, i, d, w.dialers[d].target, w.dialers[d].sender);
        LookupStays(n, init, a, i, d, w.dialers[d].target, w.dialers[d].sender);
      } else {
        assert actions[..|init|] == init;
        assert LookedUpAt(n, actions, |init|, d, v.dialers[d].target, v.dialers[d].sender);
      }
    }
  }

  lemma {:induction false} Draws(n: nat, actions: seq<Action>, d: nat)
    requires d < |Run(Start(n), actions).dialers| && Run(Start(n), actions).dialers[d].stage != Located
    ensures var w := Run(Start(n), actions);
            w.dialers[d].own < |w.channels| && exists i :: DrewAt(n, actions, i, d, w.channels[w.dialers[d].own].port)
    decreases |actions|
  {
    if actions == [] {
    } else {
      var init, a := actions[..|actions| - 1], actions[|actions| - 1];
      assert actions == init + [a];
      RunAppend(Start(n), init, a);
      var w, v := Run(Start(n), init), Run(Start(n), actions);
      Step(w, a);
      Additions(w, a);
      hide Apply;
      if d < |w.dialers| && w.dialers[d].stage != Located {
        Draws(n, init, d);
        var p := w.channels[w.dialers[d].own].port;
        var i :| DrewAt(n, init, i, d, p);
        DrawStays(n, init, a, i, d, p);
        assert DrewAt(n, actions, i, d, v.channels[v.dialers[d].own].port);
      } else {
        assert actions[..|init|] == init;
        assert DrewAt(n, actions, |init|, d, v.channels[v.dialers[d].own].port);
      }
    }
  }

  lemma {:induction false} Listens(n: nat, actions: seq<Action>, c: nat)
    requires c < |Run(Start(n), actions).channels| && Run(Start(n), actions).channels[c].role.ListenerOf?
    ensures var x := Run(Start(n), actions).channels[c];
            exists i :: ListenedAt(n, actions, i, c, x.role.transport, x.role.id, x.port)
    decreases |actions|
  {
    if actions == [] {
    } else {
      var init, a := actions[..|actions| - 1], actions[|actions| - 1];
      assert actions == init + [a];
      RunAppend(Start(n), init, a);
      var w, v := Run(Start(n), init), Run(Start(n), actions);
      Step(w, a);
      Additions(w, a);
      hide Apply;
      if c < |w.channels| {
        Listens(n, init, c);
        var x := w.channels[c];
        var i :| ListenedAt(n, init, i, c, x.role.transport, x.role.id, x.port);
        ListenStays(n, init, a, i, c, x.role.transport, x.role.id, x.port);
        assert ListenedAt(n, actions, i, c, v.channels[c].role.transport, v.channels[c].role.id, v.channels[c].port);
      } else {
        assert actions[..|init|] == init;
        assert ListenedAt(n, actions, |init|, c, v.channels[c].role.transport, v.channels[c].role.id,
            v.channels[c].port);
      }
    }
  }

  // ----- the events -----

  /**
   Listeners go by what `listen_on` was given: every event of a listener goes back to one call, whose
   id it carries and, if it names a port, the port that call registered.
   */
  lemma EventsComeFromTheirListen(n: nat, actions: seq<Action>, k: nat)
    requires k < |Run(Start(n), actions).log|
    requires Run(Start(n), actions).log[k].FromListener()
    ensures var w := Run(Start(n), actions);
            var e := w.log[k];
            && e.channel < |w.channels|
            && (e.NewAddress? || e.Incoming? ==> e.port == w.channels[e.channel].port)
            && exists i, t :: ListenedAt(n, actions, i, e.channel, t, e.id, w.channels[e.channel].port)
  {
    var w := Run(Start(n), actions);
    StartInv(n);
    RunInv(Start(n), actions);
    assert EntryOk(w, k);
    Listens(n, actions, w.log[k].channel);
  }

  /**
   Deliveries. Every incoming dial goes back to one lookup: at that moment the registry led from the
   listener's port to this very listener's channel, so a later registrant of the port never sees
   it. It comes in on the listener's own address, and no dial comes in twice.
   */
  lemma DialReachesTheListenerItLookedUp(n: nat, actions: seq<Action>, k: nat)
    requires k < |Run(Start(n), actions).log|
    requires Run(Start(n), actions).log[k].Incoming?
    ensures var w := Run(Start(n), actions);
            var e := w.log[k];
            && (exists i :: LookedUpAt(n, actions, i, e.dial, e.port, e.channel))
            && e.channel < |w.channels| && w.channels[e.channel].port == e.port
            && forall j :: 0 <= j < |w.log| && j != k && w.log[j].Incoming? ==> w.log[j].dial != e.dial
  {
    var w := Run(Start(n), actions);
    StartInv(n);
    RunInv(Start(n), actions);
    assert EntryOk(w, k);
    assert DialerOk(w, w.log[k].dial);
    Lookups(n, actions, w.log[k].dial);
  }

  // ----- dials from the listener's own port -----

  /** The channel is closed and the dial, addressed to it, has not been sent. */
  ghost predicate TooLate(w: World, d: nat, c: nat) {
    && c < |w.channels| && w.channels[c].closed && d < |w.dialers| && w.dialers[d].sender == c
    && forall k :: 0 <= k < |w.log| && w.log[k].Sent? ==> w.log[k].dial != d
  }

  lemma StaysTooLate(w: World, a: Action, d: nat, c: nat)
    requires TooLate(w, d, c)
    ensures TooLate(Apply(w, a), d, c)
  {
    Step(w, a);
    var v := Apply(w, a);
    if a.PollTransport? {
      if Free(w, a.transport) && Stop(w.transports[a.transport], w.channels, Senders(w)).Some? {
        assert v.log == w.log + [News(w.transports[a.transport][Stop(w.transports[a.transport], w.channels,
            Senders(w)).value], w.channels).1];
      }
    } else if a.RemoveListener? && Free(w, a.transport) && Position(w.transports[a.transport], a.id).Some? {
      PositionFinds(w.transports[a.transport], a.id);
      assert v.log == w.log;
    }
  }

  lemma {:induction false} NeverSent(w: World, actions: seq<Action>, d: nat, c: nat)
    requires TooLate(w, d, c)
    ensures TooLate(Run(w, actions), d, c)
    decreases |actions|
  {
    hide TooLate, Apply;
    if actions == [] {
    } else {
      StaysTooLate(w, actions[0], d, c);
      NeverSent(Apply(w, actions[0]), actions[1..], d, c);
    }
  }

  /** Who a dialer dials, the port it drew, and who a channel was made for never change. */
  lemma {:induction false} RunKeeps(w: World, actions: seq<Action>)
    ensures var v := Run(w, actions);
            && |w.dialers| <= |v.dialers| && |w.channels| <= |v.channels|
            && (forall d :: 0 <= d < |w.dialers| ==>
                  v.dialers[d].target == w.dialers[d].target && v.dialers[d].sender == w.dialers[d].sender)
            && (forall d :: 0 <= d < |w.dialers| && w.dialers[d].stage != Located ==>
                  v.dialers[d].stage != Located && v.dialers[d].own == w.dialers[d].own)
            && (forall c :: 0 <= c < |w.channels| ==>
                  v.channels[c].port == w.channels[c].port && v.channels[c].role == w.channels[c].role)
    decreases |actions|
  {
    hide Apply;
    if actions == [] {
    } else {
      Step(w, actions[0]);
      RunKeeps(Apply(w, actions[0]), actions[1..]);
    }
  }

  lemma {:induction false} RunSplit(w: World, actions: seq<Action>, i: nat)
    requires i <= |actions|
    ensures Run(w, actions) == Run(Run(w, actions[..i]), actions[i..])
    decreases |actions|
  {
    hide Apply;
    if i == 0 {
      assert actions[..0] == [] && actions[0..] == actions;
    } else {
      assert actions[..i][1..] == actions[1..][..i - 1] && actions[1..][i - 1..] == actions[i..];
      RunSplit(Apply(w, actions[0]), actions[1..], i - 1);
    }
  }

  lemma {:induction false} ReceivedIsIn(log: seq<Event>, k: nat)
    ensures k < |log| && log[k].Incoming? ==> Message(log[k].dial, log[k].sendBack) in ReceivedOn(log, log[k].channel)
    decreases |log|
  {
    if k < |log| && log[k].Incoming? {
      if k < |log| - 1 {
        ReceivedIsIn(log[..|log| - 1], k);
      }
    }
  }

  lemma {:induction false} SentIsIn(log: seq<Event>, c: nat, m: Message)
    ensures m in SentOn(log, c) ==> exists j :: 0 <= j < |log| && log[j] == Sent(c, m.dial, m.dialPort)
    decreases |log|
  {
    if m in SentOn(log, c) {
      var init := log[..|log| - 1];
      if m in SentOn(init, c) {
        SentIsIn(init, c, m);
        var j :| 0 <= j < |init| && init[j] == Sent(c, m.dial, m.dialPort);
        assert log[j] == init[j];
      } else {
        assert log[|log| - 1] == Sent(c, m.dial, m.dialPort);
      }
    }
  }

  /** A dial that came in had been sent. */
  lemma IncomingWasSent(n: nat, actions: seq<Action>, k: nat)
    requires k < |Run(Start(n), actions).log| && Run(Start(n), actions).log[k].Incoming?
    ensures var w := Run(Start(n), actions);
            exists j :: 0 <= j < |w.log| && w.log[j] == Sent(w.log[k].channel, w.log[k].dial, w.log[k].sendBack)
  {
    var w := Run(Start(n), actions);
    var e := w.log[k];
    ReceivedIsIn(w.log, k);
    DialsAreConserved(n, actions, e.channel);
    assert Message(e.dial, e.sendBack) in SentOn(w.log, e.channel);
    SentIsIn(w.log, e.channel, Message(e.dial, e.sendBack));
  }

  /** Dialers that have not finished have sent nothing. */
  ghost predicate Unsent(w: World) {
    forall k :: 0 <= k < |w.log| && w.log[k].Sent? ==>
      w.log[k].dial < |w.dialers| && (w.dialers[w.log[k].dial].stage == Connected
          || w.dialers[w.log[k].dial].stage == Dropped)
  }

  lemma UnsentStep(w: World, a: Action)
    requires Unsent(w)
    ensures Unsent(Apply(w, a))
  {
    var v := Apply(w, a);
    if a.PollTransport? {
      if Free(w, a.transport) && Stop(w.transports[a.transport], w.channels, Senders(w)).Some? {
        assert v.log == w.log + [News(w.transports[a.transport][Stop(w.transports[a.transport], w.channels,
            Senders(w)).value], w.channels).1];
      }
    } else if a.RemoveListener? && Free(w, a.transport) && Position(w.transports[a.transport], a.id).Some? {
      PositionFinds(w.transports[a.transport], a.id);
      assert v.log == w.log;
    }
  }

  lemma {:induction false} RunUnsent(w: World, actions: seq<Action>)
    requires Unsent(w)
    ensures Unsent(Run(w, actions))
    decreases |actions|
  {
    hide Unsent, Apply;
    if actions == [] {
    } else {
      UnsentStep(w, actions[0]);
      RunUnsent(Apply(w, actions[0]), actions[1..]);
    }
  }

  /** The port a dialer drew is the one its dial comes from. */
  lemma DrawnPortIsSendBack(n: nat, actions: seq<Action>, i: nat, d: nat, p: nat)
    ensures DrewAt(n, actions, i, d, p) ==>
              var w := Run(Start(n), actions);
              d < |w.dialers| && w.dialers[d].own < |w.channels| && w.channels[w.dialers[d].own].port == p
  {
    if DrewAt(n, actions, i, d, p) {
      var v := Before(n, actions, i);
      RunAppend(Start(n), actions[..i], actions[i]);
      assert actions[..i + 1] == actions[..i] + [actions[i]];
      RunSplit(Start(n), actions, i + 1);
      RunKeeps(Apply(v, actions[i]), actions[i + 1..]);
    }
  }

  /** If a dial comes in, its dialer drew its port before the listener was closed. */
  lemma DrawnBeforeClosed(n: nat, actions: seq<Action>, k: nat, i: nat, p: nat)
    requires k < |Run(Start(n), actions).log| && Run(Start(n), actions).log[k].Incoming?
    requires DrewAt(n, actions, i, Run(Start(n), actions).log[k].dial, p)
    ensures var v, c := Before(n, actions, i), Run(Start(n), actions).log[k].channel;
            c < |v.channels| && !v.channels[c].closed && v.channels[c].port == Run(Start(n), actions).log[k].port
  {
    var w, v := Run(Start(n), actions), Before(n, actions, i);
    var e := w.log[k];
    RunSplit(Start(n), actions, i);
    StartInv(n);
    RunInv(Start(n), actions[..i]);
    RunInv(Start(n), actions);
    assert EntryOk(w, k) && DialerOk(w, e.dial) && DialerOk(v, e.dial);
    RunKeeps(v, actions[i..]);
    assert v.dialers[e.dial].sender == e.channel && v.channels[e.channel].port == e.port;
    if v.channels[e.channel].closed {
      RunUnsent(Start(n), actions[..i]);
      assert TooLate(v, e.dial, e.channel);
      NeverSent(v, actions[i..], e.dial, e.channel);
      IncomingWasSent(n, actions, k);
    }
  }

  /** The port of the channel is gone from the registry, and its receiver is still open. */
  predicate Orphaned(w: World, c: nat) {
    c < |w.channels| && !Registered(w, c) && !w.channels[c].closed
  }

  /**
   The dialer's address, in any run. The port a dial comes from is meant not to be a listen address. A
   dial comes in from its listener's own port if and only if its dialer drew that port while the
   listener was unregistered and not yet closed.
   */
  lemma OwnPortOnlyOnceUnregistered(n: nat, actions: seq<Action>, k: nat)
    requires k < |Run(Start(n), actions).log| && Run(Start(n), actions).log[k].Incoming?
    ensures var e := Run(Start(n), actions).log[k];
            e.sendBack == e.port <==>
            exists i :: DrewAt(n, actions, i, e.dial, e.port) && Orphaned(Before(n, actions, i), e.channel)
  {
    var w := Run(Start(n), actions);
    var e := w.log[k];
    StartInv(n);
    RunInv(Start(n), actions);
    assert EntryOk(w, k);
    if e.sendBack == e.port {
      Draws(n, actions, e.dial);
      var i :| DrewAt(n, actions, i, e.dial, e.port);
      DrawnBeforeClosed(n, actions, k, i, e.port);
      assert Orphaned(Before(n, actions, i), e.channel);
    }
    if i :| DrewAt(n, actions, i, e.dial, e.port) && Orphaned(Before(n, actions, i), e.channel) {
      DrawnPortIsSendBack(n, actions, i, e.dial, e.port);
    }
  }

  lemma {:induction false} DisciplinedPrefix(w: World, actions: seq<Action>, i: nat)
    requires DisciplinedRun(w, actions) && i <= |actions|
    ensures DisciplinedRun(w, actions[..i])
    decreases |actions|
  {
    hide Apply, Disciplined;
    if i == 0 {
      assert actions[..0] == [];
    } else {
      assert actions[..i][1..] == actions[1..][..i - 1];
      DisciplinedPrefix(Apply(w, actions[0]), actions[1..], i - 1);
    }
  }

  /** In a disciplined run a listener is orphaned exactly while it is being removed. */
  lemma OrphanedMeansRemoving(n: nat, actions: seq<Action>, i: nat, c: nat)
    requires DisciplinedRun(Start(n), actions) && i <= |actions| && c < |Before(n, actions, i).channels|
    requires Before(n, actions, i).channels[c].role.ListenerOf?
    ensures Orphaned(Before(n, actions, i), c) <==> Removing(Before(n, actions, i), c)
  {
    RunSplit(Start(n), actions, i);
    DisciplinedPrefix(Start(n), actions, i);
    assert RegistryInv(Start(n));
    RunRegistry(Start(n), actions[..i]);
    assert ChannelOk(Before(n, actions, i), c);
  }

  /**
   In a disciplined run: a dial comes in from its listener's own port if and only if its dialer drew
   that port in the middle of the listener's removal.
   */
  lemma OwnPortOnlyDuringRemoval(n: nat, actions: seq<Action>, k: nat)
    requires DisciplinedRun(Start(n), actions) && k < |Run(Start(n), actions).log|
    requires Run(Start(n), actions).log[k].Incoming?
    ensures var e := Run(Start(n), actions).log[k];
            e.sendBack == e.port <==>
            exists i :: DrewAt(n, actions, i, e.dial, e.port) && Removing(Before(n, actions, i), e.channel)
  {
    var w := Run(Start(n), actions);
    var e := w.log[k];
    OwnPortOnlyOnceUnregistered(n, actions, k);
    StartInv(n);
    RunInv(Start(n), actions);
    assert EntryOk(w, k);
    forall i: nat | DrewAt(n, actions, i, e.dial, e.port)
      ensures Orphaned(Before(n, actions, i), e.channel) <==> Removing(Before(n, actions, i), e.channel)
    {
      DrawnBeforeClosed(n, actions, k, i, e.port);
      RunSplit(Start(n), actions, i);
      RunKeeps(Before(n, actions, i), actions[i..]);
      OrphanedMeansRemoving(n, actions, i, e.channel);
    }
  }
}
