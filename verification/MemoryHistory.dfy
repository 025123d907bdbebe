/**
 How far a dialer, a listener or a removal has come, judged by the actions of the run alone, and what
 that makes of the registry.
 */
module MemoryHistory {
  import opened MemoryModel
  import opened MemoryCore
  import opened MemorySafety
  import opened MemoryDelivery
  import opened MemoryRegistry
  import opened MemoryOrigins

  // ----- dialers -----

  datatype Milestone = Drawn | Made | SentOff | Refused | Gone

  /**
   The action takes dialer d past the milestone: it draws its port, `DialFuture::new` returns, its dial
   goes into an open channel with room, it meets a closed one, or its channel is dropped.
   */
  ghost predicate Passes(w: World, a: Action, d: nat, m: Milestone) {
    && d < |w.dialers|
    && var x := w.dialers[d];
       match m
       case Drawn => a.Register? && a.dialer == d && x.stage == Located && a.random != 0 && a.random !in w.hub
       case Made => a == Settle(d) && x.stage == Opening
       case SentOff => a == PollDial(d, true) && x.stage == Dialing && x.sender < |w.channels|
                       && !w.channels[x.sender].closed
       case Refused => a.PollDial? && a.dialer == d && x.stage == Dialing && x.sender < |w.channels|
                       && w.channels[x.sender].closed
       case Gone => a == DropDialer(d) && (x.stage == Dialing || x.stage == Failed || x.stage == Connected)
  }

  ghost predicate Passed(n: nat, actions: seq<Action>, d: nat, m: Milestone) {
    exists i :: 0 <= i < |actions| && Passes(Before(n, actions, i), actions[i], d, m)
  }

  lemma PassedStep(n: nat, actions: seq<Action>, a: Action, d: nat, m: Milestone)
    ensures Passed(n, actions + [a], d, m) <==>
            Passed(n, actions, d, m) || Passes(Run(Start(n), actions), a, d, m)
  {
    hide Passes;
    var more := actions + [a];
    assert more[..|actions|] == actions;
    forall i | 0 <= i < |actions| ensures Before(n, more, i) == Before(n, actions, i) && more[i] == actions[i] {
      Earlier(n, actions, a, i);
    }
    if i :| 0 <= i < |actions| && Passes(Before(n, actions, i), actions[i], d, m) {
      assert Passes(Before(n, more, i), more[i], d, m);
    }
    if Passes(Run(Start(n), actions), a, d, m) {
      assert Passes(Before(n, more, |actions|), more[|actions|], d, m);
    }
  }

  lemma PassesExists(w: World, a: Action, d: nat, m: Milestone)
    ensures Passes(w, a, d, m) ==> d < |w.dialers|
  {
  }

  /** The stage a dialer is taken to. */
  ghost function StageAfter(w: World, a: Action, d: nat): Stage
    requires d < |w.dialers|
  {
    if Passes(w, a, d, Drawn) then Opening
    else if Passes(w, a, d, Made) then Dialing
    else if Passes(w, a, d, SentOff) then Connected
    else if Passes(w, a, d, Refused) then Failed
    else if Passes(w, a, d, Gone) then Dropped
    else w.dialers[d].stage
  }

  lemma DialerLeftAlone(w: World, a: Action, d: nat)
    requires d < |w.dialers|
    requires a.Listen? || a.RemoveListener? || a.CloseReceiver? || a.Locate? || a.PollTransport? || a.dialer != d
    ensures d < |Apply(w, a).dialers| && Apply(w, a).dialers[d] == w.dialers[d]
  {
    hide PollListeners;
    if a.RemoveListener? && Free(w, a.transport) {
      PositionIsFirst(w.transports[a.transport], a.id);
    }
  }

  lemma MadeStage(w: World, a: Action, d: nat)
    requires d < |w.dialers| && DialerOk(w, d) && (a.Register? || a.Settle?) && a.dialer == d
    ensures d < |Apply(w, a).dialers| && Apply(w, a).dialers[d].stage == StageAfter(w, a, d)
  {
  }

  lemma PolledStage(w: World, a: Action, d: nat)
    requires d < |w.dialers| && DialerOk(w, d) && a.PollDial? && a.dialer == d
    ensures d < |Apply(w, a).dialers| && Apply(w, a).dialers[d].stage == StageAfter(w, a, d)
  {
  }

  lemma DroppedStage(w: World, a: Action, d: nat)
    requires d < |w.dialers| && DialerOk(w, d) && a.DropDialer? && a.dialer == d
    ensures d < |Apply(w, a).dialers| && Apply(w, a).dialers[d].stage == StageAfter(w, a, d)
  {
  }

  /** The stage of a dialer changes at its milestones only. */
  lemma StageStep(w: World, a: Action, d: nat)
    requires CoreInv(w) && d < |w.dialers|
    ensures d < |Apply(w, a).dialers| && Apply(w, a).dialers[d].stage == StageAfter(w, a, d)
  {
    assert DialerOk(w, d);
    hide Apply, CoreInv, DialerOk;
    if a.Listen? || a.RemoveListener? || a.CloseReceiver? || a.Locate? || a.PollTransport? || a.dialer != d {
      DialerLeftAlone(w, a, d);
    } else if a.PollDial? {
      PolledStage(w, a, d);
    } else if a.DropDialer? {
      DroppedStage(w, a, d);
    } else {
      MadeStage(w, a, d);
    }
  }

  ghost function StageBy(n: nat, actions: seq<Action>, d: nat): Stage {
    if Passed(n, actions, d, Gone) then Dropped
    else if Passed(n, actions, d, SentOff) then Connected
    else if Passed(n, actions, d, Refused) then Failed
    else if Passed(n, actions, d, Made) then Dialing
    else if Passed(n, actions, d, Drawn) then Opening
    else Located
  }

  /** A milestone is passed from the stages before it. */
  lemma PassedFrom(w: World, a: Action, d: nat)
    requires d < |w.dialers|
    ensures var stage := w.dialers[d].stage;
            && (Passes(w, a, d, Drawn) ==> stage == Located)
            && (Passes(w, a, d, Made) ==> stage == Opening)
            && (Passes(w, a, d, SentOff) ==> stage == Dialing && !Passes(w, a, d, Refused))
            && (Passes(w, a, d, Refused) ==> stage == Dialing)
            && (Passes(w, a, d, Gone) ==> stage == Dialing || stage == Failed || stage == Connected)
            && (Passes(w, a, d, Gone) ==> !Passes(w, a, d, SentOff) && !Passes(w, a, d, Refused))
  {
  }

  lemma StageByStep(n: nat, actions: seq<Action>, a: Action, d: nat)
    requires d < |Run(Start(n), actions).dialers|
    requires Run(Start(n), actions).dialers[d].stage == StageBy(n, actions, d)
    ensures StageBy(n, actions + [a], d) == StageAfter(Run(Start(n), actions), a, d)
  {
    hide Run, Passed, Passes;
    PassedFrom(Run(Start(n), actions), a, d);
    PassedStep(n, actions, a, d, Drawn);
    PassedStep(n, actions, a, d, Made);
    PassedStep(n, actions, a, d, SentOff);
    PassedStep(n, actions, a, d, Refused);
    PassedStep(n, actions, a, d, Gone);
  }

  lemma PassedExists(n: nat, actions: seq<Action>, d: nat, m: Milestone)
    ensures Passed(n, actions, d, m) ==> d < |Run(Start(n), actions).dialers|
  {
    if i :| 0 <= i < |actions| && Passes(Before(n, actions, i), actions[i], d, m) {
      RunSplit(Start(n), actions, i);
      RunKeeps(Before(n, actions, i), actions[i..]);
    }
  }

  lemma RunCore(n: nat, actions: seq<Action>)
    ensures CoreInv(Run(Start(n), actions))
  {
    StartInv(n);
    RunInv(Start(n), actions);
  }

  lemma {:induction false} StageIsHistory(n: nat, actions: seq<Action>, d: nat)
    requires d < |Run(Start(n), actions).dialers|
    ensures Run(Start(n), actions).dialers[d].stage == StageBy(n, actions, d)
    decreases |actions|
  {
    if actions == [] {
    } else {
      hide Apply, Run, Passed, CoreInv, Passes;
      var init, a := actions[..|actions| - 1], actions[|actions| - 1];
      assert actions == init + [a];
      var w := Run(Start(n), init);
      RunAppend(Start(n), init, a);
      if d < |w.dialers| {
        StageIsHistory(n, init, d);
        RunCore(n, init);
        StageStep(w, a, d);
        hide StageBy, StageAfter;
        StageByStep(n, init, a, d);
      } else {
        forall m ensures !Passed(n, actions, d, m) {
          PassedExists(n, init, d, m);
          PassedStep(n, init, a, d, m);
          PassesExists(w, a, d, m);
        }
        Additions(w, a);
      }
    }
  }

  lemma LookupMakesADialer(n: nat, actions: seq<Action>, i: nat, d: nat, p: nat, c: nat)
    ensures LookedUpAt(n, actions, i, d, p, c) ==>
              var w := Run(Start(n), actions);
              d < |w.dialers| && w.dialers[d].target == p && w.dialers[d].sender == c
  {
    if LookedUpAt(n, actions, i, d, p, c) {
      var v := Before(n, actions, i);
      RunAppend(Start(n), actions[..i], actions[i]);
      assert actions[..i + 1] == actions[..i] + [actions[i]];
      RunSplit(Start(n), actions, i + 1);
      RunKeeps(Apply(v, actions[i]), actions[i + 1..]);
    }
  }

  /**
   The life of a dialer over every run. It exists exactly if some lookup made it, with the port and
   the channel of that lookup. Its stage is the last milestone the actions took it past: it is
   connected exactly if its dial went into an open channel, failed exactly if it met a closed one, and
   has stopped living exactly if it was dropped after it was made.
   */
  lemma DialerHistory(n: nat, actions: seq<Action>, d: nat)
    ensures var w := Run(Start(n), actions);
            && (d < |w.dialers| <==> exists i: nat, p: nat, c: nat :: LookedUpAt(n, actions, i, d, p, c))
            && (d < |w.dialers| ==>
                  && w.dialers[d].stage == StageBy(n, actions, d)
                  && forall i: nat, p: nat, c: nat :: LookedUpAt(n, actions, i, d, p, c) ==>
                       w.dialers[d].target == p && w.dialers[d].sender == c)
  {
    hide Apply, Passed;
    var w := Run(Start(n), actions);
    if d < |w.dialers| {
      StageIsHistory(n, actions, d);
      Lookups(n, actions, d);
    }
    forall i: nat, p: nat, c: nat | LookedUpAt(n, actions, i, d, p, c)
      ensures d < |w.dialers| && w.dialers[d].target == p && w.dialers[d].sender == c
    {
      LookupMakesADialer(n, actions, i, d, p, c);
    }
  }

  /**
   Dropping a dialer. Its port leaves the registry, every other entry stays as it is, and whoever
   listens on the port next gets it.
   */
  lemma DropFreesThePort(w: World, d: nat, t: nat, id: nat)
    requires ReachableDisciplined(w) && d < |w.dialers| && Free(w, t)
    requires w.dialers[d].stage == Dialing || w.dialers[d].stage == Failed || w.dialers[d].stage == Connected
    ensures w.dialers[d].own < |w.channels|
    ensures var p := w.channels[w.dialers[d].own].port;
            var v := Apply(w, DropDialer(d));
            var u := Apply(v, Listen(t, id, p, 0));
            && p in w.hub && p !in v.hub
            && (forall q :: q != p ==> (q in v.hub <==> q in w.hub) && (q in v.hub ==> v.hub[q] == w.hub[q]))
            && p in u.hub && u.hub[p] == |w.channels|
            && u.transports[t] == w.transports[t] + [Listener(id, p, |w.channels|, true)]
  {
    DisciplinedRegistry(w);
    assert DialerOk(w, d);
    LiveDialerRegistered(w, d, w.channels[w.dialers[d].own].port);
  }

  // ----- listeners -----

  ghost predicate Removes(w: World, a: Action, c: nat) {
    && a.RemoveListener? && Free(w, a.transport)
    && var ls := w.transports[a.transport];
       exists k :: && 0 <= k < |ls| && ls[k].id == a.id && ls[k].channel == c
                   && forall j :: 0 <= j < k ==> ls[j].id != a.id
  }

  /** Action i removes the listener of channel c: the first of its transport with the id. */
  ghost predicate RemovedAt(n: nat, actions: seq<Action>, i: nat, c: nat) {
    i < |actions| && Removes(Before(n, actions, i), actions[i], c)
  }

  lemma RemovesStep(w: World, a: Action, c: nat)
    requires CoreInv(w)
    ensures c < |Apply(w, a).channels| ==>
              (Apply(w, a).channels[c].removed <==> (c < |w.channels| && w.channels[c].removed) || Removes(w, a, c))
    ensures c >= |Apply(w, a).channels| ==> !Removes(w, a, c)
  {
    hide PollListeners;
    if a.RemoveListener? && Free(w, a.transport) {
      var ls := w.transports[a.transport];
      PositionIsFirst(ls, a.id);
      if Position(ls, a.id).Some? {
        assert ListenerOk(w, a.transport, ls[Position(ls, a.id).value]);
      }
    } else if a.PollTransport? {
      PollStep(w, a.transport);
    }
  }

  lemma RemovesQueued(w: World, a: Action, c: nat)
    requires CoreInv(w) && Removes(w, a, c)
    ensures c < |w.channels|
  {
    var ls := w.transports[a.transport];
    var k :| 0 <= k < |ls| && ls[k].id == a.id && ls[k].channel == c;
    assert ListenerOk(w, a.transport, ls[k]);
  }

  lemma RemovedExists(n: nat, actions: seq<Action>, i: nat, c: nat)
    ensures RemovedAt(n, actions, i, c) ==> c < |Run(Start(n), actions).channels|
  {
    if RemovedAt(n, actions, i, c) {
      var v := Before(n, actions, i);
      RunSplit(Start(n), actions, i);
      RunKeeps(v, actions[i..]);
      RunCore(n, actions[..i]);
      RemovesQueued(v, actions[i], c);
    }
  }

  lemma {:induction false} RemovedIsHistory(n: nat, actions: seq<Action>, c: nat)
    requires c < |Run(Start(n), actions).channels|
    ensures Run(Start(n), actions).channels[c].removed <==> exists i: nat :: RemovedAt(n, actions, i, c)
    decreases |actions|
  {
    if actions == [] {
    } else {
      hide Apply, Run, Removes, CoreInv;
      var init, a := actions[..|actions| - 1], actions[|actions| - 1];
      assert actions == init + [a];
      var w := Run(Start(n), init);
      RunAppend(Start(n), init, a);
      RunCore(n, init);
      RemovesStep(w, a, c);
      forall i: nat | i <= |init| ensures Before(n, actions, i) == Before(n, init, i) {
        Earlier(n, init, a, i);
      }
      assert init[..|init|] == init;
      assert forall i: nat :: i < |init| ==> (RemovedAt(n, actions, i, c) <==> RemovedAt(n, init, i, c));
      assert RemovedAt(n, actions, |init|, c) <==> Removes(w, a, c);
      if c < |w.channels| {
        RemovedIsHistory(n, init, c);
        if i: nat :| RemovedAt(n, init, i, c) {
          assert RemovedAt(n, actions, i, c);
        }
      } else {
        forall i: nat ensures !RemovedAt(n, init, i, c) {
          RemovedExists(n, init, i, c);
        }
      }
      if i: nat :| RemovedAt(n, actions, i, c) {
        assert i < |init| ==> RemovedAt(n, init, i, c);
      }
    }
  }

  lemma ListenMakesAChannel(n: nat, actions: seq<Action>, i: nat, c: nat, t: nat, id: nat, port: nat)
    ensures ListenedAt(n, actions, i, c, t, id, port) ==>
              var w := Run(Start(n), actions);
              c < |w.channels| && w.channels[c].role == ListenerOf(t, id) && w.channels[c].port == port
  {
    if ListenedAt(n, actions, i, c, t, id, port) {
      var v := Before(n, actions, i);
      RunAppend(Start(n), actions[..i], actions[i]);
      assert actions[..i + 1] == actions[..i] + [actions[i]];
      RunSplit(Start(n), actions, i + 1);
      RunKeeps(Apply(v, actions[i]), actions[i + 1..]);
    }
  }

  /**
   The life of a listener over every run: there is one on that port with that id exactly if a call
   of `listen_on` found the port free, and it counts as removed exactly if a call of
   `remove_listener` found it as the first with its id.
   */
  lemma ListenerHistory(n: nat, actions: seq<Action>, c: nat, t: nat, id: nat, port: nat)
    ensures var w := Run(Start(n), actions);
            && (c < |w.channels| && w.channels[c].role == ListenerOf(t, id) && w.channels[c].port == port <==>
                exists i: nat :: ListenedAt(n, actions, i, c, t, id, port))
            && (c < |w.channels| ==> (w.channels[c].removed <==> exists i: nat :: RemovedAt(n, actions, i, c)))
  {
    hide Apply;
    var w := Run(Start(n), actions);
    if c < |w.channels| {
      RemovedIsHistory(n, actions, c);
      if w.channels[c].role == ListenerOf(t, id) && w.channels[c].port == port {
        Listens(n, actions, c);
      }
    }
    if i: nat :| ListenedAt(n, actions, i, c, t, id, port) {
      ListenMakesAChannel(n, actions, i, c, t, id, port);
    }
  }

  // ----- removals -----

  /** The channel transport t is about to close: of the last removal since it last closed one. */
  ghost predicate Closes(n: nat, actions: seq<Action>, t: nat, c: nat)
    decreases |actions|
  {
    if actions == [] then false
    else
      var init, a := actions[..|actions| - 1], actions[|actions| - 1];
      var w := Run(Start(n), init);
      if a == CloseReceiver(t) then false
      else if a.RemoveListener? && a.transport == t && Removes(w, a, c) then true
      else Closes(n, init, t, c)
  }

  lemma ClosesStep(w: World, a: Action, t: nat, c: nat)
    ensures t in Apply(w, a).closing && Apply(w, a).closing[t] == c <==>
            if a == CloseReceiver(t) then false
            else if a.RemoveListener? && a.transport == t && Removes(w, a, c) then true
            else t in w.closing && w.closing[t] == c
  {
    hide PollListeners;
    if a.RemoveListener? && Free(w, a.transport) {
      PositionIsFirst(w.transports[a.transport], a.id);
    }
  }

  /** A removal that is under way is the last one called for, until its receiver is closed. */
  lemma {:induction false} ClosingIsHistory(n: nat, actions: seq<Action>, t: nat, c: nat)
    ensures var w := Run(Start(n), actions);
            t in w.closing && w.closing[t] == c <==> Closes(n, actions, t, c)
    decreases |actions|
  {
    if actions == [] {
    } else {
      hide Apply, Run, Removes;
      var init, a := actions[..|actions| - 1], actions[|actions| - 1];
      assert actions == init + [a];
      RunAppend(Start(n), init, a);
      ClosingIsHistory(n, init, t, c);
      ClosesStep(Run(Start(n), init), a, t, c);
    }
  }
}
