/**
 Conservation on a connection, with everything traced back over the run to the answers that caused it:
 each request to the poll of the handler that made it, each outcome to the negotiation or the
 deadline that settled it, each negotiation to the substream it was started on, each stream handle
 given up to the moment it was.
 */
module ConnectionOrigins {
  import opened Common
  import opened IdleShutdown
  import opened ProtocolsChange
  import opened ConnectionModel
  import opened ConnectionSafety
  import opened ConnectionTrace

  /** What a connection is made with. */
  datatype Setup = Setup(now: nat, lastInstant: nat, idleTimeout: nat, maxInbound: nat, names: seq<string>)

  ghost function After<U>(x: Setup, answers: seq<Answer<U>>): State<U> {
    Run(New<U>(x.now, x.lastInstant, x.idleTimeout, x.maxInbound, x.names), answers)
  }

  lemma AfterInv<U>(x: Setup, answers: seq<Answer<U>>)
    requires x.now <= x.lastInstant
    ensures Inv(After(x, answers))
  {
    NewInv<U>(x.now, x.lastInstant, x.idleTimeout, x.maxInbound, x.names);
    RunInv(New<U>(x.now, x.lastInstant, x.idleTimeout, x.maxInbound, x.names), answers);
  }

  /**
   A new connection: the settings are the ones it was made with, nothing is under way or on record,
   and the handler was told the valid names it listens on, unless it listens on nothing at all.
   */
  lemma NewConnection<U>(x: Setup)
    ensures var s := After<U>(x, []);
            && s.now == x.now && s.lastInstant == x.lastInstant
            && s.idleTimeout == x.idleTimeout && s.maxInbound == x.maxInbound
            && s.requested == [] && s.negotiatingOut == [] && s.negotiatingIn == [] && s.streams.holders == {}
            && s.local.Keys == Elements(x.names) && s.remote == {}
            && s.history.localChanges == (if x.names == [] then [] else [Added(ValidPart(Elements(x.names)))])
            && s.history.issued == [] && s.history.outcomes == [] && s.history.accepted == [] && s.history.endings == []
            && s.history.remoteReports == [] && s.history.remoteChanges == [] && s.history.checks == []
            && s.history.givenUp == {}
  {
    ElementsEmpty(x.names);
    assert Gathered(x.names).Keys == Elements(x.names);
    assert Gathered(x.names) == map[] <==> Gathered(x.names).Keys == {};
  }

  /** The last iteration of a run, and the run before it. */
  lemma LastStep<U>(x: Setup, answers: seq<Answer<U>>)
    requires answers != [] && x.now <= x.lastInstant
    ensures var init, last := answers[..|answers| - 1], answers[|answers| - 1];
            && Inv(After(x, init))
            && After(x, answers) == Iterate(After(x, init), last).0
            && Traced(After(x, init), last, After(x, answers), Iterate(After(x, init), last).1)
  {
    hide Iterate, Traced, Inv;
    var init, last := answers[..|answers| - 1], answers[|answers| - 1];
    assert answers == init + [last];
    RunAppend(New<U>(x.now, x.lastInstant, x.idleTimeout, x.maxInbound, x.names), init, last);
    AfterInv(x, init);
    IterateTrace(After(x, init), last);
  }

  // ----- what a run adds up to, iteration by iteration -----

  /** The requests of the handler, each with the time it was made at. */
  ghost function RequestsMade<U>(x: Setup, answers: seq<Answer<U>>): seq<Ticket<U>>
    decreases |answers|
  {
    if answers == [] then []
    else
      var init, last := answers[..|answers| - 1], answers[|answers| - 1];
      RequestsMade(x, init) + RequestMade(After(x, init), last)
  }

  /** How requests were settled. */
  ghost function OutcomesMade<U>(x: Setup, answers: seq<Answer<U>>): seq<Report<U>>
    decreases |answers|
  {
    if answers == [] then []
    else
      var init, last := answers[..|answers| - 1], answers[|answers| - 1];
      OutcomesMade(x, init) + OutcomeMade(After(x, init), last)
  }

  /** The requests that got a substream. */
  ghost function StartsMade<U>(x: Setup, answers: seq<Answer<U>>): seq<Ticket<U>>
    decreases |answers|
  {
    if answers == [] then []
    else
      var init, last := answers[..|answers| - 1], answers[|answers| - 1];
      StartsMade(x, init) + StartMade(After(x, init), last)
  }

  /** The inbound streams taken. */
  ghost function AcceptsMade<U>(x: Setup, answers: seq<Answer<U>>): seq<Ticket<U>>
    decreases |answers|
  {
    if answers == [] then []
    else
      var init, last := answers[..|answers| - 1], answers[|answers| - 1];
      AcceptsMade(x, init) + AcceptMade(After(x, init), last)
  }

  /** How they ended. */
  ghost function EndingsMade<U>(x: Setup, answers: seq<Answer<U>>): seq<Report<U>>
    decreases |answers|
  {
    if answers == [] then []
    else
      var init, last := answers[..|answers| - 1], answers[|answers| - 1];
      EndingsMade(x, init) + EndingMade(After(x, init), last)
  }

  /** What the handler reported of the remote's protocols. */
  ghost function ReportsMade<U>(x: Setup, answers: seq<Answer<U>>): seq<Change>
    decreases |answers|
  {
    if answers == [] then []
    else
      var init, last := answers[..|answers| - 1], answers[|answers| - 1];
      ReportsMade(x, init) + ReportMade(After(x, init), last)
  }

  /** The shutdown checks, each with whether all was quiet. */
  ghost function ChecksMade<U>(x: Setup, answers: seq<Answer<U>>): seq<Check>
    decreases |answers|
  {
    if answers == [] then []
    else
      var init, last := answers[..|answers| - 1], answers[|answers| - 1];
      ChecksMade(x, init) + CheckMade(After(x, init), last)
  }

  /** The outcomes that ended a negotiation. */
  ghost function NegotiatedBy<U>(s: State<U>, a: Answer<U>): seq<Report<U>> {
    if SettlesOutbound(s, a) then OutcomeMade(s, a) else []
  }

  /** The outcomes that ended a negotiation, over the run. */
  ghost function NegotiationsEnded<U>(x: Setup, answers: seq<Answer<U>>): seq<Report<U>>
    decreases |answers|
  {
    if answers == [] then []
    else
      var init, last := answers[..|answers| - 1], answers[|answers| - 1];
      NegotiationsEnded(x, init) + NegotiatedBy(After(x, init), last)
  }

  function Elapsed<U>(answers: seq<Answer<U>>): nat {
    if answers == [] then 0 else Elapsed(answers[..|answers| - 1]) + answers[|answers| - 1].elapsed
  }

  /** The settings stay what they were, and the clock runs. */
  lemma {:induction false} RunSettings<U>(x: Setup, answers: seq<Answer<U>>)
    requires x.now <= x.lastInstant
    ensures var s := After(x, answers);
            && s.lastInstant == x.lastInstant && s.idleTimeout == x.idleTimeout && s.maxInbound == x.maxInbound
            && s.now == if x.now + Elapsed(answers) <= x.lastInstant then x.now + Elapsed(answers) else x.lastInstant
    decreases |answers|
  {
    if answers == [] {
      NewConnection<U>(x);
    } else {
      RunSettings(x, answers[..|answers| - 1]);
      LastStep(x, answers);
      hide After, OutboundAfter, InboundAfter, Outcome, RequestMade, OutcomeMade, AcceptMade, EndingMade, ReportMade,
           CheckMade, StartMade, Diffs, FullSets, Inv, Iterate;
    }
  }

  /** The record of a run is what its answers add up to. */
  lemma {:induction false} RunRecord<U>(x: Setup, answers: seq<Answer<U>>)
    requires x.now <= x.lastInstant
    ensures var h := After(x, answers).history;
            && h.issued == RequestsMade(x, answers) && h.outcomes == OutcomesMade(x, answers)
            && h.accepted == AcceptsMade(x, answers) && h.endings == EndingsMade(x, answers)
            && h.remoteReports == ReportsMade(x, answers) && h.checks == ChecksMade(x, answers)
    decreases |answers|
  {
    if answers == [] {
      NewConnection<U>(x);
    } else {
      RunRecord(x, answers[..|answers| - 1]);
      LastStep(x, answers);
      hide After, OutboundAfter, InboundAfter, Outcome, RequestMade, OutcomeMade, AcceptMade, EndingMade, ReportMade,
           CheckMade, StartMade, Diffs, FullSets, Inv, Iterate, Clock;
    }
  }

  lemma Combine<T>(started: multiset<T>, going: multiset<T>, ended: multiset<T>,
                   going': multiset<T>, more: multiset<T>, begun: multiset<T>)
    requires started == going + ended && going' + more == going + begun
    ensures started + begun == going' + (ended + more)
  {
    assert forall e :: (going' + more)[e] == going'[e] + more[e];
    assert forall e :: (going + begun)[e] == going[e] + begun[e];
  }

  lemma LastOutbound<U>(x: Setup, answers: seq<Answer<U>>)
    requires answers != [] && x.now <= x.lastInstant
    ensures After(x, answers).negotiatingOut ==
            OutboundAfter(After(x, answers[..|answers| - 1]), answers[|answers| - 1])
  {
    LastStep(x, answers);
    hide After, OutboundAfter, InboundAfter, Outcome, RequestMade, OutcomeMade, AcceptMade, EndingMade, ReportMade,
         CheckMade, StartMade, Diffs, FullSets, Inv, Iterate, Clock;
  }

  lemma TicketsConcat<U>(rs: seq<Report<U>>, more: seq<Report<U>>)
    ensures multiset(ReportTickets(rs + more)) == multiset(ReportTickets(rs)) + multiset(ReportTickets(more))
  {
    assert ReportTickets(rs + more) == ReportTickets(rs) + ReportTickets(more);
  }

  lemma StartsStep<U>(s: State<U>, a: Answer<U>)
    ensures multiset(UpgradeTickets(OutboundAfter(s, a))) + multiset(ReportTickets(NegotiatedBy(s, a))) ==
            multiset(UpgradeTickets(s.negotiatingOut)) + multiset(StartMade(s, a))
  {
    if SettlesOutbound(s, a) {
      var j := a.outboundDone.value.0;
      UpgradeSplit(s.negotiatingOut, j);
      assert StartMade(s, a) == [];
      assert ReportTickets(NegotiatedBy(s, a)) == [s.negotiatingOut[j].ticket];
    } else {
      assert ReportTickets(NegotiatedBy(s, a)) == [];
      if StartMade(s, a) != [] {
        UpgradeAppend(s.negotiatingOut, StreamUpgrade(StartMade(s, a)[0], s.handles));
        assert StartMade(s, a) == [StartMade(s, a)[0]];
      }
    }
  }

  /** Every negotiation that was started is going on or has ended, and no other is or has. */
  lemma {:induction false} RunStarts<U>(x: Setup, answers: seq<Answer<U>>)
    requires x.now <= x.lastInstant
    ensures multiset(StartsMade(x, answers)) ==
            multiset(UpgradeTickets(After(x, answers).negotiatingOut)) +
            multiset(ReportTickets(NegotiationsEnded(x, answers)))
    decreases |answers|
  {
    if answers == [] {
      NewConnection<U>(x);
      assert UpgradeTickets(After<U>(x, []).negotiatingOut) == [] && ReportTickets(NegotiationsEnded<U>(x, [])) == [];
    } else {
      var init, last := answers[..|answers| - 1], answers[|answers| - 1];
      RunStarts(x, init);
      LastOutbound(x, answers);
      var s := After(x, init);
      StartsStep(s, last);
      TicketsConcat(NegotiationsEnded(x, init), NegotiatedBy(s, last));
      hide After, OutboundAfter, StartMade, NegotiatedBy, UpgradeTickets, ReportTickets;
      Combine(multiset(StartsMade(x, init)), multiset(UpgradeTickets(s.negotiatingOut)),
              multiset(ReportTickets(NegotiationsEnded(x, init))), multiset(UpgradeTickets(OutboundAfter(s, last))),
              multiset(ReportTickets(NegotiatedBy(s, last))), multiset(StartMade(s, last)));
    }
  }

  // ----- the iteration behind an entry of the record -----

  ghost predicate RequestedAt<U>(x: Setup, answers: seq<Answer<U>>, i: nat, t: Ticket<U>) {
    i < |answers| && t in RequestMade(After(x, answers[..i]), answers[i])
  }

  ghost predicate SettledAt<U>(x: Setup, answers: seq<Answer<U>>, i: nat, r: Report<U>) {
    i < |answers| && r in OutcomeMade(After(x, answers[..i]), answers[i])
  }

  ghost predicate StartedAt<U>(x: Setup, answers: seq<Answer<U>>, i: nat, t: Ticket<U>) {
    i < |answers| && t in StartMade(After(x, answers[..i]), answers[i])
  }

  ghost predicate AcceptedAt<U>(x: Setup, answers: seq<Answer<U>>, i: nat, t: Ticket<U>) {
    i < |answers| && t in AcceptMade(After(x, answers[..i]), answers[i])
  }

  ghost predicate EndedAt<U>(x: Setup, answers: seq<Answer<U>>, i: nat, r: Report<U>) {
    i < |answers| && r in EndingMade(After(x, answers[..i]), answers[i])
  }

  /** The stream was still held, and then dropped or opted out. */
  ghost predicate GaveUpAt<U>(x: Setup, answers: seq<Answer<U>>, i: nat, h: nat) {
    i < |answers| && h in answers[i].released && h in After(x, answers[..i]).streams.holders
  }

  ghost predicate WasRequested<U>(x: Setup, answers: seq<Answer<U>>, t: Ticket<U>) {
    exists i: nat :: RequestedAt(x, answers, i, t)
  }

  lemma {:induction false} RequestedSomewhere<U>(x: Setup, answers: seq<Answer<U>>, t: Ticket<U>)
    ensures t in RequestsMade(x, answers) ==> WasRequested(x, answers, t)
    decreases |answers|
  {
    hide After, RequestMade;
    if answers == [] {
    } else {
      var init, last := answers[..|answers| - 1], answers[|answers| - 1];
      if t in RequestsMade(x, init) {
        RequestedSomewhere(x, init, t);
        var i: nat :| RequestedAt(x, init, i, t);
        assert init[..i] == answers[..i];
        assert RequestedAt(x, answers, i, t);
      } else if t in RequestsMade(x, answers) {
        assert RequestedAt(x, answers, |init|, t);
      }
    }
  }

  ghost predicate WasSettled<U>(x: Setup, answers: seq<Answer<U>>, r: Report<U>) {
    exists i: nat :: SettledAt(x, answers, i, r)
  }

  lemma {:induction false} SettledSomewhere<U>(x: Setup, answers: seq<Answer<U>>, r: Report<U>)
    ensures r in OutcomesMade(x, answers) ==> WasSettled(x, answers, r)
    decreases |answers|
  {
    hide After, OutcomeMade;
    if answers == [] {
    } else {
      var init, last := answers[..|answers| - 1], answers[|answers| - 1];
      if r in OutcomesMade(x, init) {
        SettledSomewhere(x, init, r);
        var i: nat :| SettledAt(x, init, i, r);
        assert init[..i] == answers[..i];
        assert SettledAt(x, answers, i, r);
      } else if r in OutcomesMade(x, answers) {
        assert SettledAt(x, answers, |init|, r);
      }
    }
  }

  ghost predicate WasStarted<U>(x: Setup, answers: seq<Answer<U>>, t: Ticket<U>) {
    exists i: nat :: StartedAt(x, answers, i, t)
  }

  lemma {:induction false} StartedSomewhere<U>(x: Setup, answers: seq<Answer<U>>, t: Ticket<U>)
    ensures t in StartsMade(x, answers) ==> WasStarted(x, answers, t)
    decreases |answers|
  {
    hide After, StartMade;
    if answers == [] {
    } else {
      var init, last := answers[..|answers| - 1], answers[|answers| - 1];
      if t in StartsMade(x, init) {
        StartedSomewhere(x, init, t);
        var i: nat :| StartedAt(x, init, i, t);
        assert init[..i] == answers[..i];
        assert StartedAt(x, answers, i, t);
      } else if t in StartsMade(x, answers) {
        assert StartedAt(x, answers, |init|, t);
      }
    }
  }

  ghost predicate WasAccepted<U>(x: Setup, answers: seq<Answer<U>>, t: Ticket<U>) {
    exists i: nat :: AcceptedAt(x, answers, i, t)
  }

  lemma {:induction false} AcceptedSomewhere<U>(x: Setup, answers: seq<Answer<U>>, t: Ticket<U>)
    ensures t in AcceptsMade(x, answers) ==> WasAccepted(x, answers, t)
    decreases |answers|
  {
    hide After, AcceptMade;
    if answers == [] {
    } else {
      var init, last := answers[..|answers| - 1], answers[|answers| - 1];
      if t in AcceptsMade(x, init) {
        AcceptedSomewhere(x, init, t);
        var i: nat :| AcceptedAt(x, init, i, t);
        assert init[..i] == answers[..i];
        assert AcceptedAt(x, answers, i, t);
      } else if t in AcceptsMade(x, answers) {
        assert AcceptedAt(x, answers, |init|, t);
      }
    }
  }

  ghost predicate WasEnded<U>(x: Setup, answers: seq<Answer<U>>, r: Report<U>) {
    exists i: nat :: EndedAt(x, answers, i, r)
  }

  lemma {:induction false} EndedSomewhere<U>(x: Setup, answers: seq<Answer<U>>, r: Report<U>)
    ensures r in EndingsMade(x, answers) ==> WasEnded(x, answers, r)
    decreases |answers|
  {
    hide After, EndingMade;
    if answers == [] {
    } else {
      var init, last := answers[..|answers| - 1], answers[|answers| - 1];
      if r in EndingsMade(x, init) {
        EndedSomewhere(x, init, r);
        var i: nat :| EndedAt(x, init, i, r);
        assert init[..i] == answers[..i];
        assert EndedAt(x, answers, i, r);
      } else if r in EndingsMade(x, answers) {
        assert EndedAt(x, answers, |init|, r);
      }
    }
  }

  ghost predicate WasGivenUp<U>(x: Setup, answers: seq<Answer<U>>, h: nat) {
    exists i: nat :: GaveUpAt(x, answers, i, h)
  }

  lemma LastRelease<U>(x: Setup, answers: seq<Answer<U>>)
    requires answers != [] && x.now <= x.lastInstant
    ensures var before := After(x, answers[..|answers| - 1]);
            After(x, answers).history.givenUp ==
            before.history.givenUp + before.streams.holders * answers[|answers| - 1].released
  {
    LastStep(x, answers);
    hide After, OutboundAfter, InboundAfter, Outcome, RequestMade, OutcomeMade, AcceptMade, EndingMade, ReportMade,
         CheckMade, StartMade, Diffs, FullSets, Inv, Iterate, Clock;
  }

  /** One more iteration: given up before, or in it. */
  lemma GivenUpStep<U>(x: Setup, answers: seq<Answer<U>>, h: nat)
    requires answers != []
    ensures var init, last := answers[..|answers| - 1], answers[|answers| - 1];
            WasGivenUp(x, answers, h) <==>
            WasGivenUp(x, init, h) || (h in last.released && h in After(x, init).streams.holders)
  {
    hide After;
    var init, last := answers[..|answers| - 1], answers[|answers| - 1];
    forall i: nat ensures GaveUpAt(x, answers, i, h) <==>
                          GaveUpAt(x, init, i, h) || (i == |init| && h in last.released
                              && h in After(x, init).streams.holders)
    {
      assert i < |init| ==> init[..i] == answers[..i];
    }
    assert h in last.released && h in After(x, init).streams.holders ==> GaveUpAt(x, answers, |init|, h);
  }

  lemma {:induction false} GivenUpOrigin<U>(x: Setup, answers: seq<Answer<U>>, h: nat)
    requires x.now <= x.lastInstant
    ensures h in After(x, answers).history.givenUp <==> WasGivenUp(x, answers, h)
    decreases |answers|
  {
    if answers == [] {
    } else {
      hide After, WasGivenUp;
      LastRelease(x, answers);
      GivenUpStep(x, answers, h);
      GivenUpOrigin(x, answers[..|answers| - 1], h);
    }
  }

  // ----- the properties -----

  lemma OutboundState<U>(s: State<U>)
    requires Inv(s)
    ensures WaitingTickets(s.requested) + multiset(UpgradeTickets(s.negotiatingOut)) +
            multiset(ReportTickets(s.history.outcomes)) == multiset(s.history.issued)
    ensures forall k :: 0 <= k < |s.history.issued| ==> multiset(s.history.issued)[s.history.issued[k]] == 1
    ensures forall k :: 0 <= k < |s.history.outcomes| ==>
              var r := s.history.outcomes[k];
              && r.ticket in s.history.issued
              && (r.result == Failure(Timeout) <==> r.at >= r.ticket.timeout.start + r.ticket.timeout.duration)
    ensures forall i, j :: 0 <= i < j < |s.history.outcomes| ==>
              s.history.outcomes[i].ticket.serial != s.history.outcomes[j].ticket.serial
  {
    hide StreamsInv, ProtocolsInv, ShutdownInv, SlotsInv, InboundConserved;
    ReportedOnce(s.history.outcomes, s.history.issued);
    forall k | 0 <= k < |s.history.issued| ensures multiset(s.history.issued)[s.history.issued[k]] == 1 {
      DistinctTickets(s.history.issued, k);
    }
  }

  /**
   Outbound conservation. The requests on record are those the handler made, in order, each timed from
   the poll that made it. At every point of every run each of them is in exactly one place: waiting
   for a substream, negotiating, or reported to the handler, and reported at most once. Each report
   goes back to the answer that settled it (`OutcomeMeans` says how). The negotiations that were
   started are, as a multiset, those that are going on and those that have ended.
   */
  lemma OutboundConservation<U>(x: Setup, answers: seq<Answer<U>>)
    requires x.now <= x.lastInstant
    ensures var s := After(x, answers);
            && s.history.issued == RequestsMade(x, answers) && s.history.outcomes == OutcomesMade(x, answers)
            && multiset(StartsMade(x, answers)) ==
               multiset(UpgradeTickets(s.negotiatingOut)) + multiset(ReportTickets(NegotiationsEnded(x, answers)))
            && WaitingTickets(s.requested) + multiset(UpgradeTickets(s.negotiatingOut)) +
               multiset(ReportTickets(s.history.outcomes)) == multiset(s.history.issued)
    ensures var issued := After(x, answers).history.issued;
            forall k :: 0 <= k < |issued| ==>
              multiset(issued)[issued[k]] == 1 && WasRequested(x, answers, issued[k])
    ensures var s := After(x, answers);
            forall k :: 0 <= k < |s.history.outcomes| ==>
              var r := s.history.outcomes[k];
              && r.ticket in s.history.issued
              && (r.result == Failure(Timeout) <==> r.at >= r.ticket.timeout.start + r.ticket.timeout.duration)
              && WasSettled(x, answers, r)
    ensures var outcomes := After(x, answers).history.outcomes;
            forall i, j :: 0 <= i < j < |outcomes| ==> outcomes[i].ticket.serial != outcomes[j].ticket.serial
  {
    var s := After(x, answers);
    AfterInv(x, answers);
    RunRecord(x, answers);
    RunStarts(x, answers);
    OutboundState(s);
    hide Inv, After, WasRequested, WasSettled, RequestsMade, OutcomesMade, StartsMade, NegotiationsEnded,
         WaitingTickets, UpgradeTickets, ReportTickets;
    forall k | 0 <= k < |s.history.issued| ensures WasRequested(x, answers, s.history.issued[k]) {
      RequestedSomewhere(x, answers, s.history.issued[k]);
    }
    forall k | 0 <= k < |s.history.outcomes| ensures WasSettled(x, answers, s.history.outcomes[k]) {
      SettledSomewhere(x, answers, s.history.outcomes[k]);
    }
  }

  lemma InboundState<U>(s: State<U>)
    requires Inv(s)
    ensures multiset(UpgradeTickets(s.negotiatingIn)) + multiset(ReportTickets(s.history.endings)) ==
            multiset(s.history.accepted)
    ensures |s.negotiatingIn| <= s.maxInbound && s.history.inboundTold == WorthTelling(s.history.endings)
    ensures forall k :: 0 <= k < |s.history.endings| ==>
              var r := s.history.endings[k];
              && r.ticket in s.history.accepted
              && (r.result == Failure(Timeout) <==> r.at >= r.ticket.timeout.start + r.ticket.timeout.duration)
    ensures forall i, j :: 0 <= i < j < |s.history.endings| ==>
              s.history.endings[i].ticket.serial != s.history.endings[j].ticket.serial
  {
    hide StreamsInv, ProtocolsInv, ShutdownInv, SlotsInv, OutboundConserved, WorthTelling;
    ReportedOnce(s.history.endings, s.history.accepted);
  }

  /**
   The same for inbound streams, of which no more than the configured number negotiate at a time. Of
   their endings the handler is told the successes and the upgrade errors, in order, and no others.
   */
  lemma InboundConservation<U>(x: Setup, answers: seq<Answer<U>>)
    requires x.now <= x.lastInstant
    ensures var s := After(x, answers);
            && multiset(UpgradeTickets(s.negotiatingIn)) + multiset(ReportTickets(s.history.endings)) ==
               multiset(s.history.accepted)
            && s.history.accepted == AcceptsMade(x, answers) && s.history.endings == EndingsMade(x, answers)
            && |s.negotiatingIn| <= x.maxInbound
            && s.history.inboundTold == WorthTelling(s.history.endings)
    ensures var accepted := After(x, answers).history.accepted;
            forall k :: 0 <= k < |accepted| ==> WasAccepted(x, answers, accepted[k])
    ensures var s := After(x, answers);
            forall k :: 0 <= k < |s.history.endings| ==>
              var r := s.history.endings[k];
              && r.ticket in s.history.accepted
              && (r.result == Failure(Timeout) <==> r.at >= r.ticket.timeout.start + r.ticket.timeout.duration)
              && WasEnded(x, answers, r)
    ensures var endings := After(x, answers).history.endings;
            forall i, j :: 0 <= i < j < |endings| ==> endings[i].ticket.serial != endings[j].ticket.serial
  {
    var s := After(x, answers);
    AfterInv(x, answers);
    RunRecord(x, answers);
    RunSettings(x, answers);
    InboundState(s);
    hide Inv, After, WasAccepted, WasEnded, AcceptsMade, EndingsMade, WorthTelling, UpgradeTickets, ReportTickets;
    forall k | 0 <= k < |s.history.accepted| ensures WasAccepted(x, answers, s.history.accepted[k]) {
      AcceptedSomewhere(x, answers, s.history.accepted[k]);
    }
    forall k | 0 <= k < |s.history.endings| ensures WasEnded(x, answers, s.history.endings[k]) {
      EndedSomewhere(x, answers, s.history.endings[k]);
    }
  }

  /**
   Active streams. A handle is held exactly if it belongs to a negotiation going on, or to a stream
   that was passed on (which a timed out or failed negotiation never is), and was not dropped or
   opted out in the meantime. No two streams share one, the counter says "none" exactly when none is
   held, and giving a handle up twice is giving it up once.
   */
  lemma ActiveStreams<U>(x: Setup, answers: seq<Answer<U>>, handles: set<nat>)
    requires x.now <= x.lastInstant
    ensures var s := After(x, answers);
            && (forall h :: h in s.streams.holders <==>
                  h in Accounted(s) && !WasGivenUp(x, answers, h))
            && (forall h :: Accounted(s)[h] <= 1)
            && (s.streams.HasNoActiveStreams() <==>
                forall h :: h in Accounted(s) ==> WasGivenUp(x, answers, h))
            && s.streams.Release(handles).Release(handles) == s.streams.Release(handles)
    ensures var history := After(x, answers).history;
            && (forall k :: 0 <= k < |history.outcomes| && history.outcomes[k].passedOn.Some? ==>
                  history.outcomes[k].result in {Success, Failure(Apply)})
            && (forall k :: 0 <= k < |history.endings| && history.endings[k].passedOn.Some? ==>
                  history.endings[k].result in {Success, Failure(Apply)})
  {
    var s := After(x, answers);
    AfterInv(x, answers);
    NoneHolds(s);
    assert (s.streams.holders - handles) * handles == {};
    hide After, Accounted, WasGivenUp;
    forall h: nat ensures h in s.history.givenUp <==> WasGivenUp(x, answers, h) {
      GivenUpOrigin(x, answers, h);
    }
  }

  /**
   Protocol replay. The remote events, each of which moves what is known, replay to the same set as
   the reports the handler made in the run, and that is the set of remote protocols; the local
   events replay to the valid names of the map.
   */
  lemma ProtocolReplay<U>(x: Setup, answers: seq<Answer<U>>)
    requires x.now <= x.lastInstant
    ensures var s := After(x, answers);
            && ReplayAll({}, s.history.remoteChanges) == ReplayAll({}, ReportsMade(x, answers)) == s.remote
            && (forall i :: 0 <= i < |s.history.remoteChanges| ==>
                  Moves(ReplayAll({}, s.history.remoteChanges[..i]), s.history.remoteChanges[i]))
            && ReplayAll({}, s.history.localChanges) == ValidPart(s.local.Keys)
  {
    AfterInv(x, answers);
    RunRecord(x, answers);
  }

  lemma ClosesStep<U>(s: State<U>, a: Answer<U>)
    requires Inv(s)
    ensures Iterate(s, a).1 == Return(KeepAliveTimeout) <==>
            Silent(s, a) &&
            QuietLongEnough(s.history.checks + CheckMade(s, a), Clock(s, a), s.lastInstant, s.idleTimeout)
    ensures Iterate(s, a).1 == Return(KeepAliveTimeout) ==> Quiet(s, a)
  {
    hide Inv, Iterate, OutboundAfter, InboundAfter, RequestMade, OutcomeMade, AcceptMade, EndingMade, ReportMade,
         StartMade, FullSets, SafeDelay, Quiet;
    IterateTrace(s, a);
    assert Silent(s, a) ==> ChecksAfter(s, a) == s.history.checks + CheckMade(s, a);
    if Closes(s, a) {
      assert ChecksAfter(s, a)[|s.history.checks|] == Check(Clock(s, a), Quiet(s, a));
    }
  }

  /**
   Keep-alive. The checks on record are those of the iterations in which nothing came up, each quiet
   exactly if all three queues were empty, no stream was held and the handler did not object. The
   connection is closed for idleness if and only if a check is made, and the checks up to it have been
   quiet for the delay that the configured timeout asks for, counted from the first of the unbroken
   streak; at once for a timeout of zero.
   */
  lemma ClosesExactlyWhenIdle<U>(x: Setup, answers: seq<Answer<U>>, a: Answer<U>)
    requires x.now <= x.lastInstant
    ensures var s := After(x, answers);
            && s.history.checks == ChecksMade(x, answers)
            && (Iterate(s, a).1 == Return(KeepAliveTimeout) <==>
                Silent(s, a) &&
                QuietLongEnough(ChecksMade(x, answers) + CheckMade(s, a), Clock(s, a), x.lastInstant, x.idleTimeout))
            && (Iterate(s, a).1 == Return(KeepAliveTimeout) ==> Quiet(s, a))
  {
    hide After, Inv, Iterate, ChecksMade, Silent, Quiet, QuietLongEnough, CheckMade;
    AfterInv(x, answers);
    RunRecord(x, answers);
    RunSettings(x, answers);
    ClosesStep(After(x, answers), a);
  }

  /** How a settled request was settled: out of time, or by the answer of its negotiation. */
  lemma OutcomeMeans<U>(s: State<U>, a: Answer<U>, r: Report<U>)
    requires r in OutcomeMade(s, a)
    ensures r.at == Clock(s, a)
    ensures DeadlinePassed(r.ticket, r.at) <==> r.result == Failure(Timeout)
    ensures || (exists i :: 0 <= i < |s.requested| && s.requested[i].future.Waiting? &&
                            s.requested[i].future.ticket == r.ticket && r.result == Failure(Timeout))
            || (Finished(s.negotiatingOut, a.outboundDone) &&
                s.negotiatingOut[a.outboundDone.value.0].ticket == r.ticket &&
                (r.result == Failure(Timeout) || r.result == Meaning(a.outboundDone.value.1)))
  {
    if !Asked(s, a) {
      SettledIsRipe(s, a);
    }
  }

  lemma Cancel<T>(p: multiset<T>, q: multiset<T>, a: multiset<T>, b: multiset<T>, m: multiset<T>)
    requires p + (a + m) + b == q + a + b
    ensures q == p + m
  {
    assert forall e :: (p + (a + m) + b)[e] == p[e] + a[e] + m[e] + b[e];
    assert forall e :: (q + a + b)[e] == q[e] + a[e] + b[e];
  }

  /** What is in one place less is in another place more. */
  lemma WaitingShrinks<U>(s: State<U>, t: State<U>, u: StreamUpgrade<U>)
    requires OutboundConserved(s) && OutboundConserved(t)
    requires t.history.issued == s.history.issued && t.history.outcomes == s.history.outcomes
    requires t.negotiatingOut == s.negotiatingOut + [u]
    ensures WaitingTickets(s.requested) == WaitingTickets(t.requested) + multiset{u.ticket}
  {
    UpgradeAppend(s.negotiatingOut, u);
    hide WaitingTickets, UpgradeTickets, ReportTickets, Numbered;
    Cancel(WaitingTickets(t.requested), WaitingTickets(s.requested), multiset(UpgradeTickets(s.negotiatingOut)),
           multiset(ReportTickets(s.history.outcomes)), multiset{u.ticket});
  }

  lemma FreshHandle<U>(s: State<U>)
    requires Inv(s)
    ensures s.handles !in Accounted(s) && s.handles !in s.history.givenUp
  {
    hide SlotsInv, OutboundConserved, InboundConserved, TimelyInv, ProtocolsInv, ShutdownInv, Accounted;
    assert StreamsInv(s);
  }

  lemma OpenStep<U>(s: State<U>, a: Answer<U>)
    requires Inv(s) && Opens(s, a)
    ensures var t := Iterate(s, a).0;
            && |StartMade(s, a)| == 1
            && t.negotiatingOut == s.negotiatingOut + [StreamUpgrade(StartMade(s, a)[0], s.handles)]
            && s.handles !in Accounted(s) && s.handles !in s.history.givenUp
            && WaitingTickets(s.requested) == WaitingTickets(t.requested) + multiset{StartMade(s, a)[0]}
  {
    hide Iterate, FullSets, QuietLongEnough, Quiet, Asked, SlotsInv, InboundConserved, TimelyInv, ProtocolsInv,
         ShutdownInv, StreamsInv, OutboundConserved, Accounted, WaitingTickets, InboundAfter, EndingMade, ReportMade,
         CheckMade, Outcome, Tail;
    FreshHandle(s);
    IterateTrace(s, a);
    IterateInv(s, a);
    var u := CheckTrace(s, a);
    SilentAdds(s, a);
    var t := Iterate(s, a).0;
    assert StartMade(s, a) == [s.requested[Picked(s, a)].future.ticket];
    hide OutcomeMade, RequestMade, AcceptMade, Opens, Silent;
    WaitingShrinks(s, t, StreamUpgrade(StartMade(s, a)[0], s.handles));
  }

  /**
   A substream is put to use. When the second half is reached, the multiplexer has a substream and a
   request waits, exactly one negotiation is started, on a handle nobody ever had, for a request that
   was waiting and no longer is.
   */
  lemma OpensWhenReady<U>(x: Setup, answers: seq<Answer<U>>, a: Answer<U>)
    requires x.now <= x.lastInstant && Opens(After(x, answers), a)
    ensures var s := After(x, answers);
            var t := Iterate(s, a).0;
            && |StartMade(s, a)| == 1
            && t.negotiatingOut == s.negotiatingOut + [StreamUpgrade(StartMade(s, a)[0], s.handles)]
            && s.handles !in Accounted(s) && !WasGivenUp(x, answers, s.handles)
            && WaitingTickets(s.requested) == WaitingTickets(t.requested) + multiset{StartMade(s, a)[0]}
  {
    AfterInv(x, answers);
    GivenUpOrigin(x, answers, After(x, answers).handles);
    hide After, WasGivenUp, Opens, StartMade, Accounted, Inv, WaitingTickets;
    OpenStep(After(x, answers), a);
  }
}
