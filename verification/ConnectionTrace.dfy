/**
 One iteration of a connection's loop, told flat: what it does follows from who has something to say,
 looked at in the order of the code, and is stated without the stages. Everything it adds to the
 queues and to the record, and what `poll` returns, is given exactly.
 */
module ConnectionTrace {
  import opened Common
  import opened IdleShutdown
  import opened ProtocolsChange
  import opened ConnectionModel
  import opened ConnectionSafety

  // ----- who has something to say -----

  /** The time at which an iteration takes place: it never passes the last instant there is. */
  function Clock<U>(s: State<U>, a: Answer<U>): nat {
    if s.now + a.elapsed <= s.lastInstant then s.now + a.elapsed else s.lastInstant
  }

  predicate DeadlinePassed<U>(t: Ticket<U>, at: nat) {
    at >= t.timeout.start + t.timeout.duration
  }

  /** A request that was woken, and is done or out of time. */
  predicate Ripe<U>(s: State<U>, a: Answer<U>, i: nat) {
    && i < |s.requested| && (s.requested[i].woken || i in a.woken)
    && (s.requested[i].future.Waiting? ==> DeadlinePassed(s.requested[i].future.ticket, Clock(s, a)))
  }

  /** The handler is polled: no request has to be settled first. */
  ghost predicate Asked<U>(s: State<U>, a: Answer<U>) {
    forall i: nat :: !Ripe(s, a, i)
  }

  predicate Finished<U>(us: seq<StreamUpgrade<U>>, done: Option<(nat, UpgradeAnswer)>) {
    done.Some? && done.value.0 < |us|
  }

  ghost predicate Unasked<U>(s: State<U>, a: Answer<U>) {
    Asked(s, a) && a.handler.HandlerPending?
  }

  ghost predicate SettlesOutbound<U>(s: State<U>, a: Answer<U>) {
    Unasked(s, a) && Finished(s.negotiatingOut, a.outboundDone)
  }

  ghost predicate SettlesInbound<U>(s: State<U>, a: Answer<U>) {
    Unasked(s, a) && !Finished(s.negotiatingOut, a.outboundDone) && Finished(s.negotiatingIn, a.inboundDone)
  }

  /** Nothing came up, so the connection checks whether to shut down. */
  ghost predicate Silent<U>(s: State<U>, a: Answer<U>) {
    Unasked(s, a) && !Finished(s.negotiatingOut, a.outboundDone) && !Finished(s.negotiatingIn, a.inboundDone)
  }

  /** Nothing waits, nothing negotiates, no stream is held, and the handler does not object. */
  ghost predicate Quiet<U>(s: State<U>, a: Answer<U>) {
    && s.requested == [] && s.negotiatingOut == [] && s.negotiatingIn == []
    && s.streams.holders <= a.released && !a.keepAlive
  }

  ghost function ChecksAfter<U>(s: State<U>, a: Answer<U>): seq<Check> {
    s.history.checks + [Check(Clock(s, a), Quiet(s, a))]
  }

  /** The checks have been quiet for the delay that a timeout asks for, counted from the first of them. */
  ghost predicate QuietLongEnough(checks: seq<Check>, now: nat, lastInstant: nat, idleTimeout: nat) {
    var c := StreakStart(checks);
    c < |checks| &&
    (idleTimeout == 0 ||
     (checks[c].at <= lastInstant && now >= checks[c].at + SafeDelay(lastInstant - checks[c].at, idleTimeout)))
  }

  ghost predicate Closes<U>(s: State<U>, a: Answer<U>) {
    Silent(s, a) && QuietLongEnough(ChecksAfter(s, a), Clock(s, a), s.lastInstant, s.idleTimeout)
  }

  /** The multiplexer was polled and had nothing, so that substreams are asked for. */
  ghost predicate Through<U>(s: State<U>, a: Answer<U>) {
    Silent(s, a) && !Closes(s, a) && a.muxer.MuxerPending?
  }

  /** A request waits and a substream is there for it. */
  ghost predicate Opens<U>(s: State<U>, a: Answer<U>) {
    Through(s, a) && s.requested != [] && a.outbound.SubstreamReady?
  }

  ghost predicate Past<U>(s: State<U>, a: Answer<U>) {
    Through(s, a) && (s.requested == [] || a.outbound.SubstreamPending?)
  }

  /** There is room for one more inbound stream, and one is there. */
  ghost predicate Accepts<U>(s: State<U>, a: Answer<U>) {
    Past(s, a) && |s.negotiatingIn| < s.maxInbound && a.inbound.SubstreamReady?
  }

  ghost predicate Diffs<U>(s: State<U>, a: Answer<U>) {
    Past(s, a) && (|s.negotiatingIn| >= s.maxInbound || a.inbound.SubstreamPending?)
  }

  // ----- what comes of it -----

  ghost function RequestMade<U>(s: State<U>, a: Answer<U>): seq<Ticket<U>> {
    if Asked(s, a) && a.handler.OutboundSubstreamRequest?
    then [Ticket(|s.history.issued|, a.handler.info, Delay(Clock(s, a), a.handler.timeout))] else []
  }

  ghost function ReportMade<U>(s: State<U>, a: Answer<U>): seq<Change> {
    if Asked(s, a) && a.handler.ReportAdded? then [Added(a.handler.protocols)]
    else if Asked(s, a) && a.handler.ReportRemoved? then [Removed(a.handler.protocols)]
    else []
  }

  function Meaning(answer: UpgradeAnswer): UpgradeResult {
    match answer
    case Upgraded(_) => Success
    case ApplyFailed(_) => Failure(Apply)
    case NotNegotiated => Failure(NegotiationFailed)
    case IoFailed => Failure(Io)
  }

  predicate Keeps(answer: UpgradeAnswer) {
    (answer.Upgraded? || answer.ApplyFailed?) && answer.keeps
  }

  /** How a negotiation ends: with what it answered, unless its time was up. */
  function Ending<U>(u: StreamUpgrade<U>, answer: UpgradeAnswer, at: nat): Report<U> {
    if DeadlinePassed(u.ticket, at) then Report(u.ticket, Failure(Timeout), at, None)
    else Report(u.ticket, Meaning(answer), at, if Keeps(answer) then Some(u.handle) else None)
  }

  lemma ArriveTrace<U>(s: State<U>, a: Answer<U>)
    ensures var w := Arrive(s, a);
            && w == s.(now := Clock(s, a), streams := s.streams.Release(a.released), requested := w.requested,
                       history := s.history.(givenUp := s.history.givenUp + s.streams.holders * a.released))
            && |w.requested| == |s.requested|
            && forall i :: 0 <= i < |s.requested| ==>
                 w.requested[i] == s.requested[i].(woken := s.requested[i].woken || i in a.woken)
  {
  }

  lemma ReadyIsRipe<U>(s: State<U>, a: Answer<U>)
    ensures AnyReady(Arrive(s, a).requested, Arrive(s, a).now) <==> !Asked(s, a)
    ensures forall i :: 0 <= i < |s.requested| ==>
              (IsReady(Arrive(s, a).requested[i], Arrive(s, a).now) <==> Ripe(s, a, i))
  {
    ArriveTrace(s, a);
    hide Arrive;
    var w := Arrive(s, a);
    assert forall i :: 0 <= i < |s.requested| ==> (IsReady(w.requested[i], w.now) <==> Ripe(s, a, i));
    if !Asked(s, a) {
      var i: nat :| Ripe(s, a, i);
      assert IsReady(w.requested[i], w.now);
    }
  }

  /** The request that is settled when one has to be, whichever the scheduler takes. */
  ghost function Settled<U>(s: State<U>, a: Answer<U>): nat
    requires !Asked(s, a)
  {
    ReadyIsRipe(s, a);
    Choose(Arrive(s, a).requested, Arrive(s, a).now, a.ready)
  }

  lemma {:induction false} ChoosesFavoured<U>(slots: seq<Slot<U>>, now: nat, favoured: nat)
    requires AnyReady(slots, now)
    ensures var i := Choose(slots, now, favoured);
            if favoured < |slots| && IsReady(slots[favoured], now) then i == favoured
            else forall j :: 0 <= j < i ==> !IsReady(slots[j], now)
  {
    if !(favoured < |slots| && IsReady(slots[favoured], now)) && !IsReady(slots[0], now) {
      var k :| 0 <= k < |slots| && IsReady(slots[k], now);
      assert slots[1..][k - 1] == slots[k];
      ChoosesFavoured(slots[1..], now, 0);
      assert forall j :: 0 < j < |slots| ==> slots[j] == slots[1..][j - 1];
    }
  }

  /** It is ripe: the one the scheduler favours if that is, else the first that is. */
  lemma SettledIsRipe<U>(s: State<U>, a: Answer<U>)
    requires !Asked(s, a)
    ensures Settled(s, a) < |s.requested| && Ripe(s, a, Settled(s, a))
    ensures Ripe(s, a, a.ready) ==> Settled(s, a) == a.ready
    ensures !Ripe(s, a, a.ready) ==> forall i :: 0 <= i < Settled(s, a) ==> !Ripe(s, a, i)
  {
    ReadyIsRipe(s, a);
    ArriveTrace(s, a);
    ChoosesFavoured(Arrive(s, a).requested, Arrive(s, a).now, a.ready);
    hide Arrive, IsReady;
  }

  ghost function OutcomeMade<U>(s: State<U>, a: Answer<U>): seq<Report<U>> {
    if !Asked(s, a) then
      SettledIsRipe(s, a);
      match s.requested[Settled(s, a)].future
      case Waiting(ticket, _) => [Report(ticket, Failure(Timeout), Clock(s, a), None)]
      case Done => []
    else if SettlesOutbound(s, a) then
      [Ending(s.negotiatingOut[a.outboundDone.value.0], a.outboundDone.value.1, Clock(s, a))]
    else []
  }

  ghost function EndingMade<U>(s: State<U>, a: Answer<U>): seq<Report<U>> {
    if SettlesInbound(s, a) then
      [Ending(s.negotiatingIn[a.inboundDone.value.0], a.inboundDone.value.1, Clock(s, a))]
    else []
  }

  ghost function AcceptMade<U>(s: State<U>, a: Answer<U>): seq<Ticket<U>> {
    if Accepts(s, a) then [Ticket(|s.history.accepted|, a.listen.info, Delay(Clock(s, a), a.listen.timeout))] else []
  }

  /** The request that gets the substream. */
  function Picked<U>(s: State<U>, a: Answer<U>): nat
    requires s.requested != []
  {
    if a.pick < |s.requested| then a.pick else 0
  }

  /** The negotiation that is started; at that point every request still waits. */
  ghost function StartMade<U>(s: State<U>, a: Answer<U>): seq<Ticket<U>> {
    if Opens(s, a) && s.requested[Picked(s, a)].future.Waiting? then [s.requested[Picked(s, a)].future.ticket] else []
  }

  ghost function CheckMade<U>(s: State<U>, a: Answer<U>): seq<Check> {
    if Silent(s, a) then [Check(Clock(s, a), Quiet(s, a))] else []
  }

  ghost function OutboundAfter<U>(s: State<U>, a: Answer<U>): seq<StreamUpgrade<U>> {
    if SettlesOutbound(s, a) then Without(s.negotiatingOut, a.outboundDone.value.0)
    else if StartMade(s, a) != [] then s.negotiatingOut + [StreamUpgrade(StartMade(s, a)[0], s.handles)]
    else s.negotiatingOut
  }

  ghost function InboundAfter<U>(s: State<U>, a: Answer<U>): seq<StreamUpgrade<U>> {
    if SettlesInbound(s, a) then Without(s.negotiatingIn, a.inboundDone.value.0)
    else if Accepts(s, a) then s.negotiatingIn + [StreamUpgrade(AcceptMade(s, a)[0], s.handles)]
    else s.negotiatingIn
  }

  /** What `poll` does after the iteration: goes on, or returns with this. */
  ghost function Outcome<U>(s: State<U>, a: Answer<U>): Control {
    if Asked(s, a) && a.handler.NotifyBehaviour? then Return(HandlerEvent(a.handler.event))
    else if Closes(s, a) then Return(KeepAliveTimeout)
    else if Silent(s, a) && a.muxer.MuxerAddressChange? then Return(AddressChange(a.muxer.address))
    else if Silent(s, a) && a.muxer.MuxerError? then Return(IoError)
    else if Through(s, a) && s.requested != [] && a.outbound.SubstreamError? then Return(IoError)
    else if Past(s, a) && |s.negotiatingIn| < s.maxInbound && a.inbound.SubstreamError? then Return(IoError)
    else if Diffs(s, a) && FullSets(s.local, a.listen.names).1 == [] then Return(Pending)
    else Continue
  }

  /** All an iteration does, as far as anybody can see it. */
  ghost predicate Traced<U>(s: State<U>, a: Answer<U>, t: State<U>, control: Control) {
    && control == Outcome(s, a)
    && t.now == Clock(s, a)
    && t.lastInstant == s.lastInstant && t.idleTimeout == s.idleTimeout && t.maxInbound == s.maxInbound
    && t.negotiatingOut == OutboundAfter(s, a)
    && t.negotiatingIn == InboundAfter(s, a)
    && t.handles == s.handles + |StartMade(s, a)| + |AcceptMade(s, a)|
    && t.history.issued == s.history.issued + RequestMade(s, a)
    && t.history.outcomes == s.history.outcomes + OutcomeMade(s, a)
    && t.history.accepted == s.history.accepted + AcceptMade(s, a)
    && t.history.endings == s.history.endings + EndingMade(s, a)
    && t.history.remoteReports == s.history.remoteReports + ReportMade(s, a)
    && t.history.localChanges ==
       s.history.localChanges + (if Diffs(s, a) then FullSets(s.local, a.listen.names).1 else [])
    && t.history.givenUp == s.history.givenUp + s.streams.holders * a.released
    && t.history.checks == s.history.checks + CheckMade(s, a)
  }

  // ----- the connection with the stages -----

  lemma RequestedTrace<U>(s: State<U>, a: Answer<U>)
    ensures var w := Arrive(s, a);
            var (t, control) := RequestedStage(w, a);
            && t == w.(requested := t.requested, history := w.history.(outcomes := t.history.outcomes))
            && control == (if Asked(s, a) then None else Some(Continue))
            && (!Asked(s, a) ==> t.history.outcomes == w.history.outcomes + OutcomeMade(s, a))
            && (Asked(s, a) ==>
                  && t.history.outcomes == w.history.outcomes && |t.requested| == |s.requested|
                  && forall i :: 0 <= i < |s.requested| ==>
                       && t.requested[i].future.Waiting? == s.requested[i].future.Waiting?
                       && (s.requested[i].future.Waiting? ==>
                             t.requested[i].future.ticket == s.requested[i].future.ticket))
  {
    ReadyIsRipe(s, a);
    ArriveTrace(s, a);
    if !Asked(s, a) {
      SettledIsRipe(s, a);
    }
    hide Arrive, PollMembers, AnyReady, IsReady, Without;
  }

  lemma HandlerTrace<U>(s: State<U>, a: Answer<U>)
    ensures var (t, control) := HandlerStage(s, a);
            && t == s.(requested := t.requested, remote := t.remote,
                       history := s.history.(issued := t.history.issued, remoteReports := t.history.remoteReports,
                                             remoteChanges := t.history.remoteChanges))
            && t.history.issued == s.history.issued +
               (if a.handler.OutboundSubstreamRequest?
                then [Ticket(|s.history.issued|, a.handler.info, Delay(s.now, a.handler.timeout))] else [])
            && t.history.remoteReports == s.history.remoteReports +
               (if a.handler.ReportAdded? then [Added(a.handler.protocols)]
                else if a.handler.ReportRemoved? then [Removed(a.handler.protocols)] else [])
            && control == (if a.handler.HandlerPending? then None
                           else if a.handler.NotifyBehaviour? then Some(Return(HandlerEvent(a.handler.event)))
                           else Some(Continue))
            && (a.handler.HandlerPending? ==> t == s)
  {
  }

  lemma FinishedTrace<U>(u: StreamUpgrade<U>, answer: UpgradeAnswer, now: nat)
    ensures Report(u.ticket, Resolve(u, answer, now), now, PassedOn(u, answer, now)) == Ending(u, answer, now)
  {
  }

  lemma OutboundTrace<U>(s: State<U>, a: Answer<U>)
    ensures var (t, control) := OutboundStage(s, a);
            && (!Finished(s.negotiatingOut, a.outboundDone) ==> t == s && control == None)
            && (Finished(s.negotiatingOut, a.outboundDone) ==>
                  var (j, answer) := a.outboundDone.value;
                  && control == Some(Continue)
                  && t == s.(negotiatingOut := Without(s.negotiatingOut, j), streams := t.streams,
                             history := s.history.(outcomes := s.history.outcomes +
                                                     [Ending(s.negotiatingOut[j], answer, s.now)])))
  {
    if Finished(s.negotiatingOut, a.outboundDone) {
      FinishedTrace(s.negotiatingOut[a.outboundDone.value.0], a.outboundDone.value.1, s.now);
    }
    hide Resolve, PassedOn, HandleAfter, Ending;
  }

  lemma InboundTrace<U>(s: State<U>, a: Answer<U>)
    ensures var (t, control) := InboundStage(s, a);
            && (!Finished(s.negotiatingIn, a.inboundDone) ==> t == s && control == None)
            && (Finished(s.negotiatingIn, a.inboundDone) ==>
                  var (j, answer) := a.inboundDone.value;
                  && control == Some(Continue)
                  && t == s.(negotiatingIn := Without(s.negotiatingIn, j), streams := t.streams, history := t.history)
                  && t.history == s.history.(endings := s.history.endings + [Ending(s.negotiatingIn[j], answer, s.now)],
                                             inboundTold := t.history.inboundTold))
  {
    if Finished(s.negotiatingIn, a.inboundDone) {
      FinishedTrace(s.negotiatingIn[a.inboundDone.value.0], a.inboundDone.value.1, s.now);
    }
    hide Resolve, PassedOn, HandleAfter, Ending;
  }

  /** The delay of the invariant, written out. */
  lemma DueMeansQuiet<U>(s: State<U>)
    requires s.now <= s.lastInstant && forall j :: 0 <= j < |s.history.checks| ==> s.history.checks[j].at <= s.now
    ensures IdledLongEnough(s) <==> QuietLongEnough(s.history.checks, s.now, s.lastInstant, s.idleTimeout)
  {
  }

  lemma ShutdownTrace<U>(s: State<U>, a: Answer<U>)
    requires Inv(s)
    ensures var (t, control) := ShutdownStage(s, a);
            var checks := s.history.checks + [Check(s.now, FullyIdle(s) && !a.keepAlive)];
            && t == s.(shutdown := t.shutdown, history := s.history.(checks := checks))
            && control == if QuietLongEnough(checks, s.now, s.lastInstant, s.idleTimeout)
                          then Some(Return(KeepAliveTimeout)) else None
  {
    ShutdownStageInv(s, a);
    var t := ShutdownStage(s, a).0;
    assert t == s.(shutdown := t.shutdown, history := s.history.(checks := t.history.checks)) by {
      hide ComputeNewShutdown, Inv;
    }
    assert forall j :: 0 <= j < |t.history.checks| ==> t.history.checks[j].at <= t.now;
    DueMeansQuiet(t);
  }

  /** Picking a request, opening, accepting and diffing, once the check and the multiplexer let pass. */
  lemma OpenTrace<U>(s: State<U>, a: Answer<U>)
    requires AllParked(s)
    ensures var (t, control) := OpenStage(s, a);
            && (s.requested == [] || a.outbound.SubstreamPending? ==> t == s && control == None)
            && (s.requested != [] && a.outbound.SubstreamError? ==> t == s && control == Some(Return(IoError)))
            && (s.requested != [] && a.outbound.SubstreamReady? ==>
                  && s.requested[Picked(s, a)].future.Waiting? && control == Some(Continue)
                  && t == s.(requested := t.requested, streams := t.streams, handles := s.handles + 1,
                             negotiatingOut := s.negotiatingOut +
                               [StreamUpgrade(s.requested[Picked(s, a)].future.ticket, s.handles)]))
  {
  }

  lemma AcceptTrace<U>(s: State<U>, a: Answer<U>)
    ensures var (t, control) := AcceptStage(s, a);
            var open := |s.negotiatingIn| < s.maxInbound;
            && (!open || a.inbound.SubstreamPending? ==> t == s && control == None)
            && (open && a.inbound.SubstreamError? ==> t == s && control == Some(Return(IoError)))
            && (open && a.inbound.SubstreamReady? ==>
                  var ticket := Ticket(|s.history.accepted|, a.listen.info, Delay(s.now, a.listen.timeout));
                  && control == Some(Continue)
                  && t == s.(negotiatingIn := s.negotiatingIn + [StreamUpgrade(ticket, s.handles)],
                             streams := t.streams, handles := s.handles + 1,
                             history := s.history.(accepted := s.history.accepted + [ticket])))
  {
  }

  lemma ProtocolTrace<U>(s: State<U>, a: Answer<U>)
    ensures var (t, control) := ProtocolStage(s, a);
            var changes := FullSets(s.local, a.listen.names).1;
            && t == s.(local := t.local, history := s.history.(localChanges := s.history.localChanges + changes))
            && control == if changes == [] then Return(Pending) else Continue
  {
    hide FullSets;
  }

  /** The first half, from the state the iteration starts in. */
  lemma FrontTrace<U>(s: State<U>, a: Answer<U>)
    ensures var w := Arrive(s, a);
            var (t, control) := Front(w, a);
            && t == w.(requested := t.requested, remote := t.remote, negotiatingOut := t.negotiatingOut,
                       negotiatingIn := t.negotiatingIn, streams := t.streams, history := t.history)
            && t.history == w.history.(issued := t.history.issued, outcomes := t.history.outcomes,
                                       endings := t.history.endings, inboundTold := t.history.inboundTold,
                                       remoteReports := t.history.remoteReports,
                                       remoteChanges := t.history.remoteChanges)
            && t.history.issued == w.history.issued + RequestMade(s, a)
            && t.history.outcomes == w.history.outcomes + OutcomeMade(s, a)
            && t.history.endings == w.history.endings + EndingMade(s, a)
            && t.history.remoteReports == w.history.remoteReports + ReportMade(s, a)
            && t.negotiatingOut == (if SettlesOutbound(s, a) then Without(s.negotiatingOut, a.outboundDone.value.0)
                                    else s.negotiatingOut)
            && t.negotiatingIn == (if SettlesInbound(s, a) then Without(s.negotiatingIn, a.inboundDone.value.0)
                                   else s.negotiatingIn)
            && control == (if Silent(s, a) then None
                           else if Asked(s, a) && a.handler.NotifyBehaviour? then
                             Some(Return(HandlerEvent(a.handler.event)))
                           else Some(Continue))
            && (Silent(s, a) ==>
                  && t.streams == w.streams && |t.requested| == |s.requested|
                  && forall i :: 0 <= i < |s.requested| ==>
                       && t.requested[i].future.Waiting? == s.requested[i].future.Waiting?
                       && (s.requested[i].future.Waiting? ==>
                             t.requested[i].future.ticket == s.requested[i].future.ticket))
  {
    var w := Arrive(s, a);
    ArriveTrace(s, a);
    RequestedTrace(s, a);
    hide Arrive, RequestedStage, HandlerStage, OutboundStage, InboundStage, Asked, Without, Ending;
    var (t1, c1) := RequestedStage(w, a);
    if c1.None? {
      HandlerTrace(t1, a);
      var (t2, c2) := HandlerStage(t1, a);
      if c2.None? {
        OutboundTrace(t2, a);
        var (t3, c3) := OutboundStage(t2, a);
        if c3.None? {
          InboundTrace(t3, a);
        }
      }
    }
  }

  /** The stages after the shutdown check and the multiplexer. */
  ghost function Tail<U>(s: State<U>, a: Answer<U>): (State<U>, Control) {
    var r7 := OpenStage(s, a);
    if r7.1.Some? then (r7.0, r7.1.value) else
    var r8 := AcceptStage(r7.0, a);
    if r8.1.Some? then (r8.0, r8.1.value) else
    ProtocolStage(r8.0, a)
  }

  lemma BackSplits<U>(s: State<U>, a: Answer<U>)
    ensures var (t, c) := ShutdownStage(s, a);
            Back(s, a) == if c.Some? then (t, c.value)
                          else if a.muxer.MuxerAddressChange? then (t, Return(AddressChange(a.muxer.address)))
                          else if a.muxer.MuxerError? then (t, Return(IoError))
                          else Tail(t, a)
  {
    hide ShutdownStage, OpenStage, AcceptStage, ProtocolStage;
  }

  lemma TailOpens<U>(m: State<U>, a: Answer<U>)
    requires AllParked(m) && m.requested != [] && a.outbound.SubstreamReady?
    ensures var (t, control) := Tail(m, a);
            && m.requested[Picked(m, a)].future.Waiting? && control == Continue
            && t == m.(requested := t.requested, streams := t.streams, handles := m.handles + 1,
                       negotiatingOut := m.negotiatingOut +
                         [StreamUpgrade(m.requested[Picked(m, a)].future.ticket, m.handles)])
  {
    OpenTrace(m, a);
    hide OpenStage, AcceptStage, ProtocolStage;
  }

  lemma TailRefused<U>(m: State<U>, a: Answer<U>)
    requires AllParked(m) && m.requested != [] && a.outbound.SubstreamError?
    ensures Tail(m, a) == (m, Return(IoError))
  {
    OpenTrace(m, a);
    hide OpenStage, AcceptStage, ProtocolStage;
  }

  lemma TailPasses<U>(m: State<U>, a: Answer<U>)
    requires AllParked(m) && (m.requested == [] || a.outbound.SubstreamPending?)
    ensures var (t, control) := Tail(m, a);
            var open := |m.negotiatingIn| < m.maxInbound;
            var changes := FullSets(m.local, a.listen.names).1;
            var ticket := Ticket(|m.history.accepted|, a.listen.info, Delay(m.now, a.listen.timeout));
            if open && a.inbound.SubstreamError? then t == m && control == Return(IoError)
            else if open && a.inbound.SubstreamReady? then
              && control == Continue
              && t == m.(negotiatingIn := m.negotiatingIn + [StreamUpgrade(ticket, m.handles)], streams := t.streams,
                         handles := m.handles + 1, history := m.history.(accepted := m.history.accepted + [ticket]))
            else
              && control == (if changes == [] then Return(Pending) else Continue)
              && t == m.(local := t.local, history := m.history.(localChanges := m.history.localChanges + changes))
  {
    OpenTrace(m, a);
    AcceptTrace(m, a);
    ProtocolTrace(m, a);
    hide OpenStage, AcceptStage, ProtocolStage, FullSets;
  }

  /** Nothing comes up and nothing is asked for, taken or settled. */
  lemma SilentAdds<U>(s: State<U>, a: Answer<U>)
    requires Silent(s, a)
    ensures OutcomeMade(s, a) == [] && EndingMade(s, a) == [] && RequestMade(s, a) == [] && ReportMade(s, a) == []
    ensures !SettlesOutbound(s, a) && !SettlesInbound(s, a) && a.handler.HandlerPending?
  {
  }

  lemma NothingLeft(held: set<nat>, released: set<nat>)
    ensures held - released == {} <==> held <= released
  {
    if held - released == {} {
      forall h | h in held ensures h in released {
        assert h !in held - released;
      }
    }
  }

  /** Between the halves: what the second half sees is what the iteration started with. */
  lemma SilentMeans<U>(s: State<U>, a: Answer<U>)
    requires Inv(s) && Silent(s, a)
    ensures var m := Front(Arrive(s, a), a).0;
            && Inv(m) && AllParked(m)
            && (FullyIdle(m) && !a.keepAlive <==> Quiet(s, a))
            && (m.requested == [] <==> s.requested == [])
            && (s.requested != [] ==>
                  && s.requested[Picked(s, a)].future.Waiting? && Picked(m, a) == Picked(s, a)
                  && m.requested[Picked(s, a)].future.Waiting?
                  && m.requested[Picked(s, a)].future.ticket == s.requested[Picked(s, a)].future.ticket)
  {
    hide Inv, Arrive, Front, Asked, Unasked, OutcomeMade, EndingMade, RequestMade, ReportMade, Without, Tame;
    ArriveInv(s, a);
    FrontInv(Arrive(s, a), a);
    ArriveTrace(s, a);
    FrontTrace(s, a);
    var m := Front(Arrive(s, a), a).0;
    assert m.streams.holders == s.streams.holders - a.released;
    NothingLeft(s.streams.holders, a.released);
    assert |m.requested| == |s.requested|;
  }

  /** An iteration that something came up in. */
  lemma BusyTrace<U>(s: State<U>, a: Answer<U>)
    requires !Silent(s, a)
    ensures Traced(s, a, Iterate(s, a).0, Iterate(s, a).1)
  {
    ArriveTrace(s, a);
    FrontTrace(s, a);
    hide Arrive, Front, Back, FullSets, QuietLongEnough, Quiet, OutcomeMade, EndingMade, Asked, Without;
  }

  /** The state after the check of an iteration in which nothing came up. */
  ghost predicate CheckedState<U>(s: State<U>, a: Answer<U>, t: State<U>) {
    && t.now == Clock(s, a) && t.lastInstant == s.lastInstant && t.idleTimeout == s.idleTimeout
    && t.maxInbound == s.maxInbound && t.handles == s.handles && t.local == s.local
    && t.negotiatingOut == s.negotiatingOut && t.negotiatingIn == s.negotiatingIn
    && t.history.issued == s.history.issued && t.history.outcomes == s.history.outcomes
    && t.history.accepted == s.history.accepted && t.history.endings == s.history.endings
    && t.history.remoteReports == s.history.remoteReports && t.history.localChanges == s.history.localChanges
    && t.history.givenUp == s.history.givenUp + s.streams.holders * a.released
    && t.history.checks == ChecksAfter(s, a)
    && (t.requested == [] <==> s.requested == [])
    && (s.requested != [] ==>
          && s.requested[Picked(s, a)].future.Waiting? && Picked(t, a) == Picked(s, a)
          && t.requested[Picked(s, a)].future.Waiting?
          && t.requested[Picked(s, a)].future.ticket == s.requested[Picked(s, a)].future.ticket)
  }

  lemma CheckTrace<U>(s: State<U>, a: Answer<U>) returns (t: State<U>)
    requires Inv(s) && Silent(s, a)
    ensures CheckedState(s, a, t) && AllParked(t)
    ensures Iterate(s, a) == if Closes(s, a) then (t, Return(KeepAliveTimeout))
                             else if a.muxer.MuxerAddressChange? then (t, Return(AddressChange(a.muxer.address)))
                             else if a.muxer.MuxerError? then (t, Return(IoError))
                             else Tail(t, a)
  {
    hide Inv, Arrive, Front, Back, ShutdownStage, Tail, QuietLongEnough, Quiet, FullyIdle, AllParked,
         OutcomeMade, EndingMade, RequestMade, ReportMade, Asked, Unasked, Without, StreakStart;
    ArriveTrace(s, a);
    FrontTrace(s, a);
    SilentMeans(s, a);
    SilentAdds(s, a);
    var m := Front(Arrive(s, a), a).0;
    ShutdownTrace(m, a);
    ShutdownStageInv(m, a);
    BackSplits(m, a);
    t := ShutdownStage(m, a).0;
  }

  lemma StoppedTrace<U>(s: State<U>, a: Answer<U>)
    requires Inv(s) && Silent(s, a) && !Through(s, a)
    ensures Traced(s, a, Iterate(s, a).0, Iterate(s, a).1)
  {
    hide Inv, Iterate, Tail, FullSets, QuietLongEnough, Quiet, AllParked, OutcomeMade, EndingMade, RequestMade,
         ReportMade, Asked, SettlesOutbound, SettlesInbound, Unasked, IdledLongEnough;
    var t := CheckTrace(s, a);
    SilentAdds(s, a);
  }

  lemma OpeningTrace<U>(s: State<U>, a: Answer<U>)
    requires Inv(s) && Through(s, a) && s.requested != [] && !a.outbound.SubstreamPending?
    ensures Traced(s, a, Iterate(s, a).0, Iterate(s, a).1)
  {
    hide Inv, Iterate, Tail, FullSets, QuietLongEnough, Quiet, AllParked, OutcomeMade, EndingMade, RequestMade,
         ReportMade, Asked, SettlesOutbound, SettlesInbound, Unasked, IdledLongEnough;
    var t := CheckTrace(s, a);
    SilentAdds(s, a);
    if a.outbound.SubstreamReady? {
      TailOpens(t, a);
    } else {
      TailRefused(t, a);
    }
  }

  lemma PassingTrace<U>(s: State<U>, a: Answer<U>)
    requires Inv(s) && Past(s, a)
    ensures Traced(s, a, Iterate(s, a).0, Iterate(s, a).1)
  {
    hide Inv, Iterate, Tail, FullSets, QuietLongEnough, Quiet, AllParked, OutcomeMade, EndingMade, RequestMade,
         ReportMade, Asked, SettlesOutbound, SettlesInbound, Unasked, IdledLongEnough;
    var t := CheckTrace(s, a);
    SilentAdds(s, a);
    TailPasses(t, a);
  }

  /** One iteration does exactly what the flat account says. */
  lemma IterateTrace<U>(s: State<U>, a: Answer<U>)
    requires Inv(s)
    ensures Traced(s, a, Iterate(s, a).0, Iterate(s, a).1)
  {
    hide Inv, Traced, Silent, Closes, Iterate;
    if !Silent(s, a) {
      BusyTrace(s, a);
    } else if !Through(s, a) {
      StoppedTrace(s, a);
    } else if Past(s, a) {
      PassingTrace(s, a);
    } else {
      OpeningTrace(s, a);
    }
  }
}
