/**
 What holds over every run of a connection: no request is lost, doubled or reported early or late; the
 panic of `extract` is out of reach; inbound negotiation stays within its bound; the protocol events
 replay to the true sets; and an idle shutdown happens exactly after the full delay of idleness.
 */
module ConnectionSafety {
  import opened Common
  import opened IdleShutdown
  import opened ProtocolsChange
  import opened ConnectionModel

  // ----- bags of tickets -----

  ghost function Held<U>(slot: Slot<U>): multiset<Ticket<U>> {
    if slot.future.Waiting? then multiset{slot.future.ticket} else multiset{}
  }

  ghost function WaitingTickets<U>(slots: seq<Slot<U>>): multiset<Ticket<U>> {
    if slots == [] then multiset{} else Held(slots[0]) + WaitingTickets(slots[1..])
  }

  ghost function UpgradeTickets<U>(us: seq<StreamUpgrade<U>>): seq<Ticket<U>> {
    seq(|us|, i requires 0 <= i < |us| => us[i].ticket)
  }

  ghost function ReportTickets<U>(rs: seq<Report<U>>): seq<Ticket<U>> {
    seq(|rs|, i requires 0 <= i < |rs| => rs[i].ticket)
  }

  lemma {:induction false} WaitingSplit<U>(slots: seq<Slot<U>>, i: nat)
    requires i < |slots|
    ensures WaitingTickets(slots) == WaitingTickets(Without(slots, i)) + Held(slots[i])
    decreases i
  {
    var rest := Without(slots, i);
    if i == 0 {
      assert rest == slots[1..];
    } else {
      var tail := slots[1..];
      WaitingSplit(tail, i - 1);
      assert tail[i - 1] == slots[i];
      assert rest[0] == slots[0] && rest[1..] == Without(tail, i - 1) by {
        assert rest == [slots[0]] + Without(tail, i - 1);
      }
      hide Without, Held;
      assert WaitingTickets(rest) == Held(slots[0]) + WaitingTickets(rest[1..]);
    }
  }

  lemma {:induction false} WaitingSame<U>(a: seq<Slot<U>>, b: seq<Slot<U>>)
    requires |a| == |b| && forall i :: 0 <= i < |a| ==> Held(a[i]) == Held(b[i])
    ensures WaitingTickets(a) == WaitingTickets(b)
    decreases |a|
  {
    if a == [] {
    } else {
      WaitingSame(a[1..], b[1..]);
    }
  }

  lemma WaitingAppend<U>(slots: seq<Slot<U>>, slot: Slot<U>)
    ensures WaitingTickets(slots + [slot]) == WaitingTickets(slots) + Held(slot)
  {
    WaitingSplit(slots + [slot], |slots|);
    assert Without(slots + [slot], |slots|) == slots;
  }

  lemma UpgradeSplit<U>(us: seq<StreamUpgrade<U>>, i: nat)
    requires i < |us|
    ensures multiset(UpgradeTickets(us)) == multiset(UpgradeTickets(Without(us, i))) + multiset{us[i].ticket}
  {
    var ts := UpgradeTickets(us);
    assert UpgradeTickets(Without(us, i)) == ts[..i] + ts[i + 1..];
    assert ts == ts[..i] + [ts[i]] + ts[i + 1..];
  }

  lemma UpgradeAppend<U>(us: seq<StreamUpgrade<U>>, u: StreamUpgrade<U>)
    ensures multiset(UpgradeTickets(us + [u])) == multiset(UpgradeTickets(us)) + multiset{u.ticket}
  {
    assert UpgradeTickets(us + [u]) == UpgradeTickets(us) + [u.ticket];
  }

  lemma ReportAppend<U>(rs: seq<Report<U>>, r: Report<U>)
    ensures multiset(ReportTickets(rs + [r])) == multiset(ReportTickets(rs)) + multiset{r.ticket}
  {
    assert ReportTickets(rs + [r]) == ReportTickets(rs) + [r.ticket];
  }

  // ----- the invariant, one predicate a concern -----

  /** A member that will not be polled again on its own account must be woken already. */
  ghost predicate SlotsInv<U>(s: State<U>) {
    forall i :: 0 <= i < |s.requested| ==>
      s.requested[i].woken || (s.requested[i].future.Waiting? && s.requested[i].future.hasWaker)
  }

  ghost predicate Numbered<U>(ts: seq<Ticket<U>>) {
    forall i :: 0 <= i < |ts| ==> ts[i].serial == i
  }

  /** Where every request is: waiting, negotiating, or reported. */
  ghost predicate OutboundConserved<U>(s: State<U>) {
    && WaitingTickets(s.requested) + multiset(UpgradeTickets(s.negotiatingOut)) +
        multiset(ReportTickets(s.history.outcomes))
       == multiset(s.history.issued)
    && Numbered(s.history.issued)
  }

  /** The endings of inbound streams that concern the handler, in order. */
  ghost function WorthTelling<U>(rs: seq<Report<U>>): seq<Report<U>> {
    if rs == [] then []
    else
      var last := rs[|rs| - 1];
      WorthTelling(rs[..|rs| - 1]) + (if last.result in {Success, Failure(Apply)} then [last] else [])
  }

  ghost predicate InboundConserved<U>(s: State<U>) {
    && multiset(UpgradeTickets(s.negotiatingIn)) + multiset(ReportTickets(s.history.endings))
       == multiset(s.history.accepted)
    && Numbered(s.history.accepted)
    && s.history.inboundTold == WorthTelling(s.history.endings)
    && |s.negotiatingIn| <= s.maxInbound
  }

  /** Timeout is reported from the deadline on, and from then on nothing else is. */
  ghost predicate OnTime<U>(rs: seq<Report<U>>, now: nat) {
    forall i :: 0 <= i < |rs| ==>
      && rs[i].at <= now
      && (rs[i].result == Failure(Timeout) <==> rs[i].ticket.timeout.Elapsed(rs[i].at))
      && (rs[i].passedOn.Some? ==> rs[i].result in {Success, Failure(Apply)})
  }

  ghost predicate TimelyInv<U>(s: State<U>) {
    s.now <= s.lastInstant && OnTime(s.history.outcomes, s.now) && OnTime(s.history.endings, s.now)
  }

  ghost function UpgradeHandles<U>(us: seq<StreamUpgrade<U>>): seq<nat> {
    seq(|us|, i requires 0 <= i < |us| => us[i].handle)
  }

  ghost function One(handle: Option<nat>): multiset<nat> {
    if handle.Some? then multiset{handle.value} else multiset{}
  }

  ghost function PassedHandles<U>(rs: seq<Report<U>>): multiset<nat> {
    if rs == [] then multiset{}
    else PassedHandles(rs[..|rs| - 1]) + One(rs[|rs| - 1].passedOn)
  }

  /** The handles that have a reason to exist: a negotiation going on, or a stream that was passed on. */
  ghost function Accounted<U>(s: State<U>): multiset<nat> {
    multiset(UpgradeHandles(s.negotiatingOut)) + multiset(UpgradeHandles(s.negotiatingIn)) +
    PassedHandles(s.history.outcomes) + PassedHandles(s.history.endings)
  }

  /** Nobody shares a handle, and exactly the accounted ones that were not given up are held. */
  ghost predicate StreamsInv<U>(s: State<U>) {
    && s.streams.Valid()
    && (forall h :: Accounted(s)[h] <= 1)
    && (forall h :: h in Accounted(s) || h in s.history.givenUp ==> h < s.handles)
    && (forall h :: h in s.streams.holders <==> h in Accounted(s) && h !in s.history.givenUp)
  }

  /** A change that adds only unknown or removes only known protocols, and at least one. */
  ghost predicate Moves(known: set<string>, change: Change) {
    && change.protocols != {}
    && (change.Added? ==> change.protocols !! known)
    && (change.Removed? ==> change.protocols <= known)
  }

  ghost predicate ProtocolsInv<U>(s: State<U>) {
    && ReplayAll({}, s.history.localChanges) == ValidPart(s.local.Keys)
    && ReplayAll({}, s.history.remoteChanges) == s.remote
    && ReplayAll({}, s.history.remoteReports) == s.remote
    && forall i :: 0 <= i < |s.history.remoteChanges| ==>
         Moves(ReplayAll({}, s.history.remoteChanges[..i]), s.history.remoteChanges[i])
  }

  /** Where the quiet checks at the end begin. */
  ghost function StreakStart(checks: seq<Check>): (c: nat)
    ensures c <= |checks| && forall j :: c <= j < |checks| ==> checks[j].quiet
    ensures c > 0 ==> !checks[c - 1].quiet
  {
    if checks == [] || !checks[|checks| - 1].quiet then |checks| else StreakStart(checks[..|checks| - 1])
  }

  ghost function DelayFrom<U>(s: State<U>, c: nat): Delay
    requires c < |s.history.checks|
  {
    var start := s.history.checks[c].at;
    Delay(start, SafeDelay(Headroom(s.lastInstant, start), s.idleTimeout))
  }

  /** The plan is a function of the checks so far: a timer runs from the first check of the quiet streak. */
  ghost predicate ShutdownInv<U>(s: State<U>) {
    var c := StreakStart(s.history.checks);
    && s.shutdown == (if c == |s.history.checks| then NotPlanned
                      else if s.idleTimeout == 0 then Asap
                      else Later(DelayFrom(s, c)))
    && forall j :: 0 <= j < |s.history.checks| ==> s.history.checks[j].at <= s.now
  }

  ghost predicate Inv<U>(s: State<U>) {
    && SlotsInv(s) && OutboundConserved(s) && InboundConserved(s) && TimelyInv(s)
    && StreamsInv(s) && ProtocolsInv(s) && ShutdownInv(s)
  }

  /** The shutdown check has not run and nobody touched its clock. */
  ghost predicate SameChecks<U>(s: State<U>, t: State<U>) {
    && t.history.checks == s.history.checks && t.now == s.now
    && t.lastInstant == s.lastInstant && t.idleTimeout == s.idleTimeout
  }

  // What a stage does not touch stays right.

  lemma SameShutdown<U>(s: State<U>, t: State<U>)
    requires ShutdownInv(s)
    requires t.shutdown == s.shutdown && t.history.checks == s.history.checks && t.now >= s.now
    requires t.lastInstant == s.lastInstant && t.idleTimeout == s.idleTimeout
    ensures ShutdownInv(t)
  {
  }

  lemma SameStreams<U>(s: State<U>, t: State<U>)
    requires StreamsInv(s) && t.streams == s.streams && t.handles == s.handles
    requires t.negotiatingOut == s.negotiatingOut && t.negotiatingIn == s.negotiatingIn
    requires t.history.outcomes == s.history.outcomes && t.history.endings == s.history.endings
    requires t.history.givenUp == s.history.givenUp
    ensures StreamsInv(t)
  {
    assert Accounted(t) == Accounted(s);
  }

  lemma SameProtocols<U>(s: State<U>, t: State<U>)
    requires ProtocolsInv(s) && t.local == s.local && t.remote == s.remote
    requires t.history.localChanges == s.history.localChanges && t.history.remoteChanges == s.history.remoteChanges
    requires t.history.remoteReports == s.history.remoteReports
    ensures ProtocolsInv(t)
  {
  }

  lemma SameOutbound<U>(s: State<U>, t: State<U>)
    requires OutboundConserved(s) && t.requested == s.requested && t.negotiatingOut == s.negotiatingOut
    requires t.history.outcomes == s.history.outcomes && t.history.issued == s.history.issued
    ensures OutboundConserved(t)
  {
  }

  lemma SameInbound<U>(s: State<U>, t: State<U>)
    requires InboundConserved(s) && t.negotiatingIn == s.negotiatingIn && t.maxInbound == s.maxInbound
    requires t.history.endings == s.history.endings && t.history.accepted == s.history.accepted
    requires t.history.inboundTold == s.history.inboundTold
    ensures InboundConserved(t)
  {
  }

  // ----- stage by stage -----

  lemma ReleaseKeepsCount(c: StreamCounter, handles: set<nat>)
    requires c.Valid()
    ensures c.Release(handles).Valid()
  {
    assert c.holders == (c.holders - handles) + (c.holders * handles);
    assert |c.holders| == |c.holders - handles| + |c.holders * handles|;
  }

  lemma HandlesAppend<U>(us: seq<StreamUpgrade<U>>, u: StreamUpgrade<U>)
    ensures multiset(UpgradeHandles(us + [u])) == multiset(UpgradeHandles(us)) + multiset{u.handle}
  {
    assert UpgradeHandles(us + [u]) == UpgradeHandles(us) + [u.handle];
  }

  lemma HandlesSplit<U>(us: seq<StreamUpgrade<U>>, i: nat)
    requires i < |us|
    ensures multiset(UpgradeHandles(us)) == multiset(UpgradeHandles(Without(us, i))) + multiset{us[i].handle}
  {
    var hs := UpgradeHandles(us);
    assert UpgradeHandles(Without(us, i)) == hs[..i] + hs[i + 1..];
    assert hs == hs[..i] + [hs[i]] + hs[i + 1..];
  }

  lemma PassedAppend<U>(rs: seq<Report<U>>, r: Report<U>)
    ensures PassedHandles(rs + [r]) == PassedHandles(rs) + One(r.passedOn)
  {
    assert (rs + [r])[..|rs|] == rs;
  }

  lemma ArriveStreams<U>(s: State<U>, a: Answer<U>)
    requires StreamsInv(s)
    ensures StreamsInv(Arrive(s, a))
  {
    hide UpgradeHandles, PassedHandles;
    ReleaseKeepsCount(s.streams, a.released);
    assert Accounted(Arrive(s, a)) == Accounted(s);
  }

  lemma ArriveSlots<U>(s: State<U>, a: Answer<U>)
    requires SlotsInv(s) && OutboundConserved(s)
    ensures SlotsInv(Arrive(s, a)) && OutboundConserved(Arrive(s, a))
  {
    WaitingSame(s.requested, Arrive(s, a).requested);
  }

  lemma ArriveInv<U>(s: State<U>, a: Answer<U>)
    requires Inv(s)
    ensures Inv(Arrive(s, a))
  {
    hide SlotsInv, StreamsInv, ProtocolsInv, ShutdownInv, OutboundConserved, InboundConserved;
    var t := Arrive(s, a);
    ArriveStreams(s, a);
    ArriveSlots(s, a);
    SameShutdown(s, t);
    SameProtocols(s, t);
    SameInbound(s, t);
  }

  /** Every member waits, with a stored waker, and none is woken. */
  ghost predicate AllParked<U>(s: State<U>) {
    forall i :: 0 <= i < |s.requested| ==>
      s.requested[i].future.Waiting? && s.requested[i].future.hasWaker && !s.requested[i].woken
  }

  lemma ResolvingConserves<U>(s: State<U>, early: set<nat>, i: nat)
    requires OutboundConserved(s) && i < |s.requested|
    ensures OutboundConserved(ResolveMember(s, early, i))
  {
    var polled := PollMembers(s.requested, early, s.now);
    WaitingSame(s.requested, polled);
    WaitingSplit(polled, i);
    assert Held(polled[i]) == Held(s.requested[i]);
    if s.requested[i].future.Waiting? {
      ReportAppend(s.history.outcomes, Report(s.requested[i].future.ticket, Failure(Timeout), s.now, None));
    }
  }

  lemma ResolvingSlots<U>(s: State<U>, early: set<nat>, i: nat)
    requires SlotsInv(s) && i < |s.requested|
    ensures SlotsInv(ResolveMember(s, early, i))
  {
    var t := ResolveMember(s, early, i);
    var polled := PollMembers(s.requested, early, s.now);
    forall k | 0 <= k < |t.requested|
      ensures t.requested[k].woken || (t.requested[k].future.Waiting? && t.requested[k].future.hasWaker)
    {
      assert t.requested[k] == polled[if k < i then k else k + 1];
    }
  }

  lemma ResolvingStreams<U>(s: State<U>, early: set<nat>, i: nat)
    requires StreamsInv(s) && i < |s.requested|
    ensures StreamsInv(ResolveMember(s, early, i))
  {
    hide UpgradeHandles, PassedHandles, PollMembers;
    if s.requested[i].future.Waiting? {
      PassedAppend(s.history.outcomes, Report(s.requested[i].future.ticket, Failure(Timeout), s.now, None));
    }
    assert Accounted(ResolveMember(s, early, i)) == Accounted(s);
  }

  lemma ResolvingInv<U>(s: State<U>, early: set<nat>, i: nat)
    requires Inv(s) && i < |s.requested| && IsReady(s.requested[i], s.now)
    ensures Inv(ResolveMember(s, early, i))
  {
    hide SlotsInv, StreamsInv, ProtocolsInv, ShutdownInv, OutboundConserved, InboundConserved, PollMembers;
    var t := ResolveMember(s, early, i);
    SameShutdown(s, t);
    SameProtocols(s, t);
    SameInbound(s, t);
    ResolvingConserves(s, early, i);
    ResolvingSlots(s, early, i);
    ResolvingStreams(s, early, i);
  }

  lemma ParkingSlots<U>(s: State<U>)
    requires SlotsInv(s) && OutboundConserved(s) && !AnyReady(s.requested, s.now)
    ensures var t := s.(requested := PollAll(s.requested, s.now)); SlotsInv(t) && OutboundConserved(t) && AllParked(t)
  {
    var t := s.(requested := PollAll(s.requested, s.now));
    forall k | 0 <= k < |t.requested|
      ensures t.requested[k].future.Waiting? && t.requested[k].future.hasWaker && !t.requested[k].woken
      ensures Held(t.requested[k]) == Held(s.requested[k])
    {
      assert !IsReady(s.requested[k], s.now);
    }
    WaitingSame(s.requested, t.requested);
  }

  lemma ParkingInv<U>(s: State<U>)
    requires Inv(s) && !AnyReady(s.requested, s.now)
    ensures var t := s.(requested := PollAll(s.requested, s.now)); Inv(t) && AllParked(t)
  {
    hide SlotsInv, AllParked, StreamsInv, ProtocolsInv, ShutdownInv, OutboundConserved, InboundConserved, OnTime,
        PollAll;
    var t := s.(requested := PollAll(s.requested, s.now));
    ParkingSlots(s);
    SameShutdown(s, t);
    SameStreams(s, t);
    SameProtocols(s, t);
    SameInbound(s, t);
  }

  /** An ending that needs no special care: no panic, and not one of the two ways to come to rest. */
  predicate Tame(control: Option<Control>) {
    control !in {Some(Panic), Some(Return(Pending)), Some(Return(KeepAliveTimeout))}
  }

  lemma RequestedInv<U>(s: State<U>, a: Answer<U>)
    requires Inv(s)
    ensures Inv(RequestedStage(s, a).0)
    ensures Tame(RequestedStage(s, a).1) && SameChecks(s, RequestedStage(s, a).0)
    ensures RequestedStage(s, a).1.None? ==> AllParked(RequestedStage(s, a).0)
  {
    if AnyReady(s.requested, s.now) {
      ResolvingInv(s, a.early, Choose(s.requested, s.now, a.ready));
    } else {
      ParkingInv(s);
    }
  }

  lemma RequestInv<U>(s: State<U>, a: Answer<U>)
    requires Inv(s) && a.handler.OutboundSubstreamRequest?
    ensures Inv(HandlerStage(s, a).0)
  {
    hide StreamsInv, ProtocolsInv, ShutdownInv, InboundConserved, OnTime;
    var t := HandlerStage(s, a).0;
    SameShutdown(s, t);
    SameStreams(s, t);
    SameProtocols(s, t);
    SameInbound(s, t);
    assert OutboundConserved(t) by {
      WaitingAppend(s.requested, t.requested[|s.requested|]);
    }
  }

  lemma RemoteKeeps<U>(s: State<U>, t: State<U>)
    requires Inv(s)
    requires t == s.(remote := t.remote, history := s.history.(remoteReports := t.history.remoteReports,
                                                               remoteChanges := t.history.remoteChanges))
    ensures SlotsInv(t) && StreamsInv(t) && ShutdownInv(t) && OutboundConserved(t) && InboundConserved(t)
            && TimelyInv(t)
  {
    hide StreamsInv, ShutdownInv, OutboundConserved, InboundConserved, OnTime;
    SameShutdown(s, t);
    SameStreams(s, t);
    SameOutbound(s, t);
    SameInbound(s, t);
  }

  /** What the handler reported and what it is told in return come to the same set. */
  lemma RemoteHeard<U>(s: State<U>, t: State<U>, report: Change, told: seq<Change>)
    requires ProtocolsInv(s) && t.local == s.local && t.history.localChanges == s.history.localChanges
    requires t.history.remoteReports == s.history.remoteReports + [report]
    requires t.history.remoteChanges == s.history.remoteChanges + told
    requires t.remote == Replay(s.remote, report) == ReplayAll(s.remote, told)
    requires told == [] || (|told| == 1 && Moves(s.remote, told[0]))
    ensures ProtocolsInv(t)
  {
    var before, after := s.history.remoteChanges, t.history.remoteChanges;
    ReplayAllConcat({}, before, told);
    ReplayAllConcat({}, s.history.remoteReports, [report]);
    forall i | 0 <= i < |after| ensures Moves(ReplayAll({}, after[..i]), after[i]) {
      assert after[..i] == before[..i];
    }
  }

  lemma RemoteAdded<U>(s: State<U>, ps: set<string>)
    requires ProtocolsInv(s)
    ensures ProtocolsInv(RemoteAdds(s, ps))
  {
    hide ProtocolsInv;
    assert s.remote + ps == s.remote + (ps - s.remote);
    RemoteHeard(s, RemoteAdds(s, ps), Added(ps), if ps - s.remote == {} then [] else [Added(ps - s.remote)]);
  }

  lemma RemoteRemoved<U>(s: State<U>, ps: set<string>)
    requires ProtocolsInv(s)
    ensures ProtocolsInv(RemoteRemoves(s, ps))
  {
    hide ProtocolsInv;
    assert s.remote - ps == s.remote - ps * s.remote;
    RemoteHeard(s, RemoteRemoves(s, ps), Removed(ps), if ps * s.remote == {} then [] else [Removed(ps * s.remote)]);
  }

  lemma HandlerInv<U>(s: State<U>, a: Answer<U>)
    requires Inv(s)
    ensures Inv(HandlerStage(s, a).0)
    ensures Tame(HandlerStage(s, a).1) && SameChecks(s, HandlerStage(s, a).0)
    ensures HandlerStage(s, a).1.None? ==> HandlerStage(s, a).0 == s
  {
    hide SlotsInv, StreamsInv, ProtocolsInv, ShutdownInv, OutboundConserved, InboundConserved, OnTime;
    var t := HandlerStage(s, a).0;
    match a.handler
    case HandlerPending =>
    case NotifyBehaviour(_) =>
    case OutboundSubstreamRequest(info, timeout) =>
      RequestInv(s, a);
    case ReportAdded(ps) =>
      RemoteKeeps(s, t);
      RemoteAdded(s, ps);
    case ReportRemoved(ps) =>
      RemoteKeeps(s, t);
      RemoteRemoved(s, ps);
  }

  /** A negotiation that ends gives its handle back, unless the stream lives on in the result. */
  lemma FinishedStreams<U>(s: State<U>, t: State<U>, u: StreamUpgrade<U>, answer: UpgradeAnswer)
    requires StreamsInv(s) && t.streams == HandleAfter(s.streams, u, answer, s.now)
    requires t.handles == s.handles && t.history.givenUp == s.history.givenUp
    requires Accounted(t) + multiset{u.handle} == Accounted(s) + One(PassedOn(u, answer, s.now))
    ensures StreamsInv(t)
  {
    hide Accounted;
    ReleaseKeepsCount(s.streams, {u.handle});
    assert (Accounted(t) + multiset{u.handle})[u.handle] == Accounted(t)[u.handle] + 1;
    forall h
      ensures Accounted(t)[h] == Accounted(s)[h] - (if h == u.handle && PassedOn(u, answer, s.now).None? then 1 else 0)
    {
      assert (Accounted(t) + multiset{u.handle})[h] == (Accounted(s) + One(PassedOn(u, answer, s.now)))[h];
    }
  }

  lemma OutboundHandles<U>(s: State<U>, a: Answer<U>)
    requires StreamsInv(s) && OutboundStage(s, a).1.Some?
    ensures StreamsInv(OutboundStage(s, a).0)
  {
    hide UpgradeHandles, PassedHandles, Resolve;
    var (i, answer) := a.outboundDone.value;
    var u := s.negotiatingOut[i];
    HandlesSplit(s.negotiatingOut, i);
    PassedAppend(s.history.outcomes, Report(u.ticket, Resolve(u, answer, s.now), s.now, PassedOn(u, answer, s.now)));
    FinishedStreams(s, OutboundStage(s, a).0, u, answer);
  }

  lemma OnTimeAppend<U>(rs: seq<Report<U>>, r: Report<U>, now: nat)
    requires OnTime(rs, now) && OnTime([r], now)
    ensures OnTime(rs + [r], now)
  {
    assert [r][0] == r;
  }

  lemma ResolvedOnTime<U>(u: StreamUpgrade<U>, answer: UpgradeAnswer, now: nat)
    ensures OnTime([Report(u.ticket, Resolve(u, answer, now), now, PassedOn(u, answer, now))], now)
  {
  }

  lemma OutboundTickets<U>(s: State<U>, a: Answer<U>)
    requires OutboundConserved(s) && OutboundStage(s, a).1.Some?
    ensures OutboundConserved(OutboundStage(s, a).0)
  {
    var t := OutboundStage(s, a).0;
    UpgradeSplit(s.negotiatingOut, a.outboundDone.value.0);
    ReportAppend(s.history.outcomes, t.history.outcomes[|s.history.outcomes|]);
  }

  lemma OutboundInv<U>(s: State<U>, a: Answer<U>)
    requires Inv(s)
    ensures Inv(OutboundStage(s, a).0)
    ensures Tame(OutboundStage(s, a).1) && SameChecks(s, OutboundStage(s, a).0)
    ensures OutboundStage(s, a).1.None? ==> OutboundStage(s, a).0 == s
  {
    hide StreamsInv, ProtocolsInv, ShutdownInv, OutboundConserved, InboundConserved, OnTime, Resolve, PassedOn,
        HandleAfter;
    var (t, control) := OutboundStage(s, a);
    if control.Some? {
      var (i, answer) := a.outboundDone.value;
      SameShutdown(s, t);
      SameProtocols(s, t);
      SameInbound(s, t);
      OutboundHandles(s, a);
      OutboundTickets(s, a);
      ResolvedOnTime(s.negotiatingOut[i], answer, s.now);
      OnTimeAppend(s.history.outcomes, t.history.outcomes[|s.history.outcomes|], s.now);
    }
  }

  lemma InboundHandles<U>(s: State<U>, a: Answer<U>)
    requires StreamsInv(s) && InboundStage(s, a).1.Some?
    ensures StreamsInv(InboundStage(s, a).0)
  {
    hide UpgradeHandles, PassedHandles, Resolve;
    var (i, answer) := a.inboundDone.value;
    var u := s.negotiatingIn[i];
    HandlesSplit(s.negotiatingIn, i);
    PassedAppend(s.history.endings, Report(u.ticket, Resolve(u, answer, s.now), s.now, PassedOn(u, answer, s.now)));
    FinishedStreams(s, InboundStage(s, a).0, u, answer);
  }

  /** An ending is told exactly if it concerns the handler. */
  lemma EndTold<U>(h: History<U>, r: Report<U>)
    requires h.inboundTold == WorthTelling(h.endings)
    ensures EndInbound(h, r).inboundTold == WorthTelling(EndInbound(h, r).endings)
  {
    assert (h.endings + [r])[..|h.endings|] == h.endings;
    if r.result in {Success, Failure(Apply)} {
      assert EndInbound(h, r).inboundTold == h.inboundTold + [r];
    } else {
      assert EndInbound(h, r).inboundTold == h.inboundTold;
    }
  }

  lemma InboundTickets<U>(s: State<U>, a: Answer<U>)
    requires InboundConserved(s) && InboundStage(s, a).1.Some?
    ensures InboundConserved(InboundStage(s, a).0)
  {
    var (i, answer) := a.inboundDone.value;
    var u := s.negotiatingIn[i];
    var r := Report(u.ticket, Resolve(u, answer, s.now), s.now, PassedOn(u, answer, s.now));
    var h := EndInbound(s.history, r);
    assert h.endings == s.history.endings + [r] && h.accepted == s.history.accepted;
    assert InboundStage(s, a).0.history == h;
    EndTold(s.history, r);
    UpgradeSplit(s.negotiatingIn, i);
    ReportAppend(s.history.endings, r);
    hide Resolve, PassedOn, HandleAfter, EndInbound, UpgradeTickets, ReportTickets, WorthTelling;
  }

  lemma InboundInv<U>(s: State<U>, a: Answer<U>)
    requires Inv(s)
    ensures Inv(InboundStage(s, a).0)
    ensures Tame(InboundStage(s, a).1) && SameChecks(s, InboundStage(s, a).0)
    ensures InboundStage(s, a).1.None? ==> InboundStage(s, a).0 == s
  {
    hide StreamsInv, ProtocolsInv, ShutdownInv, OutboundConserved, InboundConserved, OnTime, Resolve, PassedOn,
        HandleAfter;
    var (t, control) := InboundStage(s, a);
    if control.Some? {
      var (i, answer) := a.inboundDone.value;
      SameShutdown(s, t);
      SameProtocols(s, t);
      SameOutbound(s, t);
      InboundHandles(s, a);
      InboundTickets(s, a);
      ResolvedOnTime(s.negotiatingIn[i], answer, s.now);
      OnTimeAppend(s.history.endings, t.history.endings[|s.history.endings|], s.now);
    }
  }

  /** Nothing waits, nothing negotiates, no stream is held. */
  ghost predicate FullyIdle<U>(s: State<U>) {
    && s.requested == [] && s.negotiatingOut == [] && s.negotiatingIn == []
    && s.streams.holders == {}
  }

  /** The last check was quiet, and so was every one for as long as the timeout asks. */
  ghost predicate IdledLongEnough<U>(s: State<U>) {
    var c := StreakStart(s.history.checks);
    c < |s.history.checks| && (s.idleTimeout == 0 || DelayFrom(s, c).Elapsed(s.now))
  }

  lemma StreakGrows(checks: seq<Check>, check: Check)
    ensures StreakStart(checks + [check]) == if check.quiet then StreakStart(checks) else |checks| + 1
  {
    assert (checks + [check])[..|checks|] == checks;
  }

  lemma NoneHolds<U>(s: State<U>)
    requires StreamsInv(s)
    ensures s.streams.HasNoActiveStreams() <==> s.streams.holders == {}
  {
    assert |s.streams.holders| == 0 <==> s.streams.holders == {};
  }

  /** The plan goes on being the one the checks call for, and is carried out exactly when it is due. */
  lemma ShutdownPlanned<U>(s: State<U>, a: Answer<U>)
    requires ShutdownInv(s) && StreamsInv(s)
    ensures ShutdownInv(ShutdownStage(s, a).0)
    ensures ShutdownStage(s, a).0.history.checks == s.history.checks + [Check(s.now, FullyIdle(s) && !a.keepAlive)]
    ensures ShutdownStage(s, a).1 == if IdledLongEnough(ShutdownStage(s, a).0) then Some(Return(KeepAliveTimeout))
            else None
  {
    hide StreamsInv, SafeDelay;
    NoneHolds(s);
    StreakGrows(s.history.checks, Check(s.now, FullyIdle(s) && !a.keepAlive));
  }

  lemma ShutdownStageInv<U>(s: State<U>, a: Answer<U>)
    requires Inv(s)
    ensures Inv(ShutdownStage(s, a).0)
    ensures AllParked(s) ==> AllParked(ShutdownStage(s, a).0)
    ensures ShutdownStage(s, a).0.history.checks == s.history.checks + [Check(s.now, FullyIdle(s) && !a.keepAlive)]
    ensures ShutdownStage(s, a).0.now == s.now && (FullyIdle(ShutdownStage(s, a).0) <==> FullyIdle(s))
    ensures ShutdownStage(s, a).1 == if IdledLongEnough(ShutdownStage(s, a).0) then Some(Return(KeepAliveTimeout))
            else None
  {
    hide StreamsInv, ProtocolsInv, OutboundConserved, InboundConserved, OnTime, ShutdownInv, IdledLongEnough;
    var t := ShutdownStage(s, a).0;
    ShutdownPlanned(s, a);
    SameStreams(s, t);
    SameProtocols(s, t);
    SameOutbound(s, t);
    SameInbound(s, t);
  }

  lemma ExtractConserves<U>(s: State<U>, t: State<U>, i: nat, handle: nat)
    requires OutboundConserved(s) && i < |s.requested| && s.requested[i].future.Waiting?
    requires t.requested == s.requested[i := Extract(s.requested[i])] && t.history == s.history
    requires t.negotiatingOut == s.negotiatingOut + [StreamUpgrade(s.requested[i].future.ticket, handle)]
    ensures OutboundConserved(t)
  {
    WaitingSplit(s.requested, i);
    WaitingSplit(t.requested, i);
    assert Without(s.requested, i) == Without(t.requested, i);
    UpgradeAppend(s.negotiatingOut, StreamUpgrade(s.requested[i].future.ticket, handle));
  }

  /** A new negotiation takes the next handle, which nobody holds or ever held. */
  lemma CloneStreams<U>(s: State<U>, t: State<U>)
    requires StreamsInv(s) && t.streams == s.streams.Clone(s.handles) && t.handles == s.handles + 1
    requires t.history.givenUp == s.history.givenUp
    requires Accounted(t) == Accounted(s) + multiset{s.handles}
    ensures StreamsInv(t)
  {
    hide Accounted;
    assert s.handles !in Accounted(s) && s.handles !in s.streams.holders;
    assert forall h :: Accounted(t)[h] == Accounted(s)[h] + (if h == s.handles then 1 else 0);
  }

  /** Picking a request never meets one that is done: they are all parked at that point. */
  lemma OpenInv<U>(s: State<U>, a: Answer<U>)
    requires Inv(s) && AllParked(s)
    ensures Inv(OpenStage(s, a).0)
    ensures Tame(OpenStage(s, a).1) && SameChecks(s, OpenStage(s, a).0)
    ensures OpenStage(s, a).1.None? ==> OpenStage(s, a).0 == s
  {
    hide StreamsInv, ProtocolsInv, ShutdownInv, OutboundConserved, InboundConserved, OnTime, UpgradeHandles,
        PassedHandles;
    var t := OpenStage(s, a).0;
    if s.requested != [] && a.outbound.SubstreamReady? {
      SameShutdown(s, t);
      SameProtocols(s, t);
      SameInbound(s, t);
      ExtractConserves(s, t, if a.pick < |s.requested| then a.pick else 0, s.handles);
      HandlesAppend(s.negotiatingOut, t.negotiatingOut[|s.negotiatingOut|]);
      CloneStreams(s, t);
    }
  }

  lemma AcceptTickets<U>(s: State<U>, a: Answer<U>)
    requires InboundConserved(s)
    ensures InboundConserved(AcceptStage(s, a).0)
  {
    var t := AcceptStage(s, a).0;
    if AcceptStage(s, a).1 == Some(Continue) {
      UpgradeAppend(s.negotiatingIn, t.negotiatingIn[|s.negotiatingIn|]);
    }
  }

  lemma AcceptInv<U>(s: State<U>, a: Answer<U>)
    requires Inv(s)
    ensures Inv(AcceptStage(s, a).0)
    ensures Tame(AcceptStage(s, a).1) && SameChecks(s, AcceptStage(s, a).0)
    ensures AcceptStage(s, a).1.None? ==> AcceptStage(s, a).0 == s
  {
    hide StreamsInv, ProtocolsInv, ShutdownInv, OutboundConserved, InboundConserved, OnTime, UpgradeHandles,
        PassedHandles;
    var t := AcceptStage(s, a).0;
    AcceptTickets(s, a);
    if |s.negotiatingIn| < s.maxInbound && a.inbound.SubstreamReady? {
      SameShutdown(s, t);
      SameProtocols(s, t);
      SameOutbound(s, t);
      HandlesAppend(s.negotiatingIn, t.negotiatingIn[|s.negotiatingIn|]);
      CloneStreams(s, t);
    }
  }

  lemma ProtocolStageInv<U>(s: State<U>, a: Answer<U>)
    requires Inv(s)
    ensures Inv(ProtocolStage(s, a).0)
    ensures ProtocolStage(s, a).1 in {Continue, Return(Pending)} && SameChecks(s, ProtocolStage(s, a).0)
  {
    hide StreamsInv, ShutdownInv, OutboundConserved, InboundConserved, OnTime, FullSets;
    var (t, control) := ProtocolStage(s, a);
    SameShutdown(s, t);
    SameStreams(s, t);
    SameOutbound(s, t);
    SameInbound(s, t);
    ReplayFollowsMap(s.local, a.listen.names);
    ReplayAllConcat({}, s.history.localChanges, FullSets(s.local, a.listen.names).1);
  }

  // ----- whole iterations and whole runs -----

  /** The first half hands every request over parked. */
  lemma FrontInv<U>(s: State<U>, a: Answer<U>)
    requires Inv(s)
    ensures Inv(Front(s, a).0) && Tame(Front(s, a).1) && SameChecks(s, Front(s, a).0)
    ensures Front(s, a).1.None? ==> AllParked(Front(s, a).0)
  {
    hide Inv, AllParked, Tame, RequestedStage, HandlerStage, OutboundStage, InboundStage;
    RequestedInv(s, a);
    var t := RequestedStage(s, a).0;
    if RequestedStage(s, a).1.None? {
      HandlerInv(t, a);
      if HandlerStage(t, a).1.None? {
        OutboundInv(t, a);
        if OutboundStage(t, a).1.None? {
          InboundInv(t, a);
        }
      }
    }
  }

  lemma MuxerTame<U>(s: State<U>, a: Answer<U>)
    ensures Tame(MuxerStage(s, a).1) && MuxerStage(s, a).0 == s
  {
  }

  lemma SameIdleness<U>(s: State<U>, t: State<U>)
    requires SameChecks(s, t)
    ensures IdledLongEnough(s) <==> IdledLongEnough(t)
  {
  }

  lemma LastCheckQuiet<U>(s: State<U>)
    requires IdledLongEnough(s)
    ensures s.history.checks != [] && s.history.checks[|s.history.checks| - 1].quiet
  {
  }

  /** One check is made, and the connection is closed for idleness exactly when it has lasted long enough. */
  ghost predicate Checked<U>(s: State<U>, a: Answer<U>, t: State<U>, control: Control) {
    && t.now == s.now
    && t.history.checks == s.history.checks + [Check(s.now, FullyIdle(s) && !a.keepAlive)]
    && (control == Return(KeepAliveTimeout) <==> IdledLongEnough(t))
    && (control == Return(KeepAliveTimeout) ==> FullyIdle(t) && !a.keepAlive)
  }

  lemma BackInv<U>(s: State<U>, a: Answer<U>)
    requires Inv(s) && AllParked(s)
    ensures Inv(Back(s, a).0) && Back(s, a).1 != Panic && Checked(s, a, Back(s, a).0, Back(s, a).1)
  {
    hide Inv, AllParked, IdledLongEnough, ShutdownStage, MuxerStage, OpenStage, AcceptStage, ProtocolStage, FullyIdle;
    ShutdownStageInv(s, a);
    var t := ShutdownStage(s, a).0;
    if ShutdownStage(s, a).1.None? {
      MuxerTame(t, a);
      if MuxerStage(t, a).1.None? {
        OpenInv(t, a);
        if OpenStage(t, a).1.None? {
          AcceptInv(t, a);
          if AcceptStage(t, a).1.None? {
            ProtocolStageInv(t, a);
          }
        }
      }
      SameIdleness(t, Back(s, a).0);
    } else {
      LastCheckQuiet(t);
    }
  }

  /** One iteration keeps the invariant, never panics, and makes at most one shutdown check. */
  lemma IterateInv<U>(s: State<U>, a: Answer<U>)
    requires Inv(s)
    ensures Inv(Iterate(s, a).0) && Iterate(s, a).1 != Panic
    ensures var (m, out) := Front(Arrive(s, a), a);
            if out.None? then Checked(m, a, Iterate(s, a).0, Iterate(s, a).1)
            else SameChecks(Arrive(s, a), Iterate(s, a).0) && Iterate(s, a).1 != Return(KeepAliveTimeout)
  {
    hide Inv, AllParked, Checked, Arrive, Front, Back;
    ArriveInv(s, a);
    FrontInv(Arrive(s, a), a);
    if Front(Arrive(s, a), a).1.None? {
      BackInv(Front(Arrive(s, a), a).0, a);
    }
  }

  lemma NewInv<U>(now: nat, lastInstant: nat, idleTimeout: nat, maxInbound: nat, names: seq<string>)
    requires now <= lastInstant
    ensures Inv(New<U>(now, lastInstant, idleTimeout, maxInbound, names))
  {
    var s := New<U>(now, lastInstant, idleTimeout, maxInbound, names);
    if s.local == map[] {
      assert ValidPart(s.local.Keys) == {};
    } else {
      assert ReplayAll({}, s.history.localChanges) == {} + ValidPart(s.local.Keys);
    }
  }

  lemma {:induction false} RunInv<U>(s: State<U>, answers: seq<Answer<U>>)
    requires Inv(s)
    ensures Inv(Run(s, answers))
    decreases |answers|
  {
    hide Inv, Iterate;
    if answers == [] {
    } else {
      IterateInv(s, answers[0]);
      RunInv(Iterate(s, answers[0]).0, answers[1..]);
    }
  }

  lemma {:induction false} RunAppend<U>(s: State<U>, answers: seq<Answer<U>>, a: Answer<U>)
    ensures Run(s, answers + [a]) == Iterate(Run(s, answers), a).0
    decreases |answers|
  {
    hide Iterate;
    if answers == [] {
      assert (answers + [a])[1..] == [];
    } else {
      assert (answers + [a])[1..] == answers[1..] + [a];
      RunAppend(Iterate(s, answers[0]).0, answers[1..], a);
    }
  }

  /** The states a connection can get into. */
  ghost predicate Reachable<U(!new)>(s: State<U>) {
    exists now, lastInstant, idleTimeout, maxInbound, names, answers: seq<Answer<U>> ::
      now <= lastInstant && s == Run(New<U>(now, lastInstant, idleTimeout, maxInbound, names), answers)
  }

  lemma ReachableInv<U(!new)>(s: State<U>)
    requires Reachable(s)
    ensures Inv(s)
  {
    var now, lastInstant, idleTimeout, maxInbound, names, answers: seq<Answer<U>> :|
      now <= lastInstant && s == Run(New<U>(now, lastInstant, idleTimeout, maxInbound, names), answers);
    NewInv<U>(now, lastInstant, idleTimeout, maxInbound, names);
    RunInv(New<U>(now, lastInstant, idleTimeout, maxInbound, names), answers);
  }

  // ----- the properties -----

  lemma DistinctTickets<U>(ts: seq<Ticket<U>>, k: nat)
    requires Numbered(ts) && k < |ts|
    ensures multiset(ts)[ts[k]] == 1
  {
    assert ts == ts[..k] + [ts[k]] + ts[k + 1..];
    assert ts[k] !in multiset(ts[..k]) && ts[k] !in multiset(ts[k + 1..]);
  }

  lemma ReportedOnce<U>(rs: seq<Report<U>>, ts: seq<Ticket<U>>)
    requires Numbered(ts) && multiset(ReportTickets(rs)) <= multiset(ts)
    ensures forall i :: 0 <= i < |rs| ==> rs[i].ticket in ts
    ensures forall i, j :: 0 <= i < j < |rs| ==> rs[i].ticket.serial != rs[j].ticket.serial
  {
    var reported := ReportTickets(rs);
    forall i | 0 <= i < |rs| ensures rs[i].ticket in ts {
      assert reported[i] in multiset(reported);
    }
    forall i, j | 0 <= i < j < |rs| ensures rs[i].ticket.serial != rs[j].ticket.serial {
      assert rs[i].ticket in ts && rs[j].ticket in ts;
      if rs[i].ticket.serial == rs[j].ticket.serial {
        assert reported[i] == reported[j];
        assert reported == reported[..j] + [reported[j]] + reported[j + 1..];
        assert reported[i] in multiset(reported[..j]) by { assert reported[..j][i] == reported[i]; }
        assert multiset(reported)[reported[j]] >= 2;
        DistinctTickets(ts, rs[i].ticket.serial);
      }
    }
  }

  /** "cannot extract twice" cannot happen, whatever handler, multiplexer and scheduler do next. */
  lemma ExtractNeverPanics<U(!new)>(s: State<U>, a: Answer<U>)
    requires Reachable(s)
    ensures Iterate(s, a).1 != Panic
  {
    hide Inv, Iterate;
    ReachableInv(s);
    IterateInv(s, a);
  }

  /** What the last answers were when an iteration ends in Pending, and what it did to the state. */
  lemma PendingAnswers<U>(s: State<U>, a: Answer<U>)
    requires Back(s, a).1 == Return(Pending)
    ensures var t := Back(s, a).0;
            && t.requested == s.requested && t.negotiatingIn == s.negotiatingIn && t.negotiatingOut == s.negotiatingOut
            && a.muxer.MuxerPending?
            && (t.requested != [] ==> a.outbound.SubstreamPending?)
            && (|t.negotiatingIn| < t.maxInbound ==> a.inbound.SubstreamPending?)
            && FullSets(s.local, a.listen.names).1 == [] && t.local == FullSets(s.local, a.listen.names).0
  {
  }

  lemma FallingThroughFront<U>(s: State<U>, a: Answer<U>)
    requires Front(s, a).1.None?
    ensures var t := Front(s, a).0;
            && a.handler.HandlerPending?
            && (a.outboundDone.None? || a.outboundDone.value.0 >= |t.negotiatingOut|)
            && (a.inboundDone.None? || a.inboundDone.value.0 >= |t.negotiatingIn|)
            && t.local == s.local
  {
  }

  lemma LocalReplay<U>(s: State<U>)
    requires Inv(s)
    ensures ReplayAll({}, s.history.localChanges) == ValidPart(s.local.Keys)
  {
  }

  /**
   Pending. `poll` comes to rest only when nothing that was asked had anything to offer and every
   request is parked. The handler's knowledge of its own protocols is then the valid part of what it
   listens on, except when the list repeats names so that a removal is hidden.
   */
  lemma PendingIsAtRest<U(!new)>(s: State<U>, a: Answer<U>)
    requires Reachable(s)
    ensures Iterate(s, a).1 == Return(Pending) ==>
            var t := Iterate(s, a).0;
            && AllParked(t)
            && a.handler.HandlerPending? && a.muxer.MuxerPending?
            && (t.requested != [] ==> a.outbound.SubstreamPending?)
            && (|t.negotiatingIn| < t.maxInbound ==> a.inbound.SubstreamPending?)
            && (a.outboundDone.None? || a.outboundDone.value.0 >= |t.negotiatingOut|)
            && (a.inboundDone.None? || a.inboundDone.value.0 >= |t.negotiatingIn|)
            && (ReplayAll({}, t.history.localChanges) == ValidPart(Elements(a.listen.names)) <==>
                !(LooksUnchanged(s.local, a.listen.names) && ValidPart(s.local.Keys - Elements(a.listen.names)) != {}))
            && (NoDuplicates(a.listen.names) ==>
                  ReplayAll({}, t.history.localChanges) == ValidPart(Elements(a.listen.names)))
  {
    hide Inv, Front, Back, FullSets, LooksUnchanged, ReplayAll, ValidPart;
    if Iterate(s, a).1 == Return(Pending) {
      ReachableInv(s);
      ArriveInv(s, a);
      FrontInv(Arrive(s, a), a);
      FallingThroughFront(Arrive(s, a), a);
      PendingAnswers(Front(Arrive(s, a), a).0, a);
      IterateInv(s, a);
      LocalReplay(Iterate(s, a).0);
      InStepUnlessHidden(s.local, a.listen.names);
    }
  }
}
