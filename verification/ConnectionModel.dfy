/**
 One connection (swarm/src/connection.rs). `Connection::poll` is a loop over nine stages; an iteration
 that gets something done goes back to the top, so that the handler always has the next word.

 Everything outside the loop answers nondeterministically: an `Answer` holds what the handler, the
 multiplexer, the stream upgrades and the clock say during one iteration. A run is a sequence of
 answers; returning from `poll` and being polled again is one iteration following another, so runs
 range over whole lifetimes. `History` records what the handler was told.

 `FuturesUnordered` is taken at its contract: a member is polled only after it was woken (a new one
 counts as woken), finished members are removed, and no woken member is left when it says Pending.
 */
module ConnectionModel {
  import opened Common
  import opened IdleShutdown
  import opened ProtocolsChange

  /** One request for a substream, or one accepted inbound stream, under a running number. */
  datatype Ticket<U> = Ticket(serial: nat, info: U, timeout: Delay)

  /** A request waiting for a substream; `Done` once its data has been extracted. */
  datatype SubstreamRequested<U> = Waiting(ticket: Ticket<U>, hasWaker: bool) | Done

  datatype Slot<U> = Slot(future: SubstreamRequested<U>, woken: bool)

  /** A stream being negotiated. It holds one handle on the active-stream counter. */
  datatype StreamUpgrade<U> = StreamUpgrade(ticket: Ticket<U>, handle: nat)

  /**
   The active-stream counter (swarm/src/stream.rs): a strong count of one for the connection itself and
   one for every handle that is neither dropped nor given up by `ignore_for_keep_alive`.
   */
  datatype StreamCounter = StreamCounter(strong: int, holders: set<nat>) {
    function Clone(handle: nat): StreamCounter {
      StreamCounter(strong + 1, holders + {handle})
    }

    function Release(handles: set<nat>): StreamCounter {
      StreamCounter(strong - |holders * handles|, holders - handles)
    }

    predicate HasNoActiveStreams() {
      strong == 1
    }

    predicate Valid() {
      strong == 1 + |holders|
    }
  }

  datatype UpgradeError = Timeout | Apply | NegotiationFailed | Io

  /** What the negotiation itself comes to; an output or an error value may hold on to the stream. */
  datatype UpgradeAnswer = Upgraded(keeps: bool) | ApplyFailed(keeps: bool) | NotNegotiated | IoFailed

  datatype UpgradeResult = Success | Failure(error: UpgradeError)

  /** How a ticket ended and when; `passedOn` is the handle of a stream that lives on in the result. */
  datatype Report<U> = Report(ticket: Ticket<U>, result: UpgradeResult, at: nat, passedOn: Option<nat>)

  datatype Check = Check(at: nat, quiet: bool)

  /**
   What happened so far: requests the handler made and how each was reported, inbound streams taken,
   how each ended and which endings the handler was told, what the handler said of the remote's
   protocols, the protocol changes it was told, the stream handles that were dropped or opted out,
   and every pass of the shutdown check.
   */
  datatype History<U> = History(
    issued: seq<Ticket<U>>, outcomes: seq<Report<U>>,
    accepted: seq<Ticket<U>>, endings: seq<Report<U>>, inboundTold: seq<Report<U>>,
    remoteReports: seq<Change>, localChanges: seq<Change>, remoteChanges: seq<Change>,
    givenUp: set<nat>, checks: seq<Check>)

  datatype State<U> = State(
    now: nat, lastInstant: nat, idleTimeout: nat, maxInbound: nat,
    requested: seq<Slot<U>>,
    negotiatingOut: seq<StreamUpgrade<U>>,
    negotiatingIn: seq<StreamUpgrade<U>>,
    shutdown: Shutdown,
    local: map<string, bool>, remote: set<string>,
    streams: StreamCounter, handles: nat,
    history: History<U>)

  datatype HandlerPoll<U> =
    | HandlerPending
    | OutboundSubstreamRequest(info: U, timeout: nat)
    | NotifyBehaviour(event: nat)
    | ReportAdded(protocols: set<string>)
    | ReportRemoved(protocols: set<string>)

  datatype MuxerPoll = MuxerPending | MuxerAddressChange(address: nat) | MuxerError

  datatype SubstreamPoll = SubstreamPending | SubstreamReady | SubstreamError

  /** `listen_protocol`: the names of the inbound upgrade, its open info and its timeout. */
  datatype Listen<U> = Listen(names: seq<string>, info: U, timeout: nat)

  datatype Answer<U> = Answer(
    elapsed: nat,                              // time since the last iteration
    released: set<nat>,                        // stream handles dropped or opted out since then
    woken: set<nat>,                           // members of requested_substreams woken since then
    ready: nat, early: set<nat>,               // which ready member is polled first, which others before it
    handler: HandlerPoll<U>,
    outboundDone: Option<(nat, UpgradeAnswer)>, // a member of negotiating_out that resolves
    inboundDone: Option<(nat, UpgradeAnswer)>,
    keepAlive: bool,
    muxer: MuxerPoll,
    pick: nat,                                 // the member that iter_mut().next() yields
    outbound: SubstreamPoll, inbound: SubstreamPoll,
    listen: Listen<U>)

  datatype PollResult = Pending | HandlerEvent(event: nat) | AddressChange(address: nat) | KeepAliveTimeout | IoError

  /** How an iteration ends: back to the top, out of `poll`, or in the panic of `extract`. */
  datatype Control = Continue | Return(result: PollResult) | Panic

  function Without<T>(s: seq<T>, i: nat): seq<T>
    requires i < |s|
  {
    s[..i] + s[i + 1..]
  }

  function Min(a: nat, b: nat): nat {
    if a <= b then a else b
  }

  // ----- the stages of one iteration; None falls through to the next -----

  /** Time passes (never past the last instant there is), handles go, members are woken. */
  function Arrive<U>(s: State<U>, a: Answer<U>): State<U> {
    s.(now := Min(s.now + a.elapsed, s.lastInstant),
       streams := s.streams.Release(a.released),
       history := s.history.(givenUp := s.history.givenUp + s.streams.holders * a.released),
       requested := seq(|s.requested|, i requires 0 <= i < |s.requested| =>
                          s.requested[i].(woken := s.requested[i].woken || i in a.woken)))
  }

  predicate IsReady<U>(slot: Slot<U>, now: nat) {
    slot.woken && (slot.future.Waiting? ==> slot.future.ticket.timeout.Elapsed(now))
  }

  /** `SubstreamRequested::poll` on a member that stays: the waker is stored. */
  function Polled<U>(slot: Slot<U>, now: nat): Slot<U> {
    if slot.woken && slot.future.Waiting? && !IsReady(slot, now)
    then Slot(slot.future.(hasWaker := true), false) else slot
  }

  function PollMembers<U>(slots: seq<Slot<U>>, members: set<nat>, now: nat): (r: seq<Slot<U>>)
    ensures |r| == |slots|
  {
    seq(|slots|, i requires 0 <= i < |slots| => if i in members then Polled(slots[i], now) else slots[i])
  }

  function PollAll<U>(slots: seq<Slot<U>>, now: nat): (r: seq<Slot<U>>)
    ensures |r| == |slots|
  {
    seq(|slots|, i requires 0 <= i < |slots| => Polled(slots[i], now))
  }

  predicate AnyReady<U>(slots: seq<Slot<U>>, now: nat) {
    exists k :: 0 <= k < |slots| && IsReady(slots[k], now)
  }

  /** The member that resolves: the one the scheduler favours if it is ready, else the first that is. */
  function Choose<U>(slots: seq<Slot<U>>, now: nat, favoured: nat): (i: nat)
    requires AnyReady(slots, now)
    ensures i < |slots| && IsReady(slots[i], now)
  {
    if favoured < |slots| && IsReady(slots[favoured], now) then favoured
    else if IsReady(slots[0], now) then 0
    else
      assert AnyReady(slots[1..], now) by {
        var k :| 0 <= k < |slots| && IsReady(slots[k], now);
        assert slots[1..][k - 1] == slots[k];
      }
      1 + Choose(slots[1..], now, 0)
  }

  function ReportOut<U>(h: History<U>, r: Report<U>): History<U> {
    h.(outcomes := h.outcomes + [r])
  }

  /** Member i resolves and leaves; a request that is not done yet has timed out. */
  function ResolveMember<U>(s: State<U>, early: set<nat>, i: nat): State<U>
    requires i < |s.requested|
  {
    var rest := Without(PollMembers(s.requested, early, s.now), i);
    match s.requested[i].future
    case Done => s.(requested := rest)
    case Waiting(ticket, _) =>
      s.(requested := rest, history := ReportOut(s.history, Report(ticket, Failure(Timeout), s.now, None)))
  }

  /** `requested_substreams.poll_next_unpin`. */
  function RequestedStage<U>(s: State<U>, a: Answer<U>): (State<U>, Option<Control>) {
    if AnyReady(s.requested, s.now) then
      (ResolveMember(s, a.early, Choose(s.requested, s.now, a.ready)), Some(Continue))
    else
      (s.(requested := PollAll(s.requested, s.now)), None)
  }

  function HearRemote<U>(h: History<U>, report: Change): History<U> {
    h.(remoteReports := h.remoteReports + [report])
  }

  function TellRemote<U>(h: History<U>, change: Change): History<U> {
    h.(remoteChanges := h.remoteChanges + [change])
  }

  function RemoteAdds<U>(s: State<U>, ps: set<string>): State<U> {
    var heard := s.(history := HearRemote(s.history, Added(ps)));
    if ps - s.remote == {} then heard
    else heard.(remote := s.remote + (ps - s.remote), history := TellRemote(heard.history, Added(ps - s.remote)))
  }

  function RemoteRemoves<U>(s: State<U>, ps: set<string>): State<U> {
    var heard := s.(history := HearRemote(s.history, Removed(ps)));
    if ps * s.remote == {} then heard
    else heard.(remote := s.remote - ps, history := TellRemote(heard.history, Removed(ps * s.remote)))
  }

  /** `handler.poll`. */
  function HandlerStage<U>(s: State<U>, a: Answer<U>): (State<U>, Option<Control>) {
    match a.handler
    case HandlerPending => (s, None)
    case OutboundSubstreamRequest(info, timeout) =>
      var ticket := Ticket(|s.history.issued|, info, Delay(s.now, timeout));
      (s.(requested := s.requested + [Slot(Waiting(ticket, false), true)],
          history := s.history.(issued := s.history.issued + [ticket])),
       Some(Continue))
    case NotifyBehaviour(event) => (s, Some(Return(HandlerEvent(event))))
    case ReportAdded(ps) => (RemoteAdds(s, ps), Some(Continue))
    case ReportRemoved(ps) => (RemoteRemoves(s, ps), Some(Continue))
  }

  /** `StreamUpgrade::poll` once it is ready: the timeout is looked at before the upgrade. */
  function Resolve<U>(u: StreamUpgrade<U>, answer: UpgradeAnswer, now: nat): UpgradeResult {
    if u.ticket.timeout.Elapsed(now) then Failure(Timeout)
    else
      match answer
      case Upgraded(_) => Success
      case ApplyFailed(_) => Failure(Apply)
      case NotNegotiated => Failure(NegotiationFailed)
      case IoFailed => Failure(Io)
  }

  /** The future is dropped and its handle with it, unless the stream was passed on. */
  function PassedOn<U>(u: StreamUpgrade<U>, answer: UpgradeAnswer, now: nat): Option<nat> {
    if !u.ticket.timeout.Elapsed(now) && (answer.Upgraded? || answer.ApplyFailed?) && answer.keeps
    then Some(u.handle) else None
  }

  function HandleAfter<U>(streams: StreamCounter, u: StreamUpgrade<U>, answer: UpgradeAnswer, now: nat): StreamCounter {
    if PassedOn(u, answer, now).Some? then streams else streams.Release({u.handle})
  }

  /** `negotiating_out.poll_next_unpin`: success or failure goes to the handler. */
  function OutboundStage<U>(s: State<U>, a: Answer<U>): (State<U>, Option<Control>) {
    match a.outboundDone
    case None => (s, None)
    case Some((i, answer)) =>
      if i >= |s.negotiatingOut| then (s, None)
      else
        var u := s.negotiatingOut[i];
        var result := Resolve(u, answer, s.now);
        (s.(negotiatingOut := Without(s.negotiatingOut, i),
            streams := HandleAfter(s.streams, u, answer, s.now),
            history := ReportOut(s.history, Report(u.ticket, result, s.now, PassedOn(u, answer, s.now)))),
         Some(Continue))
  }

  /** Timeouts, failed negotiations and lost streams are only logged. */
  function EndInbound<U>(h: History<U>, r: Report<U>): History<U> {
    h.(endings := h.endings + [r],
       inboundTold := match r.result
                      case Success => h.inboundTold + [r]
                      case Failure(Apply) => h.inboundTold + [r]
                      case _ => h.inboundTold)
  }

  /** `negotiating_in.poll_next_unpin`: the handler hears of successes and of upgrade errors. */
  function InboundStage<U>(s: State<U>, a: Answer<U>): (State<U>, Option<Control>) {
    match a.inboundDone
    case None => (s, None)
    case Some((i, answer)) =>
      if i >= |s.negotiatingIn| then (s, None)
      else
        var u := s.negotiatingIn[i];
        var result := Resolve(u, answer, s.now);
        (s.(negotiatingIn := Without(s.negotiatingIn, i),
            streams := HandleAfter(s.streams, u, answer, s.now),
            history := EndInbound(s.history, Report(u.ticket, result, s.now, PassedOn(u, answer, s.now)))),
         Some(Continue))
  }

  predicate IsIdle<U>(s: State<U>) {
    s.negotiatingIn == [] && s.negotiatingOut == [] && s.requested == [] && s.streams.HasNoActiveStreams()
  }

  /** The longest duration that can be added to an instant. */
  function Headroom(lastInstant: nat, at: nat): nat {
    if at <= lastInstant then lastInstant - at else 0
  }

  /** The shutdown check. */
  function ShutdownStage<U>(s: State<U>, a: Answer<U>): (State<U>, Option<Control>) {
    var quiet := IsIdle(s) && !a.keepAlive;
    var s' := s.(history := s.history.(checks := s.history.checks + [Check(s.now, quiet)]));
    if IsIdle(s) then
      var plan := match ComputeNewShutdown(a.keepAlive, s.shutdown, s.idleTimeout, s.now,
          Headroom(s.lastInstant, s.now))
                  case Some(p) => p
                  case None => s.shutdown;
      (s'.(shutdown := plan),
       match plan
       case NotPlanned => None
       case Asap => Some(Return(KeepAliveTimeout))
       case Later(delay) => if delay.Elapsed(s.now) then Some(Return(KeepAliveTimeout)) else None)
    else
      (s'.(shutdown := NotPlanned), None)
  }

  /** `muxing.poll_unpin`. */
  function MuxerStage<U>(s: State<U>, a: Answer<U>): (State<U>, Option<Control>) {
    match a.muxer
    case MuxerPending => (s, None)
    case MuxerAddressChange(address) => (s, Some(Return(AddressChange(address))))
    case MuxerError => (s, Some(Return(IoError)))
  }

  /** `SubstreamRequested::extract`: take the data, wake the member if it left a waker. */
  function Extract<U>(slot: Slot<U>): Slot<U>
    requires slot.future.Waiting?
  {
    Slot(Done, slot.woken || slot.future.hasWaker)
  }

  /** A substream for one of the waiting requests. */
  function OpenStage<U>(s: State<U>, a: Answer<U>): (State<U>, Option<Control>) {
    if s.requested == [] then (s, None)
    else
      match a.outbound
      case SubstreamPending => (s, None)
      case SubstreamError => (s, Some(Return(IoError)))
      case SubstreamReady =>
        var i := if a.pick < |s.requested| then a.pick else 0;
        match s.requested[i].future
        case Done => (s, Some(Panic))
        case Waiting(ticket, _) =>
          (s.(requested := s.requested[i := Extract(s.requested[i])],
              negotiatingOut := s.negotiatingOut + [StreamUpgrade(ticket, s.handles)],
              streams := s.streams.Clone(s.handles), handles := s.handles + 1),
           Some(Continue))
  }

  /** An inbound substream, while there is room for one more. */
  function AcceptStage<U>(s: State<U>, a: Answer<U>): (State<U>, Option<Control>) {
    if |s.negotiatingIn| >= s.maxInbound then (s, None)
    else
      match a.inbound
      case SubstreamPending => (s, None)
      case SubstreamError => (s, Some(Return(IoError)))
      case SubstreamReady =>
        var ticket := Ticket(|s.history.accepted|, a.listen.info, Delay(s.now, a.listen.timeout));
        (s.(negotiatingIn := s.negotiatingIn + [StreamUpgrade(ticket, s.handles)],
            streams := s.streams.Clone(s.handles), handles := s.handles + 1,
            history := s.history.(accepted := s.history.accepted + [ticket])),
         Some(Continue))
  }

  /** The local protocols; with nothing to report, nothing can make progress. */
  function ProtocolStage<U>(s: State<U>, a: Answer<U>): (State<U>, Control) {
    var (local, changes) := FullSets(s.local, a.listen.names);
    (s.(local := local, history := s.history.(localChanges := s.history.localChanges + changes)),
     if changes == [] then Return(Pending) else Continue)
  }

  /** The first half of an iteration: the queues that can finish, and the handler in between. */
  function Front<U>(s: State<U>, a: Answer<U>): (State<U>, Option<Control>) {
    var r1 := RequestedStage(s, a);
    if r1.1.Some? then r1 else
    var r2 := HandlerStage(r1.0, a);
    if r2.1.Some? then r2 else
    var r3 := OutboundStage(r2.0, a);
    if r3.1.Some? then r3 else
    InboundStage(r3.0, a)
  }

  /** The second half: the shutdown check, the multiplexer and the local protocols. */
  function Back<U>(s: State<U>, a: Answer<U>): (State<U>, Control) {
    var r5 := ShutdownStage(s, a);
    if r5.1.Some? then (r5.0, r5.1.value) else
    var r6 := MuxerStage(r5.0, a);
    if r6.1.Some? then (r6.0, r6.1.value) else
    var r7 := OpenStage(r6.0, a);
    if r7.1.Some? then (r7.0, r7.1.value) else
    var r8 := AcceptStage(r7.0, a);
    if r8.1.Some? then (r8.0, r8.1.value) else
    ProtocolStage(r8.0, a)
  }

  function Iterate<U>(s: State<U>, a: Answer<U>): (State<U>, Control) {
    var r := Front(Arrive(s, a), a);
    if r.1.Some? then (r.0, r.1.value) else Back(r.0, a)
  }

  function Run<U>(s: State<U>, answers: seq<Answer<U>>): State<U>
    decreases |answers|
  {
    if answers == [] then s else Run(Iterate(s, answers[0]).0, answers[1..])
  }

  /** `Connection::new`: the handler is told its own protocols unless there are none at all. */
  function New<U>(now: nat, lastInstant: nat, idleTimeout: nat, maxInbound: nat, names: seq<string>): State<U> {
    var local := Gathered(names);
    State(now, lastInstant, idleTimeout, maxInbound, [], [], [], NotPlanned, local, {},
          StreamCounter(1, {}), 0,
          History([], [], [], [], [], [], if local == map[] then [] else [Added(ValidPart(local.Keys))], [], {}, []))
  }
}
