/**
 `Connection` as the object it is (swarm/src/connection.rs): fields that the stages of `poll` update in
 place, a scratch buffer shared by all protocol diffs, and the loop itself. Every stage is proved to
 be the stage of `ConnectionModel`, so what `ConnectionSafety` shows of runs holds of this object.
 */
module Connection {
  import opened Common
  import opened IdleShutdown
  import opened ProtocolsChange
  import opened ConnectionModel
  import opened ConnectionSafety

  class Connection<U> {
    var now: nat
    const lastInstant: nat
    const idleTimeout: nat
    const maxInbound: nat
    var requested: seq<Slot<U>>
    var negotiatingOut: seq<StreamUpgrade<U>>
    var negotiatingIn: seq<StreamUpgrade<U>>
    var shutdown: Shutdown
    var local: map<string, bool>
    var remote: set<string>
    var buffer: seq<string>
    var streams: StreamCounter
    var handles: nat
    var history: History<U>

    ghost function View(): State<U>
      reads this
    {
      State(now, lastInstant, idleTimeout, maxInbound, requested, negotiatingOut, negotiatingIn,
            shutdown, local, remote, streams, handles, history)
    }

    constructor (now: nat, lastInstant: nat, idleTimeout: nat, maxInbound: nat, names: seq<string>)
      requires now <= lastInstant
      ensures View() == New(now, lastInstant, idleTimeout, maxInbound, names)
      ensures Inv(View())
      ensures this.now == now && this.lastInstant == lastInstant
      ensures this.idleTimeout == idleTimeout && this.maxInbound == maxInbound && local.Keys == Elements(names)
    {
      this.now, this.lastInstant, this.idleTimeout, this.maxInbound := now, lastInstant, idleTimeout, maxInbound;
      requested, negotiatingOut, negotiatingIn, shutdown := [], [], [], NotPlanned;
      local, remote, streams, handles := Gathered(names), {}, StreamCounter(1, {}), 0;
      buffer := [];
      history := History([], [], [], [], [], [], [], [], {}, []);
      new;
      if local != map[] {
        var change;
        change, buffer := FromInitialProtocols(local.Keys, buffer);
        history := history.(localChanges := [change]);
      }
      NewInv<U>(now, lastInstant, idleTimeout, maxInbound, names);
      hide Inv;
    }

    method PollRequested(a: Answer<U>) returns (control: Option<Control>)
      modifies this`requested, this`history
      ensures (View(), control) == RequestedStage(old(View()), a)
    {
      if exists k :: 0 <= k < |requested| && IsReady(requested[k], now) {
        var i := Choose(requested, now, a.ready);
        var resolved := requested[i].future;
        requested := Without(PollMembers(requested, a.early, now), i);
        if resolved.Waiting? {
          history := ReportOut(history, Report(resolved.ticket, Failure(Timeout), now, None));
        }
        return Some(Continue);
      }
      requested := PollAll(requested, now);
      return None;
    }

    method PollHandler(a: Answer<U>) returns (control: Option<Control>)
      modifies this`requested, this`remote, this`buffer, this`history
      ensures (View(), control) == HandlerStage(old(View()), a)
    {
      match a.handler {
        case HandlerPending =>
          return None;
        case OutboundSubstreamRequest(info, timeout) =>
          var ticket := Ticket(|history.issued|, info, Delay(now, timeout));
          requested := requested + [Slot(Waiting(ticket, false), true)];
          history := history.(issued := history.issued + [ticket]);
          return Some(Continue);
        case NotifyBehaviour(event) =>
          return Some(Return(HandlerEvent(event)));
        case ReportAdded(protocols) =>
          history := HearRemote(history, Added(protocols));
          var added;
          added, buffer := Add(remote, protocols, buffer);
          if added.Some? {
            history := TellRemote(history, added.value);
            remote := remote + Elements(buffer);
            buffer := [];
          }
          return Some(Continue);
        case ReportRemoved(protocols) =>
          history := HearRemote(history, Removed(protocols));
          var removed;
          assert protocols * remote == {} ==> remote - protocols == remote by {
            assert forall p :: p in remote && p in protocols ==> p in protocols * remote;
          }
          removed, remote, buffer := Remove(remote, protocols, buffer);
          if removed.Some? {
            history := TellRemote(history, removed.value);
          }
          return Some(Continue);
      }
    }

    /** The timeout is polled before the upgrade; a finished future gives its handle back or passes it on. */
    method Finish(u: StreamUpgrade<U>, answer: UpgradeAnswer) returns (report: Report<U>)
      modifies this`streams
      ensures report == Report(u.ticket, Resolve(u, answer, now), now, PassedOn(u, answer, now))
      ensures streams == HandleAfter(old(streams), u, answer, now)
    {
      var keeps := false;
      var result;
      if u.ticket.timeout.Elapsed(now) {
        result := Failure(Timeout);
      } else {
        match answer {
          case Upgraded(k) => result, keeps := Success, k;
          case ApplyFailed(k) => result, keeps := Failure(Apply), k;
          case NotNegotiated => result := Failure(NegotiationFailed);
          case IoFailed => result := Failure(Io);
        }
      }
      if !keeps {
        streams := streams.Release({u.handle});
      }
      return Report(u.ticket, result, now, if keeps then Some(u.handle) else None);
    }

    method PollNegotiatingOut(a: Answer<U>) returns (control: Option<Control>)
      modifies this`negotiatingOut, this`streams, this`history
      ensures (View(), control) == OutboundStage(old(View()), a)
    {
      if a.outboundDone.None? || a.outboundDone.value.0 >= |negotiatingOut| {
        return None;
      }
      var (i, answer) := a.outboundDone.value;
      var u := negotiatingOut[i];
      negotiatingOut := Without(negotiatingOut, i);
      var report := Finish(u, answer);
      history := ReportOut(history, report);
      return Some(Continue);
    }

    method PollNegotiatingIn(a: Answer<U>) returns (control: Option<Control>)
      modifies this`negotiatingIn, this`streams, this`history
      ensures (View(), control) == InboundStage(old(View()), a)
    {
      if a.inboundDone.None? || a.inboundDone.value.0 >= |negotiatingIn| {
        return None;
      }
      var (i, answer) := a.inboundDone.value;
      var u := negotiatingIn[i];
      negotiatingIn := Without(negotiatingIn, i);
      var report := Finish(u, answer);
      history := history.(endings := history.endings + [report]);
      match report.result {
        case Success => history := history.(inboundTold := history.inboundTold + [report]);
        case Failure(Apply) => history := history.(inboundTold := history.inboundTold + [report]);
        case Failure(_) =>
      }
      return Some(Continue);
    }

    method CheckShutdown(a: Answer<U>) returns (control: Option<Control>)
      requires now <= lastInstant
      modifies this`shutdown, this`history
      ensures (View(), control) == ShutdownStage(old(View()), a)
    {
      var idle := negotiatingIn == [] && negotiatingOut == [] && requested == [] && streams.HasNoActiveStreams();
      history := history.(checks := history.checks + [Check(now, idle && !a.keepAlive)]);
      if !idle {
        shutdown := NotPlanned;
        return None;
      }
      if a.keepAlive {
        shutdown := NotPlanned;
      } else if idleTimeout == 0 {
        shutdown := Asap;
      } else if !shutdown.Later? {
        var safeKeepAlive := CheckedAddFraction(lastInstant - now, idleTimeout);
        shutdown := Later(Delay(now, safeKeepAlive));
      }
      match shutdown {
        case NotPlanned => return None;
        case Asap => return Some(Return(KeepAliveTimeout));
        case Later(delay) => return if delay.Elapsed(now) then Some(Return(KeepAliveTimeout)) else None;
      }
    }

    /** `extract` in place. The branch that would panic is shown dead. */
    method OpenSubstream(a: Answer<U>) returns (control: Option<Control>)
      requires AllParked(View())
      modifies this`requested, this`negotiatingOut, this`streams, this`handles
      ensures (View(), control) == OpenStage(old(View()), a)
    {
      if requested == [] || a.outbound.SubstreamPending? {
        return None;
      }
      if a.outbound.SubstreamError? {
        return Some(Return(IoError));
      }
      var i := if a.pick < |requested| then a.pick else 0;
      match requested[i].future {
        case Done =>
          assert false;
          return Some(Panic);
        case Waiting(ticket, hasWaker) =>
          requested := requested[i := Slot(Done, requested[i].woken || hasWaker)];
          negotiatingOut := negotiatingOut + [StreamUpgrade(ticket, handles)];
          streams := streams.Clone(handles);
          handles := handles + 1;
          return Some(Continue);
      }
    }

    method AcceptSubstream(a: Answer<U>) returns (control: Option<Control>)
      modifies this`negotiatingIn, this`streams, this`handles, this`history
      ensures (View(), control) == AcceptStage(old(View()), a)
    {
      if |negotiatingIn| >= maxInbound || a.inbound.SubstreamPending? {
        return None;
      }
      if a.inbound.SubstreamError? {
        return Some(Return(IoError));
      }
      var ticket := Ticket(|history.accepted|, a.listen.info, Delay(now, a.listen.timeout));
      negotiatingIn := negotiatingIn + [StreamUpgrade(ticket, handles)];
      streams := streams.Clone(handles);
      handles := handles + 1;
      history := history.(accepted := history.accepted + [ticket]);
      return Some(Continue);
    }

    method DiffProtocols(a: Answer<U>) returns (control: Control)
      modifies this`local, this`buffer, this`history
      ensures (View(), control) == ProtocolStage(old(View()), a)
    {
      hide FullSets;
      var changes;
      local, changes, buffer := FromFullSets(local, a.listen.names, buffer);
      for k := 0 to |changes|
        modifies this`history
        invariant history == old(history).(localChanges := old(history).localChanges + changes[..k])
      {
        assert changes[..k + 1] == changes[..k] + [changes[k]];
        history := history.(localChanges := history.localChanges + [changes[k]]);
      }
      assert changes[..|changes|] == changes;
      control := if changes == [] then Return(Pending) else Continue;
    }

    /** What happens around the connection between two iterations. */
    method PassTime(a: Answer<U>)
      modifies this`now, this`streams, this`requested, this`history
      ensures View() == Arrive(old(View()), a)
    {
      now := Min(now + a.elapsed, lastInstant);
      history := history.(givenUp := history.givenUp + streams.holders * a.released);
      streams := streams.Release(a.released);
      var slots := requested;
      requested := seq(|slots|, i requires 0 <= i < |slots| => slots[i].(woken := slots[i].woken || i in a.woken));
    }

    method FirstHalf(a: Answer<U>) returns (control: Option<Control>)
      modifies this
      ensures (View(), control) == Front(old(View()), a)
    {
      hide RequestedStage, HandlerStage, OutboundStage, InboundStage;
      control := PollRequested(a);
      if control.Some? { return; }
      control := PollHandler(a);
      if control.Some? { return; }
      control := PollNegotiatingOut(a);
      if control.Some? { return; }
      control := PollNegotiatingIn(a);
    }

    method SecondHalf(a: Answer<U>) returns (control: Control)
      requires Inv(View()) && AllParked(View())
      modifies this
      ensures (View(), control) == Back(old(View()), a)
    {
      hide ShutdownStage, MuxerStage, OpenStage, AcceptStage, ProtocolStage;
      ghost var start := View();
      var c := CheckShutdown(a);
      ShutdownStageInv(start, a);
      if c.Some? { return c.value; }
      c := PollMuxer(a);
      if c.Some? { return c.value; }
      c := OpenSubstream(a);
      if c.Some? { return c.value; }
      c := AcceptSubstream(a);
      if c.Some? { return c.value; }
      control := DiffProtocols(a);
    }

    method PollMuxer(a: Answer<U>) returns (control: Option<Control>)
      ensures (View(), control) == MuxerStage(View(), a)
    {
      match a.muxer {
        case MuxerPending => return None;
        case MuxerAddressChange(address) => return Some(Return(AddressChange(address)));
        case MuxerError => return Some(Return(IoError));
      }
    }

    method Turn(a: Answer<U>) returns (control: Control)
      requires Inv(View())
      modifies this
      ensures (View(), control) == Iterate(old(View()), a)
      ensures Inv(View()) && control != Panic
    {
      hide Inv, Arrive, Front, Back;
      ghost var start := View();
      PassTime(a);
      ArriveInv(start, a);
      FrontInv(Arrive(start, a), a);
      IterateInv(start, a);
      var c := FirstHalf(a);
      if c.Some? { return c.value; }
      control := SecondHalf(a);
    }

    /**
     `poll`: the loop. It runs to the first iteration that does not continue, or through all the
     answers there are, and takes the object from one state of the run to a later one.
     */
    method Poll(answers: seq<Answer<U>>) returns (result: Option<PollResult>, turns: nat)
      requires Inv(View())
      modifies this
      ensures Inv(View())
      ensures turns <= |answers| && View() == Run(old(View()), answers[..turns])
      ensures result.None? ==> turns == |answers|
      ensures result.Some? ==>
                turns > 0 && Iterate(Run(old(View()), answers[..turns - 1]), answers[turns - 1]).1 ==
                    Return(result.value)
      ensures forall k :: 0 <= k < turns - (if result.Some? then 1 else 0) ==>
                Iterate(Run(old(View()), answers[..k]), answers[k]).1 == Continue
    {
      hide Inv, Iterate;
      turns := 0;
      while turns < |answers|
        invariant 0 <= turns <= |answers|
        invariant Inv(View()) && View() == Run(old(View()), answers[..turns])
        invariant forall k :: 0 <= k < turns ==> Iterate(Run(old(View()), answers[..k]), answers[k]).1 == Continue
      {
        RunAppend(old(View()), answers[..turns], answers[turns]);
        assert answers[..turns + 1] == answers[..turns] + [answers[turns]];
        var control := Turn(answers[turns]);
        turns := turns + 1;
        match control {
          case Continue =>
          case Return(r) => return Some(r), turns;
        }
      }
      result := None;
    }
  }
}
