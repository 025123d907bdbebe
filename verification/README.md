# Verification of the rust-libp2p core

A model, in Dafny 4.11, of the parts of this rust-libp2p tree that are hardest to get right, with
proofs of what they promise. `dafny verify dfyconfig.toml` checks everything.

The project follows the program:

- **One connection.** `ConnectionModel` is the loop of `Connection::poll` (swarm/src/connection.rs) as a
  step function over nine stages; `ConnectionSafety` proves invariants over every run of it,
  `ConnectionTrace` tells one iteration flat, without the stages, and `ConnectionOrigins` traces what
  happened back to the setup and the answers of the run; `Connection` is the object itself, with
  fields updated in place, each stage proved to be the stage of the model. `Stream` is the shared
  active-stream counter, `IdleShutdown` the planning of the idle timer, `ProtocolsChange` the diffing of
  protocol sets.
- **The swarm.** `SwarmModel` is the event loop of `Swarm` (swarm/src/lib.rs) with its one-event slot,
  `SwarmTrace` tells one iteration flat, `SwarmOrigins` traces its promises back over the run,
  `ListenAddresses` is its bookkeeping of listen addresses, `Dialing` the `dial` call, `Swarm` the object.
- **The in-memory transport.** `MemoryModel` is the port registry, the transports and the dialers of
  core/src/transport/memory.rs as a world that moves by atomic actions in any interleaving.
  `MemoryCore` has what every action keeps, `MemorySafety` and `MemoryRegistry` the registry under
  callers that remove a listener once, `MemoryDelivery`, `MemoryConservation`, `MemoryOrigins`,
  `MemoryHistory` and `MemoryFairness` what holds over runs of any kind, `MemoryRuns` the runs that
  surprise, and `MemoryTransport` the objects.
- **The derive macro.** `DeriveRouting` is what `#[derive(NetworkBehaviour)]` generates, for any number
  of fields, against `ConnectionHandlerSelect`.
- **Encodings.** `SignedEnvelope`, `EcdsaKeyHeader`, and `Calendar` for the camera's build stamp.

## What is taken as given

- A connection meets its handler, multiplexer, upgrades and the clock as one `Answer` an iteration; a
  run is any sequence of answers, so a theorem about reachable states covers every behaviour of
  those. Time never decreases and stops at the last instant the platform can represent.
- `FuturesUnordered` does what it documents: woken members are polled, finished ones leave, none
  that is woken is left when it says Pending. Which ready member comes first, and which member
  `iter_mut().next()` yields, is free.
- A `futures_timer::Delay` is ready exactly from its deadline on.
- Streams are dropped or opted out between iterations, never in the middle of one.
- Requests and inbound streams carry running numbers, and a history records what the handler was
  told. Neither exists in the code; no stage branches on them.
- The connection pool says which connections are established and how ready each is, and lists the
  connections of a peer once each (`SwarmModel.Legal`).
- Transports live as long as the run. Channel fullness, random ports and the dropping of dialers
  are free. Others may act between the unregistering and the closing of a listener, and between the
  lookup, the registration and the return of `DialFuture::new`, but not on a transport that is in the
  middle of a removal, because that takes it by `&mut self`. A poll is one action.
- Instants and durations count nanoseconds; integers are unbounded where the code's `u64` and `usize`
  cannot overflow in practice, and cut to eight bits where the code cuts.
- Signatures are ideal: one verifies for the message it was made for and for no other.

## Where the code and its documentation part

- `ProtocolsChange::from_full_sets` compares the length of the new list with the number of map entries
  before it looks for removals. A list that repeats names can therefore hide a removal:
  `RepetitionHidesRemoval` is a concrete case, `FullSetsIsSetDifference` gives the exact condition.
- `remove_listener` unregisters by port, and a removed listener stays in the queue until it is
  polled. Removing it again in between takes the port away from whoever has it now:
  `RemovingTwiceHitsAnother` is a concrete run, `RemovingOnceIsTheCondition` the exact condition. Runs
  in which each listener is removed once at most are called disciplined.
- The comment at core/src/transport/memory.rs:107-112 says a dialer's port is not at the same time a listen
  address. A listener that is being removed can still report a dial from its own address:
  `DialFromTheListenersOwnPort` is a concrete run, `OwnPortOnlyDuringRemoval` the exact condition, and
  `OwnPortOnlyOnceUnregistered` the one for runs that are not disciplined.
- The same comment says these ports are not used. While a `DialFuture` is being made its port has an open
  receiver; a dial sent there succeeds and is dropped: `DialToADialerIsDropped` is a concrete run,
  `ConnectsToADialerBeingMade` the exact condition.
- A comment at core/src/transport/memory.rs:348-349 says the listening port is unregistered by a `Drop` of
  the listener. There is none, so dropping a transport can leave ports registered to nobody:
  `DroppedTransportKeepsItsPort` is a concrete case, `DroppingATransport` the exact condition.
- `dial` drops repeated addresses and our own before it appends the peer, so it can still try an address
  twice, or one we listen on ourselves: `DialsTwice` and `DialsOwn` are concrete inputs,
  `AttemptsRepeat` and `AttemptsOwnAddress` the exact conditions.
- `add_asn1_header` cuts both length octets to eight bits: `RoundTrip` and `WellFormedDer` say for exactly
  which key lengths the header reads back and is well-formed DER.

## Model

| member | source | states |
|---|---|---|
| ConnectionOrigins.OutboundConservation | swarm/src/connection.rs:274-344 | Over every run: the requests on record are those the handler made, in order, each timed from the poll that made it; as a multiset they are the waiting, the negotiating and the reported ones, none reported twice; each report goes back to the answer that settled it, a success exactly for an upgrade that succeeded in time, a timeout exactly once the time was up |
| ConnectionOrigins.InboundConservation | swarm/src/connection.rs:346-374 | Over every run: accepted inbound streams go back to a substream and the listen protocol of that moment, and are negotiating or ended, never both or twice; never more negotiate than the configured maximum; each ending goes back to the answer that made it; the handler is told exactly the successes and the upgrade errors, in order |
| ConnectionSafety.ExtractNeverPanics | swarm/src/connection.rs:694-711 | From every reachable state, whatever is answered next, "cannot extract twice" is not reached |
| ConnectionOrigins.ActiveStreams | swarm/src/stream.rs:15-53 | Over every run: a stream handle is held exactly if its negotiation is going on or its stream was passed on, and no answer of the run dropped it or opted it out; no two streams share a handle; the counter says "none" exactly if none is held; opting out twice is opting out once |
| ConnectionOrigins.ClosesExactlyWhenIdle | swarm/src/connection.rs:376-402 | Over every run from `Connection::new`: the checks on record are those of the iterations in which nothing came up, and the next iteration closes for idleness if and only if it makes a check and the checks have been quiet, without a break, for the delay that the configured timeout asks for (at once for zero); the connection is then fully idle |
| ConnectionOrigins.ProtocolReplay | swarm/src/connection.rs:302-325 | Over every run: replaying the remote-protocol events gives the same set as replaying the reports the handler made in the run, which is the connection's set; every event moves what is known; local events replay to the valid names of the map |
| ConnectionTrace.IterateTrace | swarm/src/connection.rs:274-472 | From every state that keeps the invariant: the clock, the queues, all that is recorded and the value `poll` returns are given exactly, by the state before and the answers alone |
| ConnectionTrace.SettledIsRipe | swarm/src/connection.rs:275-287 | The request that resolves was woken and is done or out of time; it is the one the scheduler favours if that is ready, else the first |
| ConnectionOrigins.OpensWhenReady | swarm/src/connection.rs:414-434 | Over every run: when a request waits, the multiplexer has a substream and nothing earlier ends the iteration, exactly one negotiation is started, on a handle nobody ever had, for a request that was waiting and no longer is |
| ConnectionOrigins.RunStarts | swarm/src/connection.rs:328-434 | Over every run: the outbound negotiations that the answers started are, as a multiset, those going on and those that ended |
| ConnectionOrigins.RunRecord | swarm/src/connection.rs:274-472 | Over every run: requests, outcomes, accepted streams, endings, reports and checks are the lists computed from the answers, in order |
| ConnectionOrigins.RunSettings | swarm/src/connection.rs:189-223 | Over every run: the idle timeout, the inbound maximum and the last instant are those the connection was made with, and the clock is the time elapsed, up to that instant |
| ConnectionOrigins.NewConnection | swarm/src/connection.rs:189-223 | A new connection has the settings it was given, every queue empty, the listed names as map keys, and a handler told their valid part unless there are no names |
| ConnectionOrigins.OutcomeMeans | swarm/src/connection.rs:275-344 | A request is reported as timed out exactly if its deadline has passed; else as its negotiation was answered |
| ConnectionSafety.PendingIsAtRest | swarm/src/connection.rs:455-470 | Pending means all requests are parked with a waker and nobody asked had anything; the handler then knows exactly the valid names it listens on, if and only if no valid removal was hidden by repeated names |
| ConnectionSafety.IterateInv | swarm/src/connection.rs:253-472 | One iteration keeps the whole invariant, does not panic, and makes at most one shutdown check |
| ConnectionSafety.RunInv | swarm/src/connection.rs:253-472 | Every run keeps the invariant |
| ConnectionSafety.NewInv | swarm/src/connection.rs:189-223 | A new connection satisfies the invariant |
| ConnectionSafety.RequestedInv | swarm/src/connection.rs:275-287 | Polling the requests keeps the invariant, and when it falls through every request waits, parked |
| ConnectionSafety.HandlerInv | swarm/src/connection.rs:289-326 | Whatever the handler asks for, the invariant holds after it |
| ConnectionSafety.OutboundInv | swarm/src/connection.rs:328-344 | A finished outbound negotiation keeps the invariant |
| ConnectionSafety.InboundInv | swarm/src/connection.rs:346-374 | A finished inbound negotiation keeps the invariant |
| ConnectionSafety.ShutdownPlanned | swarm/src/connection.rs:376-402 | The planned shutdown is a function of the checks so far, and the stage closes exactly if the plan is due |
| ConnectionSafety.OpenInv | swarm/src/connection.rs:414-434 | Handing a substream to a parked request keeps the invariant and cannot panic |
| ConnectionSafety.AcceptInv | swarm/src/connection.rs:436-453 | Accepting an inbound substream keeps the invariant, the bound included |
| ConnectionModel.Choose | swarm/src/connection.rs:715-741 | The request that resolves is a woken one that is done or timed out |
| ConnectionTrace.ChoosesFavoured | swarm/src/connection.rs:275-287 | It is the one the scheduler favours if that is such a one, else the first that is |
| Connection.Connection.constructor | swarm/src/connection.rs:189-223 | The new object is in the model's initial state: the clock, the last instant, the idle timeout and the inbound maximum as given, the map keyed by the listed names |
| Connection.Connection.PollRequested | swarm/src/connection.rs:275-287 | The stage in place; a request that is not done yet is reported as timed out |
| Connection.Connection.PollHandler | swarm/src/connection.rs:289-326 | The stage in place, over the shared scratch buffer |
| Connection.Connection.Finish | swarm/src/connection.rs:643-668 | The timeout is looked at before the upgrade; the handle goes back unless the stream is passed on |
| Connection.Connection.PollNegotiatingOut | swarm/src/connection.rs:328-344 | The stage in place |
| Connection.Connection.PollNegotiatingIn | swarm/src/connection.rs:346-374 | The stage in place |
| Connection.Connection.CheckShutdown | swarm/src/connection.rs:376-402 | The stage in place, with the halving loop for the delay |
| Connection.Connection.OpenSubstream | swarm/src/connection.rs:414-434 | The stage in place; the panicking branch is shown dead |
| Connection.Connection.AcceptSubstream | swarm/src/connection.rs:436-453 | The stage in place |
| Connection.Connection.DiffProtocols | swarm/src/connection.rs:455-467 | The stage in place, over the shared scratch buffer |
| Connection.Connection.Turn | swarm/src/connection.rs:274-472 | One iteration of the object is one iteration of the model, and it does not panic |
| Connection.Connection.Poll | swarm/src/connection.rs:253-472 | The loop takes the object along a run of the model, up to the first iteration that returns and with its result |
| Stream.ActiveStreamCounter.constructor | swarm/src/stream.rs:16-18 | A new counter has no holders; its view is the initial counter of the connection model |
| Stream.ActiveStreamCounter.HasNoActiveStreams | swarm/src/stream.rs:20-26 | The count is one exactly if no stream holds a reference |
| Stream.Stream.constructor | swarm/src/stream.rs:36-41 | The new stream is one holder more; the view is the model's clone |
| Stream.Stream.IgnoreForKeepAlive | swarm/src/stream.rs:51-53 | The stream stops being a holder; again is a no-op; the view is the model's release |
| Stream.DistinctHandles | swarm/src/stream.rs:20-26 | Counting references and counting handles come to the same |
| IdleShutdown.SafeDelay | swarm/src/connection.rs:510-524 | The delay fits; it is the one asked for if that fits, else at least half of the longest that fits |
| IdleShutdown.HalvesUntilItFits | swarm/src/connection.rs:510-524 | The delay is the one asked for, halved as often as it takes to fit and no more often |
| IdleShutdown.CheckedAddFraction | swarm/src/connection.rs:516-524 | The halving loop ends with that delay |
| ProtocolsChange.FullSetsIsSetDifference | swarm/src/handler.rs:422-476 | For every list: the map becomes the new names if and only if no removal is hidden, and then the changes are the valid parts of the two set differences; lists without repetition always do |
| ProtocolsChange.ReportsAreReal | swarm/src/handler.rs:455-475 | For every list: no change is empty and every change is a true set difference |
| ProtocolsChange.NoRepetitionHidesNothing | swarm/src/handler.rs:447-449 | The early return is right for lists without repetition |
| ProtocolsChange.RepetitionHidesRemoval | swarm/src/handler.rs:447-449 | A list of two equal names hides the removal of another |
| ProtocolsChange.ReplayFollowsMap | swarm/src/handler.rs:422-476 | For every list: replaying the changes takes the valid names of the old map to those of the new one |
| ProtocolsChange.InStepUnlessHidden | swarm/src/handler.rs:447-449 | For every list: the receiver then knows exactly the valid part of the list, if and only if no valid removal is hidden |
| ProtocolsChange.ValidMeansSlash | swarm/src/stream_protocol.rs:39-49 | The names kept are those with a leading slash |
| ProtocolsChange.FromFullSets | swarm/src/handler.rs:422-476 | The two loops and the buffer come to the closed form; no protocol is in the buffer twice |
| ProtocolsChange.MarkNew | swarm/src/handler.rs:430-445 | Old and new names are in the map, marked exactly if listed; the buffer holds the valid new ones once |
| ProtocolsChange.SweepUnmarked | swarm/src/handler.rs:451-461 | Unmarked entries leave, and the valid ones follow the additions in the buffer |
| ProtocolsChange.SplitChanges | swarm/src/handler.rs:463-475 | At most one addition and one removal, of the two halves of the buffer |
| ProtocolsChange.FromInitialProtocols | swarm/src/handler.rs:354-368 | One addition of all valid names |
| ProtocolsChange.Add | swarm/src/handler.rs:373-392 | The protocols that are new, or no change if none is |
| ProtocolsChange.Remove | swarm/src/handler.rs:399-418 | The protocols that were there leave and are reported; no change if none was |
| ProtocolsChange.SupportedProtocols.OnProtocolsChange | swarm/src/connection/supported_protocols.rs:11-32 | The set after the change, and whether it moved |
| SwarmOrigins.NotificationsSettleInOrder | swarm/src/lib.rs:1179-1258 | Over every run: the behaviour's events for handlers are settled in the order it emitted them, each once and as itself; a delivered event was taken, at some answer of the run, by the named connection or one of the named peer's of that time; a lost event was turned down by each of these at some answer; an event that was taken is delivered; at most the newest is still on its way |
| SwarmTrace.IterateTrace | swarm/src/lib.rs:1197-1258 | From every state: what one iteration does to the queue, the slot, the connections and the listeners, and whether it returns and with what, by the state before and the answers alone; an event in the slot goes to the first listed connection that takes it, else stays for the full ones in order, else is lost |
| SwarmOrigins.TakenMeansDelivered | swarm/src/lib.rs:1280-1345 | Over every run: an event that some connection took is settled as delivered |
| SwarmOrigins.ConnectionsFollowThePool | swarm/src/lib.rs:1238-1245 | Over every run: a connection is on record, and to whom, exactly as the pool last said when it was asked |
| SwarmOrigins.LoopTellsEverybody | swarm/src/lib.rs:937-1083 | Over every run of the loop: each transport event it handles is told to the behaviour and to the user once, in order, and nothing else about listeners is |
| SwarmOrigins.LoopIsTruthful | swarm/src/lib.rs:998-1082 | Over every run of the loop: the swarm listens exactly on what the handled events announced and neither expired nor closed, no address twice; both replays hold just that, whatever else was queued; closing comes after expiry |
| SwarmModel.SlotAssertionNeverFires | swarm/src/lib.rs:1111-1129 | From any state, the assertion that the slot is free holds when it is reached |
| SwarmModel.NotifyLosesNothing | swarm/src/lib.rs:1280-1345 | An attempt delivers to a connection that takes the event, or keeps it for exactly the full ones, or finds neither |
| SwarmOrigins.PendingIsUpToDate | swarm/src/lib.rs:1179-1258 | Pending means the sources have nothing and the slot waits for full connections only; what `poll_next_event` returned over the whole run has the one event for each transport event handled, in order, and a user who replays it knows exactly the listen addresses, as does the behaviour |
| SwarmOrigins.ReturnedInOrder | swarm/src/lib.rs:1197-1200 | Over every run: the events returned are the queued ones, in order, each once |
| SwarmOrigins.EmittedInOrder | swarm/src/lib.rs:1227-1236 | Over every run: the emissions are those of the polls of the behaviour with the slot free |
| SwarmOrigins.DeliveriesWereTaken | swarm/src/lib.rs:1280-1345 | A delivery goes back to an attempt at which the connection was ready and accepted |
| SwarmOrigins.UnavailableTurnedItDown | swarm/src/lib.rs:1280-1345 | A connection that is given up for an event goes back to an attempt at which it neither took the event nor was full |
| SwarmModel.IterateInv | swarm/src/lib.rs:1197-1258 | One iteration keeps the invariant behind these |
| SwarmModel.Taker | swarm/src/lib.rs:1319-1345 | The connection that takes the event is among those asked; without one, nobody asked would take it |
| SwarmModel.Waiters | swarm/src/lib.rs:1319-1345 | Exactly the full connections among those asked |
| Swarm.NotifyOne | swarm/src/lib.rs:1280-1294 | The event comes back exactly if the connection is full |
| Swarm.NotifyAny | swarm/src/lib.rs:1306-1345 | The loop delivers to the first taker, else returns the event with the full connections; the event is always there to be taken |
| Swarm.Swarm.constructor | swarm/src/lib.rs:350-369 | A new swarm is in the model's initial state |
| Swarm.Swarm.Deliver | swarm/src/lib.rs:1202-1236 | The slot first, the behaviour only when it is free |
| Swarm.Swarm.PollPool | swarm/src/lib.rs:1238-1245 | The pool stage in place |
| Swarm.Swarm.HandleTransportEvent | swarm/src/lib.rs:937-1083 | The update in place, each last address of a closed listener told to the behaviour in turn |
| Swarm.Swarm.Dial | swarm/src/lib.rs:428-555 | One failure or one attempt more, never both; which error, by exact condition on the established connections, the peers being dialed, the behaviour and the listen addresses; no kept candidate is one a listener listens on, and an attempt is at such an address if and only if a kept candidate becomes it with the peer appended |
| Swarm.Swarm.Turn | swarm/src/lib.rs:1197-1258 | One iteration of the object is one of the model |
| Swarm.Swarm.PollNextEvent | swarm/src/lib.rs:1179-1258 | The loop takes the object along a run of the model to the first iteration that returns |
| ListenAddresses.ListenAddressReplay | swarm/src/lib.rs:937-1083 | For every sequence of transport events: the swarm listens exactly on what was announced and has since neither expired nor closed; every event is told to the user as one event of its own and to the behaviour in its turn, a closing listener with the expiry of each of its addresses first; behaviour and user, replaying what they are told, hold exactly the addresses listened on; no address twice |
| ListenAddresses.EverybodyIsTold | swarm/src/lib.rs:937-1083 | For every sequence of transport events: closed and failed listeners, incoming dials, new and expired addresses each reach the user once, and the behaviour (incoming dials aside) once, in order |
| ListenAddresses.RunInv | swarm/src/lib.rs:937-1083 | Every sequence of transport events keeps the lists, the notifications and the events in step |
| ListenAddresses.ClosedInv | swarm/src/lib.rs:1046-1072 | A closing listener expires all its addresses first |
| Dialing.Dial | swarm/src/lib.rs:428-555 | Every call ends in one error, told once for this connection and with nothing dialed, or in one non-empty attempt; refused exactly if the condition wants a peer disconnected that is connected or not being dialed that is, else denied exactly if the behaviour denies it, else without addresses exactly if every candidate is ours |
| Dialing.RetainUnique | swarm/src/lib.rs:496-500 | The filter with its growing set is the first-occurrence filter |
| Dialing.RetainedIsFirstOccurrences | swarm/src/lib.rs:496-500 | Kept are the candidates that are not ours, each once, in the order of first appearance |
| Dialing.NothingLeft | swarm/src/lib.rs:502-511 | Nothing is left exactly if every candidate is ours |
| Dialing.CallersComeFirst | swarm/src/lib.rs:458-500 | Kept are the foreign addresses of the caller, in the caller's order, before those only the behaviour offers, which count only if asked for |
| Dialing.PeerMeans | swarm/src/dial_opts.rs:114-127 | The peer is the one given or, without one, the last component of the first address |
| Dialing.DialedMeans | swarm/src/lib.rs:518-543 | An address is refused exactly if it ends in another peer; else it is dialed as it is or with the peer appended, and ends in the peer |
| Dialing.AttemptsRepeat | swarm/src/lib.rs:496-543 | A dial tries no address twice if and only if no foreign candidate is listed both without and with the peer |
| Dialing.DialsTwice | swarm/src/lib.rs:496-543 | A dial with two candidates that tries one address twice |
| Dialing.AttemptsOwnAddress | swarm/src/lib.rs:496-543 | A dial tries an address of our own if and only if it is a foreign candidate with the peer appended |
| Dialing.DialsOwn | swarm/src/lib.rs:496-543 | A dial with one foreign candidate that tries an address of our own |
| MemoryRegistry.HubHoldsExactlyThePortsInUse | core/src/transport/memory.rs:54-91 | In every state of a disciplined run the registered ports are those of open listeners and live dialers, never zero, no two sharing one |
| MemoryRegistry.RemovingOnceIsTheCondition | core/src/transport/memory.rs:206-216 | Removing a listener keeps the registry right with the assertion holding if and only if it was not removed before |
| MemoryRegistry.VictimLosesPort | core/src/transport/memory.rs:84-86 | Unregistering by the port of a removed listener takes it from its present holder, who goes on using it |
| MemoryRegistry.AssertionsNeverFire | core/src/transport/memory.rs:206-216 | In disciplined runs neither `debug_assert` fires |
| MemoryHistory.DialerHistory | core/src/transport/memory.rs:119-173 | Over every run: a dialer exists exactly if a lookup found its port, with the sender found; it is being made, dialing, connected, failed or dropped exactly as its actions say, so it has stopped living if and only if it was dropped after it was made |
| MemoryHistory.DropFreesThePort | core/src/transport/memory.rs:397-404 | In every state of a disciplined run, dropping a dialer that was made takes its port out of the registry, leaves every other entry, and lets the next `listen_on` have the port |
| MemoryHistory.ListenerHistory | core/src/transport/memory.rs:182-216 | Over every run: there is a listener with that id on that port exactly if a `listen_on` found the port free, and it is marked as removed exactly if a `remove_listener` found it as the first with its id |
| MemoryHistory.ClosingIsHistory | core/src/transport/memory.rs:206-216 | Over every run: a receiver is about to be closed exactly if its removal was called for and it was not closed since |
| MemoryOrigins.DialReachesTheListenerItLookedUp | core/src/transport/memory.rs:119-173 | Every incoming dial goes back to a lookup at which the registry led from the listener's port to that very listener; it comes in on the listener's address, and once |
| MemoryOrigins.OwnPortOnlyOnceUnregistered | core/src/transport/memory.rs:106-145 | Over every run: a dial comes in from the listener's own port if and only if its dialer drew that port while the listener was unregistered and not yet closed |
| MemoryOrigins.OwnPortOnlyDuringRemoval | core/src/transport/memory.rs:106-145 | In disciplined runs: if and only if it drew the port in the middle of the listener's removal |
| MemoryRegistry.SharedPortMeansRemoved | core/src/transport/memory.rs:106-113 | In disciplined runs a queued listener and a live dialer have the same port only once the listener was removed |
| MemoryRegistry.ConnectsToADialerBeingMade | core/src/transport/memory.rs:119-172 | A dial to another dialer's port gets its connection if and only if that dialer is still being made |
| MemoryRuns.DialToADialerIsDropped | core/src/transport/memory.rs:119-172 | A disciplined run in which a dial to a dialer succeeds and is dropped |
| MemorySafety.DroppingATransport | core/src/transport/memory.rs:94-97 | Dropping a transport keeps the registry right if and only if all its listeners were removed |
| MemoryRuns.DroppedTransportKeepsItsPort | core/src/transport/memory.rs:94-97 | A transport dropped while listening leaves its port registered to nobody |
| MemoryRuns.DialFromTheListenersOwnPort | core/src/transport/memory.rs:206-216 | A disciplined run in which a listener reports a dial from its own address |
| MemoryOrigins.EventsComeFromTheirListen | core/src/transport/memory.rs:182-204 | Every event of a listener goes back to one `listen_on`, carries its id, and names the port it registered |
| MemoryOrigins.Lookups | core/src/transport/memory.rs:120-121 | Every dialer goes back to a lookup that found its sender registered |
| MemoryOrigins.Draws | core/src/transport/memory.rs:123-125 | Every dialer's port goes back to a draw that was free |
| MemoryDelivery.ListenersLiveInOrder | core/src/transport/memory.rs:236-284 | Over every run: each listener announces its own address, reports dials on that address, closes once, in that order and all under its own id; it has left the queue exactly if it closed, and then it is drained |
| MemoryRegistry.ClosedWasRemoved | core/src/transport/memory.rs:264-270 | In disciplined runs a listener closes only once it was removed |
| MemoryDelivery.RunInv | core/src/transport/memory.rs:54-284 | Every run keeps users, traffic and life cycles right |
| MemoryCore.ApplyCore | core/src/transport/memory.rs:54-284 | Every action, of any caller, keeps registry entries, listeners and dialers on channels made for them |
| MemorySafety.CloseUse | core/src/transport/memory.rs:211-212 | Closing the receiver completes a removal, whatever happened since the port was given up |
| MemorySafety.RunRegistry | core/src/transport/memory.rs:54-284 | Every disciplined run keeps the registry right |
| MemoryDelivery.ApplyTraffic | core/src/transport/memory.rs:149-172 | Every action keeps each dial in one place |
| MemoryDelivery.ApplyLife | core/src/transport/memory.rs:236-284 | Every action keeps each listener on its life cycle |
| MemorySafety.ApplyRegistry | core/src/transport/memory.rs:54-91 | Every action of a disciplined caller keeps the registry right, assertions included |
| MemoryConservation.DialsAreConserved | core/src/transport/memory.rs:149-172 | Over every run: on a listener's channel the dials reported, then those queued, are the dials sent, in order; on a dialer's channel what was sent is dropped; a connected dialer has sent its other end |
| MemoryConservation.ClosedListenersReportedAll | core/src/transport/memory.rs:264-270 | Over every run: a closed listener has reported every dial it was sent |
| MemoryFairness.EveryListenerGetsItsTurn | core/src/transport/memory.rs:236-284 | Over every run, disciplined or not: a listener with news is heard by the time its transport was polled once for each listener from it to the back and once for each that joined meanwhile |
| MemoryFairness.PollBringsNearer | core/src/transport/memory.rs:243-282 | A poll reports the listener or brings it, unchanged, nearer to its turn |
| MemoryFairness.NewsLasts | core/src/transport/memory.rs:236-284 | No action of others takes a listener's news away |
| MemoryFairness.PendingMeansNoNews | core/src/transport/memory.rs:272-284 | A poll reports nothing if and only if no listener has an untold address, a waiting dial, a closed receiver or a channel nobody can send to; it then changes nothing |
| MemoryCore.PositionIsFirst | core/src/transport/memory.rs:206-210 | The listener to be removed is the first with the id, if there is one |
| MemoryRuns.RemovingTwiceHitsAnother | core/src/transport/memory.rs:206-216 | A run in which removing a listener twice unregisters another that was never removed |
| MemoryModel.Stop | core/src/transport/memory.rs:243-282 | The listener `poll` stops at has news and none behind it has |
| MemoryTransport.Hub.RegisterPort | core/src/transport/memory.rs:59-82 | The port asked for unless occupied; for port zero the first draw that is free and not zero; the registration is the model's |
| MemoryTransport.Hub.UnregisterPort | core/src/transport/memory.rs:84-86 | The entry is removed and returned |
| MemoryTransport.Transport.ListenOn | core/src/transport/memory.rs:182-204 | Fails exactly for an occupied port and then changes nothing; else one listener more at the back, on the port asked for or drawn, which is registered; the objects then show the world after `Listen` |
| MemoryTransport.Transport.RemoveListener | core/src/transport/memory.rs:206-216 | Found exactly if a listener has the id; the port of the first such, and no other, leaves the registry; the `debug_assert` holds exactly when the model says; the objects then show the world after both halves of the removal |
| MemoryTransport.Transport.Poll | core/src/transport/memory.rs:236-284 | Pending exactly if nobody reports; the objects then show the world after `PollTransport`, its event the one logged |
| MemoryTransport.Transport.Turn | core/src/transport/memory.rs:244-277 | One turn in place: the back of the queue is popped, and goes to the front unless it has ended |
| MemoryTransport.Transport.Rotate | core/src/transport/memory.rs:243-283 | The rotating loop, in place, comes to the closed form the theorems are about |
| MemoryTransport.DialFuture.Dial | core/src/transport/memory.rs:120-145 | A dialer exactly if the port is registered, holding the sender found there; the objects then show the world after its three actions |
| MemoryTransport.DialFuture.Poll | core/src/transport/memory.rs:149-172 | Fails exactly if the receiver is closed, waits if there is no room, else sends; as the model does |
| MemoryTransport.DialFuture.Drop | core/src/transport/memory.rs:397-404 | The ephemeral port is no longer registered and every other entry stays; the `debug_assert` holds exactly if the port was registered |
| MemoryTransport.Examine | core/src/transport/memory.rs:244-277 | An event exactly if the listener has news; what goes back to the front |
| DeriveRouting.GenerateFieldTerm | swarm-derive/src/lib.rs:239-247 | The wrapping loop yields the term for field i of n |
| DeriveRouting.GenerateHandlerTy | swarm-derive/src/lib.rs:258-270 | The loop nests the types to the left |
| DeriveRouting.GenerateHandler | swarm-derive/src/lib.rs:290-310 | The loop nests the handlers to the left |
| DeriveRouting.ExpressionWellTyped | swarm-derive/src/lib.rs:375-382 | For every n and i, the expression of field i has the derived event type and belongs to field i |
| DeriveRouting.ExactlyTheOwnersPatternMatches | swarm-derive/src/lib.rs:232-255 | For every n, of the n patterns exactly one matches any event, and the matching expression rebuilds it |
| DeriveRouting.PatternInvertsExpression | swarm-derive/src/lib.rs:365-405 | Pattern i gives an event back if and only if expression i built the value |
| DeriveRouting.DispatchFindsOwner | swarm-derive/src/lib.rs:469-478 | The generated `match` takes the arm of the owning field |
| DeriveRouting.EventReachesItsHandler | swarm/src/handler/select.rs:210-215 | What field i addresses to its handler arrives there, unwrapped |
| DeriveRouting.PolledEventReturnsToItsField | swarm/src/handler/select.rs:224-267 | Polling yields the event of the lowest ready field, and the generated `match` returns it to that field; pending exactly if none is ready |
| DeriveRouting.OutcomeReturnsToRequester | swarm/src/handler/select.rs:67-82 | `transpose` panics exactly if protocol and info are of different fields; else the outcome goes to the field that asked |
| SignedEnvelope.EncodeVarint | core/src/signed_envelope.rs:105-111 | The loop writes the varint |
| SignedEnvelope.VarintReadsBack | core/src/signed_envelope.rs:105-111 | A varint before any bytes reads back with those bytes left |
| SignedEnvelope.SignaturePayload | core/src/signed_envelope.rs:102-131 | The buffer holds the three length-prefixed fields |
| SignedEnvelope.PayloadReadsOneWay | core/src/signed_envelope.rs:102-131 | Payloads that agree up to trailing bytes agree in every field and in the trailing bytes |
| SignedEnvelope.PayloadInjective | core/src/signed_envelope.rs:102-131 | Different domain, type or payload, different signed bytes |
| SignedEnvelope.PayloadReadsBack | core/src/signed_envelope.rs:102-131 | The fields read back out of the signed bytes |
| SignedEnvelope.OpensExactlyAsSigned | core/src/signed_envelope.rs:58-75 | An envelope with a genuine signature opens exactly for the domain, type and payload it was made for; otherwise which error |
| EcdsaKeyHeader.AddAsn1Header | identity/src/ecdsa.rs:201-220 | The buffer grown piece by piece and patched is the framed key |
| EcdsaKeyHeader.DelAccepts | identity/src/ecdsa.rs:223-244 | A buffer yields a key if and only if it starts with that key framed, the outer length ignored, and the key has at most 254 bytes |
| EcdsaKeyHeader.RoundTrip | identity/src/ecdsa.rs:196-244 | Adding and removing the header, for keys of every length: the key cut to its length modulo 256, or nothing; the identity if and only if at most 254 bytes |
| EcdsaKeyHeader.WellFormedDer | identity/src/ecdsa.rs:196-220 | The result is well-formed short-form DER if and only if the key has at most 103 bytes |
| EcdsaKeyHeader.OidsAreNamed | identity/src/ecdsa.rs:195-198 | Decoded as section 8.19 of ITU-T X.690 says, the two octet strings are 1.2.840.10045.2.1 and 1.2.840.10045.3.1.7 |
| Calendar.DaysToYmd | p2p-camera/device-cam/build.rs:146-163 | The two loops yield a valid date whose closed-form day number is the count |
| Calendar.DayNumberOrders | p2p-camera/device-cam/build.rs:146-163 | Day numbers are equal only for equal dates and ordered as the dates, so the date is the only one |
| Calendar.DayNumberIsNatural | p2p-camera/device-cam/build.rs:146-163 | Every date from 1970 on has a day number, so every date is some day's |
| Calendar.YearStep | p2p-camera/device-cam/build.rs:165-167 | The leap rule agrees with the closed form of the year's first day |
| Calendar.MonthStep | p2p-camera/device-cam/build.rs:146-163 | The month table agrees with the closed form of the month's first day |

## Left out

- ConnectionSafety.PendingIsAtRest: says nothing about wakers of the handler, the multiplexer and the negotiations, which belong to code outside the loop.
- MemoryTransport.Transport.RemoveListener: as a sequential method it does both halves of a removal without others in between; the interleavings are those of `MemoryModel`.
- MemoryTransport.DialFuture.Dial: likewise for its three actions.
- MemoryTransport.DialFuture.Poll: on a future that has completed the code panics; the contract is for one that has not.
- MemoryTransport.Hub.RegisterPort: takes the random draws as a finite list with a usable one in it; the code's loop has no such bound.
- SwarmOrigins.PendingIsUpToDate: the behaviour's other events and the pool's are counted, not interpreted.
- Swarm.Swarm.Dial: is a call of its own, not a step of the event loop, and the transport's answers to it are not followed.
- Dropping a transport as a step among others (`DropTransport` is looked at by itself), and the sender a finished `DialFuture` still holds until it is dropped.
- The connection pool, its tasks and channels, and what a closing connection does (`Connection::close`, `poll_close`).
- The bytes on the wire: multistream-select, multiplexers, encryption, the protobuf form of envelopes, curve and DER arithmetic.
- Which error `listen_on` gives for an occupied port (it is `Unreachable`, though one for ports in use exists).
- `parse_memory_addr`, address filters, transport wrappers, the protocols (Kademlia, gossipsub and others), the camera's runtime.
- `map_out` and user-provided event types in the derive macro; inbound `listen_protocol` pairs and `on_listen_upgrade_error` of `ConnectionHandlerSelect`.
- Pinning, wakers as objects, logging and tracing.
