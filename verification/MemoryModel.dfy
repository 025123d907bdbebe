/**
 The in-memory transport (core/src/transport/memory.rs): a process-wide port registry, any number of
 transports with their listeners, and dialers that hold clones of the senders they looked up.

 The world moves by atomic actions in any interleaving: one visit to the locked registry, one closing
 of a receiver, or one `poll`. `remove_listener` takes two of them, `DialFuture::new` three, and others
 come in between, except on a transport that is in the middle of a removal, which is borrowed.
 Randomness, the fullness of a channel and the moment a dialer is dropped are part of the action.
 Channels are numbered in the order they are made, so that two registrations of the same port can
 be told apart, and remember who they were made for and whether they were removed.
 */
module MemoryModel {
  import opened Common

  /** Whose receiving end a registered channel belongs to. */
  datatype Role = ListenerOf(transport: nat, id: nat) | DialerOf(dialer: nat)

  datatype Message = Message(dial: nat, dialPort: nat)

  /** An mpsc channel, with the port it was registered under; `removed` once its listener was removed. */
  datatype Channel = Channel(port: nat, role: Role, queue: seq<Message>, removed: bool, closed: bool)

  datatype Listener = Listener(id: nat, port: nat, channel: nat, tellListenAddr: bool)

  /**
   `Located` and `Opening` are inside `DialFuture::new`: the target's sender has been cloned, the ephemeral
   port has been registered. The receiver of that port is dropped when the function returns.
   */
  datatype Stage = Located | Opening | Dialing | Failed | Connected | Dropped

  datatype Dialer = Dialer(target: nat, sender: nat, own: nat, stage: Stage) {
    /** Its ephemeral port is registered: the channel with the `Drop` is alive. */
    predicate Live() {
      stage == Opening || stage == Dialing || stage == Failed || stage == Connected
    }

    predicate HoldsSender() {
      stage == Located || stage == Opening || stage == Dialing || stage == Failed
    }
  }

  datatype Event =
    | NewAddress(channel: nat, id: nat, port: nat)
    | Incoming(channel: nat, id: nat, port: nat, sendBack: nat, dial: nat)
    | ListenerClosed(channel: nat, id: nat)
    | Sent(channel: nat, dial: nat, sendBack: nat)
    | Discarded(channel: nat, messages: seq<Message>)
  {
    /** Something a transport reports; the other two are the dialing side's doing. */
    predicate FromListener() {
      NewAddress? || Incoming? || ListenerClosed?
    }
  }

  datatype World = World(
    hub: map<nat, nat>,
    channels: seq<Channel>,
    transports: seq<seq<Listener>>,
    closing: map<nat, nat>,    // transports in the middle of a removal, with the channel to be closed
    dialers: seq<Dialer>,
    log: seq<Event>)

  /** No transports are created or dropped during a run; there are n of them. */
  function Start(n: nat): World {
    World(map[], [], seq(n, i => []), map[], [], [])
  }

  datatype Action =
    | Listen(transport: nat, id: nat, port: nat, random: nat)
    | RemoveListener(transport: nat, id: nat)
    | CloseReceiver(transport: nat)
    | Locate(port: nat)
    | Register(dialer: nat, random: nat)
    | Settle(dialer: nat)
    | PollDial(dialer: nat, room: bool)
    | DropDialer(dialer: nat)
    | PollTransport(transport: nat)

  // ----- the registry -----

  /** `Hub::register_port`: the port asked for, or for 0 the random one the loop settles on. */
  function RegisterPort(w: World, port: nat, random: nat, role: Role): Option<(World, nat)> {
    var chosen := if port != 0 then port else random;
    if chosen in w.hub then None
    else Some((w.(hub := w.hub[chosen := |w.channels|],
                  channels := w.channels + [Channel(chosen, role, [], false, false)]),
               chosen))
  }

  /** The exit condition of the random loop. */
  predicate Unoccupied(w: World, port: nat) {
    port != 0 && port !in w.hub
  }

  // ----- transports -----

  function ListenOn(w: World, t: nat, id: nat, port: nat, random: nat): World
    requires t < |w.transports|
  {
    match RegisterPort(w, port, random, ListenerOf(t, id))
    case None => w
    case Some((w', chosen)) =>
      w'.(transports := w.transports[t := w.transports[t] + [Listener(id, chosen, |w.channels|, true)]])
  }

  function Position(ls: seq<Listener>, id: nat): Option<nat> {
    if ls == [] then None
    else if ls[0].id == id then Some(0)
    else match Position(ls[1..], id) case Some(i) => Some(i + 1) case None => None
  }

  lemma PositionFinds(ls: seq<Listener>, id: nat)
    ensures Position(ls, id).Some? ==> Position(ls, id).value < |ls| && ls[Position(ls, id).value].id == id
  {
  }

  function MarkRemoved(channels: seq<Channel>, c: nat): seq<Channel> {
    if c < |channels| then channels[c := channels[c].(removed := true)] else channels
  }

  function Close(channels: seq<Channel>, c: nat): seq<Channel> {
    if c < |channels| then channels[c := channels[c].(closed := true)] else channels
  }

  /** The first half of `remove_listener`: the registry entry is removed, by port. */
  function RemoveAt(w: World, t: nat, l: Listener): World {
    w.(hub := w.hub - {l.port}, channels := MarkRemoved(w.channels, l.channel), closing := w.closing[t := l.channel])
  }

  /** The transport exists and is not in the middle of a removal. */
  predicate Free(w: World, t: nat) {
    t < |w.transports| && t !in w.closing
  }

  /** The channels that somebody can still send to. */
  function Senders(w: World): set<nat> {
    w.hub.Values + set d | 0 <= d < |w.dialers| && w.dialers[d].HoldsSender() :: w.dialers[d].sender
  }

  /** `poll_next` on the receiver would return something, be it only the end. */
  predicate Reports(l: Listener, channels: seq<Channel>, senders: set<nat>) {
    || l.tellListenAddr
    || l.channel >= |channels|
    || channels[l.channel].queue != []
    || channels[l.channel].closed
    || l.channel !in senders
  }

  /** The listener `poll` stops at: the last in the queue that has something to report. */
  function Stop(ls: seq<Listener>, channels: seq<Channel>, senders: set<nat>): (k: Option<nat>)
    ensures k.Some? ==> k.value < |ls| && Reports(ls[k.value], channels, senders)
    ensures k.Some? ==> forall j :: k.value < j < |ls| ==> !Reports(ls[j], channels, senders)
    ensures k.None? ==> forall j :: 0 <= j < |ls| ==> !Reports(ls[j], channels, senders)
  {
    if ls == [] then None
    else if Reports(ls[|ls| - 1], channels, senders) then Some(|ls| - 1)
    else
      var k := Stop(ls[..|ls| - 1], channels, senders);
      k
  }

  datatype Polled = Polled(listeners: seq<Listener>, channels: seq<Channel>, event: Option<Event>)

  /** Listener k leaves the back end and, if it stays, comes back in front; those behind it went before. */
  function Rotated(ls: seq<Listener>, k: nat, back: seq<Listener>): seq<Listener>
    requires k < |ls|
  {
    back + ls[k + 1..] + ls[..k]
  }

  /** What is put back in front: nothing when the listener has come to its end. */
  function Kept(l: Listener, channels: seq<Channel>): seq<Listener> {
    if l.tellListenAddr then [l.(tellListenAddr := false)]
    else if l.channel < |channels| && channels[l.channel].queue != [] then [l]
    else []
  }

  function Popped(channels: seq<Channel>, c: nat): seq<Channel>
    requires c < |channels| && channels[c].queue != []
  {
    channels[c := channels[c].(queue := channels[c].queue[1..])]
  }

  /** The event of a listener that has something to report; one that ends takes its receiver along. */
  function News(l: Listener, channels: seq<Channel>): (seq<Channel>, Event) {
    if l.tellListenAddr then (channels, NewAddress(l.channel, l.id, l.port))
    else if l.channel < |channels| && channels[l.channel].queue != [] then
      var m := channels[l.channel].queue[0];
      (Popped(channels, l.channel), Incoming(l.channel, l.id, l.port, m.dialPort, m.dial))
    else (Close(channels, l.channel), ListenerClosed(l.channel, l.id))
  }

  /** What `MemoryTransport::poll` comes to, in closed form. */
  function PollListeners(ls: seq<Listener>, channels: seq<Channel>, senders: set<nat>): Polled {
    match Stop(ls, channels, senders)
    case None => Polled(ls, channels, None)
    case Some(k) =>
      var (channels', event) := News(ls[k], channels);
      Polled(Rotated(ls, k, Kept(ls[k], channels)), channels', Some(event))
  }

  // ----- dialers -----

  /** `DialFuture::poll`: gone receivers make it fail, a full channel makes it wait. */
  function PollDialer(w: World, d: nat, room: bool): World
    requires d < |w.dialers|
  {
    var x := w.dialers[d];
    if x.stage != Dialing || x.sender >= |w.channels| || x.own >= |w.channels| then w
    else if w.channels[x.sender].closed then
      w.(dialers := w.dialers[d := x.(stage := Failed)])
    else if !room then w
    else
      w.(dialers := w.dialers[d := x.(stage := Connected)],
         channels := w.channels[x.sender := w.channels[x.sender].(
           queue := w.channels[x.sender].queue + [Message(d, w.channels[x.own].port)])],
         log := w.log + [Sent(x.sender, d, w.channels[x.own].port)])
  }

  function Apply(w: World, a: Action): World {
    match a
    case Listen(t, id, port, random) =>
      if Free(w, t) && (port == 0 ==> Unoccupied(w, random)) then ListenOn(w, t, id, port, random) else w
    case RemoveListener(t, id) =>
      if Free(w, t) then
        match Position(w.transports[t], id)
        case Some(i) => PositionFinds(w.transports[t], id); RemoveAt(w, t, w.transports[t][i])
        case None => w
      else w
    case CloseReceiver(t) =>
      if t in w.closing then w.(channels := Close(w.channels, w.closing[t]), closing := w.closing - {t}) else w
    case Locate(port) =>
      if port in w.hub then w.(dialers := w.dialers + [Dialer(port, w.hub[port], 0, Located)]) else w
    case Register(d, random) =>
      if d < |w.dialers| && w.dialers[d].stage == Located && Unoccupied(w, random) then
        var w' := RegisterPort(w, 0, random, DialerOf(d)).value.0;
        w'.(dialers := w.dialers[d := w.dialers[d].(own := |w.channels|, stage := Opening)])
      else w
    case Settle(d) =>
      if d < |w.dialers| && w.dialers[d].stage == Opening && w.dialers[d].own < |w.channels| then
        var own := w.dialers[d].own;
        w.(dialers := w.dialers[d := w.dialers[d].(stage := Dialing)],
           channels := w.channels[own := w.channels[own].(closed := true, queue := [])],
           log := w.log + [Discarded(own, w.channels[own].queue)])
      else w
    case PollDial(d, room) =>
      if d < |w.dialers| then PollDialer(w, d, room) else w
    case DropDialer(d) =>
      if d < |w.dialers| && w.dialers[d].Live() && w.dialers[d].stage != Opening && w.dialers[d].own < |w.channels| then
        w.(dialers := w.dialers[d := w.dialers[d].(stage := Dropped)],
           hub := w.hub - {w.channels[w.dialers[d].own].port})
      else w
    case PollTransport(t) =>
      if Free(w, t) then
        var p := PollListeners(w.transports[t], w.channels, Senders(w));
        w.(transports := w.transports[t := p.listeners], channels := p.channels,
           log := if p.event.Some? then w.log + [p.event.value] else w.log)
      else w
  }

  /** The two `debug_assert`s: what is unregistered was registered. */
  predicate AssertsHold(w: World, a: Action) {
    match a
    case RemoveListener(t, id) =>
      Free(w, t) && Position(w.transports[t], id).Some? ==>
        (PositionFinds(w.transports[t], id);
         w.transports[t][Position(w.transports[t], id).value].port in w.hub)
    case DropDialer(d) =>
      d < |w.dialers| && w.dialers[d].Live() && w.dialers[d].stage != Opening && w.dialers[d].own < |w.channels| ==>
        w.channels[w.dialers[d].own].port in w.hub
    case _ => true
  }
}
