/**
 The in-memory transport as objects (core/src/transport/memory.rs): the registry with its random loop,
 the transport whose `poll` rotates its queue of listeners in place, and the dialing future. Each
 method is proved to take the objects from what they show of one world to what they show of the
 world after the corresponding actions of `MemoryModel`. The ghost parameters name that world; the
 numbers t and d name the transport or the dialer in it and only label what is made.
 */
module MemoryTransport {
  import opened Common
  import opened MemoryModel
  import MemoryCore

  /** The registry, with the channels it has made. */
  class Hub {
    var ports: map<nat, nat>
    var channels: seq<Channel>

    constructor ()
      ensures ports == map[] && channels == []
    {
      ports, channels := map[], [];
    }

    ghost predicate Shows(w: World)
      reads this
    {
      ports == w.hub && channels == w.channels
    }

    /**
     `register_port`. For port 0 random draws are tried until one is a free port; that there is such a
     draw is what lets the loop end.
     */
    method RegisterPort(port: nat, draws: seq<nat>, role: Role, ghost w: World) returns (registered: Option<nat>)
      requires Shows(w)
      requires port == 0 ==> exists k :: 0 <= k < |draws| && draws[k] != 0 && draws[k] !in ports
      modifies this
      ensures registered.None? <==> port != 0 && port in w.hub
      ensures registered.None? ==> Shows(w) && MemoryModel.RegisterPort(w, port, port, role).None?
      ensures registered.Some? ==>
                && registered.value != 0
                && MemoryModel.RegisterPort(w, port, registered.value, role) ==
                   Some((w.(hub := ports, channels := channels), registered.value))
                && (port == 0 ==> exists k :: 0 <= k < |draws| && draws[k] == registered.value &&
                                              forall j :: 0 <= j < k ==> draws[j] == 0 || draws[j] in w.hub)
    {
      var chosen := port;
      if port == 0 {
        var i := 0;
        while draws[i] == 0 || draws[i] in ports
          invariant 0 <= i < |draws|
          invariant forall j :: 0 <= j < i ==> draws[j] == 0 || draws[j] in ports
          invariant exists k :: i <= k < |draws| && draws[k] != 0 && draws[k] !in ports
          decreases |draws| - i
        {
          i := i + 1;
        }
        chosen := draws[i];
      }
      if chosen in ports {
        return None;
      }
      ports := ports[chosen := |channels|];
      channels := channels + [Channel(chosen, role, [], false, false)];
      return Some(chosen);
    }

    method UnregisterPort(port: nat) returns (removed: Option<nat>)
      modifies this`ports
      ensures removed == if port in old(ports) then Some(old(ports)[port]) else None
      ensures ports == old(ports) - {port}
    {
      removed := if port in ports then Some(ports[port]) else None;
      ports := ports - {port};
    }

    method Get(port: nat) returns (sender: Option<nat>)
      ensures sender.Some? <==> port in ports
      ensures sender.Some? ==> ports[port] == sender.value
    {
      sender := if port in ports then Some(ports[port]) else None;
    }
  }

  /** The queue once all but the first r listeners have been to the back end and round to the front. */
  function Turned(ls: seq<Listener>, r: nat): seq<Listener>
    requires r <= |ls|
  {
    ls[r..] + ls[..r]
  }

  lemma WholeTurn(ls: seq<Listener>)
    ensures Turned(ls, |ls|) == ls && Turned(ls, 0) == ls
    ensures forall r :: 0 <= r <= |ls| ==> |Turned(ls, r)| == |ls|
  {
  }

  lemma PopBack(ls: seq<Listener>, r: nat)
    requires 0 < r <= |ls|
    ensures var q := Turned(ls, r);
            && q != [] && q[|q| - 1] == ls[r - 1]
            && [ls[r - 1]] + q[..|q| - 1] == Turned(ls, r - 1)
  {
  }

  lemma PushFront(ls: seq<Listener>, k: nat, back: seq<Listener>)
    requires k < |ls|
    ensures var q := Turned(ls, k + 1); q != [] && back + q[..|q| - 1] == Rotated(ls, k, back)
  {
  }

  lemma StopNowhere(ls: seq<Listener>, channels: seq<Channel>, senders: set<nat>)
    requires forall j :: 0 <= j < |ls| ==> !Reports(ls[j], channels, senders)
    ensures PollListeners(ls, channels, senders) == Polled(ls, channels, None)
  {
  }

  /** One turn of the loop: what goes back to the front, and the event if there is one. */
  method Examine(listener: Listener, channels: seq<Channel>, senders: set<nat>)
    returns (back: seq<Listener>, after: seq<Channel>, event: Option<Event>)
    ensures event.Some? <==> Reports(listener, channels, senders)
    ensures event.Some? ==> back == Kept(listener, channels) && (after, event.value) == News(listener, channels)
    ensures event.None? ==> back == [listener] && after == channels
  {
    after := channels;
    if listener.tellListenAddr {
      return [listener.(tellListenAddr := false)], after,
          Some(NewAddress(listener.channel, listener.id, listener.port));
    }
    if listener.channel >= |channels| {
      return [], Close(channels, listener.channel), Some(ListenerClosed(listener.channel, listener.id));
    }
    var queue := channels[listener.channel].queue;
    if queue != [] {
      after := Popped(channels, listener.channel);
      event := Some(Incoming(listener.channel, listener.id, listener.port, queue[0].dialPort, queue[0].dial));
      back := [listener];
    } else if channels[listener.channel].closed || listener.channel !in senders {
      after := Close(channels, listener.channel);
      event := Some(ListenerClosed(listener.channel, listener.id));
      back := [];
    } else {
      event := None;
      back := [listener];
    }
  }

  lemma StopIs(ls: seq<Listener>, channels: seq<Channel>, senders: set<nat>, k: nat)
    requires k < |ls| && Reports(ls[k], channels, senders)
    requires forall j :: k < j < |ls| ==> !Reports(ls[j], channels, senders)
    ensures PollListeners(ls, channels, senders) ==
            var (after, event) := News(ls[k], channels);
            Polled(Rotated(ls, k, Kept(ls[k], channels)), after, Some(event))
  {
  }

  class Transport {
    var listeners: seq<Listener>

    constructor ()
      ensures listeners == []
    {
      listeners := [];
    }

    /** This is transport t of the world, and nobody is in the middle of removing one of its listeners. */
    ghost predicate Shows(w: World, t: nat, hub: Hub)
      reads this, hub
    {
      hub.Shows(w) && Free(w, t) && w.transports[t] == listeners
    }

    /** `listen_on` for a parsed address: fails for an occupied port and else does what `Listen` does. */
    method ListenOn(hub: Hub, id: nat, port: nat, draws: seq<nat>, t: nat, ghost w: World)
      returns (ok: bool, ghost random: nat)
      requires Shows(w, t, hub)
      requires port == 0 ==> exists k :: 0 <= k < |draws| && draws[k] != 0 && draws[k] !in hub.ports
      modifies this, hub
      ensures ok <==> port == 0 || port !in w.hub
      ensures port == 0 ==> Unoccupied(w, random) && random in draws
      ensures Shows(Apply(w, Listen(t, id, port, random)), t, hub)
      ensures !ok ==> listeners == old(listeners) && hub.ports == old(hub.ports)
      ensures ok ==>
                var l := Listener(id, if port != 0 then port else random, |old(hub.channels)|, true);
                listeners == old(listeners) + [l] && hub.ports == old(hub.ports)[l.port := l.channel]
    {
      var channel := |hub.channels|;
      var registered := hub.RegisterPort(port, draws, ListenerOf(t, id), w);
      if registered.None? {
        return false, port;
      }
      listeners := listeners + [Listener(id, registered.value, channel, true)];
      return true, registered.value;
    }

    /**
     `remove_listener`: the first listener with the id is unregistered and then closed, two actions with
     nobody in between. `registered` is what the `debug_assert` looks at.
     */
    method RemoveListener(hub: Hub, id: nat, ghost w: World, ghost t: nat) returns (found: bool, registered: bool)
      requires Shows(w, t, hub)
      modifies hub
      ensures found <==> exists i :: 0 <= i < |listeners| && listeners[i].id == id
      ensures !found ==> hub.ports == old(hub.ports)
      ensures forall i :: && 0 <= i < |listeners| && listeners[i].id == id
                          && (forall j :: 0 <= j < i ==> listeners[j].id != id) ==>
                hub.ports == old(hub.ports) - {listeners[i].port}
      ensures found ==> (registered <==> AssertsHold(w, MemoryModel.RemoveListener(t, id)))
      ensures Shows(Apply(Apply(w, MemoryModel.RemoveListener(t, id)), CloseReceiver(t)), t, hub)
    {
      MemoryCore.PositionIsFirst(listeners, id);
      var at := Position(listeners, id);
      if at.None? {
        return false, true;
      }
      var l := listeners[at.value];
      var removed := hub.UnregisterPort(l.port);
      hub.channels := MarkRemoved(hub.channels, l.channel);
      assert Apply(w, MemoryModel.RemoveListener(t, id)) == RemoveAt(w, t, l);
      hub.channels := Close(hub.channels, l.channel);
      return true, removed.Some?;
    }

    /** `poll`: the back of the queue is popped and pushed to the front until somebody reports. */
    method Poll(hub: Hub, senders: set<nat>, ghost w: World, ghost t: nat) returns (event: Option<Event>)
      requires Shows(w, t, hub) && senders == Senders(w)
      modifies this, hub
      ensures Shows(Apply(w, PollTransport(t)), t, hub)
      ensures Apply(w, PollTransport(t)).log == w.log + (if event.Some? then [event.value] else [])
      ensures event.None? <==> forall i :: 0 <= i < |w.transports[t]| ==>
              !Reports(w.transports[t][i], w.channels, senders)
    {
      var after;
      ghost var p := PollListeners(listeners, hub.channels, senders);
      after, event := Rotate(hub.channels, senders);
      hub.channels := after;
      assert Apply(w, PollTransport(t)).transports[t] == p.listeners;
    }

    /** One turn: the back of the queue is popped, examined, and pushed to the front if it stays. */
    method Turn(channels: seq<Channel>, senders: set<nat>, ghost ls: seq<Listener>, ghost remaining: nat)
      returns (after: seq<Channel>, event: Option<Event>)
      requires 0 < remaining <= |ls| && listeners == Turned(ls, remaining) && listeners != []
      modifies this
      ensures event.Some? <==> Reports(ls[remaining - 1], channels, senders)
      ensures event.None? ==> after == channels && listeners == Turned(ls, remaining - 1)
      ensures event.Some? ==>
                && (after, event.value) == News(ls[remaining - 1], channels)
                && listeners == Rotated(ls, remaining - 1, Kept(ls[remaining - 1], channels))
    {
      hide Reports, Kept, News, Turned, Rotated;
      PopBack(ls, remaining);
      var listener := listeners[|listeners| - 1];
      listeners := listeners[..|listeners| - 1];
      var back;
      back, after, event := Examine(listener, channels, senders);
      listeners := back + listeners;
      PushFront(ls, remaining - 1, back);
    }

    method Rotate(channels: seq<Channel>, senders: set<nat>) returns (after: seq<Channel>, event: Option<Event>)
      modifies this
      ensures Polled(listeners, after, event) == PollListeners(old(listeners), channels, senders)
    {
      hide Reports, Kept, News, Turned, Rotated, PollListeners;
      ghost var ls := listeners;
      var remaining := |listeners|;
      WholeTurn(ls);
      while listeners != []
        invariant 0 <= remaining <= |ls| && (remaining == 0 ==> |ls| == 0)
        invariant listeners == Turned(ls, remaining)
        invariant forall j :: remaining <= j < |ls| ==> !Reports(ls[j], channels, senders)
        decreases remaining
      {
        after, event := Turn(channels, senders, ls, remaining);
        if event.Some? {
          StopIs(ls, channels, senders, remaining - 1);
          return;
        }
        remaining := remaining - 1;
        if remaining == 0 {
          break;
        }
      }
      WholeTurn(ls);
      StopNowhere(ls, channels, senders);
      after := channels;
      event := None;
    }
  }

  class DialFuture {
    var dialer: Dialer

    constructor (dialer: Dialer)
      ensures this.dialer == dialer
    {
      this.dialer := dialer;
    }

    /** This is dialer d of the world. */
    ghost predicate Shows(w: World, d: nat, hub: Hub)
      reads this, hub
    {
      hub.Shows(w) && d < |w.dialers| && w.dialers[d] == dialer
    }

    /**
     `DialFuture::new`: look the port up, register an ephemeral port, and drop its receiver on return,
     three actions with nobody in between. There is a dialer exactly if the port was registered.
     */
    static method Dial(hub: Hub, port: nat, draws: seq<nat>, d: nat, ghost w: World)
      returns (dial: DialFuture?, ghost random: nat)
      requires hub.Shows(w) && d == |w.dialers|
      requires exists k :: 0 <= k < |draws| && draws[k] != 0 && draws[k] !in hub.ports
      modifies hub
      ensures dial == null <==> port !in w.hub
      ensures dial == null ==> hub.Shows(w)
      ensures dial != null ==>
                && fresh(dial) && random in draws && Unoccupied(w, random)
                && dial.Shows(Apply(Apply(Apply(w, Locate(port)), Register(d, random)), Settle(d)), d, hub)
                && dial.dialer == Dialer(port, w.hub[port], |w.channels|, Dialing)
    {
      random := 0;
      var sender := hub.Get(port);
      if sender.None? {
        return null, 0;
      }
      var own := |hub.channels|;
      ghost var located := Apply(w, Locate(port));
      var registered := hub.RegisterPort(0, draws, DialerOf(d), located);
      random := registered.value;
      ghost var opening := Apply(located, Register(d, random));
      hub.channels := hub.channels[own := hub.channels[own].(closed := true, queue := [])];
      dial := new DialFuture(Dialer(port, sender.value, own, Dialing));
      assert Apply(opening, Settle(d)).dialers[d] == dial.dialer;
    }

    /** `poll`, on a future that has not completed: pending, connected, or failed as unreachable. */
    method Poll(hub: Hub, room: bool, d: nat, ghost w: World) returns (connected: Option<bool>)
      requires Shows(w, d, hub) && dialer.stage == Dialing && dialer.sender < |hub.channels|
               && dialer.own < |hub.channels|
      modifies this, hub
      ensures Shows(PollDialer(w, d, room), d, hub)
      ensures connected.None? <==> dialer.stage == Dialing
      ensures connected == Some(true) <==> dialer.stage == Connected
      ensures connected == Some(false) <==> w.channels[w.dialers[d].sender].closed
    {
      if hub.channels[dialer.sender].closed {
        dialer := dialer.(stage := Failed);
        return Some(false);
      }
      if !room {
        return None;
      }
      var m := Message(d, hub.channels[dialer.own].port);
      var target := hub.channels[dialer.sender];
      hub.channels := hub.channels[dialer.sender := target.(queue := target.queue + [m])];
      dialer := dialer.(stage := Connected);
      return Some(true);
    }

    /** `Drop` of the dialer's channel. `registered` is what the `debug_assert` looks at. */
    method Drop(hub: Hub, ghost w: World, ghost d: nat) returns (registered: bool)
      requires Shows(w, d, hub) && dialer.Live() && dialer.stage != Opening && dialer.own < |hub.channels|
      modifies this, hub
      ensures Shows(Apply(w, DropDialer(d)), d, hub)
      ensures registered <==> AssertsHold(w, DropDialer(d))
      ensures hub.channels == old(hub.channels) && dialer == old(dialer).(stage := Dropped)
      ensures var port := hub.channels[dialer.own].port;
              && port !in hub.ports && (registered <==> port in old(hub.ports))
              && forall p :: p != port ==>
                   (p in hub.ports <==> p in old(hub.ports)) && (p in hub.ports ==> hub.ports[p] == old(hub.ports)[p])
    {
      var removed := hub.UnregisterPort(hub.channels[dialer.own].port);
      dialer := dialer.(stage := Dropped);
      return removed.Some?;
    }
  }
}
