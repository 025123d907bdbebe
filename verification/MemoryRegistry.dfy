/**
 What the registry of the in-memory transport promises, over every interleaving of disciplined callers,
 and exactly what breaks it.
 */
module MemoryRegistry {
  import opened MemoryModel
  import opened MemoryCore
  import opened MemorySafety
  import opened MemoryDelivery

  predicate OpenListenerOn(w: World, t: nat, i: nat, p: nat) {
    && t < |w.transports| && i < |w.transports[t]| && w.transports[t][i].port == p
    && w.transports[t][i].channel < |w.channels| && !w.channels[w.transports[t][i].channel].removed
  }

  predicate LiveDialerOn(w: World, d: nat, p: nat) {
    d < |w.dialers| && w.dialers[d].Live() && w.dialers[d].own < |w.channels| && w.channels[w.dialers[d].own].port == p
  }

  lemma OpenListenerRegistered(w: World, t: nat, i: nat, p: nat)
    requires RegistryInv(w) && OpenListenerOn(w, t, i, p)
    ensures p in w.hub && w.hub[p] == w.transports[t][i].channel
    ensures w.channels[w.hub[p]].role.ListenerOf? && w.channels[w.hub[p]].role.transport == t
  {
    assert ListenerOk(w, t, w.transports[t][i]) && ChannelOk(w, w.transports[t][i].channel);
  }

  lemma LiveDialerRegistered(w: World, d: nat, p: nat)
    requires RegistryInv(w) && LiveDialerOn(w, d, p)
    ensures p in w.hub && w.hub[p] == w.dialers[d].own && w.channels[w.hub[p]].role == DialerOf(d)
  {
    assert DialerOk(w, d) && ChannelOk(w, w.dialers[d].own);
  }

  lemma PortHasUser(w: World, p: nat)
    requires RegistryInv(w) && p in w.hub
    ensures (exists t, i :: OpenListenerOn(w, t, i, p)) || (exists d :: LiveDialerOn(w, d, p))
  {
    var c := w.hub[p];
    assert Registered(w, c) && ChannelOk(w, c) && DialerEndOk(w, c);
    match w.channels[c].role
    case ListenerOf(t, _) =>
      var i :| 0 <= i < |w.transports[t]| && w.transports[t][i].channel == c;
      assert ListenerOk(w, t, w.transports[t][i]);
      assert OpenListenerOn(w, t, i, p);
    case DialerOf(d) =>
      assert LiveDialerOn(w, d, p);
  }

  /**
   The hub invariant. The registered ports are exactly those of listeners that have not been removed
   and of dialers whose channel is alive; none of them is zero, and no two of these share a port.
   */
  lemma HubHoldsExactlyThePortsInUse(w: World)
    requires ReachableDisciplined(w)
    ensures forall p :: p in w.hub <==>
              ((exists t, i :: OpenListenerOn(w, t, i, p)) || (exists d :: LiveDialerOn(w, d, p)))
    ensures 0 !in w.hub
    ensures forall t, i, u, j, p :: OpenListenerOn(w, t, i, p) && OpenListenerOn(w, u, j, p) ==> t == u && i == j
    ensures forall d, e, p :: LiveDialerOn(w, d, p) && LiveDialerOn(w, e, p) ==> d == e
    ensures forall t, i, d, p :: OpenListenerOn(w, t, i, p) ==> !LiveDialerOn(w, d, p)
  {
    DisciplinedRegistry(w);
    assert 0 !in w.hub;
    forall p
      ensures p in w.hub <==> (exists t, i :: OpenListenerOn(w, t, i, p)) || (exists d :: LiveDialerOn(w, d, p))
    {
      if p in w.hub {
        PortHasUser(w, p);
      }
      forall t: nat, i: nat | OpenListenerOn(w, t, i, p) ensures p in w.hub {
        OpenListenerRegistered(w, t, i, p);
      }
      forall d: nat | LiveDialerOn(w, d, p) ensures p in w.hub {
        LiveDialerRegistered(w, d, p);
      }
    }
    forall t: nat, i: nat, u: nat, j: nat, p: nat | OpenListenerOn(w, t, i, p) && OpenListenerOn(w, u, j, p)
      ensures t == u && i == j
    {
      OpenListenerRegistered(w, t, i, p);
      OpenListenerRegistered(w, u, j, p);
    }
    forall d: nat, e: nat, p: nat | LiveDialerOn(w, d, p) && LiveDialerOn(w, e, p) ensures d == e {
      LiveDialerRegistered(w, d, p);
      LiveDialerRegistered(w, e, p);
    }
    forall t: nat, i: nat, d: nat, p: nat | OpenListenerOn(w, t, i, p) ensures !LiveDialerOn(w, d, p) {
      OpenListenerRegistered(w, t, i, p);
      if LiveDialerOn(w, d, p) {
        LiveDialerRegistered(w, d, p);
      }
    }
  }

  /** Removing again takes the port away from whoever registered it since, and who still uses it. */
  lemma VictimLosesPort(w: World, t: nat, l: Listener)
    requires RegistryInv(w) && ListenerOk(w, t, l) && w.channels[l.channel].removed && l.port in w.hub
    ensures var v, victim := RemoveAt(w, t, l), w.hub[l.port];
            && Registered(w, victim) && !Registered(v, victim)
            && (match w.channels[victim].role
                case ListenerOf(u, _) => InQueue(v, u, victim) && !v.channels[victim].removed
                case DialerOf(d) => d < |v.dialers| && v.dialers[d].Live() && v.dialers[d].own == victim)
            && !RegistryInv(v)
  {
    var v := RemoveAt(w, t, l);
    var c := w.hub[l.port];
    assert ChannelOk(w, l.channel) && ChannelOk(w, c) && DialerEndOk(w, c);
    assert Registered(w, c) && !Registered(v, c);
    assert v.channels[c].role.ListenerOf? ==> InQueue(v, v.channels[c].role.transport, c);
    assert !ChannelOk(v, c);
  }

  /**
   The `debug_assert`s and the one caller error. In every state of a disciplined run, removing a
   listener leaves the registry right with the assertion holding if and only if that listener has
   not been removed before.
   */
  lemma RemovingOnceIsTheCondition(w: World, t: nat, id: nat)
    requires ReachableDisciplined(w) && Free(w, t) && Position(w.transports[t], id).Some?
    ensures RegistryInv(Apply(w, RemoveListener(t, id))) && AssertsHold(w, RemoveListener(t, id)) <==>
            Disciplined(w, RemoveListener(t, id))
  {
    DisciplinedRegistry(w);
    var a := RemoveListener(t, id);
    if Disciplined(w, a) {
      ApplyRegistry(w, a);
    } else {
      PositionFinds(w.transports[t], id);
      var l := w.transports[t][Position(w.transports[t], id).value];
      assert ListenerOk(w, t, l) && ChannelOk(w, l.channel);
      if l.port in w.hub {
        VictimLosesPort(w, t, l);
      }
    }
  }

  /** Neither assertion fires in a disciplined run, whichever it is next. */
  lemma AssertionsNeverFire(w: World, a: Action)
    requires ReachableDisciplined(w) && Disciplined(w, a)
    ensures AssertsHold(w, a)
  {
    DisciplinedRegistry(w);
    ApplyRegistry(w, a);
  }

  /** A queued listener and a live dialer can have the same port only once the listener was removed. */
  lemma SharedPortMeansRemoved(w: World, t: nat, i: nat, d: nat)
    requires ReachableDisciplined(w) && t < |w.transports| && i < |w.transports[t]|
    requires LiveDialerOn(w, d, w.transports[t][i].port)
    ensures w.transports[t][i].channel < |w.channels| && w.channels[w.transports[t][i].channel].removed
  {
    DisciplinedRegistry(w);
    var l := w.transports[t][i];
    assert ListenerOk(w, t, l);
    if !w.channels[l.channel].removed {
      OpenListenerRegistered(w, t, i, l.port);
      LiveDialerRegistered(w, d, l.port);
    }
  }

  /** A listener closes only once it was removed. */
  lemma ClosedWasRemoved(w: World, c: nat)
    requires ReachableDisciplined(w) && PhaseOf(w.log, c) == Ended
    ensures c < |w.channels| && w.channels[c].removed
  {
    DisciplinedRegistry(w);
    ListenersLiveInOrder(w, c);
    assert ChannelOk(w, c);
  }

  /**
   Dials to a dialer. A dialer that looked up the ephemeral port of another gets its connection if and
   only if it sends while the other is still being made; the receiver it is sent to is then dropped.
   */
  lemma ConnectsToADialerBeingMade(w: World, d: nat, x: nat)
    requires Reachable(w) && d < |w.dialers| && w.dialers[d].stage == Dialing
    requires w.dialers[d].sender < |w.channels| && w.channels[w.dialers[d].sender].role == DialerOf(x)
    ensures x < |w.dialers|
    ensures Apply(w, PollDial(d, true)).dialers[d].stage == Connected <==> w.dialers[x].stage == Opening
  {
    ReachableInv(w);
    assert DialerOk(w, d) && DialerEndOk(w, w.dialers[d].sender);
  }
}
