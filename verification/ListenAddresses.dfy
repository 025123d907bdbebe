/**
 The swarm's listen addresses (swarm/src/lib.rs, `handle_transport_event`): a list of addresses a
 listener, updated on transport events, with every change told to the behaviour and queued for the
 user of the swarm.
 */
module ListenAddresses {
  import opened Common

  /** A multiaddress: a stack of protocols, of which only `/p2p` is looked into. */
  datatype Protocol = P2p(peer: nat) | Other(code: nat)

  type Address = seq<Protocol>

  datatype TransportEvent =
    | Incoming
    | NewAddress(listener: nat, address: Address)
    | AddressExpired(listener: nat, address: Address)
    | ListenerClosed(listener: nat)
    | ListenerError(listener: nat)

  /** What the behaviour hears. */
  datatype FromSwarm =
    | NewListenAddr(listener: nat, address: Address)
    | ExpiredListenAddr(listener: nat, address: Address)
    | ClosedListener(listener: nat)
    | FailedListener(listener: nat)

  /** What the user of the swarm hears. A closed listener comes with its last addresses. */
  datatype SwarmEvent =
    | UserNewListenAddr(listener: nat, address: Address)
    | UserExpiredListenAddr(listener: nat, address: Address)
    | UserListenerClosed(listener: nat, addresses: seq<Address>)
    | UserListenerError(listener: nat)
    | UserIncoming
    | UserOther

  datatype Listening = Listening(listened: map<nat, seq<Address>>, told: seq<FromSwarm>, events: seq<SwarmEvent>)

  const IDLE := Listening(map[], [], [])

  function AddressesOf(listened: map<nat, seq<Address>>, listener: nat): seq<Address> {
    if listener in listened then listened[listener] else []
  }

  function Retain(addresses: seq<Address>, gone: Address): seq<Address> {
    if addresses == [] then []
    else
      var rest := Retain(addresses[..|addresses| - 1], gone);
      if addresses[|addresses| - 1] == gone then rest else rest + [addresses[|addresses| - 1]]
  }

  function Expiries(listener: nat, addresses: seq<Address>): (r: seq<FromSwarm>)
    ensures |r| == |addresses|
  {
    seq(|addresses|, i requires 0 <= i < |addresses| => ExpiredListenAddr(listener, addresses[i]))
  }

  /** `handle_transport_event`, the part about listeners. */
  function OnTransportEvent(s: Listening, e: TransportEvent): Listening {
    match e
    case Incoming => s.(events := s.events + [UserIncoming])
    case NewAddress(l, a) =>
      var before := AddressesOf(s.listened, l);
      Listening(s.listened[l := if a in before then before else before + [a]],
                s.told + [NewListenAddr(l, a)],
                s.events + [UserNewListenAddr(l, a)])
    case AddressExpired(l, a) =>
      Listening(if l in s.listened then s.listened[l := Retain(s.listened[l], a)] else s.listened,
                s.told + [ExpiredListenAddr(l, a)],
                s.events + [UserExpiredListenAddr(l, a)])
    case ListenerClosed(l) =>
      Listening(s.listened - {l},
                s.told + Expiries(l, AddressesOf(s.listened, l)) + [ClosedListener(l)],
                s.events + [UserListenerClosed(l, AddressesOf(s.listened, l))])
    case ListenerError(l) =>
      s.(told := s.told + [FailedListener(l)], events := s.events + [UserListenerError(l)])
  }

  // ----- replaying -----

  /** What a behaviour that replays its notifications believes. */
  function Replay(known: set<(nat, Address)>, n: FromSwarm): set<(nat, Address)> {
    match n
    case NewListenAddr(l, a) => known + {(l, a)}
    case ExpiredListenAddr(l, a) => known - {(l, a)}
    case _ => known
  }

  function ReplayAll(told: seq<FromSwarm>): set<(nat, Address)> {
    if told == [] then {} else Replay(ReplayAll(told[..|told| - 1]), told[|told| - 1])
  }

  lemma ReplayAppend(told: seq<FromSwarm>, n: FromSwarm)
    ensures ReplayAll(told + [n]) == Replay(ReplayAll(told), n)
  {
    assert (told + [n])[..|told|] == told;
  }

  /** What a user that replays the swarm's events believes; a closed listener takes its addresses along. */
  function UserReplay(known: set<(nat, Address)>, e: SwarmEvent): set<(nat, Address)> {
    match e
    case UserNewListenAddr(l, a) => known + {(l, a)}
    case UserExpiredListenAddr(l, a) => known - {(l, a)}
    case UserListenerClosed(l, addresses) => known - set a | a in addresses :: (l, a)
    case _ => known
  }

  function UserReplayAll(events: seq<SwarmEvent>): set<(nat, Address)> {
    if events == [] then {} else UserReplay(UserReplayAll(events[..|events| - 1]), events[|events| - 1])
  }

  lemma UserReplayAppend(events: seq<SwarmEvent>, e: SwarmEvent)
    ensures UserReplayAll(events + [e]) == UserReplay(UserReplayAll(events), e)
  {
    assert (events + [e])[..|events|] == events;
  }

  /** The truth: which listener listens on which address. */
  ghost predicate Listens(listened: map<nat, seq<Address>>, l: nat, a: Address) {
    l in listened && a in listened[l]
  }

  ghost predicate Truthful(listened: map<nat, seq<Address>>, known: set<(nat, Address)>) {
    forall l: nat, a: Address :: (l, a) in known <==> Listens(listened, l, a)
  }

  /** By the time a listener is said to be closed, each of its addresses has expired. */
  ghost predicate ExpiredBeforeClosed(told: seq<FromSwarm>) {
    forall k, a :: 0 <= k < |told| && told[k].ClosedListener? ==> (told[k].listener, a) !in ReplayAll(told[..k])
  }

  ghost predicate Inv(s: Listening) {
    && Truthful(s.listened, ReplayAll(s.told))
    && Truthful(s.listened, UserReplayAll(s.events))
    && ExpiredBeforeClosed(s.told)
    && forall l :: l in s.listened ==> NoDuplicates(s.listened[l])
  }

  lemma {:induction false} RetainKeepsOthers(addresses: seq<Address>, gone: Address)
    requires NoDuplicates(addresses)
    ensures Elements(Retain(addresses, gone)) == Elements(addresses) - {gone}
    ensures NoDuplicates(Retain(addresses, gone))
  {
    if addresses == [] {
    } else {
      var init, last := addresses[..|addresses| - 1], addresses[|addresses| - 1];
      RetainKeepsOthers(init, gone);
      assert addresses == init + [last];
      ElementsAppend(init, last);
      assert last !in Elements(init);
      ElementsAppend(Retain(init, gone), last);
    }
  }

  lemma {:induction false} ExpiriesReplay(told: seq<FromSwarm>, l: nat, addresses: seq<Address>)
    ensures ReplayAll(told + Expiries(l, addresses)) == ReplayAll(told) - set a | a in addresses :: (l, a)
    decreases |addresses|
  {
    if addresses == [] {
      assert told + Expiries(l, addresses) == told;
    } else {
      var init, last := addresses[..|addresses| - 1], addresses[|addresses| - 1];
      ExpiriesReplay(told, l, init);
      assert told + Expiries(l, addresses) == (told + Expiries(l, init)) + [ExpiredListenAddr(l, last)];
      ReplayAppend(told + Expiries(l, init), ExpiredListenAddr(l, last));
      assert addresses == init + [last];
      assert (set a | a in addresses :: (l, a)) == (set a | a in init :: (l, a)) + {(l, last)};
    }
  }

  lemma ExpiredAppend(told: seq<FromSwarm>, more: seq<FromSwarm>)
    requires ExpiredBeforeClosed(told) && forall k :: 0 <= k < |more| ==> !more[k].ClosedListener?
    ensures ExpiredBeforeClosed(told + more)
  {
    forall k, a | 0 <= k < |told + more| && (told + more)[k].ClosedListener?
      ensures ((told + more)[k].listener, a) !in ReplayAll((told + more)[..k])
    {
      assert k < |told| && (told + more)[..k] == told[..k];
    }
  }

  // Truth after each of the three kinds of update, whoever replays.

  lemma Learns(listened: map<nat, seq<Address>>, known: set<(nat, Address)>, l: nat, a: Address)
    requires Truthful(listened, known)
    ensures var before := AddressesOf(listened, l);
            Truthful(listened[l := if a in before then before else before + [a]], known + {(l, a)})
  {
    var before := AddressesOf(listened, l);
    var after := listened[l := if a in before then before else before + [a]];
    forall k: nat, b: Address ensures (k, b) in known + {(l, a)} <==> Listens(after, k, b) {
      assert (k, b) in known <==> Listens(listened, k, b);
    }
  }

  lemma Forgets(listened: map<nat, seq<Address>>, known: set<(nat, Address)>, l: nat, a: Address)
    requires Truthful(listened, known) && (l in listened ==> NoDuplicates(listened[l]))
    ensures Truthful(if l in listened then listened[l := Retain(listened[l], a)] else listened, known - {(l, a)})
  {
    var after := if l in listened then listened[l := Retain(listened[l], a)] else listened;
    if l in listened {
      RetainKeepsOthers(listened[l], a);
    }
    forall k: nat, b: Address ensures (k, b) in known - {(l, a)} <==> Listens(after, k, b) {
      assert (k, b) in known <==> Listens(listened, k, b);
      assert l in listened ==> (b in Retain(listened[l], a) <==> b in Elements(Retain(listened[l], a)));
    }
  }

  lemma ForgetsAll(listened: map<nat, seq<Address>>, known: set<(nat, Address)>, l: nat)
    requires Truthful(listened, known)
    ensures Truthful(listened - {l}, known - set a | a in AddressesOf(listened, l) :: (l, a))
  {
    var gone := set a | a in AddressesOf(listened, l) :: (l, a);
    forall k: nat, b: Address ensures (k, b) in known - gone <==> Listens(listened - {l}, k, b) {
      assert (k, b) in known <==> Listens(listened, k, b);
    }
  }

  lemma NewAddressInv(s: Listening, l: nat, a: Address)
    requires Inv(s)
    ensures Inv(OnTransportEvent(s, NewAddress(l, a)))
  {
    hide Truthful, ExpiredBeforeClosed, ReplayAll, UserReplayAll;
    ReplayAppend(s.told, NewListenAddr(l, a));
    UserReplayAppend(s.events, UserNewListenAddr(l, a));
    Learns(s.listened, ReplayAll(s.told), l, a);
    Learns(s.listened, UserReplayAll(s.events), l, a);
    ExpiredAppend(s.told, [NewListenAddr(l, a)]);
    ElementsAppend(AddressesOf(s.listened, l), a);
  }

  lemma ExpiredInv(s: Listening, l: nat, a: Address)
    requires Inv(s)
    ensures Inv(OnTransportEvent(s, AddressExpired(l, a)))
  {
    hide Truthful, ExpiredBeforeClosed, ReplayAll, UserReplayAll;
    ReplayAppend(s.told, ExpiredListenAddr(l, a));
    UserReplayAppend(s.events, UserExpiredListenAddr(l, a));
    Forgets(s.listened, ReplayAll(s.told), l, a);
    Forgets(s.listened, UserReplayAll(s.events), l, a);
    ExpiredAppend(s.told, [ExpiredListenAddr(l, a)]);
    if l in s.listened {
      RetainKeepsOthers(s.listened[l], a);
    }
  }

  /** A listener may be said to be closed once none of its addresses is known. */
  lemma ClosedAppend(told: seq<FromSwarm>, l: nat)
    requires ExpiredBeforeClosed(told) && forall a :: (l, a) !in ReplayAll(told)
    ensures ExpiredBeforeClosed(told + [ClosedListener(l)])
  {
    var after := told + [ClosedListener(l)];
    forall k, a | 0 <= k < |after| && after[k].ClosedListener?
      ensures (after[k].listener, a) !in ReplayAll(after[..k])
    {
      if k < |told| {
        assert after[..k] == told[..k];
      } else {
        assert after[..k] == told;
      }
    }
  }

  /** Expiring what a listener listens on leaves the rest true, and none of its addresses known. */
  lemma ExpiresAll(s: Listening, l: nat)
    requires Inv(s)
    ensures var expired := s.told + Expiries(l, AddressesOf(s.listened, l));
            && Truthful(s.listened - {l}, ReplayAll(expired)) && ExpiredBeforeClosed(expired)
            && forall a :: (l, a) !in ReplayAll(expired)
  {
    hide ReplayAll, UserReplayAll, ExpiredBeforeClosed;
    var addresses := AddressesOf(s.listened, l);
    var expired := s.told + Expiries(l, addresses);
    ExpiriesReplay(s.told, l, addresses);
    ForgetsAll(s.listened, ReplayAll(s.told), l);
    forall a ensures (l, a) !in ReplayAll(expired) {
      assert (l, a) in ReplayAll(expired) ==> Listens(s.listened - {l}, l, a);
    }
    ExpiredAppend(s.told, Expiries(l, addresses));
  }

  lemma ClosedInv(s: Listening, l: nat)
    requires Inv(s)
    ensures Inv(OnTransportEvent(s, ListenerClosed(l)))
  {
    hide Truthful, ExpiredBeforeClosed, ReplayAll, UserReplayAll, Expiries;
    var addresses := AddressesOf(s.listened, l);
    var expired := s.told + Expiries(l, addresses);
    ExpiresAll(s, l);
    ForgetsAll(s.listened, UserReplayAll(s.events), l);
    ClosedAppend(expired, l);
    ReplayAppend(expired, ClosedListener(l));
    UserReplayAppend(s.events, UserListenerClosed(l, addresses));
  }

  lemma FailedInv(s: Listening, l: nat)
    requires Inv(s)
    ensures Inv(OnTransportEvent(s, ListenerError(l)))
  {
    ReplayAppend(s.told, FailedListener(l));
    UserReplayAppend(s.events, UserListenerError(l));
    ExpiredAppend(s.told, [FailedListener(l)]);
  }

  function Run(s: Listening, events: seq<TransportEvent>): Listening
    decreases |events|
  {
    if events == [] then s else Run(OnTransportEvent(s, events[0]), events[1..])
  }

  lemma {:induction false} RunInv(s: Listening, events: seq<TransportEvent>)
    requires Inv(s)
    ensures Inv(Run(s, events))
    decreases |events|
  {
    if events == [] {
    } else {
      match events[0] {
        case Incoming => UserReplayAppend(s.events, UserIncoming);
        case NewAddress(l, a) => NewAddressInv(s, l, a);
        case AddressExpired(l, a) => ExpiredInv(s, l, a);
        case ListenerClosed(l) => ClosedInv(s, l);
        case ListenerError(l) => FailedInv(s, l);
      }
      RunInv(OnTransportEvent(s, events[0]), events[1..]);
    }
  }

  lemma EmptyReplays()
    ensures ReplayAll([]) == {} && UserReplayAll([]) == {}
  {
  }

  lemma IdleInv()
    ensures Inv(IDLE)
  {
    EmptyReplays();
  }

  /** Judged by the transport's events alone: announced, and since then neither expired nor closed. */
  predicate Stands(events: seq<TransportEvent>, l: nat, a: Address) {
    if events == [] then false
    else
      var before := Stands(events[..|events| - 1], l, a);
      match events[|events| - 1]
      case NewAddress(k, b) => (k == l && b == a) || before
      case AddressExpired(k, b) => !(k == l && b == a) && before
      case ListenerClosed(k) => k != l && before
      case _ => before
  }

  lemma {:induction false} RunAppend(s: Listening, events: seq<TransportEvent>, e: TransportEvent)
    ensures Run(s, events + [e]) == OnTransportEvent(Run(s, events), e)
    decreases |events|
  {
    hide OnTransportEvent;
    if events == [] {
      assert (events + [e])[1..] == [];
    } else {
      assert (events + [e])[1..] == events[1..] + [e];
      RunAppend(OnTransportEvent(s, events[0]), events[1..], e);
    }
  }

  /** One event moves the list of a listener as it moves the judgement. */
  lemma StandsStep(s: Listening, e: TransportEvent, l: nat, a: Address)
    requires Inv(s)
    ensures Listens(OnTransportEvent(s, e).listened, l, a) <==>
            (match e
             case NewAddress(k, b) => (k == l && b == a) || Listens(s.listened, l, a)
             case AddressExpired(k, b) => !(k == l && b == a) && Listens(s.listened, l, a)
             case ListenerClosed(k) => k != l && Listens(s.listened, l, a)
             case _ => Listens(s.listened, l, a))
  {
    hide Truthful, ReplayAll, UserReplayAll, ExpiredBeforeClosed;
    if e.AddressExpired? && e.listener in s.listened {
      RetainKeepsOthers(s.listened[e.listener], e.address);
      var left := Retain(s.listened[e.listener], e.address);
      assert a in left <==> a in Elements(left);
    }
  }

  lemma {:induction false} ListensMeansStands(events: seq<TransportEvent>, l: nat, a: Address)
    ensures Listens(Run(IDLE, events).listened, l, a) <==> Stands(events, l, a)
    decreases |events|
  {
    if events == [] {
    } else {
      var init, last := events[..|events| - 1], events[|events| - 1];
      assert events == init + [last];
      RunAppend(IDLE, init, last);
      ListensMeansStands(init, l, a);
      IdleInv();
      RunInv(IDLE, init);
      hide Run, Inv, OnTransportEvent;
      StandsStep(Run(IDLE, init), last, l, a);
    }
  }

  // ----- who is told what, event by event -----

  /** The one event the user gets for a transport event; a closed listener comes with what it listened on. */
  ghost predicate UserHears(before: seq<TransportEvent>, e: TransportEvent, u: SwarmEvent) {
    match e
    case Incoming => u == UserIncoming
    case NewAddress(l, a) => u == UserNewListenAddr(l, a)
    case AddressExpired(l, a) => u == UserExpiredListenAddr(l, a)
    case ListenerClosed(l) =>
      && u.UserListenerClosed? && u.listener == l && NoDuplicates(u.addresses)
      && (forall a :: a in u.addresses <==> Stands(before, l, a))
    case ListenerError(l) => u == UserListenerError(l)
  }

  /** What the behaviour is told for it; closing expires what is listened on, each once, and says so last. */
  ghost predicate BehaviourHears(before: seq<TransportEvent>, e: TransportEvent, told: seq<FromSwarm>) {
    match e
    case Incoming => told == []
    case NewAddress(l, a) => told == [NewListenAddr(l, a)]
    case AddressExpired(l, a) => told == [ExpiredListenAddr(l, a)]
    case ListenerClosed(l) =>
      && told != [] && told[|told| - 1] == ClosedListener(l) && NoDuplicates(told)
      && (forall i :: 0 <= i < |told| - 1 ==> told[i].ExpiredListenAddr? && told[i].listener == l)
      && (forall a :: ExpiredListenAddr(l, a) in told <==> Stands(before, l, a))
    case ListenerError(l) => told == [FailedListener(l)]
  }

  /** The notifications fall into one part for each event, in order. */
  ghost predicate ToldInTurn(events: seq<TransportEvent>, told: seq<FromSwarm>)
    decreases |events|
  {
    if events == [] then told == []
    else
      var init, last := events[..|events| - 1], events[|events| - 1];
      exists k :: 0 <= k <= |told| && ToldInTurn(init, told[..k]) && BehaviourHears(init, last, told[k..])
  }

  lemma ExpiriesAre(l: nat, addresses: seq<Address>)
    requires NoDuplicates(addresses)
    ensures var told := Expiries(l, addresses) + [ClosedListener(l)];
            && told[|told| - 1] == ClosedListener(l) && NoDuplicates(told)
            && (forall i :: 0 <= i < |told| - 1 ==> told[i].ExpiredListenAddr? && told[i].listener == l)
            && (forall a :: ExpiredListenAddr(l, a) in told <==> a in addresses)
  {
    var told := Expiries(l, addresses) + [ClosedListener(l)];
    forall a ensures ExpiredListenAddr(l, a) in told <==> a in addresses {
      if a in addresses {
        var i :| 0 <= i < |addresses| && addresses[i] == a;
        assert told[i] == ExpiredListenAddr(l, a);
      }
    }
  }

  /** One event tells everybody what it should, given that the lists are what the events say. */
  lemma TellsRight(events: seq<TransportEvent>, e: TransportEvent)
    ensures var s := Run(IDLE, events);
            var t := OnTransportEvent(s, e);
            && |s.told| <= |t.told| && t.told[..|s.told|] == s.told
            && BehaviourHears(events, e, t.told[|s.told|..])
            && |t.events| == |s.events| + 1 && t.events[..|s.events|] == s.events
            && UserHears(events, e, t.events[|s.events|])
  {
    hide Run, Stands, ReplayAll, UserReplayAll, Truthful, ExpiredBeforeClosed, Expiries;
    var s := Run(IDLE, events);
    IdleInv();
    RunInv(IDLE, events);
    if e.ListenerClosed? {
      var l := e.listener;
      var addresses := AddressesOf(s.listened, l);
      assert NoDuplicates(addresses);
      forall a ensures a in addresses <==> Stands(events, l, a) {
        ListensMeansStands(events, l, a);
      }
      ExpiriesAre(l, addresses);
      var t := OnTransportEvent(s, e);
      assert t.told == s.told + (Expiries(l, addresses) + [ClosedListener(l)]);
      assert t.told[|s.told|..] == Expiries(l, addresses) + [ClosedListener(l)];
    }
  }

  lemma {:induction false} EverybodyIsTold(events: seq<TransportEvent>)
    ensures var s := Run(IDLE, events);
            && ToldInTurn(events, s.told)
            && |s.events| == |events|
            && forall i :: 0 <= i < |events| ==> UserHears(events[..i], events[i], s.events[i])
    decreases |events|
  {
    if events == [] {
    } else {
      hide Run, OnTransportEvent, UserHears, BehaviourHears;
      var init, last := events[..|events| - 1], events[|events| - 1];
      assert events == init + [last];
      EverybodyIsTold(init);
      RunAppend(IDLE, init, last);
      TellsRight(init, last);
      var s, t := Run(IDLE, init), Run(IDLE, events);
      forall i | 0 <= i < |events| ensures UserHears(events[..i], events[i], t.events[i]) {
        assert events[..i] == init[..i];
        assert i < |init| ==> t.events[..|s.events|][i] == t.events[i];
      }
    }
  }

  /**
   For any sequence of transport events: the swarm listens exactly on what was announced and has since
   neither expired nor closed. Each event is told to the behaviour and to the user once, in order, the
   closing of a listener to the behaviour after the expiry of each of its addresses. The behaviour that
   replays its notifications and the user that replays the swarm's events both hold exactly the pairs
   listened on, and no listener has an address twice.
   */
  lemma ListenAddressReplay(events: seq<TransportEvent>)
    ensures var s := Run(IDLE, events);
            && (forall l: nat, a: Address :: l in s.listened && a in s.listened[l] <==> Stands(events, l, a))
            && (forall l: nat, a: Address :: (l, a) in ReplayAll(s.told) <==> Stands(events, l, a))
            && (forall l: nat, a: Address :: (l, a) in UserReplayAll(s.events) <==> Stands(events, l, a))
            && (forall l :: l in s.listened ==> NoDuplicates(s.listened[l]))
            && ExpiredBeforeClosed(s.told)
            && ToldInTurn(events, s.told)
            && |s.events| == |events|
            && (forall i :: 0 <= i < |events| ==> UserHears(events[..i], events[i], s.events[i]))
  {
    EverybodyIsTold(events);
    hide ReplayAll, UserReplayAll, Stands, ToldInTurn, UserHears;
    IdleInv();
    RunInv(IDLE, events);
    var s := Run(IDLE, events);
    forall l: nat, a: Address ensures Listens(s.listened, l, a) <==> Stands(events, l, a) {
      ListensMeansStands(events, l, a);
    }
    assert forall l: nat, a: Address :: Listens(s.listened, l, a) <==> l in s.listened && a in s.listened[l];
  }
}
