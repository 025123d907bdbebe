/**
 `Swarm::dial` (swarm/src/lib.rs, with `DialOpts` of swarm/src/dial_opts.rs): deciding whether to dial,
 collecting candidate addresses, dropping our own and repeated ones, and handing one connection
 attempt to the pool.
 */
module Dialing {
  import opened Common
  import opened ListenAddresses

  datatype PeerCondition = Disconnected | NotDialing | DisconnectedAndNotDialing | Always

  datatype DialOpts = DialOpts(
    peer: Option<nat>, condition: PeerCondition, addresses: seq<Address>, extend: bool, connection: nat)

  /** `DialOpts::get_peer_id`: given, or read off the end of the first address. */
  function PeerOf(opts: DialOpts): Option<nat> {
    if opts.peer.Some? then opts.peer
    else if opts.addresses == [] || opts.addresses[0] == [] then None
    else
      var last := opts.addresses[0][|opts.addresses[0]| - 1];
      if last.P2p? then Some(last.peer) else None
  }

  /** A peer is given, or, if not, ends the first of the addresses. */
  lemma PeerMeans(opts: DialOpts, p: nat)
    ensures PeerOf(opts) == Some(p) <==>
            || opts.peer == Some(p)
            || (opts.peer.None? && exists front: Address :: [front + [P2p(p)]] <= opts.addresses)
  {
    if opts.peer.None? && PeerOf(opts) == Some(p) {
      var first := opts.addresses[0];
      assert first[..|first| - 1] + [P2p(p)] == first;
      assert [first[..|first| - 1] + [P2p(p)]] <= opts.addresses;
    }
    if front: Address :| [front + [P2p(p)]] <= opts.addresses {
      assert opts.addresses[0] == front + [P2p(p)];
    }
  }

  datatype DialError = DialPeerConditionFalse(condition: PeerCondition) | Denied | NoAddresses

  datatype DialFailure = DialFailure(peer: Option<nat>, error: DialError, connection: nat)

  /** One address of an attempt: dialed, or refused because it names another peer. */
  datatype Attempt = Dialed(address: Address) | NotSupported(address: Address)

  /** `Pool::add_outgoing`. */
  datatype Outgoing = Outgoing(attempts: seq<Attempt>, peer: Option<nat>, connection: nat)

  /** The addresses to choose from: the caller's, then the behaviour's if asked for. */
  function Candidates(opts: DialOpts, offered: seq<Address>): seq<Address> {
    if opts.extend then opts.addresses + offered else opts.addresses
  }

  // ----- dropping own and repeated addresses -----

  /** Keep an address where it stands first, unless it is one of ours. */
  function Retained(candidates: seq<Address>, own: set<Address>): seq<Address> {
    if candidates == [] then []
    else
      var init, last := candidates[..|candidates| - 1], candidates[|candidates| - 1];
      if last in own || last in init then Retained(init, own) else Retained(init, own) + [last]
  }

  /** `retain` with a growing set of addresses seen. */
  method RetainUnique(candidates: seq<Address>, own: set<Address>) returns (kept: seq<Address>)
    ensures kept == Retained(candidates, own)
  {
    var unique: set<Address> := {};
    kept := [];
    for i := 0 to |candidates|
      invariant kept == Retained(candidates[..i], own)
      invariant unique == Elements(candidates[..i]) - own
    {
      var a := candidates[i];
      assert candidates[..i + 1][..i] == candidates[..i];
      assert a in candidates[..i] <==> a in Elements(candidates[..i]);
      assert candidates[..i + 1] == candidates[..i] + [a];
      ElementsAppend(candidates[..i], a);
      if a !in own && a !in unique {
        unique := unique + {a};
        kept := kept + [a];
      }
    }
    assert candidates[..|candidates|] == candidates;
  }

  function FirstIndex(s: seq<Address>, a: Address): (i: nat)
    requires a in s
    ensures i < |s| && s[i] == a && a !in s[..i]
  {
    if s[0] == a then 0 else 1 + FirstIndex(s[1..], a)
  }

  lemma {:induction false} FirstIndexAppend(s: seq<Address>, t: seq<Address>, a: Address)
    requires a in s
    ensures FirstIndex(s + t, a) == FirstIndex(s, a)
  {
    if s[0] != a {
      assert (s + t)[1..] == s[1..] + t;
      FirstIndexAppend(s[1..], t, a);
    }
  }

  lemma FirstIndexLast(s: seq<Address>, a: Address)
    requires a !in s
    ensures FirstIndex(s + [a], a) == |s|
  {
    assert (s + [a])[FirstIndex(s + [a], a)] == a;
  }

  /**
   What is kept: the candidates that are not ours, each once, in the order of their first appearance.
   */
  lemma {:induction false} RetainedIsFirstOccurrences(candidates: seq<Address>, own: set<Address>)
    ensures var kept := Retained(candidates, own);
            && NoDuplicates(kept)
            && (forall a :: a in kept <==> a in candidates && a !in own)
            && (forall i, j :: 0 <= i < j < |kept| ==>
                FirstIndex(candidates, kept[i]) < FirstIndex(candidates, kept[j]))
    decreases |candidates|
  {
    if candidates == [] {
    } else {
      var init, last := candidates[..|candidates| - 1], candidates[|candidates| - 1];
      assert candidates == init + [last];
      RetainedIsFirstOccurrences(init, own);
      var before, kept := Retained(init, own), Retained(candidates, own);
      forall i | 0 <= i < |before|
        ensures before[i] in init && FirstIndex(candidates, before[i]) == FirstIndex(init, before[i])
      {
        assert before[i] in before;
        FirstIndexAppend(init, [last], before[i]);
      }
      forall i, j | 0 <= i < j < |kept| ensures FirstIndex(candidates, kept[i]) < FirstIndex(candidates, kept[j]) {
        assert kept[i] == before[i];
        if j < |before| {
          assert kept[j] == before[j];
        } else {
          FirstIndexLast(init, last);
        }
      }
    }
  }

  /** Nothing is left exactly when every candidate is one of our own addresses. */
  lemma NothingLeft(candidates: seq<Address>, own: set<Address>)
    ensures Retained(candidates, own) == [] <==> forall a :: a in candidates ==> a in own
  {
    RetainedIsFirstOccurrences(candidates, own);
    if Retained(candidates, own) != [] {
      assert Retained(candidates, own)[0] in Retained(candidates, own);
    }
  }

  /** The caller's addresses come first, then those the behaviour offers, if they are asked for. */
  lemma CallersComeFirst(opts: DialOpts, offered: seq<Address>, own: set<Address>)
    ensures var kept := Retained(Candidates(opts, offered), own);
            && (forall a :: a in kept <==> a !in own && (a in opts.addresses || (opts.extend && a in offered)))
            && (forall i, j :: 0 <= i < j < |kept| && kept[j] in opts.addresses ==>
                  kept[i] in opts.addresses
                  && FirstIndex(opts.addresses, kept[i]) < FirstIndex(opts.addresses, kept[j]))
  {
    var candidates := Candidates(opts, offered);
    var kept := Retained(candidates, own);
    RetainedIsFirstOccurrences(candidates, own);
    var more := if opts.extend then offered else [];
    assert candidates == opts.addresses + more;
    forall i, j | 0 <= i < j < |kept| && kept[j] in opts.addresses
      ensures kept[i] in opts.addresses
      ensures FirstIndex(opts.addresses, kept[i]) < FirstIndex(opts.addresses, kept[j])
    {
      assert kept[i] in kept && kept[j] in kept;
      FirstIndexAppend(opts.addresses, more, kept[j]);
      assert candidates[FirstIndex(candidates, kept[i])] == opts.addresses[FirstIndex(candidates, kept[i])];
      FirstIndexAppend(opts.addresses, more, kept[i]);
    }
  }

  // ----- the peer suffix -----

  predicate EndsInP2p(a: Address) {
    a != [] && a[|a| - 1].P2p?
  }

  /** `with_p2p`: append the peer unless one is there; a different one is an error. */
  function WithPeer(a: Address, peer: Option<nat>): Attempt {
    if peer.None? then Dialed(a)
    else if !EndsInP2p(a) then Dialed(a + [P2p(peer.value)])
    else if a[|a| - 1] == P2p(peer.value) then Dialed(a)
    else NotSupported(a)
  }

  /**
   An address is refused exactly if it ends in another peer; else it is dialed as it is, or with the
   peer appended, and then ends in the peer. Without a peer every address is dialed as it is.
   */
  lemma DialedMeans(a: Address, peer: Option<nat>)
    ensures WithPeer(a, peer).NotSupported? <==>
            peer.Some? && exists front: Address, q :: a == front + [P2p(q)] && q != peer.value
    ensures WithPeer(a, peer).NotSupported? ==> WithPeer(a, peer).address == a
    ensures WithPeer(a, peer).Dialed? && peer.Some? ==>
              var b := WithPeer(a, peer).address;
              && b != [] && b[|b| - 1] == P2p(peer.value)
              && (b == a || (b[..|b| - 1] == a && (a == [] || !a[|a| - 1].P2p?)))
    ensures peer.None? ==> WithPeer(a, peer) == Dialed(a)
  {
    if WithPeer(a, peer).NotSupported? {
      assert a == a[..|a| - 1] + [P2p(a[|a| - 1].peer)];
    }
  }

  function Attempts(addresses: seq<Address>, peer: Option<nat>): (r: seq<Attempt>)
    ensures |r| == |addresses|
    ensures forall i :: 0 <= i < |r| ==> r[i] == WithPeer(addresses[i], peer)
  {
    seq(|addresses|, i requires 0 <= i < |addresses| => WithPeer(addresses[i], peer))
  }

  lemma SameAttempt(a: Address, b: Address, peer: nat)
    ensures WithPeer(a, Some(peer)) == WithPeer(b, Some(peer)) && a != b ==>
            (!EndsInP2p(a) && b == a + [P2p(peer)]) || (!EndsInP2p(b) && a == b + [P2p(peer)])
  {
    assert (a + [P2p(peer)])[..|a|] == a && (b + [P2p(peer)])[..|b|] == b;
  }

  /** In a list without repetitions, two attempts are equal where an address is there without and with the peer. */
  lemma SuffixRepeats(addresses: seq<Address>, peer: nat)
    requires NoDuplicates(addresses)
    ensures NoDuplicates(Attempts(addresses, Some(peer))) <==>
            forall a :: a in addresses && !EndsInP2p(a) ==> a + [P2p(peer)] !in addresses
  {
    var r := Attempts(addresses, Some(peer));
    if a :| a in addresses && !EndsInP2p(a) && a + [P2p(peer)] in addresses {
      var i :| 0 <= i < |addresses| && addresses[i] == a;
      var j :| 0 <= j < |addresses| && addresses[j] == a + [P2p(peer)];
      assert r[i] == r[j] && i != j by {
        assert |addresses[j]| == |a| + 1;
      }
      assert r[if i < j then i else j] == r[if i < j then j else i];
    } else {
      forall i, j | 0 <= i < j < |r| ensures r[i] != r[j] {
        assert addresses[i] in addresses && addresses[j] in addresses;
        SameAttempt(addresses[i], addresses[j], peer);
      }
    }
  }

  /** A candidate that is dialed under another address than the one looked at: with the peer appended. */
  predicate Grows(candidates: seq<Address>, own: set<Address>, a: Address) {
    a in candidates && a !in own && !EndsInP2p(a)
  }

  /**
   The suffix comes after the search for repetitions, so a dial can still try an address twice: if and
   only if a foreign candidate is listed both without and with the peer at its end.
   */
  lemma AttemptsRepeat(opts: DialOpts, offered: seq<Address>, own: set<Address>)
    ensures var candidates := Candidates(opts, offered);
            NoDuplicates(Attempts(Retained(candidates, own), PeerOf(opts))) <==>
            (PeerOf(opts).Some? ==>
               forall a :: Grows(candidates, own, a) ==>
                 a + [P2p(PeerOf(opts).value)] !in candidates || a + [P2p(PeerOf(opts).value)] in own)
  {
    var candidates := Candidates(opts, offered);
    var kept := Retained(candidates, own);
    RetainedIsFirstOccurrences(candidates, own);
    match PeerOf(opts)
    case None =>
    case Some(p) => SuffixRepeats(kept, p);
  }

  /**
   It also comes after our own addresses are dropped, so a dial can still try one of them: if and only
   if one of ours is a foreign candidate with the peer at its end.
   */
  lemma AttemptsOwnAddress(opts: DialOpts, offered: seq<Address>, own: set<Address>)
    ensures var candidates := Candidates(opts, offered);
            var attempts := Attempts(Retained(candidates, own), PeerOf(opts));
            (exists i :: 0 <= i < |attempts| && attempts[i].Dialed? && attempts[i].address in own) <==>
            (PeerOf(opts).Some? &&
             exists a :: Grows(candidates, own, a) && a + [P2p(PeerOf(opts).value)] in own)
  {
    var candidates := Candidates(opts, offered);
    var kept := Retained(candidates, own);
    var attempts := Attempts(kept, PeerOf(opts));
    RetainedIsFirstOccurrences(candidates, own);
    if i :| 0 <= i < |attempts| && attempts[i].Dialed? && attempts[i].address in own {
      assert kept[i] in kept;
      assert PeerOf(opts).Some? && Grows(candidates, own, kept[i]);
    }
    if PeerOf(opts).Some? {
      if a :| Grows(candidates, own, a) && a + [P2p(PeerOf(opts).value)] in own {
        var i :| 0 <= i < |kept| && kept[i] == a;
        assert attempts[i] == Dialed(a + [P2p(PeerOf(opts).value)]);
      }
    }
  }

  const BARE: Address := [Other(1)]
  const FULL: Address := [Other(1), P2p(7)]

  /** Dialing peer 7 at `BARE` and `FULL` tries `FULL` twice. */
  lemma DialsTwice()
    ensures var opts := DialOpts(Some(7), Always, [BARE, FULL], false, 0);
            Attempts(Retained(Candidates(opts, []), {}), PeerOf(opts)) == [Dialed(FULL), Dialed(FULL)]
  {
    var opts := DialOpts(Some(7), Always, [BARE, FULL], false, 0);
    assert BARE != FULL by { assert |BARE| != |FULL|; }
    assert BARE + [P2p(7)] == FULL;
    assert [BARE, FULL][..1] == [BARE] && [BARE][..0] == [];
    assert Retained([BARE], {}) == [BARE] && Retained([BARE, FULL], {}) == [BARE, FULL];
  }

  /** Listening on `FULL`, dialing peer 7 at `BARE` tries our own `FULL`. */
  lemma DialsOwn()
    ensures var opts := DialOpts(Some(7), Always, [BARE], false, 0);
            Attempts(Retained(Candidates(opts, []), {FULL}), PeerOf(opts)) == [Dialed(FULL)]
  {
    assert BARE != FULL by { assert |BARE| != |FULL|; }
    assert BARE + [P2p(7)] == FULL;
    assert [BARE][..0] == [];
    assert Retained([BARE], {FULL}) == [BARE];
  }

  // ----- dial -----

  /**
   `dial`. Every call ends one way: an error, told once to the behaviour as a failure of this very
   connection, with nothing handed to the pool; or one attempt handed to the pool and no failure.
   The attempt is never empty and covers the candidates that are not ours, in order, each with the
   peer at its end. It is refused if the condition wants the peer disconnected and it is connected, or
   not being dialed and it is; else if the behaviour denies it; else if every candidate is ours.
   `AttemptsRepeat` and `AttemptsOwnAddress` say what else can be in it.
   */
  method Dial(opts: DialOpts, connected: set<nat>, dialing: set<nat>, own: set<Address>,
      behaviour: Option<seq<Address>>)
    returns (result: Option<DialError>, failures: seq<DialFailure>, outgoing: seq<Outgoing>)
    ensures result.Some? ==> failures == [DialFailure(PeerOf(opts), result.value, opts.connection)] && outgoing == []
    ensures result.None? ==>
              failures == [] && |outgoing| == 1 && outgoing[0].connection == opts.connection
                  && outgoing[0].peer == PeerOf(opts)
    ensures result == Some(DialPeerConditionFalse(opts.condition)) <==>
              exists p :: && PeerOf(opts) == Some(p)
                          && ((p in connected && opts.condition in {Disconnected, DisconnectedAndNotDialing})
                              || (p in dialing && opts.condition in {NotDialing, DisconnectedAndNotDialing}))
    ensures result.Some? && result.value.DialPeerConditionFalse? ==> result.value.condition == opts.condition
    ensures result == Some(Denied) <==>
              behaviour.None? && result != Some(DialPeerConditionFalse(opts.condition))
    ensures result == Some(NoAddresses) <==>
              && behaviour.Some? && result != Some(DialPeerConditionFalse(opts.condition))
              && forall a :: a in opts.addresses || (opts.extend && a in behaviour.value) ==> a in own
    ensures result.None? ==>
              && behaviour.Some?
              && outgoing[0].attempts != []
              && outgoing[0].attempts == Attempts(Retained(Candidates(opts, behaviour.value), own), PeerOf(opts))
  {
    var peer := PeerOf(opts);
    failures, outgoing := [], [];
    var shouldDial := match (opts.condition, peer)
      case (_, None) => true
      case (Always, _) => true
      case (Disconnected, Some(p)) => p !in connected
      case (NotDialing, Some(p)) => p !in dialing
      case (DisconnectedAndNotDialing, Some(p)) => p !in dialing && p !in connected;
    if !shouldDial {
      result := Some(DialPeerConditionFalse(opts.condition));
      failures := failures + [DialFailure(peer, result.value, opts.connection)];
      return;
    }
    var addresses := opts.addresses;
    match behaviour {
      case Some(offered) =>
        if opts.extend {
          addresses := addresses + offered;
        }
      case None =>
        result := Some(Denied);
        failures := failures + [DialFailure(peer, result.value, opts.connection)];
        return;
    }
    NothingLeft(addresses, own);
    addresses := RetainUnique(addresses, own);
    if addresses == [] {
      result := Some(NoAddresses);
      failures := failures + [DialFailure(peer, result.value, opts.connection)];
      return;
    }
    outgoing := outgoing + [Outgoing(Attempts(addresses, peer), peer, opts.connection)];
    result := None;
  }
}
