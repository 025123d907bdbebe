/**
 The hand-written ASN.1 header of a P-256 public key (identity/src/ecdsa.rs): `add_asn1_header`
 writes SEQUENCE { SEQUENCE { OID, OID }, BIT STRING } in front of the key bytes, truncating both
 length octets to eight bits, and `del_asn1_header` checks and strips it.
 */
module EcdsaKeyHeader {
  import opened Common

  // ecPublicKey, 1.2.840.10045.2.1
  const EC_PUBLIC_KEY_OID: Bytes := [0x06, 0x07, 0x2a, 0x86, 0x48, 0xce, 0x3d, 0x02, 0x01]
  // secp256r1, 1.2.840.10045.3.1.7
  const SECP_256_R1_OID: Bytes := [0x06, 0x08, 0x2A, 0x86, 0x48, 0xCE, 0x3D, 0x03, 0x01, 0x07]

  const OIDS_LEN: nat := |EC_PUBLIC_KEY_OID| + |SECP_256_R1_OID|
  const HEADER_LEN: nat := 4 + OIDS_LEN + 3

  /** The bytes between the outer length octet and the key. */
  function Middle(bitStringLen: Byte): (m: Bytes)
    ensures |m| == HEADER_LEN - 2
  {
    [0x30, 19] + EC_PUBLIC_KEY_OID + SECP_256_R1_OID + [0x03, bitStringLen, 0x00]
  }

  /** A key under a header whose two length octets are given. */
  function Framed(outerLen: Byte, bitStringLen: Byte, key: Bytes): (b: Bytes)
    ensures |b| == HEADER_LEN + |key|
  {
    [0x30, outerLen] + Middle(bitStringLen) + key
  }

  /** What `add_asn1_header` writes for a key. */
  function Added(key: Bytes): Bytes {
    Framed(AsByte(HEADER_LEN - 2 + |key|), AsByte(|key| + 1), key)
  }

  /** `add_asn1_header`: the buffer grows piece by piece, then octet 1 is patched in place. */
  method AddAsn1Header(key: Bytes) returns (buf: Bytes)
    ensures buf == Added(key)
  {
    buf := [0x30, 0x00, 0x30, AsByte(|EC_PUBLIC_KEY_OID| + |SECP_256_R1_OID|)];
    buf := buf + EC_PUBLIC_KEY_OID;
    buf := buf + SECP_256_R1_OID;
    buf := buf + [0x03, AsByte(|key| + 1), 0x00];
    buf := buf + key;
    buf := buf[1 := AsByte(|buf| - 2)];
  }

  /** `slice::get` on a range. */
  function Get(b: Bytes, lo: nat, hi: nat): Option<Bytes>
    requires lo <= hi
  {
    if hi <= |b| then Some(b[lo..hi]) else None
  }

  /** `del_asn1_header`. */
  function DelAsn1Header(b: Bytes): Option<Bytes> {
    match (Get(b, 0, 4), Get(b, 4, 4 + OIDS_LEN), Get(b, 4 + OIDS_LEN, HEADER_LEN))
    case (Some(head), Some(oids), Some(bits)) =>
      if head[0] != 0x30
         || head[2] != 0x30
         || head[3] != OIDS_LEN
         || oids[..|EC_PUBLIC_KEY_OID|] != EC_PUBLIC_KEY_OID
         || oids[|EC_PUBLIC_KEY_OID|..] != SECP_256_R1_OID
         || bits[0] != 0x03
         || bits[2] != 0x00
      then None
      else if bits[1] == 0 then None
      else Get(b, HEADER_LEN, HEADER_LEN + (bits[1] - 1))
    case _ => None
  }

  lemma AcceptedIsFramed(b: Bytes, key: Bytes)
    requires DelAsn1Header(b) == Some(key)
    ensures |key| <= 254 && |b| >= HEADER_LEN + |key|
    ensures b[..HEADER_LEN + |key|] == Framed(b[1], |key| + 1, key)
  {
    var oids := b[4..4 + OIDS_LEN];
    assert oids == EC_PUBLIC_KEY_OID + SECP_256_R1_OID by {
      assert oids == oids[..|EC_PUBLIC_KEY_OID|] + oids[|EC_PUBLIC_KEY_OID|..];
    }
    assert b[..HEADER_LEN + |key|] == b[..4] + oids + b[4 + OIDS_LEN..HEADER_LEN] + key;
  }

  /** A buffer that begins with three pieces has the middle one in the middle. */
  lemma Piece(b: Bytes, before: Bytes, piece: Bytes, after: Bytes)
    requires |b| >= |before + piece + after| && b[..|before + piece + after|] == before + piece + after
    ensures b[|before|..|before| + |piece|] == piece
  {
    var all := before + piece + after;
    assert b[|before|..|before| + |piece|] == b[..|all|][|before|..|before| + |piece|];
  }

  lemma FramedIsAccepted(b: Bytes, outerLen: Byte, key: Bytes)
    requires |key| <= 254 && |b| >= HEADER_LEN + |key|
    requires b[..HEADER_LEN + |key|] == Framed(outerLen, |key| + 1, key)
    ensures DelAsn1Header(b) == Some(key)
  {
    var head, oids, bits := [0x30, outerLen, 0x30, 19], EC_PUBLIC_KEY_OID + SECP_256_R1_OID, [0x03, |key| + 1, 0x00];
    assert Framed(outerLen, |key| + 1, key) == [] + head + (oids + bits + key) == head + oids + (bits + key)
           == (head + oids) + bits + key == (head + oids + bits) + key + [];
    hide Framed, Middle;
    Piece(b, [], head, oids + bits + key);
    Piece(b, head, oids, bits + key);
    Piece(b, head + oids, bits, key);
    Piece(b, head + oids + bits, key, []);
  }

  /**
   Exactly which buffers are accepted and what comes out: the buffer starts with the framed key, the
   outer length octet being the one octet nobody looks at. Bytes after the key are ignored.
   */
  lemma DelAccepts(b: Bytes, key: Bytes)
    ensures DelAsn1Header(b) == Some(key) <==>
            && |key| <= 254
            && |b| >= HEADER_LEN + |key|
            && b[..HEADER_LEN + |key|] == Framed(b[1], |key| + 1, key)
  {
    if DelAsn1Header(b) == Some(key) {
      AcceptedIsFramed(b, key);
    } else if |key| <= 254 && |b| >= HEADER_LEN + |key| && b[..HEADER_LEN + |key|] == Framed(b[1], |key| + 1, key) {
      FramedIsAccepted(b, b[1], key);
    }
  }

  lemma ZeroLengthRejected(key: Bytes)
    requires |key| % 256 == 255
    ensures DelAsn1Header(Added(key)) == None
  {
    assert Added(key)[4 + OIDS_LEN..HEADER_LEN] == [0x03, 0x00, 0x00];
  }

  lemma OctetAfter(n: nat)
    requires n % 256 != 255
    ensures AsByte(n + 1) == n % 256 + 1
  {
  }

  lemma FramedPrefix(outerLen: Byte, bitStringLen: Byte, key: Bytes, n: nat)
    requires n <= |key|
    ensures Framed(outerLen, bitStringLen, key)[..HEADER_LEN + n] == Framed(outerLen, bitStringLen, key[..n])
  {
    hide Middle;
    var header := [0x30, outerLen] + Middle(bitStringLen);
    assert (header + key)[..|header| + n] == header + key[..n];
  }

  lemma CutBack(key: Bytes)
    requires |key| % 256 != 255
    ensures DelAsn1Header(Added(key)) == Some(key[..|key| % 256])
  {
    var outer, len := AsByte(HEADER_LEN - 2 + |key|), |key| % 256;
    OctetAfter(|key|);
    assert Added(key) == Framed(outer, len + 1, key);
    hide Framed, Middle, DelAsn1Header, Added, AsByte;
    FramedPrefix(outer, len + 1, key, len);
    FramedIsAccepted(Added(key), outer, key[..len]);
  }

  /**
   The round trip over keys of every length. The length octet counts modulo 256, so a longer key
   comes back cut, or not at all when its octet is zero; the round trip holds up to 254 bytes and
   for no other key.
   */
  lemma RoundTrip(key: Bytes)
    ensures DelAsn1Header(Added(key)) ==
            if |key| % 256 == 255 then None else Some(key[..|key| % 256])
    ensures DelAsn1Header(Added(key)) == Some(key) <==> |key| <= 254
  {
    if |key| % 256 == 255 {
      ZeroLengthRejected(key);
    } else {
      CutBack(key);
      assert |key| <= 254 <==> key[..|key| % 256] == key;
    }
  }

  /** A definite short-form element (section 8.1.3.4 of ITU-T X.690) that fills the whole buffer. */
  predicate IsShortForm(b: Bytes, tag: Byte) {
    |b| >= 2 && b[0] == tag && b[1] < 128 && |b| == 2 + b[1]
  }

  /** Subidentifiers of an object identifier: base 128, the top bit set on all but the last octet. */
  function Subidentifiers(octets: Bytes, high: nat): Option<seq<nat>> {
    if octets == [] then if high == 0 then Some([]) else None
    else if octets[0] >= 128 then Subidentifiers(octets[1..], (high + octets[0] - 128) * 128)
    else
      match Subidentifiers(octets[1..], 0)
      case Some(rest) => Some([high + octets[0]] + rest)
      case None => None
  }

  /** The first subidentifier stands for two arcs (section 8.19.4 of ITU-T X.690). */
  function Arcs(oid: Bytes): Option<seq<nat>> {
    if !IsShortForm(oid, 0x06) then None
    else
      match Subidentifiers(oid[2..], 0)
      case Some(subs) =>
        if subs == [] then None
        else
          var top := if subs[0] < 80 then subs[0] / 40 else 2;
          Some([top, subs[0] - 40 * top] + subs[1..])
      case None => None
  }

  lemma LastOctet(octet: Byte, rest: Bytes, high: nat, subs: seq<nat>)
    requires octet < 128 && Subidentifiers(rest, 0) == Some(subs)
    ensures Subidentifiers([octet] + rest, high) == Some([high + octet] + subs)
  {
    assert ([octet] + rest)[1..] == rest;
  }

  lemma HighOctet(octet: Byte, rest: Bytes, high: nat)
    requires octet >= 128
    ensures Subidentifiers([octet] + rest, high) == Subidentifiers(rest, (high + octet - 128) * 128)
  {
    assert ([octet] + rest)[1..] == rest;
  }

  /** The prefix both identifiers share. */
  lemma SharedPrefix(rest: Bytes, subs: seq<nat>)
    requires Subidentifiers(rest, 0) == Some(subs)
    ensures Subidentifiers([0x2a, 0x86, 0x48, 0xce, 0x3d] + rest, 0) == Some([42, 840, 10045] + subs)
  {
    hide Subidentifiers;
    LastOctet(0x3d, rest, 78 * 128, subs);
    HighOctet(0xce, [0x3d] + rest, 0);
    var r1, s1 := [0xce] + ([0x3d] + rest), [10045] + subs;
    LastOctet(0x48, r1, 6 * 128, s1);
    HighOctet(0x86, [0x48] + r1, 0);
    LastOctet(0x2a, [0x86] + ([0x48] + r1), 0, [840] + s1);
    assert [0x2a] + ([0x86] + ([0x48] + r1)) == [0x2a, 0x86, 0x48, 0xce, 0x3d] + rest;
    assert [42] + ([840] + s1) == [42, 840, 10045] + subs;
  }

  lemma LastOctets()
    ensures Subidentifiers([2, 1], 0) == Some([2, 1]) && Subidentifiers([3, 1, 7], 0) == Some([3, 1, 7])
  {
    LastOctet(1, [], 0, []);
    LastOctet(7, [], 0, []);
    hide Subidentifiers;
    assert [1] + [] == [1] && [7] + [] == [7];
    LastOctet(2, [1], 0, [1]);
    LastOctet(1, [7], 0, [7]);
    assert [2] + [1] == [2, 1] && [1] + [7] == [1, 7];
    LastOctet(3, [1, 7], 0, [1, 7]);
    assert [3] + [1, 7] == [3, 1, 7];
  }

  /** 42 stands for the arcs 1 and 2. */
  lemma FirstArcs(oid: Bytes, subs: seq<nat>)
    requires IsShortForm(oid, 0x06) && Subidentifiers(oid[2..], 0) == Some([42] + subs)
    ensures Arcs(oid) == Some([1, 2] + subs)
  {
    hide Subidentifiers;
    assert ([42] + subs)[1..] == subs;
  }

  /** The two octet strings are the DER of the identifiers of an elliptic-curve key and of the curve. */
  lemma OidsAreNamed()
    ensures Arcs(EC_PUBLIC_KEY_OID) == Some([1, 2, 840, 10045, 2, 1])
    ensures Arcs(SECP_256_R1_OID) == Some([1, 2, 840, 10045, 3, 1, 7])
  {
    hide Arcs;
    LastOctets();
    hide Subidentifiers;
    SharedPrefix([2, 1], [2, 1]);
    SharedPrefix([3, 1, 7], [3, 1, 7]);
    assert EC_PUBLIC_KEY_OID[2..] == [0x2a, 0x86, 0x48, 0xce, 0x3d] + [2, 1];
    assert SECP_256_R1_OID[2..] == [0x2a, 0x86, 0x48, 0xce, 0x3d] + [3, 1, 7];
    var key: seq<nat>, curve: seq<nat> := [840, 10045, 2, 1], [840, 10045, 3, 1, 7];
    assert Subidentifiers(EC_PUBLIC_KEY_OID[2..], 0).value == [42] + key;
    assert Subidentifiers(SECP_256_R1_OID[2..], 0).value == [42] + curve;
    FirstArcs(EC_PUBLIC_KEY_OID, key);
    FirstArcs(SECP_256_R1_OID, curve);
    assert [1, 2] + key == [1, 2, 840, 10045, 2, 1];
    assert [1, 2] + curve == [1, 2, 840, 10045, 3, 1, 7];
  }

  /** SEQUENCE { SEQUENCE { ecPublicKey, secp256r1 }, BIT STRING key }, all in short form. */
  predicate IsShortFormKeyInfo(b: Bytes, key: Bytes) {
    && IsShortForm(b, 0x30)
    && |b| >= 4 + OIDS_LEN
    && IsShortForm(b[2..4 + OIDS_LEN], 0x30)
    && b[4..4 + OIDS_LEN] == EC_PUBLIC_KEY_OID + SECP_256_R1_OID
    && IsShortForm(b[4 + OIDS_LEN..], 0x03)
    && b[4 + OIDS_LEN + 2..] == [0x00] + key
  }

  /** The header is well-formed short-form DER exactly for keys of at most 103 bytes. */
  lemma WellFormedDer(key: Bytes)
    ensures IsShortFormKeyInfo(Added(key), key) <==> |key| <= 103
  {
    var b := Added(key);
    if |key| <= 103 {
      assert b[2..4 + OIDS_LEN] == [0x30, 19] + EC_PUBLIC_KEY_OID + SECP_256_R1_OID;
      assert b[4..4 + OIDS_LEN] == EC_PUBLIC_KEY_OID + SECP_256_R1_OID;
      assert b[4 + OIDS_LEN..] == [0x03, |key| + 1, 0x00] + key;
      assert b[4 + OIDS_LEN + 2..] == [0x00] + key;
    }
  }
}
