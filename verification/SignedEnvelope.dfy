/**
 Signed envelopes (core/src/signed_envelope.rs; libp2p RFC 0002). The bytes that are signed are three
 length-prefixed fields, the lengths as unsigned varints. Everything the envelope promises rests on
 those bytes having one reading only.
 */
module SignedEnvelope {
  import opened Common

  // ----- unsigned varints (multiformats unsigned-varint) -----

  /** Seven bits an octet, low bits first, the high bit set on all but the last. */
  function Varint(n: nat): (b: Bytes)
    ensures b != []
  {
    if n < 128 then [n] else [n % 128 + 128] + Varint(n / 128)
  }

  /** `unsigned_varint::encode::usize`: octets are written until nothing is left of the number. */
  method EncodeVarint(n: nat) returns (b: Bytes)
    ensures b == Varint(n)
  {
    b := [];
    var left := n;
    while left >= 128
      invariant b + Varint(left) == Varint(n)
    {
      assert Varint(left) == [left % 128 + 128] + Varint(left / 128);
      assert b + ([left % 128 + 128] + Varint(left / 128)) == (b + [left % 128 + 128]) + Varint(left / 128);
      b := b + [left % 128 + 128];
      left := left / 128;
    }
    b := b + [left];
  }

  /** Reads one varint off the front. */
  function ReadVarint(b: Bytes): Option<(nat, Bytes)> {
    if b == [] then None
    else if b[0] < 128 then Some((b[0], b[1..]))
    else
      match ReadVarint(b[1..])
      case None => None
      case Some((high, rest)) => Some((b[0] - 128 + 128 * high, rest))
  }

  lemma {:induction false} VarintReadsBack(n: nat, rest: Bytes)
    ensures ReadVarint(Varint(n) + rest) == Some((n, rest))
  {
    var b := Varint(n) + rest;
    if n >= 128 {
      assert b[1..] == Varint(n / 128) + rest;
      VarintReadsBack(n / 128, rest);
    } else {
      assert b[1..] == rest;
    }
  }

  // ----- the signed bytes -----

  function Prefixed(field: Bytes): Bytes {
    Varint(|field|) + field
  }

  /** The reference layout: domain, payload type and payload, each after its own length. */
  function Payload(domain: Bytes, payloadType: Bytes, payload: Bytes): Bytes {
    Prefixed(domain) + Prefixed(payloadType) + Prefixed(payload)
  }

  /** `signature_payload`: one buffer extended six times. */
  method SignaturePayload(domain: Bytes, payloadType: Bytes, payload: Bytes) returns (buffer: Bytes)
    ensures buffer == Payload(domain, payloadType, payload)
  {
    var domainLength := EncodeVarint(|domain|);
    var payloadTypeLength := EncodeVarint(|payloadType|);
    var payloadLength := EncodeVarint(|payload|);
    buffer := [];
    buffer := buffer + domainLength;
    buffer := buffer + domain;
    buffer := buffer + payloadTypeLength;
    buffer := buffer + payloadType;
    buffer := buffer + payloadLength;
    buffer := buffer + payload;
  }

  function ReadField(b: Bytes): Option<(Bytes, Bytes)> {
    match ReadVarint(b)
    case None => None
    case Some((n, rest)) => if n <= |rest| then Some((rest[..n], rest[n..])) else None
  }

  lemma FieldReadsBack(field: Bytes, rest: Bytes)
    ensures ReadField(Prefixed(field) + rest) == Some((field, rest))
  {
    assert Prefixed(field) + rest == Varint(|field|) + (field + rest);
    VarintReadsBack(|field|, field + rest);
    assert (field + rest)[..|field|] == field && (field + rest)[|field|..] == rest;
  }

  function ReadPayload(b: Bytes): Option<(Bytes, Bytes, Bytes, Bytes)> {
    match ReadField(b)
    case None => None
    case Some((d, b1)) =>
      match ReadField(b1)
      case None => None
      case Some((t, b2)) =>
        match ReadField(b2)
        case None => None
        case Some((p, rest)) => Some((d, t, p, rest))
  }

  lemma PayloadReadsBack(d: Bytes, t: Bytes, p: Bytes, rest: Bytes)
    ensures ReadPayload(Payload(d, t, p) + rest) == Some((d, t, p, rest))
  {
    var last := Prefixed(p) + rest;
    var tail := Prefixed(t) + last;
    assert Payload(d, t, p) + rest == Prefixed(d) + tail;
    FieldReadsBack(d, tail);
    FieldReadsBack(t, last);
    FieldReadsBack(p, rest);
  }

  /**
   Unique reading: two payloads that agree up to trailing bytes agree in all three fields and in the
   trailing bytes. With nothing trailing this is injectivity; with something trailing on one side
   only it says that no payload is a proper prefix of another.
   */
  lemma PayloadReadsOneWay(d: Bytes, t: Bytes, p: Bytes, rest: Bytes, d': Bytes, t': Bytes, p': Bytes, rest': Bytes)
    requires Payload(d, t, p) + rest == Payload(d', t', p') + rest'
    ensures d == d' && t == t' && p == p' && rest == rest'
  {
    PayloadReadsBack(d, t, p, rest);
    PayloadReadsBack(d', t', p', rest');
  }

  lemma PayloadInjective(d: Bytes, t: Bytes, p: Bytes, d': Bytes, t': Bytes, p': Bytes)
    requires Payload(d, t, p) == Payload(d', t', p')
    ensures d == d' && t == t' && p == p'
  {
    assert Payload(d, t, p) + [] == Payload(d, t, p) && Payload(d', t', p') + [] == Payload(d', t', p');
    PayloadReadsOneWay(d, t, p, [], d', t', p', []);
  }

  // ----- envelopes over any signature scheme -----

  /** The key library: signing may fail, and a public key judges a message and a signature. */
  datatype Scheme<!Keypair, !Key> = Scheme(
    public: Keypair -> Key,
    sign: (Keypair, Bytes) -> Option<Bytes>,
    verify: (Key, Bytes, Bytes) -> bool)

  /** A signature by `k` for `m`, if there is one, verifies for `m'` just when `m'` is `m`. */
  ghost predicate Binds<Keypair, Key>(scheme: Scheme<Keypair, Key>, k: Keypair, m: Bytes, m': Bytes) {
    scheme.sign(k, m).Some? ==>
      (scheme.verify(scheme.public(k), m', scheme.sign(k, m).value) <==> m' == m)
  }

  /** What is assumed of the key library: a signature verifies for the message it was made for, only. */
  ghost predicate Ideal<Keypair(!new), Key>(scheme: Scheme<Keypair, Key>) {
    forall k: Keypair, m: Bytes, m': Bytes :: Binds(scheme, k, m, m')
  }

  datatype Envelope<Key> = Envelope(key: Key, payloadType: Bytes, payload: Bytes, signature: Bytes)

  datatype ReadPayloadError =
    | InvalidSignature
    | UnexpectedPayloadType(expected: Bytes, got: Bytes)

  /** `SignedEnvelope::new`. */
  function New<Keypair, Key>(scheme: Scheme<Keypair, Key>, k: Keypair, domain: Bytes, payloadType: Bytes,
      payload: Bytes)
    : Option<Envelope<Key>>
  {
    match scheme.sign(k, Payload(domain, payloadType, payload))
    case None => None
    case Some(signature) => Some(Envelope(scheme.public(k), payloadType, payload, signature))
  }

  /** `SignedEnvelope::verify`. */
  predicate Verify<Keypair, Key>(scheme: Scheme<Keypair, Key>, e: Envelope<Key>, domain: Bytes) {
    scheme.verify(e.key, Payload(domain, e.payloadType, e.payload), e.signature)
  }

  /** `SignedEnvelope::payload_and_signing_key`. */
  function PayloadAndSigningKey<Keypair,
      Key>(scheme: Scheme<Keypair, Key>, e: Envelope<Key>, domain: Bytes, expectedType: Bytes)
    : Result<(Bytes, Key), ReadPayloadError>
  {
    if e.payloadType != expectedType then Err(UnexpectedPayloadType(expectedType, e.payloadType))
    else if !Verify(scheme, e, domain) then Err(InvalidSignature)
    else Ok((e.payload, e.key))
  }

  /**
   The guard against misuse, for every envelope that carries a signature made by `New`, whatever was
   done to its other fields: it opens exactly for the domain and type it was signed with and with
   its payload untouched, and then yields what was signed. Otherwise the error names the reason.
   */
  lemma OpensExactlyAsSigned<Keypair(!new), Key>(
    scheme: Scheme<Keypair, Key>, k: Keypair, d: Bytes, t: Bytes, p: Bytes,
    e: Envelope<Key>, d': Bytes, t': Bytes)
    requires Ideal(scheme)
    requires New(scheme, k, d, t, p).Some?
    requires e.key == scheme.public(k) && e.signature == New(scheme, k, d, t, p).value.signature
    ensures PayloadAndSigningKey(scheme, e, d', t') ==
            if e.payloadType != t' then Err(UnexpectedPayloadType(t', e.payloadType))
            else if d' == d && t' == t && e.payload == p then Ok((p, scheme.public(k)))
            else Err(InvalidSignature)
    ensures e == New(scheme, k, d, t, p).value ==>
            (PayloadAndSigningKey(scheme, e, d', t').Ok? <==> d' == d && t' == t)
  {
    var m, m' := Payload(d, t, p), Payload(d', e.payloadType, e.payload);
    assert Binds(scheme, k, m, m');
    if m == m' {
      PayloadInjective(d, t, p, d', e.payloadType, e.payload);
    }
  }
}
