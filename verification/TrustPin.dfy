/** The trust-bundle pin, as the control plane and the agent each compute it, and SPIFFE names. */
module TrustPin {
  import opened Wrappers
  import opened Order

  type Byte = b: int | 0 <= b < 256
  type Bytes = seq<Byte>

  predicate ByteLe(a: Byte, b: Byte) { a <= b }

  predicate BytesLe(a: Bytes, b: Bytes) { LexLe(ByteLe, a, b) }

  lemma BytesTotal()
    ensures TotalOrder(BytesLe)
  {
    assert TotalOrder(ByteLe);
    forall a, b
      ensures BytesLe(a, b) || BytesLe(b, a)
      ensures BytesLe(a, b) && BytesLe(b, a) ==> a == b
    {
      LexLinear(ByteLe, a, b);
    }
    forall a, b, c | BytesLe(a, b) && BytesLe(b, c)
      ensures BytesLe(a, c)
    {
      LexTransitive(ByteLe, a, b, c);
    }
  }

  /** A certificate: its complete SubjectPublicKeyInfo encoding, and everything else. */
  datatype Certificate = Certificate(spki: Bytes, rest: Bytes)

  /** What a PEM reader makes of a bundle; None is a bundle it cannot parse. */
  type Parsed = Option<seq<Certificate>>

  datatype PinError = Malformed | NoCertificates

  function Keys(certs: seq<Certificate>): seq<Bytes> {
    if certs == [] then [] else Keys(certs[..|certs| - 1]) + [certs[|certs| - 1].spki]
  }

  function Concat(parts: seq<Bytes>): Bytes {
    if parts == [] then [] else Concat(parts[..|parts| - 1]) + parts[|parts| - 1]
  }

  function Canonical(certs: seq<Certificate>): Bytes { Concat(Sort(BytesLe, Keys(certs))) }

  /** `digest` is base64 of SHA-256. */
  function Pin(digest: Bytes -> string, bundle: Parsed): Result<string, PinError> {
    if bundle.None? then Err(Malformed)
    else if bundle.value == [] then Err(NoCertificates)
    else Ok(digest(Canonical(bundle.value)))
  }

  /** The bundle with each key parsed and encoded again. */
  function Reencoded(reencode: Bytes -> Bytes, certs: seq<Certificate>): seq<Certificate> {
    seq(|certs|, i requires 0 <= i < |certs| => certs[i].(spki := reencode(certs[i].spki)))
  }

  // ── The two implementations ────────────────────────────────────────────────

  // Python: a sorted comprehension of re-encoded keys, then a running digest over the parts.
  method PinOfControlPlane(digest: Bytes -> string, reencode: Bytes -> Bytes, bundle: Parsed)
    returns (r: Result<string, PinError>)
    ensures r == Pin(digest, if bundle.None? then None else Some(Reencoded(reencode, bundle.value)))
  {
    if bundle.None? {
      return Err(Malformed);
    }
    var certs := Reencoded(reencode, bundle.value);
    if certs == [] {
      return Err(NoCertificates);
    }
    var spkis := Sort(BytesLe, Keys(certs));
    var fed: Bytes := [];
    for i := 0 to |spkis|
      invariant fed == Concat(spkis[..i])
    {
      fed := fed + spkis[i];
      assert spkis[..i + 1][..i] == spkis[..i];
    }
    assert spkis[..|spkis|] == spkis;
    r := Ok(digest(fed));
  }

  // Rust: push each key as it stands in the certificate, refuse an empty vector, sort it in place, then update the hasher.
  method PinOfAgent(digest: Bytes -> string, bundle: Parsed) returns (r: Result<string, PinError>)
    ensures r == Pin(digest, bundle)
  {
    if bundle.None? {
      return Err(Malformed);
    }
    var spkis: seq<Bytes> := [];
    for i := 0 to |bundle.value|
      invariant spkis == Keys(bundle.value[..i])
      invariant spkis == [] <==> i == 0
    {
      spkis := spkis + [bundle.value[i].spki];
      assert bundle.value[..i + 1][..i] == bundle.value[..i];
    }
    assert bundle.value[..|bundle.value|] == bundle.value;
    if spkis == [] {
      return Err(NoCertificates);
    }
    spkis := Sort(BytesLe, spkis);
    var fed: Bytes := [];
    for i := 0 to |spkis|
      invariant fed == Concat(spkis[..i])
    {
      fed := fed + spkis[i];
      assert spkis[..i + 1][..i] == spkis[..i];
    }
    assert spkis[..|spkis|] == spkis;
    r := Ok(digest(fed));
  }

  // ── DER framing (sections 8.1.3 and 10.1 of X.690) ─────────────────────────

  function BigEndian(bs: Bytes): nat {
    if bs == [] then 0 else 256 * BigEndian(bs[..|bs| - 1]) + bs[|bs| - 1]
  }

  /** One definite-length tag-length-value encoding, exactly: the header says where it ends. */
  predicate IsDer(bs: Bytes) {
    if |bs| < 2 || bs[1] == 128 then false
    else if bs[1] < 128 then |bs| == 2 + bs[1]
    else
      var k := bs[1] - 128;
      |bs| >= 2 + k && |bs| == 2 + k + BigEndian(bs[2..2 + k])
  }

  /** No DER value is a proper prefix of another, so one can be read off the front of a
      concatenation in only one way. */
  lemma DerPrefixFree(a: Bytes, b: Bytes, whole: Bytes)
    requires IsDer(a) && IsDer(b) && a <= whole && b <= whole
    ensures a == b
  {
    assert a[1] == whole[1] && b[1] == whole[1];
    if a[1] > 128 {
      var k := a[1] - 128;
      assert a[2..2 + k] == whole[2..2 + k] == b[2..2 + k];
    }
  }

  function ConcatFront(parts: seq<Bytes>): Bytes {
    if parts == [] then [] else parts[0] + ConcatFront(parts[1..])
  }

  lemma {:induction false} ConcatBothWays(parts: seq<Bytes>)
    ensures Concat(parts) == ConcatFront(parts)
  {
    if |parts| > 1 {
      var k := |parts| - 1;
      ConcatBothWays(parts[..k]);
      ConcatBothWays(parts[1..]);
      ConcatBothWays(parts[1..][..k - 1]);
      assert parts[..k][1..] == parts[1..][..k - 1];
      assert parts[1..][k - 1] == parts[k];
    } else if |parts| == 1 {
      assert parts[..0] == [] && parts[1..] == [];
    }
  }

  predicate AllDer(parts: seq<Bytes>) { forall i :: 0 <= i < |parts| ==> IsDer(parts[i]) }

  lemma FrontNotEmpty(parts: seq<Bytes>)
    requires AllDer(parts)
    ensures parts != [] ==> |ConcatFront(parts)| >= 2
  {
  }

  /** A concatenation of DER values determines the values and their order. */
  lemma {:induction false} UniquelyDecodable(a: seq<Bytes>, b: seq<Bytes>)
    requires AllDer(a) && AllDer(b) && ConcatFront(a) == ConcatFront(b)
    ensures a == b
  {
    FrontNotEmpty(a);
    FrontNotEmpty(b);
    if a != [] {
      var whole := ConcatFront(a);
      assert a[0] <= whole && b[0] <= whole;
      DerPrefixFree(a[0], b[0], whole);
      assert whole[|a[0]|..] == ConcatFront(a[1..]) == ConcatFront(b[1..]);
      UniquelyDecodable(a[1..], b[1..]);
    }
  }

  lemma SortedAllDer(s: seq<Bytes>)
    requires AllDer(s)
    ensures AllDer(Sort(BytesLe, s))
  {
    var r := Sort(BytesLe, s);
    forall i | 0 <= i < |r|
      ensures IsDer(r[i])
    {
      assert r[i] in multiset(r);
      assert r[i] in s;
    }
  }

  // ── The pin identifies the set of keys ─────────────────────────────────────

  /** Two bundles have the same pin if and only if they hold the same keys with the same
      multiplicities, whatever their order and whatever else their certificates say. */
  lemma PinIsCanonical(digest: Bytes -> string, a: seq<Certificate>, b: seq<Certificate>)
    requires a != [] && b != [] && AllDer(Keys(a)) && AllDer(Keys(b))
    requires digest(Canonical(a)) == digest(Canonical(b)) ==> Canonical(a) == Canonical(b)
    ensures Pin(digest, Some(a)) == Pin(digest, Some(b)) <==> multiset(Keys(a)) == multiset(Keys(b))
  {
    BytesTotal();
    var sa, sb := Sort(BytesLe, Keys(a)), Sort(BytesLe, Keys(b));
    if multiset(Keys(a)) == multiset(Keys(b)) {
      SortOrdered(BytesLe, Keys(a));
      SortOrdered(BytesLe, Keys(b));
      OrderedUnique(BytesLe, sa, sb);
    } else if Canonical(a) == Canonical(b) {
      SortedAllDer(Keys(a));
      SortedAllDer(Keys(b));
      ConcatBothWays(sa);
      ConcatBothWays(sb);
      UniquelyDecodable(sa, sb);
    }
  }

  /** The control plane encodes each key again and the agent takes it as it stands: their pins of
      one bundle are equal if and only if that leaves the same keys. */
  lemma TwinsAgreeIff(digest: Bytes -> string, reencode: Bytes -> Bytes, certs: seq<Certificate>)
    requires certs != [] && AllDer(Keys(certs)) && AllDer(Keys(Reencoded(reencode, certs)))
    requires var again := Reencoded(reencode, certs);
      digest(Canonical(again)) == digest(Canonical(certs)) ==> Canonical(again) == Canonical(certs)
    ensures Pin(digest, Some(Reencoded(reencode, certs))) == Pin(digest, Some(certs))
       <==> multiset(Keys(Reencoded(reencode, certs))) == multiset(Keys(certs))
    ensures (forall i :: 0 <= i < |certs| ==> reencode(certs[i].spki) == certs[i].spki) ==>
      Pin(digest, Some(Reencoded(reencode, certs))) == Pin(digest, Some(certs))
  {
    PinIsCanonical(digest, Reencoded(reencode, certs), certs);
    if forall i :: 0 <= i < |certs| ==> reencode(certs[i].spki) == certs[i].spki {
      ReencodingNothing(reencode, certs);
    }
  }

  lemma ReencodingNothing(reencode: Bytes -> Bytes, certs: seq<Certificate>)
    requires forall i :: 0 <= i < |certs| ==> reencode(certs[i].spki) == certs[i].spki
    ensures Reencoded(reencode, certs) == certs
  {
  }

  /** `verify_pin`: no pin recorded accepts anything. */
  predicate VerifyPin(digest: Bytes -> string, recorded: string, bundle: Parsed) {
    recorded == "" || Pin(digest, bundle) == Ok(recorded)
  }

  /** Against the pin of the bundle it enrolled with, an agent accepts exactly the bundles
      that parse to the same keys: a reissued certificate passes, an added authority does not. */
  lemma VerifyPinAcceptsSameKeys(digest: Bytes -> string, enrolled: seq<Certificate>, offered: Parsed)
    requires enrolled != [] && AllDer(Keys(enrolled)) && digest(Canonical(enrolled)) != ""
    requires offered.Some? ==> AllDer(Keys(offered.value))
    requires offered.Some? && digest(Canonical(enrolled)) == digest(Canonical(offered.value)) ==>
      Canonical(enrolled) == Canonical(offered.value)
    ensures VerifyPin(digest, Pin(digest, Some(enrolled)).value, offered)
      <==> offered.Some? && offered.value != [] && multiset(Keys(enrolled)) == multiset(Keys(offered.value))
    ensures VerifyPin(digest, "", offered)
    ensures offered.None? || offered.value == [] ==> Pin(digest, offered).Err?
  {
    if offered.Some? && offered.value != [] {
      PinIsCanonical(digest, enrolled, offered.value);
    }
  }

  // ── SPIFFE names ───────────────────────────────────────────────────────────

  const NODE_PREFIX := "spiffe://spark-pulse/node/"

  function NodeSpiffeId(n: string): string { NODE_PREFIX + n }

  function NodeIdFromSpiffe(uri: string): Option<string> {
    if !(NODE_PREFIX <= uri) then None
    else
      var tail := uri[|NODE_PREFIX|..];
      if tail == "" || '/' in tail then None else Some(tail)
  }

  /** The two functions are inverse on exactly the ids that are non-empty and hold no slash. */
  lemma SpiffeRoundTrip(n: string, uri: string)
    ensures NodeIdFromSpiffe(NodeSpiffeId(n)) == Some(n) <==> n != "" && '/' !in n
    ensures NodeIdFromSpiffe(uri).Some? ==> NodeSpiffeId(NodeIdFromSpiffe(uri).value) == uri
    ensures NodeSpiffeId(n) == "spiffe://spark-pulse/node/" + n
  {
  }
}
