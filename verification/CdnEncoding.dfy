/** The byte string hashed to name a representation, and the keys built from the hash. */
module CdnEncoding {
  import opened Prelude
  import opened CdnHealth
  import opened CdnHealthRuns

  const MAX_CONTENT_ID_BYTES: nat := 256
  const MAX_CODEC_BYTES: nat := 128

  type Bytes = seq<nat>

  datatype MediaKind = Video | Audio | FlvSegment

  /** The fields of a media request that the digest depends on; `mediaKind` is the one of its cache key. */
  datatype Request = Request(
    kind: MediaKind, contentId: Text, mediaKind: MediaKind, streamId: Option<nat>, codecs: Option<Text>,
    width: Option<nat>, height: Option<nat>, size: Option<nat>, bandwidth: Option<nat>, durationSeconds: Option<nat>)

  predicate FitsOption(v: Option<nat>, max: nat) {
    v.Some? ==> v.value <= max
  }

  /** The integer widths of the source's fields. */
  predicate Typed(r: Request) {
    && FitsOption(r.streamId, U32_MAX) && FitsOption(r.width, U32_MAX) && FitsOption(r.height, U32_MAX)
    && FitsOption(r.durationSeconds, U32_MAX) && FitsOption(r.size, U64_MAX) && FitsOption(r.bandwidth, U64_MAX)
  }

  predicate Eligible(r: Request) {
    && !r.kind.FlvSegment?
    && 0 < |r.contentId| <= MAX_CONTENT_ID_BYTES
    && (r.codecs.Some? ==> |r.codecs.value| <= MAX_CODEC_BYTES)
  }

  // ---------------------------------------------------------------- encoders

  function BytesOf(t: Text): (b: Bytes)
    ensures |b| == |t|
    ensures forall i :: 0 <= i < |t| ==> b[i] == t[i] as nat
  {
    seq(|t|, i requires 0 <= i < |t| => t[i] as nat)
  }

  /** Big-endian bytes. */
  function BigEndian(n: nat, width: nat): (b: Bytes)
    ensures |b| == width
  {
    if width == 0 then [] else BigEndian(n / 256, width - 1) + [n % 256]
  }

  function HashField(value: Bytes): Bytes {
    BigEndian(|value|, 8) + value
  }

  function HashOptional(value: Option<Bytes>): Bytes {
    match value
    case Some(v) => [1] + HashField(v)
    case None => [0]
  }

  function OptionalText(t: Option<Text>): Option<Bytes> {
    match t case Some(v) => Some(BytesOf(v)) case None => None
  }

  function OptionalNumber(n: Option<nat>, width: nat): Option<Bytes> {
    match n case Some(v) => Some(BigEndian(v, width)) case None => None
  }

  function DebugName(k: MediaKind): Text {
    match k case Video => "Video" case Audio => "Audio" case FlvSegment => "FlvSegment"
  }

  /** The optional fields in the order they are hashed. */
  function OptionalFields(r: Request): (f: seq<Option<Bytes>>)
    ensures |f| == 7
  {
    [OptionalNumber(r.streamId, 4), OptionalText(r.codecs), OptionalNumber(r.width, 4), OptionalNumber(r.height, 4),
     OptionalNumber(r.size, 8), OptionalNumber(r.bandwidth, 8), OptionalNumber(r.durationSeconds, 4)]
  }

  function HashEach(fields: seq<Option<Bytes>>): Bytes {
    if fields == [] then [] else HashOptional(fields[0]) + HashEach(fields[1..])
  }

  /** Everything fed to the hash by `representation_digest`. */
  function HashedBytes(r: Request): Bytes {
    HashField(BytesOf(r.contentId)) + (HashField(BytesOf(DebugName(r.mediaKind))) + HashEach(OptionalFields(r)))
  }

  // ---------------------------------------------------------------- prefix-free parts

  function Pow256(w: nat): (p: nat)
    ensures p > 0
  {
    if w == 0 then 1 else 256 * Pow256(w - 1)
  }

  lemma {:induction false} BigEndianInjective(m: nat, n: nat, width: nat)
    requires m < Pow256(width) && n < Pow256(width) && BigEndian(m, width) == BigEndian(n, width)
    ensures m == n
  {
    if width > 0 {
      var p, q := BigEndian(m / 256, width - 1), BigEndian(n / 256, width - 1);
      assert BigEndian(m, width)[width - 1] == m % 256 && BigEndian(n, width)[width - 1] == n % 256;
      assert p == BigEndian(m, width)[..width - 1] && q == BigEndian(n, width)[..width - 1];
      BigEndianInjective(m / 256, n / 256, width - 1);
    }
  }

  /** The number a list of bytes stands for, the most significant first. */
  function NumberOf(b: Bytes): nat {
    if b == [] then 0 else NumberOf(b[..|b| - 1]) * 256 + b[|b| - 1]
  }

  lemma {:induction false} BigEndianMeaning(n: nat, width: nat)
    requires n < Pow256(width)
    ensures NumberOf(BigEndian(n, width)) == n && forall i :: 0 <= i < width ==> BigEndian(n, width)[i] < 256
  {
    if width > 0 {
      BigEndianMeaning(n / 256, width - 1);
      assert BigEndian(n, width)[..width - 1] == BigEndian(n / 256, width - 1);
    }
  }

  lemma Widths()
    ensures Pow256(4) == U32_MAX + 1 && Pow256(8) == U64_MAX + 1
  {
    assert Pow256(4) == 0x1_0000_0000;
    assert Pow256(5) == 0x100_0000_0000 && Pow256(6) == 0x1_0000_0000_0000 && Pow256(7) == 0x100_0000_0000_0000;
  }

  lemma FieldPrefix(a: Bytes, b: Bytes, x: Bytes, y: Bytes)
    requires |a| <= U64_MAX && |b| <= U64_MAX && HashField(a) + x == HashField(b) + y
    ensures a == b && x == y
  {
    var s, t := HashField(a) + x, HashField(b) + y;
    assert s[..8] == BigEndian(|a|, 8) && t[..8] == BigEndian(|b|, 8);
    Widths();
    BigEndianInjective(|a|, |b|, 8);
    assert a == s[8..8 + |a|] && b == t[8..8 + |b|];
    assert x == s[8 + |a|..] && y == t[8 + |b|..];
  }

  predicate FitsField(v: Option<Bytes>) {
    v.Some? ==> |v.value| <= U64_MAX
  }

  function Body(v: Option<Bytes>): Bytes {
    match v case Some(b) => HashField(b) case None => []
  }

  lemma Tagged(v: Option<Bytes>, x: Bytes)
    ensures HashOptional(v) + x == [if v.Some? then 1 else 0] + (Body(v) + x)
  {
    if v.Some? {
      assert [1] + HashField(v.value) + x == [1] + (HashField(v.value) + x);
    } else {
      assert [] + x == x;
    }
  }

  lemma SameAfterTag(m: nat, n: nat, x: Bytes, y: Bytes)
    requires [m] + x == [n] + y
    ensures m == n && x == y
  {
    assert ([m] + x)[0] == m && ([n] + y)[0] == n;
    assert ([m] + x)[1..] == x && ([n] + y)[1..] == y;
  }

  lemma OptionalPrefix(a: Option<Bytes>, b: Option<Bytes>, x: Bytes, y: Bytes)
    requires FitsField(a) && FitsField(b) && HashOptional(a) + x == HashOptional(b) + y
    ensures a == b && x == y
  {
    Tagged(a, x);
    Tagged(b, y);
    SameAfterTag(if a.Some? then 1 else 0, if b.Some? then 1 else 0, Body(a) + x, Body(b) + y);
    if a.Some? {
      FieldPrefix(a.value, b.value, x, y);
    } else {
      assert [] + x == x && [] + y == y;
    }
  }

  lemma {:induction false} EachInjective(a: seq<Option<Bytes>>, b: seq<Option<Bytes>>)
    requires |a| == |b| && HashEach(a) == HashEach(b)
    requires forall i :: 0 <= i < |a| ==> FitsField(a[i]) && FitsField(b[i])
    ensures a == b
  {
    if a != [] {
      OptionalPrefix(a[0], b[0], HashEach(a[1..]), HashEach(b[1..]));
      EachInjective(a[1..], b[1..]);
      assert a == [a[0]] + a[1..] && b == [b[0]] + b[1..];
    }
  }

  lemma TextInjective(a: Text, b: Text)
    requires BytesOf(a) == BytesOf(b)
    ensures a == b
  {
    forall i | 0 <= i < |a| ensures a[i] == b[i] {
      assert BytesOf(a)[i] == BytesOf(b)[i];
    }
  }

  lemma NumberInjective(m: Option<nat>, n: Option<nat>, width: nat)
    requires FitsOption(m, Pow256(width) - 1) && FitsOption(n, Pow256(width) - 1)
    requires OptionalNumber(m, width) == OptionalNumber(n, width)
    ensures m == n
  {
    if m.Some? {
      BigEndianInjective(m.value, n.value, width);
    }
  }

  lemma OptionalFieldsFit(r: Request)
    requires Eligible(r)
    ensures forall i :: 0 <= i < 7 ==> FitsField(OptionalFields(r)[i])
  {
  }

  // ---------------------------------------------------------------- injectivity

  lemma OptionalFieldsInjective(q: Request, r: Request)
    requires Typed(q) && Typed(r) && OptionalFields(q) == OptionalFields(r)
    ensures q.streamId == r.streamId && q.codecs == r.codecs && q.width == r.width && q.height == r.height
    ensures q.size == r.size && q.bandwidth == r.bandwidth && q.durationSeconds == r.durationSeconds
  {
    var f, g := OptionalFields(q), OptionalFields(r);
    Widths();
    assert f[0] == g[0] && f[1] == g[1] && f[2] == g[2] && f[3] == g[3] && f[4] == g[4] && f[5] == g[5] && f[6] == g[6];
    NumberInjective(q.streamId, r.streamId, 4);
    NumberInjective(q.width, r.width, 4);
    NumberInjective(q.height, r.height, 4);
    NumberInjective(q.size, r.size, 8);
    NumberInjective(q.bandwidth, r.bandwidth, 8);
    NumberInjective(q.durationSeconds, r.durationSeconds, 4);
    if q.codecs.Some? {
      TextInjective(q.codecs.value, r.codecs.value);
    }
  }

  /** Two eligible requests are hashed from the same bytes only if they agree on every hashed field. */
  lemma HashedBytesInjective(q: Request, r: Request)
    requires Typed(q) && Typed(r) && Eligible(q) && Eligible(r)
    ensures HashedBytes(q) == HashedBytes(r) <==> q.(kind := r.kind) == r
  {
    if HashedBytes(q) == HashedBytes(r) {
      FieldPrefix(BytesOf(q.contentId), BytesOf(r.contentId),
                  HashField(BytesOf(DebugName(q.mediaKind))) + HashEach(OptionalFields(q)),
                  HashField(BytesOf(DebugName(r.mediaKind))) + HashEach(OptionalFields(r)));
      TextInjective(q.contentId, r.contentId);
      FieldPrefix(BytesOf(DebugName(q.mediaKind)), BytesOf(DebugName(r.mediaKind)), HashEach(OptionalFields(q)),
          HashEach(OptionalFields(r)));
      TextInjective(DebugName(q.mediaKind), DebugName(r.mediaKind));
      NamesDiffer(q.mediaKind, r.mediaKind);
      OptionalFieldsFit(q);
      OptionalFieldsFit(r);
      EachInjective(OptionalFields(q), OptionalFields(r));
      OptionalFieldsInjective(q, r);
    } else {
      assert q.(kind := r.kind) == r ==> HashedBytes(q) == HashedBytes(r);
    }
  }

  lemma NamesDiffer(a: MediaKind, b: MediaKind)
    requires DebugName(a) == DebugName(b)
    ensures a == b
  {
    assert DebugName(a)[0] == DebugName(b)[0];
  }

  // ---------------------------------------------------------------- digests

  function HexCharacter(n: nat): (c: char)
    requires n < 16
    ensures HexDigit(c)
  {
    if n < 10 then '0' + n as char else 'a' + (n - 10) as char
  }

  /** Two lower-case hexadecimal digits for each byte. */
  function HexOf(bytes: Bytes): (t: Text)
    requires forall i :: 0 <= i < |bytes| ==> bytes[i] < 256
    ensures |t| == 2 * |bytes| && forall i :: 0 <= i < |t| ==> HexDigit(t[i])
  {
    if bytes == [] then "" else [HexCharacter(bytes[0] / 16), HexCharacter(bytes[0] % 16)] + HexOf(bytes[1..])
  }

  /** The high digit of each byte, then the low one, in lower case. */
  lemma {:induction false} HexMeaning(bytes: Bytes, i: nat)
    requires (forall j :: 0 <= j < |bytes| ==> bytes[j] < 256) && i < |bytes|
    ensures HexOf(bytes)[2 * i] == "0123456789abcdef"[bytes[i] / 16]
    ensures HexOf(bytes)[2 * i + 1] == "0123456789abcdef"[bytes[i] % 16]
  {
    if i == 0 {
      HexCharacterIs(bytes[0] / 16);
      HexCharacterIs(bytes[0] % 16);
    } else {
      HexMeaning(bytes[1..], i - 1);
    }
  }

  lemma HexCharacterIs(n: nat)
    requires n < 16
    ensures HexCharacter(n) == "0123456789abcdef"[n]
  {
  }

  lemma HexCharacterInjective(m: nat, n: nat)
    requires m < 16 && n < 16 && HexCharacter(m) == HexCharacter(n)
    ensures m == n
  {
  }

  lemma HexHead(bytes: Bytes, rest: Text)
    requires bytes != [] && (forall i :: 0 <= i < |bytes| ==> bytes[i] < 256) && rest == HexOf(bytes[1..])
    ensures HexOf(bytes)[0] == HexCharacter(bytes[0] / 16) && HexOf(bytes)[1] == HexCharacter(bytes[0] % 16)
    ensures HexOf(bytes)[2..] == rest
  {
  }

  lemma {:induction false} HexInjective(a: Bytes, b: Bytes)
    requires forall i :: 0 <= i < |a| ==> a[i] < 256
    requires forall i :: 0 <= i < |b| ==> b[i] < 256
    requires HexOf(a) == HexOf(b)
    ensures a == b
  {
    assert |a| == |b|;
    if a != [] {
      HexHead(a, HexOf(a[1..]));
      HexHead(b, HexOf(b[1..]));
      HexCharacterInjective(a[0] / 16, b[0] / 16);
      HexCharacterInjective(a[0] % 16, b[0] % 16);
      HexInjective(a[1..], b[1..]);
      assert a == [a[0]] + a[1..] && b == [b[0]] + b[1..];
    }
  }

  /** SHA-256 is foreign: any function to 32 bytes. */
  ghost predicate IsHash(hash: Bytes -> Bytes) {
    forall b :: |hash(b)| == 32 && forall i :: 0 <= i < 32 ==> hash(b)[i] < 256
  }

  /** `representation_digest` */
  function RepresentationDigest(hash: Bytes -> Bytes, r: Request): (d: Option<Text>)
    requires forall i :: 0 <= i < |hash(HashedBytes(r))| ==> hash(HashedBytes(r))[i] < 256
  {
    if !Eligible(r) then None else Some(HexOf(hash(HashedBytes(r))))
  }

  /** A request has a digest exactly when it is no FLV segment and its content id and codecs have their size. */
  lemma DigestExists(hash: Bytes -> Bytes, r: Request)
    requires IsHash(hash)
    ensures RepresentationDigest(hash, r).Some? <==>
              r.kind != FlvSegment && 1 <= |r.contentId| <= 256 && (r.codecs.Some? ==> |r.codecs.value| <= 128)
  {
  }

  /** Every digest is 64 hexadecimal digits, and two eligible requests share one only if their hashes collide
      or they agree on every hashed field. */
  lemma DigestsSeparateRequests(hash: Bytes -> Bytes, q: Request, r: Request)
    requires IsHash(hash) && Typed(q) && Typed(r) && Eligible(q) && Eligible(r)
    ensures var d, e := RepresentationDigest(hash, q), RepresentationDigest(hash, r);
            && d.Some? && e.Some? && HexDigest(d.value) && HexDigest(e.value)
            && (d == e <==> q.(kind := r.kind) == r || Collide(hash, HashedBytes(q), HashedBytes(r)))
  {
    HashedBytesInjective(q, r);
    if RepresentationDigest(hash, q) == RepresentationDigest(hash, r) {
      HexInjective(hash(HashedBytes(q)), hash(HashedBytes(r)));
    }
  }

  predicate Collide(hash: Bytes -> Bytes, a: Bytes, b: Bytes) {
    a != b && hash(a) == hash(b)
  }

  /** So the table keys of different requests or different origins differ. */
  lemma KeysSeparateRequests(hash: Bytes -> Bytes, q: Request, r: Request, o1: Text, o2: Text)
    requires IsHash(hash) && Typed(q) && Typed(r) && Eligible(q) && Eligible(r)
    requires !Collide(hash, HashedBytes(q), HashedBytes(r))
    ensures var d, e := RepresentationDigest(hash, q), RepresentationDigest(hash, r);
            d.Some? && e.Some? && (MapKey(d.value, o1) == MapKey(e.value, o2) <==> q.(kind := r.kind) == r && o1 == o2)
  {
    DigestsSeparateRequests(hash, q, r);
    MapKeyInjective(RepresentationDigest(hash, q).value, o1, RepresentationDigest(hash, r).value, o2);
  }
}
