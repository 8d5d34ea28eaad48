/** The CDN health table: its records, how one observation updates them, and how the table is bounded. */
module CdnHealth {
  import opened Prelude
  import opened Ordering

  const HOST_TTL: nat := 24 * 60 * 60
  const REPRESENTATION_TTL: nat := 6 * 60 * 60
  const BASE_COOLDOWN: nat := 10
  const MAX_COOLDOWN: nat := 10 * 60
  const MAX_HOSTS: nat := 256
  const MAX_REPRESENTATIONS: nat := 512
  const MAX_ORIGINS_PER_REPRESENTATION: nat := 3
  const U32_MAX: nat := 0xFFFF_FFFF

  datatype HealthEvent = Success | TransportFailure

  datatype HostRecord = HostRecord(
    updatedAt: nat, eventSequence: nat, latest: HealthEvent, failures: nat, cooldownUntil: Option<nat>,
    throughput: Option<nat>, latency: Option<nat>, rangeSupported: Option<bool>)

  datatype RepresentationRecord = RepresentationRecord(
    digest: Text, origin: Text,
    updatedAt: nat, eventSequence: nat, latest: HealthEvent, failures: nat, cooldownUntil: Option<nat>,
    quarantinedUntil: Option<nat>, throughput: Option<nat>, latency: Option<nat>, rangeSupported: Option<bool>)

  datatype History = History(
    sequence: nat, hosts: map<Text, HostRecord>, representations: map<Text, RepresentationRecord>)

  datatype Source = Playback | Probe | DownloadShard

  datatype Outcome =
    | Complete | Partial | Cancelled | ConnectionFailure | Timeout | ServerFailure | SourceUnavailable
    | IntegrityMismatch

  /** Durations are in nanoseconds. */
  datatype Observation = Observation(
    source: Source, outcome: Outcome, bytes: nat, elapsed: Option<nat>, firstByte: Option<nat>,
    rangeSupported: Option<bool>)

  predicate IsTransportFailure(o: Outcome) {
    o.ConnectionFailure? || o.Timeout? || o.ServerFailure?
  }

  function MapKey(digest: Text, origin: Text): Text {
    digest + "|" + origin
  }

  // ---------------------------------------------------------------- one record

  /** The moving average; 128-bit intermediates do not overflow. */
  function Ewma(previous: Option<nat>, sample: nat): nat {
    if previous.None? then sample else (previous.value * 3 + sample) / 4
  }

  /** Ten seconds doubled per earlier failure, at most six times, capped at ten minutes. */
  function CooldownSecs(failures: nat): nat {
    Min(BASE_COOLDOWN * Pow2(Min(SaturatingSub(failures, 1), 6)), MAX_COOLDOWN)
  }

  function Pow2(n: nat): nat {
    if n == 0 then 1 else 2 * Pow2(n - 1)
  }

  /** The throughput sample in bits per second, if the observation carries one. */
  function ThroughputSample(o: Observation): Option<nat> {
    if o.source.DownloadShard? || o.elapsed.None? || o.elapsed.value == 0 then None
    else Some(Min((o.bytes * 8 * 1_000_000) / Max(o.elapsed.value / 1000, 1), U64_MAX))
  }

  function LatencySample(o: Observation): Option<nat> {
    if o.source.DownloadShard? || o.firstByte.None? then None
    else Some(Min(o.firstByte.value / 1000, U64_MAX))
  }

  function Absorb(previous: Option<nat>, sample: Option<nat>): Option<nat> {
    if sample.None? then previous else Some(Ewma(previous, sample.value))
  }

  function UpdateHost(e: HostRecord, o: Observation, now: nat, sequence: nat, failure: bool): HostRecord {
    if failure then
      var failures := Min(e.failures + 1, U32_MAX);
      HostRecord(now, sequence, TransportFailure, failures, Some(SaturatingAdd(now, CooldownSecs(failures))), None,
          None, None)
    else
      HostRecord(now, sequence, Success, 0, None,
                 Absorb(e.throughput, ThroughputSample(o)), Absorb(e.latency, LatencySample(o)),
                 if o.rangeSupported.Some? then o.rangeSupported else e.rangeSupported)
  }

  function UpdateRepresentation(e: RepresentationRecord, o: Observation, now: nat, sequence: nat, failure: bool,
                                mismatch: bool): RepresentationRecord {
    if mismatch then
      e.(updatedAt := now, eventSequence := sequence, quarantinedUntil := Some(SaturatingAdd(now, REPRESENTATION_TTL)),
         latest := TransportFailure, throughput := None, latency := None, rangeSupported := None)
    else if failure then
      var failures := Min(e.failures + 1, U32_MAX);
      e.(updatedAt := now, eventSequence := sequence, latest := TransportFailure, failures := failures,
         cooldownUntil := Some(SaturatingAdd(now, CooldownSecs(failures))),
         throughput := None, latency := None, rangeSupported := None)
    else if !o.outcome.Complete? then
      e.(updatedAt := now, eventSequence := sequence)
    else
      e.(updatedAt := now, eventSequence := sequence, latest := Success, failures := 0, cooldownUntil := None,
         quarantinedUntil := None, throughput := Absorb(e.throughput, ThroughputSample(o)),
         latency := Absorb(e.latency, LatencySample(o)),
         rangeSupported := if o.rangeSupported.Some? then o.rangeSupported else e.rangeSupported)
  }

  // ---------------------------------------------------------------- order of records

  /** Byte order on keys, the iteration order of the source's sorted maps. */
  predicate TextLess(a: Text, b: Text) {
    b != "" && (a == "" || a[0] < b[0] || (a[0] == b[0] && TextLess(a[1..], b[1..])))
  }

  lemma {:induction false} TextLessTransitive(a: Text, b: Text, c: Text)
    requires TextLess(a, b) && TextLess(b, c)
    ensures TextLess(a, c)
  {
    if a != "" && a[0] == b[0] && b[0] == c[0] {
      TextLessTransitive(a[1..], b[1..], c[1..]);
    }
  }

  lemma {:induction false} TextLessTotal(a: Text, b: Text)
    ensures TextLess(a, b) || TextLess(b, a) <==> a != b
    ensures !(TextLess(a, b) && TextLess(b, a))
  {
    if a != "" && b != "" {
      TextLessTotal(a[1..], b[1..]);
      assert a == [a[0]] + a[1..] && b == [b[0]] + b[1..];
    }
  }

  type Rank = Text -> (int, int)

  predicate RankLess(r: (int, int), s: (int, int)) {
    r.0 < s.0 || (r.0 == s.0 && r.1 < s.1)
  }

  predicate Precedes(rank: Rank, a: Text, b: Text) {
    RankLess(rank(a), rank(b)) || (rank(a) == rank(b) && TextLess(a, b))
  }

  /** A stable sort by `rank` over keys in byte order. */
  function RankBefore(rank: Rank): (Text, Text) -> bool {
    (a: Text, b: Text) => Precedes(rank, a, b)
  }

  lemma PrecedesTotal(rank: Rank, a: Text, b: Text)
    ensures Precedes(rank, a, b) || Precedes(rank, b, a) <==> a != b
  {
    TextLessTotal(a, b);
    RankTrichotomy(rank(a), rank(b));
  }

  lemma PrecedesTransitive(rank: Rank, a: Text, b: Text, c: Text)
    requires Precedes(rank, a, b) && Precedes(rank, b, c)
    ensures Precedes(rank, a, c)
  {
    if rank(a) == rank(b) && rank(b) == rank(c) {
      TextLessTransitive(a, b, c);
    }
  }

  lemma RankBeforeTotal(keys: set<Text>, rank: Rank)
    ensures StrictTotal(keys, RankBefore(rank))
  {
    forall a, b ensures Precedes(rank, a, b) || Precedes(rank, b, a) <==> a != b {
      PrecedesTotal(rank, a, b);
    }
    forall a, b, c | Precedes(rank, a, b) && Precedes(rank, b, c) ensures Precedes(rank, a, c) {
      PrecedesTransitive(rank, a, b, c);
    }
  }

  lemma RankTrichotomy(r: (int, int), s: (int, int))
    ensures RankLess(r, s) || RankLess(s, r) || r == s
  {
    assert r == (r.0, r.1) && s == (s.0, s.1);
  }

  function HostAge(hosts: map<Text, HostRecord>): Rank {
    (k: Text) => if k in hosts then (hosts[k].updatedAt, 0) else (0, 0)
  }

  function RepresentationAge(reps: map<Text, RepresentationRecord>): Rank {
    (k: Text) => if k in reps then (reps[k].updatedAt, 0) else (0, 0)
  }

  function Newness(updatedAt: nat, sequence: nat): (int, int) {
    (0 - updatedAt, 0 - sequence)
  }

  /** Newest first, later events first. */
  function Recency(reps: map<Text, RepresentationRecord>): Rank {
    (k: Text) => if k in reps then Newness(reps[k].updatedAt, reps[k].eventSequence) else (0, 0)
  }

  // ---------------------------------------------------------------- bounding the table

  /** The `n` first keys in rank order. */
  ghost function First(keys: set<Text>, rank: Rank, n: nat): set<Text> {
    Elements(Ordered(keys, RankBefore(rank))[..Min(n, |Ordered(keys, RankBefore(rank))|)])
  }

  /** The `n` first keys: that many of them, and each before every other key. */
  lemma FirstMeaning(keys: set<Text>, rank: Rank, n: nat)
    ensures First(keys, rank, n) <= keys
    ensures |First(keys, rank, n)| == Min(n, |keys|)
    ensures forall a, b :: a in First(keys, rank, n) && b in keys - First(keys, rank, n) ==> Precedes(rank, a, b)
  {
    FirstInOrder(keys, rank, n);
    var f := First(keys, rank, n);
    forall a, b | a in f && b in keys - f ensures Precedes(rank, a, b) {
      assert RankBefore(rank)(a, b);
    }
  }

  lemma FirstInOrder(keys: set<Text>, rank: Rank, n: nat)
    ensures First(keys, rank, n) <= keys
    ensures |First(keys, rank, n)| == Min(n, |keys|)
    ensures forall a, b :: a in First(keys, rank, n) && b in keys - First(keys, rank, n) ==> RankBefore(rank)(a, b)
  {
    var before := RankBefore(rank);
    RankBeforeTotal(keys, rank);
    SortSorts(Listing(keys), before);
    DistinctSize(Listing(keys));
    var s := Ordered(keys, before);
    AscendingDistinct(s, before);
    DistinctSize(s[..Min(n, |s|)]);
    SplitInOrder(s, Min(n, |s|), before);
  }

  lemma AscendingDistinct(s: seq<Text>, before: (Text, Text) -> bool)
    requires Ascending(s, before) && StrictTotal(Elements(s), before)
    ensures NoDuplicates(s)
  {
    forall i, j | 0 <= i < j < |s| ensures s[i] != s[j] {
      assert s[i] in Elements(s) && before(s[i], s[j]);
    }
  }

  lemma SplitInOrder(s: seq<Text>, m: nat, before: (Text, Text) -> bool)
    requires Ascending(s, before) && m <= |s|
    ensures Elements(s[..m]) <= Elements(s)
    ensures forall a, b :: a in Elements(s[..m]) && b in Elements(s) - Elements(s[..m]) ==> before(a, b)
  {
    forall a, b | a in Elements(s[..m]) && b in Elements(s) - Elements(s[..m]) ensures before(a, b) {
      var i :| 0 <= i < m && s[i] == a;
      var j :| 0 <= j < |s| && s[j] == b;
      assert forall x :: 0 <= x < m ==> s[x] in s[..m];
    }
  }

  lemma {:induction false} DistinctSize<T>(s: seq<T>)
    requires NoDuplicates(s)
    ensures |Elements(s)| == |s|
  {
    if s != [] {
      var front := s[..|s| - 1];
      DistinctSize(front);
      assert s == front + [s[|s| - 1]];
      assert Elements(s) == Elements(front) + {s[|s| - 1]};
      assert s[|s| - 1] !in Elements(front);
    }
  }

  /** The table cut down to `max` entries by dropping the oldest. */
  ghost function Capped<R>(m: map<Text, R>, rank: Rank, max: nat): map<Text, R> {
    if |m| <= max then m else m - First(m.Keys, rank, |m| - max)
  }

  lemma CappedIs<R>(m: map<Text, R>, rank: Rank, max: nat, gone: set<Text>)
    requires |m| > max && gone == First(m.Keys, rank, |m| - max)
    ensures Capped(m, rank, max) == m - gone && |m - gone| == max
  {
    FirstMeaning(m.Keys, rank, |m| - max);
    assert (m - gone).Keys == m.Keys - gone;
    assert |m - gone| == |(m - gone).Keys| && |m| == |m.Keys|;
  }

  lemma CappedFits<R>(m: map<Text, R>, rank: Rank, max: nat, c: map<Text, R>)
    requires c == Capped(m, rank, max)
    ensures |c| == Min(|m|, max)
    ensures c.Keys <= m.Keys
    ensures forall k :: k in c ==> c[k] == m[k]
  {
    if |m| > max {
      CappedIs(m, rank, max, First(m.Keys, rank, |m| - max));
    }
  }

  function FreshHosts(hosts: map<Text, HostRecord>, now: nat): map<Text, HostRecord> {
    map k | k in hosts && SaturatingSub(now, hosts[k].updatedAt) < HOST_TTL :: hosts[k]
  }

  function FreshRepresentations(reps: map<Text, RepresentationRecord>, now: nat): map<Text, RepresentationRecord> {
    map k | k in reps && SaturatingSub(now, reps[k].updatedAt) < REPRESENTATION_TTL :: reps[k]
  }

  ghost function PruneHosts(hosts: map<Text, HostRecord>, now: nat): map<Text, HostRecord> {
    Capped(FreshHosts(hosts, now), HostAge(FreshHosts(hosts, now)), MAX_HOSTS)
  }

  ghost function PruneRepresentations(reps: map<Text, RepresentationRecord>,
                                      now: nat): map<Text, RepresentationRecord> {
    Capped(FreshRepresentations(reps, now), RepresentationAge(FreshRepresentations(reps, now)), MAX_REPRESENTATIONS)
  }

  /** `prune` */
  ghost function Prune(h: History, now: nat): History {
    History(h.sequence, PruneHosts(h.hosts, now), PruneRepresentations(h.representations, now))
  }

  function KeysOfDigest(reps: map<Text, RepresentationRecord>, digest: Text): set<Text> {
    set k | k in reps && reps[k].digest == digest
  }

  /** `prune_representation_top_k`: only the three most recent origins of the digest stay. */
  ghost function TopK(reps: map<Text, RepresentationRecord>, digest: Text): map<Text, RepresentationRecord> {
    var keys := KeysOfDigest(reps, digest);
    reps - (keys - First(keys, Recency(reps), MAX_ORIGINS_PER_REPRESENTATION))
  }

  // ---------------------------------------------------------------- one observation

  function NewHost(now: nat, sequence: nat, latest: HealthEvent): HostRecord {
    HostRecord(now, sequence, latest, 0, None, None, None, None)
  }

  function NewRepresentation(digest: Text, origin: Text, now: nat, sequence: nat,
                             latest: HealthEvent): RepresentationRecord {
    RepresentationRecord(digest, origin, now, sequence, latest, 0, None, None, None, None, None)
  }

  predicate TouchesHost(o: Observation) {
    IsTransportFailure(o.outcome) || o.outcome.Complete?
  }

  predicate TouchesRepresentation(o: Observation) {
    IsTransportFailure(o.outcome) || o.outcome.Complete? || o.outcome.IntegrityMismatch?
  }

  function HostAfter(hosts: map<Text, HostRecord>, origin: Text, o: Observation, now: nat, sequence: nat): HostRecord {
    var entry := if origin in hosts then hosts[origin]
                 else NewHost(now, sequence, if o.outcome.Complete? then Success else TransportFailure);
    UpdateHost(entry, o, now, sequence, IsTransportFailure(o.outcome))
  }

  function RepresentationAfter(reps: map<Text, RepresentationRecord>, digest: Text, origin: Text, o: Observation,
                               now: nat, sequence: nat): RepresentationRecord {
    var key := MapKey(digest, origin);
    var entry := if key in reps then reps[key]
                 else NewRepresentation(digest, origin, now, sequence, if o.outcome.Complete?
                     then Success else TransportFailure);
    UpdateRepresentation(entry, o, now, sequence, IsTransportFailure(o.outcome), o.outcome.IntegrityMismatch?)
  }

  function HostsAfter(hosts: map<Text, HostRecord>, origin: Text, o: Observation, now: nat,
                      sequence: nat): map<Text, HostRecord> {
    if TouchesHost(o) then hosts[origin := HostAfter(hosts, origin, o, now, sequence)] else hosts
  }

  ghost function RepresentationsAfter(reps: map<Text, RepresentationRecord>, digest: Option<Text>, origin: Text,
                                      o: Observation, now: nat, sequence: nat): map<Text, RepresentationRecord> {
    if digest.Some? && TouchesRepresentation(o) then
      TopK(reps[MapKey(digest.value, origin) := RepresentationAfter(reps, digest.value, origin, o, now, sequence)],
          digest.value)
    else reps
  }

  /** What `record_at` does to the hosts: prune, update, prune. */
  ghost function RecordHosts(hosts: map<Text, HostRecord>, origin: Text, o: Observation, now: nat,
                             sequence: nat): map<Text, HostRecord> {
    PruneHosts(HostsAfter(PruneHosts(hosts, now), origin, o, now, sequence), now)
  }

  /** What `record_at` does to the representations: prune, update, keep three origins, prune. */
  ghost function RecordRepresentations(reps: map<Text, RepresentationRecord>, digest: Option<Text>, origin: Text,
                                       o: Observation, now: nat, sequence: nat): map<Text, RepresentationRecord> {
    PruneRepresentations(RepresentationsAfter(PruneRepresentations(reps, now), digest, origin, o, now, sequence), now)
  }

  /** `record_at` for a URL whose canonical origin is `origin`, up to the release of the state lock. */
  ghost function Record(h: History, origin: Text, o: Observation, digest: Option<Text>, now: nat): History {
    var sequence := SaturatingAdd(h.sequence, 1);
    History(sequence, RecordHosts(h.hosts, origin, o, now, sequence),
            RecordRepresentations(h.representations, digest, origin, o, now, sequence))
  }
}
