/** What every run of observations and rankings keeps true of the CDN health table. */
module CdnHealthRuns {
  import opened Prelude
  import opened CdnHealth

  /** `canonical_origin`: URL parsing is foreign; only its idempotence matters. */
  type Origins = Text -> Option<Text>

  ghost predicate Idempotent(origins: Origins) {
    forall u :: origins(u).Some? ==> origins(origins(u).value) == origins(u)
  }

  /** Rankings prune the table before they read it. */
  datatype Event =
    | Observed(url: Text, observation: Observation, digest: Option<Text>, now: nat)
    | Ranked(now: nat)

  ghost function Apply(origins: Origins, h: History, e: Event): History {
    match e
    case Ranked(now) => Prune(h, now)
    case Observed(url, o, digest, now) =>
      if origins(url).None? then h else Record(h, origins(url).value, o, digest, now)
  }

  ghost function Run(origins: Origins, h: History, events: seq<Event>): History {
    if events == [] then h
    else Apply(origins, Run(origins, h, events[..|events| - 1]), events[|events| - 1])
  }

  const EMPTY: History := History(0, map[], map[])

  // ---------------------------------------------------------------- tables one after another

  ghost predicate StepAt(origins: Origins, tables: seq<History>, events: seq<Event>, i: nat)
    requires i < |events| && |tables| == |events| + 1
  {
    tables[i + 1] == Apply(origins, tables[i], events[i])
  }

  /** The tables of a run. */
  ghost predicate Tables(origins: Origins, start: History, tables: seq<History>, events: seq<Event>) {
    && |tables| == |events| + 1 && tables[0] == start
    && forall i :: 0 <= i < |events| ==> StepAt(origins, tables, events, i)
  }

  lemma {:induction false} TablesReachRun(origins: Origins, start: History, tables: seq<History>, events: seq<Event>,
                                          n: nat)
    requires Tables(origins, start, tables, events) && n <= |events|
    ensures tables[n] == Run(origins, start, events[..n])
  {
    if n > 0 {
      TablesReachRun(origins, start, tables, events, n - 1);
      assert StepAt(origins, tables, events, n - 1);
      assert events[..n][..n - 1] == events[..n - 1];
    }
  }

  lemma TableStep(origins: Origins, start: History, tables: seq<History>, events: seq<Event>, i: nat, e: Event)
    requires Tables(origins, start, tables, events) && i < |events| && events[i] == e
    ensures tables[i + 1] == Apply(origins, tables[i], e)
  {
    assert StepAt(origins, tables, events, i);
  }

  lemma EarlierStep(origins: Origins, before: seq<History>, tables: seq<History>, events: seq<Event>, n: nat, i: nat)
    requires |events| == n + 1 && |before| == n + 1 && |tables| == n + 2 && tables[..n + 1] == before
    requires i < n && StepAt(origins, before, events[..n], i)
    ensures StepAt(origins, tables, events, i)
  {
    assert tables[..n + 1][i] == tables[i] && tables[..n + 1][i + 1] == tables[i + 1];
  }

  lemma TablesExtend(origins: Origins, start: History, before: seq<History>, tables: seq<History>, events: seq<Event>,
                     n: nat)
    requires |events| == n + 1 && Tables(origins, start, before, events[..n]) && |tables| == n + 2
             && tables[..n + 1] == before
    requires StepAt(origins, tables, events, n)
    ensures Tables(origins, start, tables, events)
  {
    assert tables[..n + 1][0] == tables[0];
    forall i | 0 <= i < |events| ensures StepAt(origins, tables, events, i) {
      if i < n {
        EarlierStep(origins, before, tables, events, n, i);
      }
    }
  }

  lemma {:induction false} TablesExist(origins: Origins, start: History, events: seq<Event>)
    returns (tables: seq<History>)
    ensures Tables(origins, start, tables, events)
  {
    if events == [] {
      tables := [start];
    } else {
      var n := |events| - 1;
      var before := TablesExist(origins, start, events[..n]);
      tables := before + [Apply(origins, before[n], events[n])];
      TablesExtend(origins, start, before, tables, events, n);
    }
  }

  // ---------------------------------------------------------------- sub-tables

  ghost predicate SubTable<R(!new)>(a: map<Text, R>, b: map<Text, R>) {
    forall k :: k in a ==> k in b && a[k] == b[k]
  }

  lemma PruneHostsShrinks(hosts: map<Text, HostRecord>, now: nat)
    ensures SubTable(PruneHosts(hosts, now), hosts)
    ensures |PruneHosts(hosts, now)| <= MAX_HOSTS
    ensures forall k :: k in PruneHosts(hosts, now) ==> SaturatingSub(now, hosts[k].updatedAt) < HOST_TTL
  {
    var f := FreshHosts(hosts, now);
    CappedFits(f, HostAge(f), MAX_HOSTS, PruneHosts(hosts, now));
  }

  lemma PruneRepresentationsShrinks(reps: map<Text, RepresentationRecord>, now: nat)
    ensures SubTable(PruneRepresentations(reps, now), reps)
    ensures |PruneRepresentations(reps, now)| <= MAX_REPRESENTATIONS
    ensures forall k :: k in PruneRepresentations(reps, now) ==>
            SaturatingSub(now, reps[k].updatedAt) < REPRESENTATION_TTL
  {
    var f := FreshRepresentations(reps, now);
    CappedFits(f, RepresentationAge(f), MAX_REPRESENTATIONS, PruneRepresentations(reps, now));
  }

  /** What `prune` keeps of a table: everything young enough if that fits, and else the youngest. */
  ghost predicate KeepsYoungest<R(!new)>(all: map<Text, R>, kept: map<Text, R>, time: R -> nat, now: nat, ttl: nat,
                                         max: nat) {
    && SubTable(kept, all) && |kept| <= max
    && (forall k :: k in kept ==> SaturatingSub(now, time(all[k])) < ttl)
    && (|kept| < max ==> forall k :: k in all && SaturatingSub(now, time(all[k])) < ttl ==> k in kept)
    && (forall k, m :: k in all && SaturatingSub(now, time(all[k])) < ttl && k !in kept && m in kept ==>
         time(all[k]) <= time(all[m]))
  }

  /** Everything in `gone` is at most as young as anything else. */
  ghost predicate AreOldest<R(!new)>(m: map<Text, R>, gone: set<Text>, time: R -> nat) {
    forall k, l :: k in m && k in gone && l in m && l !in gone ==> time(m[k]) <= time(m[l])
  }

  lemma FirstAreOldest<R(!new)>(m: map<Text, R>, rank: Rank, n: nat, time: R -> nat, gone: set<Text>)
    requires gone == First(m.Keys, rank, n) && forall k :: k in m ==> rank(k) == (time(m[k]), 0)
    ensures AreOldest(m, gone, time)
  {
    FirstMeaning(m.Keys, rank, n);
    forall k, l | k in m && k in gone && l in m && l !in gone ensures time(m[k]) <= time(m[l]) {
      assert Precedes(rank, k, l);
    }
  }

  lemma WithoutOldest<R(!new)>(m: map<Text, R>, gone: set<Text>, time: R -> nat)
    requires AreOldest(m, gone, time)
    ensures forall k, n :: k in m && k !in m - gone && n in m - gone ==> time(m[k]) <= time(m[n])
  {
  }

  lemma CappedKeepsYoungest<R(!new)>(m: map<Text, R>, rank: Rank, max: nat, c: map<Text, R>, time: R -> nat)
    requires c == Capped(m, rank, max) && forall k :: k in m ==> rank(k) == (time(m[k]), 0)
    ensures |c| < max ==> c == m
    ensures forall k, n :: k in m && k !in c && n in c ==> time(m[k]) <= time(m[n])
  {
    if |m| > max {
      var gone := First(m.Keys, rank, |m| - max);
      FirstAreOldest(m, rank, |m| - max, time, gone);
      CappedIs(m, rank, max, gone);
      WithoutOldest(m, gone, time);
    }
  }

  lemma PruneHostsMeaning(hosts: map<Text, HostRecord>, now: nat)
    ensures KeepsYoungest(hosts, PruneHosts(hosts, now), (r: HostRecord) => r.updatedAt, now, 24 * 60 * 60, 256)
  {
    var f := FreshHosts(hosts, now);
    PruneHostsShrinks(hosts, now);
    CappedKeepsYoungest(f, HostAge(f), MAX_HOSTS, PruneHosts(hosts, now), (r: HostRecord) => r.updatedAt);
  }

  lemma PruneRepresentationsMeaning(reps: map<Text, RepresentationRecord>, now: nat)
    ensures KeepsYoungest(reps, PruneRepresentations(reps, now), (r: RepresentationRecord) => r.updatedAt, now,
                          6 * 60 * 60, 512)
  {
    var f := FreshRepresentations(reps, now);
    PruneRepresentationsShrinks(reps, now);
    CappedKeepsYoungest(f, RepresentationAge(f), MAX_REPRESENTATIONS, PruneRepresentations(reps, now),
                        (r: RepresentationRecord) => r.updatedAt);
  }

  lemma PruneHostsAgain(hosts: map<Text, HostRecord>, now: nat)
    requires |hosts| <= MAX_HOSTS
    requires forall k :: k in hosts ==> SaturatingSub(now, hosts[k].updatedAt) < HOST_TTL
    ensures PruneHosts(hosts, now) == hosts
  {
    assert FreshHosts(hosts, now) == hosts;
  }

  lemma PruneRepresentationsAgain(reps: map<Text, RepresentationRecord>, now: nat)
    requires |reps| <= MAX_REPRESENTATIONS
    requires forall k :: k in reps ==> SaturatingSub(now, reps[k].updatedAt) < REPRESENTATION_TTL
    ensures PruneRepresentations(reps, now) == reps
  {
    assert FreshRepresentations(reps, now) == reps;
  }

  /** Pruning twice at one time is pruning once. */
  lemma PruneIdempotent(h: History, now: nat)
    ensures Prune(Prune(h, now), now) == Prune(h, now)
  {
    PruneHostsShrinks(h.hosts, now);
    PruneRepresentationsShrinks(h.representations, now);
    PruneHostsAgain(PruneHosts(h.hosts, now), now);
    PruneRepresentationsAgain(PruneRepresentations(h.representations, now), now);
  }

  lemma TopKShrinks(reps: map<Text, RepresentationRecord>, digest: Text)
    ensures SubTable(TopK(reps, digest), reps)
    ensures KeysOfDigest(TopK(reps, digest), digest)
            == First(KeysOfDigest(reps, digest), Recency(reps), MAX_ORIGINS_PER_REPRESENTATION)
    ensures |KeysOfDigest(TopK(reps, digest), digest)| <= MAX_ORIGINS_PER_REPRESENTATION
    ensures forall d :: d != digest ==> KeysOfDigest(TopK(reps, digest), d) == KeysOfDigest(reps, d)
  {
    var keys := KeysOfDigest(reps, digest);
    FirstMeaning(keys, Recency(reps), MAX_ORIGINS_PER_REPRESENTATION);
    var kept := First(keys, Recency(reps), MAX_ORIGINS_PER_REPRESENTATION);
    assert KeysOfDigest(TopK(reps, digest), digest) == kept;
  }

  /** Event `a` of a representation is later than `b`; of two at once the one under the lesser key counts as later. */
  predicate Later(reps: map<Text, RepresentationRecord>, a: Text, b: Text)
    requires a in reps && b in reps
  {
    var x, y := reps[a], reps[b];
    || y.updatedAt < x.updatedAt
    || (y.updatedAt == x.updatedAt && y.eventSequence < x.eventSequence)
    || (y.updatedAt == x.updatedAt && y.eventSequence == x.eventSequence && TextLess(a, b))
  }

  /** What stays of one digest: its three latest records; other digests are left alone. */
  lemma TopKMeaning(reps: map<Text, RepresentationRecord>, digest: Text)
    ensures SubTable(TopK(reps, digest), reps)
    ensures forall k :: k in reps && reps[k].digest != digest ==> k in TopK(reps, digest)
    ensures |KeysOfDigest(TopK(reps, digest), digest)| == Min(3, |KeysOfDigest(reps, digest)|)
    ensures forall a, b ::
              a in TopK(reps, digest) && reps[a].digest == digest && b in reps && b !in TopK(reps, digest) ==>
                Later(reps, a, b)
  {
    TopKShrinks(reps, digest);
    var keys, kept := KeysOfDigest(reps, digest), KeysOfDigest(TopK(reps, digest), digest);
    FirstMeaning(keys, Recency(reps), 3);
    forall a, b | a in TopK(reps, digest) && reps[a].digest == digest && b in reps && b !in TopK(reps, digest)
      ensures Later(reps, a, b)
    {
      assert a in kept && b in keys - kept;
      assert Precedes(Recency(reps), a, b);
    }
  }

  // ---------------------------------------------------------------- bounds

  ghost predicate FewOrigins(reps: map<Text, RepresentationRecord>) {
    forall d :: |KeysOfDigest(reps, d)| <= 3
  }

  ghost predicate Bounded(h: History) {
    |h.hosts| <= 256 && |h.representations| <= 512 && FewOrigins(h.representations)
  }

  lemma SubTableKeepsFew(a: map<Text, RepresentationRecord>, b: map<Text, RepresentationRecord>)
    requires SubTable(a, b) && FewOrigins(b)
    ensures FewOrigins(a)
  {
    forall d ensures |KeysOfDigest(a, d)| <= MAX_ORIGINS_PER_REPRESENTATION {
      assert KeysOfDigest(a, d) <= KeysOfDigest(b, d);
      SubsetSize(KeysOfDigest(a, d), KeysOfDigest(b, d));
    }
  }

  lemma PruneKeepsFew(h: History, now: nat)
    requires FewOrigins(h.representations)
    ensures Bounded(Prune(h, now))
  {
    PruneHostsShrinks(h.hosts, now);
    PruneRepresentationsShrinks(h.representations, now);
    SubTableKeepsFew(PruneRepresentations(h.representations, now), h.representations);
  }

  lemma OtherDigestsUnchanged(reps: map<Text, RepresentationRecord>, digest: Text, origin: Text, o: Observation,
                              now: nat, sequence: nat, d: Text)
    requires d != digest
    ensures KeysOfDigest(reps[MapKey(digest, origin) := RepresentationAfter(reps, digest, origin, o, now, sequence)], d)
         == KeysOfDigest(reps, d)
  {
  }

  lemma RepresentationsAfterKeepsFew(reps: map<Text, RepresentationRecord>, digest: Option<Text>, origin: Text,
                                     o: Observation, now: nat, sequence: nat)
    requires FewOrigins(reps)
    ensures FewOrigins(RepresentationsAfter(reps, digest, origin, o, now, sequence))
  {
    if digest.Some? && TouchesRepresentation(o) {
      var record := RepresentationAfter(reps, digest.value, origin, o, now, sequence);
      var added := reps[MapKey(digest.value, origin) := record];
      TopKKeepsFew(added, digest.value) by {
        forall d | d != digest.value ensures |KeysOfDigest(added, d)| <= MAX_ORIGINS_PER_REPRESENTATION {
          OtherDigestsUnchanged(reps, digest.value, origin, o, now, sequence, d);
        }
      }
    }
  }

  lemma TopKKeepsFew(reps: map<Text, RepresentationRecord>, digest: Text)
    requires forall d :: d != digest ==> |KeysOfDigest(reps, d)| <= MAX_ORIGINS_PER_REPRESENTATION
    ensures FewOrigins(TopK(reps, digest))
  {
    TopKShrinks(reps, digest);
  }

  lemma RecordIsBounded(h: History, origin: Text, o: Observation, digest: Option<Text>, now: nat)
    requires FewOrigins(h.representations)
    ensures Bounded(Record(h, origin, o, digest, now))
  {
    var sequence := SaturatingAdd(h.sequence, 1);
    PruneHostsShrinks(HostsAfter(PruneHosts(h.hosts, now), origin, o, now, sequence), now);
    RecordRepresentationsKeepsFew(h.representations, digest, origin, o, now, sequence);
  }

  lemma RecordRepresentationsKeepsFew(reps: map<Text, RepresentationRecord>, digest: Option<Text>, origin: Text,
                                      o: Observation, now: nat, sequence: nat)
    requires FewOrigins(reps)
    ensures FewOrigins(RecordRepresentations(reps, digest, origin, o, now, sequence))
    ensures |RecordRepresentations(reps, digest, origin, o, now, sequence)| <= MAX_REPRESENTATIONS
  {
    var p := PruneRepresentations(reps, now);
    PruneRepresentationsShrinks(reps, now);
    SubTableKeepsFew(p, reps);
    RepresentationsAfterKeepsFew(p, digest, origin, o, now, sequence);
    var after := RepresentationsAfter(p, digest, origin, o, now, sequence);
    PruneRepresentationsShrinks(after, now);
    SubTableKeepsFew(PruneRepresentations(after, now), after);
  }

  /** The table stays within 256 hosts, 512 representations and 3 origins per digest, whatever the clock does. */
  lemma {:induction false} RunIsBounded(origins: Origins, h: History, events: seq<Event>)
    requires Bounded(h)
    ensures Bounded(Run(origins, h, events))
  {
    if events != [] {
      var before := Run(origins, h, events[..|events| - 1]);
      RunIsBounded(origins, h, events[..|events| - 1]);
      match events[|events| - 1]
      case Ranked(now) => PruneKeepsFew(before, now);
      case Observed(url, o, digest, now) =>
        if origins(url).Some? {
          RecordIsBounded(before, origins(url).value, o, digest, now);
        }
    }
  }

  // ---------------------------------------------------------------- record invariants

  predicate HexDigit(c: char) {
    '0' <= c <= '9' || 'a' <= c <= 'f' || 'A' <= c <= 'F'
  }

  predicate HexDigest(d: Text) {
    |d| == 64 && forall i :: 0 <= i < |d| ==> HexDigit(d[i])
  }

  /** `representation_map_key` keeps digest and origin apart. */
  lemma MapKeyInjective(d1: Text, o1: Text, d2: Text, o2: Text)
    requires HexDigest(d1) && HexDigest(d2)
    ensures MapKey(d1, o1) == MapKey(d2, o2) <==> d1 == d2 && o1 == o2
  {
    var k1, k2 := MapKey(d1, o1), MapKey(d2, o2);
    assert k1[..64] == d1 && k2[..64] == d2;
    assert k1[65..] == o1 && k2[65..] == o2;
  }

  predicate UntilWithin(until: Option<nat>, updatedAt: nat, bound: nat) {
    until.Some? ==> until.value <= SaturatingAdd(updatedAt, bound)
  }

  predicate HostSound(origins: Origins, key: Text, r: HostRecord) {
    origins(key) == Some(key) && UntilWithin(r.cooldownUntil, r.updatedAt, MAX_COOLDOWN)
  }

  predicate RepresentationSound(origins: Origins, key: Text, r: RepresentationRecord) {
    && key == MapKey(r.digest, r.origin)
    && HexDigest(r.digest)
    && origins(r.origin) == Some(r.origin)
    && UntilWithin(r.cooldownUntil, r.updatedAt, MAX_COOLDOWN)
    && UntilWithin(r.quarantinedUntil, r.updatedAt, REPRESENTATION_TTL)
  }

  ghost predicate HostsSound(origins: Origins, hosts: map<Text, HostRecord>, clock: nat) {
    forall k :: k in hosts ==> HostSound(origins, k, hosts[k]) && hosts[k].updatedAt <= clock
  }

  ghost predicate RepresentationsSound(origins: Origins, reps: map<Text, RepresentationRecord>, clock: nat) {
    forall k :: k in reps ==> RepresentationSound(origins, k, reps[k]) && reps[k].updatedAt <= clock
  }

  ghost predicate Sound(origins: Origins, h: History, clock: nat) {
    HostsSound(origins, h.hosts, clock) && RepresentationsSound(origins, h.representations, clock)
  }

  lemma CooldownBounds(failures: nat)
    ensures CooldownSecs(failures) <= MAX_COOLDOWN
    ensures failures >= 1 ==> CooldownSecs(failures) >= BASE_COOLDOWN
    ensures failures >= 7 ==> CooldownSecs(failures) == MAX_COOLDOWN
    ensures 1 <= failures < 6 ==> CooldownSecs(failures + 1) == 2 * CooldownSecs(failures)
  {
    assert Pow2(6) == 64 && Pow2(5) == 32 && Pow2(4) == 16 && Pow2(3) == 8 && Pow2(2) == 4 && Pow2(1) == 2;
  }

  lemma HostAfterSound(origins: Origins, hosts: map<Text, HostRecord>, origin: Text, o: Observation, now: nat,
                       sequence: nat)
    requires origins(origin) == Some(origin)
    ensures HostSound(origins, origin, HostAfter(hosts, origin, o, now, sequence))
    ensures HostAfter(hosts, origin, o, now, sequence).updatedAt == now
  {
    forall f: nat ensures CooldownSecs(f) <= MAX_COOLDOWN {
      CooldownBounds(f);
    }
  }

  lemma RepresentationAfterSound(origins: Origins, reps: map<Text, RepresentationRecord>, digest: Text, origin: Text,
                                 o: Observation, now: nat, sequence: nat)
    requires origins(origin) == Some(origin) && HexDigest(digest) && RepresentationsSound(origins, reps, now)
    ensures RepresentationSound(origins, MapKey(digest, origin),
            RepresentationAfter(reps, digest, origin, o, now, sequence))
    ensures RepresentationAfter(reps, digest, origin, o, now, sequence).updatedAt == now
  {
    var key := MapKey(digest, origin);
    assert key in reps ==> RepresentationSound(origins, key, reps[key]);
    forall f: nat ensures CooldownSecs(f) <= MAX_COOLDOWN {
      CooldownBounds(f);
    }
  }

  lemma PruneKeepsSound(origins: Origins, h: History, clock: nat, now: nat)
    requires Sound(origins, h, clock)
    ensures Sound(origins, Prune(h, now), clock)
  {
    PruneHostsShrinks(h.hosts, now);
    PruneRepresentationsShrinks(h.representations, now);
  }

  lemma RepresentationsAddedSound(origins: Origins, reps: map<Text, RepresentationRecord>, digest: Text, origin: Text,
                                  o: Observation, now: nat, sequence: nat)
    requires origins(origin) == Some(origin) && HexDigest(digest) && RepresentationsSound(origins, reps, now)
    ensures RepresentationsSound(origins,
            reps[MapKey(digest, origin) := RepresentationAfter(reps, digest, origin, o, now, sequence)], now)
  {
    RepresentationAfterSound(origins, reps, digest, origin, o, now, sequence);
  }

  lemma RepresentationsAfterSound(origins: Origins, reps: map<Text, RepresentationRecord>, digest: Option<Text>,
                                  origin: Text, o: Observation, now: nat, sequence: nat)
    requires origins(origin) == Some(origin) && (digest.Some? ==> HexDigest(digest.value))
    requires RepresentationsSound(origins, reps, now)
    ensures RepresentationsSound(origins, RepresentationsAfter(reps, digest, origin, o, now, sequence), now)
  {
    if digest.Some? && TouchesRepresentation(o) {
      RepresentationsAddedSound(origins, reps, digest.value, origin, o, now, sequence);
      var added := reps[MapKey(digest.value, origin) :=
          RepresentationAfter(reps, digest.value, origin, o, now, sequence)];
      TopKShrinks(added, digest.value);
      SubTableKeepsRepresentations(origins, TopK(added, digest.value), added, now);
    }
  }

  lemma HostsAfterSound(origins: Origins, hosts: map<Text, HostRecord>, origin: Text, o: Observation, now: nat,
                        sequence: nat)
    requires origins(origin) == Some(origin) && HostsSound(origins, hosts, now)
    ensures HostsSound(origins, HostsAfter(hosts, origin, o, now, sequence), now)
  {
    HostAfterSound(origins, hosts, origin, o, now, sequence);
  }

  lemma SubTableKeepsHosts(origins: Origins, a: map<Text, HostRecord>, b: map<Text, HostRecord>, clock: nat)
    requires SubTable(a, b) && HostsSound(origins, b, clock)
    ensures HostsSound(origins, a, clock)
  {
  }

  lemma SubTableKeepsRepresentations(origins: Origins, a: map<Text, RepresentationRecord>,
                                     b: map<Text, RepresentationRecord>, clock: nat)
    requires SubTable(a, b) && RepresentationsSound(origins, b, clock)
    ensures RepresentationsSound(origins, a, clock)
  {
  }

  lemma RecordHostsSound(origins: Origins, hosts: map<Text, HostRecord>, origin: Text, o: Observation, now: nat,
                         sequence: nat)
    requires origins(origin) == Some(origin) && HostsSound(origins, hosts, now)
    ensures HostsSound(origins, RecordHosts(hosts, origin, o, now, sequence), now)
  {
    var p := PruneHosts(hosts, now);
    PruneHostsShrinks(hosts, now);
    SubTableKeepsHosts(origins, p, hosts, now);
    HostsAfterSound(origins, p, origin, o, now, sequence);
    var after := HostsAfter(p, origin, o, now, sequence);
    PruneHostsShrinks(after, now);
    SubTableKeepsHosts(origins, PruneHosts(after, now), after, now);
  }

  lemma RecordRepresentationsSound(origins: Origins, reps: map<Text, RepresentationRecord>, digest: Option<Text>,
                                   origin: Text, o: Observation, now: nat, sequence: nat)
    requires origins(origin) == Some(origin) && (digest.Some? ==> HexDigest(digest.value))
    requires RepresentationsSound(origins, reps, now)
    ensures RepresentationsSound(origins, RecordRepresentations(reps, digest, origin, o, now, sequence), now)
  {
    var p := PruneRepresentations(reps, now);
    PruneRepresentationsShrinks(reps, now);
    RepresentationsAfterSound(origins, p, digest, origin, o, now, sequence);
    PruneRepresentationsShrinks(RepresentationsAfter(p, digest, origin, o, now, sequence), now);
  }

  lemma RecordKeepsSound(origins: Origins, h: History, origin: Text, o: Observation, digest: Option<Text>, now: nat)
    requires origins(origin) == Some(origin) && (digest.Some? ==> HexDigest(digest.value)) && Sound(origins, h, now)
    ensures Sound(origins, Record(h, origin, o, digest, now), now)
  {
    var sequence := SaturatingAdd(h.sequence, 1);
    RecordHostsSound(origins, h.hosts, origin, o, now, sequence);
    RecordRepresentationsSound(origins, h.representations, digest, origin, o, now, sequence);
  }

  /** Times never go back, from `clock` on, and every digest is a hash in hexadecimal. */
  ghost predicate Orderly(events: seq<Event>, clock: nat) {
    && (forall i :: 0 <= i < |events| ==> clock <= events[i].now)
    && (forall i, j :: 0 <= i < j < |events| ==> events[i].now <= events[j].now)
    && (forall i :: 0 <= i < |events| && events[i].Observed? && events[i].digest.Some? ==>
         HexDigest(events[i].digest.value))
  }

  function LastTime(events: seq<Event>, clock: nat): nat {
    if events == [] then clock else events[|events| - 1].now
  }

  lemma SoundLater(origins: Origins, h: History, clock: nat, later: nat)
    requires Sound(origins, h, clock) && clock <= later
    ensures Sound(origins, h, later)
  {
  }

  lemma {:induction false} RunKeepsSound(origins: Origins, h: History, clock: nat, events: seq<Event>)
    requires Idempotent(origins) && Sound(origins, h, clock) && Orderly(events, clock)
    ensures Sound(origins, Run(origins, h, events), LastTime(events, clock))
  {
    if events != [] {
      var front := events[..|events| - 1];
      var before := Run(origins, h, front);
      RunKeepsSound(origins, h, clock, front);
      var e := events[|events| - 1];
      SoundLater(origins, before, LastTime(front, clock), e.now);
      match e
      case Ranked(now) => PruneKeepsSound(origins, before, now, now);
      case Observed(url, o, digest, now) =>
        if origins(url).Some? {
          RecordKeepsSound(origins, before, origins(url).value, o, digest, now);
        }
    }
  }

  // ---------------------------------------------------------------- loading

  /** `prune_representation_top_k` for each digest in turn. */
  ghost function TopKEach(reps: map<Text, RepresentationRecord>, digests: seq<Text>): map<Text, RepresentationRecord> {
    if digests == [] then reps else TopKEach(TopK(reps, digests[0]), digests[1..])
  }

  function Digests(reps: map<Text, RepresentationRecord>): set<Text> {
    set k | k in reps :: reps[k].digest
  }

  function SoundHosts(origins: Origins, hosts: map<Text, HostRecord>): map<Text, HostRecord> {
    map k | k in hosts && HostSound(origins, k, hosts[k]) :: hosts[k]
  }

  function SoundRepresentations(origins: Origins,
                                reps: map<Text, RepresentationRecord>): map<Text, RepresentationRecord> {
    map k | k in reps && RepresentationSound(origins, k, reps[k]) :: reps[k]
  }

  function ModestHosts(hosts: map<Text, HostRecord>): map<Text, HostRecord> {
    map k | k in hosts && |k| <= 512 && hosts[k].failures <= 1_000_000 :: hosts[k]
  }

  /** `validate_loaded_state`; `order` is the order in which the set of digests happens to be visited. */
  ghost function ValidateLoaded(origins: Origins, h: History, order: seq<Text>): History
    requires Elements(order) == Digests(SoundRepresentations(origins, h.representations))
  {
    History(h.sequence, ModestHosts(SoundHosts(origins, h.hosts)),
            TopKEach(SoundRepresentations(origins, h.representations), order))
  }

  lemma TopKOfFew(reps: map<Text, RepresentationRecord>, digest: Text)
    requires |KeysOfDigest(reps, digest)| <= MAX_ORIGINS_PER_REPRESENTATION
    ensures TopK(reps, digest) == reps
  {
    var keys := KeysOfDigest(reps, digest);
    FirstMeaning(keys, Recency(reps), MAX_ORIGINS_PER_REPRESENTATION);
    var kept := First(keys, Recency(reps), MAX_ORIGINS_PER_REPRESENTATION);
    FullSubset(kept, keys);
  }

  lemma FullSubset<T>(a: set<T>, b: set<T>)
    requires a <= b && |a| == |b|
    ensures a == b
  {
    assert b == a + (b - a);
    assert |b - a| == 0;
  }

  lemma {:induction false} TopKEachOfFew(reps: map<Text, RepresentationRecord>, digests: seq<Text>)
    requires FewOrigins(reps)
    ensures TopKEach(reps, digests) == reps
  {
    if digests != [] {
      TopKOfFew(reps, digests[0]);
      TopKEachOfFew(reps, digests[1..]);
    }
  }

  lemma EmptyIsBounded()
    ensures Bounded(EMPTY)
  {
    forall d ensures KeysOfDigest(EMPTY.representations, d) == {} {
    }
  }

  lemma {:induction false} TopKEachBounds(reps: map<Text, RepresentationRecord>, digests: seq<Text>)
    ensures SubTable(TopKEach(reps, digests), reps)
    ensures forall d :: d in digests ==> |KeysOfDigest(TopKEach(reps, digests), d)| <= MAX_ORIGINS_PER_REPRESENTATION
  {
    if digests != [] {
      var next := TopK(reps, digests[0]);
      TopKShrinks(reps, digests[0]);
      TopKEachBounds(next, digests[1..]);
      var last := TopKEach(reps, digests);
      assert KeysOfDigest(last, digests[0]) <= KeysOfDigest(next, digests[0]);
      SubsetSize(KeysOfDigest(last, digests[0]), KeysOfDigest(next, digests[0]));
      assert digests == [digests[0]] + digests[1..];
    }
  }

  lemma ValidatedHasFew(origins: Origins, h: History, order: seq<Text>)
    requires Elements(order) == Digests(SoundRepresentations(origins, h.representations))
    ensures FewOrigins(ValidateLoaded(origins, h, order).representations)
  {
    var reps := SoundRepresentations(origins, h.representations);
    var kept := TopKEach(reps, order);
    TopKEachBounds(reps, order);
    forall d ensures |KeysOfDigest(kept, d)| <= MAX_ORIGINS_PER_REPRESENTATION {
      if d !in order {
        assert d !in Elements(order);
        assert KeysOfDigest(kept, d) == {};
      }
    }
  }

  /** Whatever the file held, the loaded and pruned table is bounded and its records are sound. */
  lemma LoadedTableIsBounded(origins: Origins, h: History, order: seq<Text>, now: nat, clock: nat)
    requires Elements(order) == Digests(SoundRepresentations(origins, h.representations))
    requires forall k :: k in h.hosts ==> h.hosts[k].updatedAt <= clock
    requires forall k :: k in h.representations ==> h.representations[k].updatedAt <= clock
    ensures Bounded(Prune(ValidateLoaded(origins, h, order), now))
    ensures Sound(origins, Prune(ValidateLoaded(origins, h, order), now), clock)
  {
    var v := ValidateLoaded(origins, h, order);
    ValidatedHasFew(origins, h, order);
    TopKEachBounds(SoundRepresentations(origins, h.representations), order);
    PruneKeepsFew(v, now);
    PruneKeepsSound(origins, v, clock, now);
  }
}
