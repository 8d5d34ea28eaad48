/** Whether a record just written stays in the CDN health table. */
module CdnHealthSurvival {
  import opened Prelude
  import opened CdnHealth
  import opened CdnHealthRuns

  // ---------------------------------------------------------------- survival of a fresh record

  ghost predicate HostsNumbered(hosts: map<Text, HostRecord>, sequence: nat) {
    forall k :: k in hosts ==> hosts[k].eventSequence <= sequence
  }

  ghost predicate RepresentationsNumbered(reps: map<Text, RepresentationRecord>, sequence: nat) {
    forall k :: k in reps ==> reps[k].eventSequence <= sequence
  }

  /** Event numbers never exceed the table's sequence number. */
  ghost predicate Numbered(h: History) {
    HostsNumbered(h.hosts, h.sequence) && RepresentationsNumbered(h.representations, h.sequence)
  }

  lemma PruneKeepsNumbered(h: History, now: nat)
    requires Numbered(h)
    ensures Numbered(Prune(h, now))
  {
    PruneHostsShrinks(h.hosts, now);
    PruneRepresentationsShrinks(h.representations, now);
  }

  lemma RecordHostsNumbered(hosts: map<Text, HostRecord>, origin: Text, o: Observation, now: nat, sequence: nat)
    requires HostsNumbered(hosts, sequence)
    ensures HostsNumbered(RecordHosts(hosts, origin, o, now, sequence), sequence)
  {
    PruneHostsShrinks(hosts, now);
    PruneHostsShrinks(HostsAfter(PruneHosts(hosts, now), origin, o, now, sequence), now);
  }

  lemma RepresentationsAfterNumbered(reps: map<Text, RepresentationRecord>, digest: Option<Text>, origin: Text,
                                     o: Observation, now: nat, sequence: nat)
    requires RepresentationsNumbered(reps, sequence)
    ensures RepresentationsNumbered(RepresentationsAfter(reps, digest, origin, o, now, sequence), sequence)
  {
    if digest.Some? && TouchesRepresentation(o) {
      TopKShrinks(reps[MapKey(digest.value, origin) :=
          RepresentationAfter(reps, digest.value, origin, o, now, sequence)], digest.value);
    }
  }

  lemma RecordRepresentationsNumbered(reps: map<Text, RepresentationRecord>, digest: Option<Text>, origin: Text,
                                      o: Observation, now: nat, sequence: nat)
    requires RepresentationsNumbered(reps, sequence)
    ensures RepresentationsNumbered(RecordRepresentations(reps, digest, origin, o, now, sequence), sequence)
  {
    var p := PruneRepresentations(reps, now);
    PruneRepresentationsShrinks(reps, now);
    RepresentationsAfterNumbered(p, digest, origin, o, now, sequence);
    PruneRepresentationsShrinks(RepresentationsAfter(p, digest, origin, o, now, sequence), now);
  }

  lemma RecordKeepsNumbered(h: History, origin: Text, o: Observation, digest: Option<Text>, now: nat)
    requires Numbered(h) && h.sequence <= U64_MAX
    ensures Numbered(Record(h, origin, o, digest, now))
            && h.sequence <= Record(h, origin, o, digest, now).sequence <= U64_MAX
  {
    var sequence := SaturatingAdd(h.sequence, 1);
    RecordHostsNumbered(h.hosts, origin, o, now, sequence);
    RecordRepresentationsNumbered(h.representations, digest, origin, o, now, sequence);
  }

  lemma ApplyKeepsNumbered(origins: Origins, h: History, e: Event)
    requires Numbered(h) && h.sequence <= U64_MAX
    ensures Numbered(Apply(origins, h, e)) && Apply(origins, h, e).sequence <= U64_MAX
  {
    match e
    case Ranked(now) => PruneKeepsNumbered(h, now);
    case Observed(url, o, digest, now) =>
      if origins(url).Some? {
        RecordKeepsNumbered(h, origins(url).value, o, digest, now);
      }
  }

  /** Over every run. */
  lemma {:induction false} RunIsNumbered(origins: Origins, start: History, events: seq<Event>)
    requires Numbered(start) && start.sequence <= U64_MAX
    ensures Numbered(Run(origins, start, events)) && Run(origins, start, events).sequence <= U64_MAX
  {
    if events != [] {
      RunIsNumbered(origins, start, events[..|events| - 1]);
      ApplyKeepsNumbered(origins, Run(origins, start, events[..|events| - 1]), events[|events| - 1]);
    }
  }

  ghost predicate Newest(reps: map<Text, RepresentationRecord>, key: Text) {
    && key in reps
    && forall k :: k in reps && k != key ==>
         reps[k].updatedAt <= reps[key].updatedAt && reps[k].eventSequence < reps[key].eventSequence
  }

  lemma NewestPrecedes(reps: map<Text, RepresentationRecord>, key: Text, k: Text)
    requires Newest(reps, key) && k in reps && k != key
    ensures !Precedes(Recency(reps), k, key)
  {
    assert RankLess(Recency(reps)(key), Recency(reps)(k));
  }

  /** A key that is strictly first in recency order is among the three that stay. */
  lemma NewestStays(reps: map<Text, RepresentationRecord>, digest: Text, key: Text)
    requires Newest(reps, key) && reps[key].digest == digest
    ensures key in TopK(reps, digest)
  {
    var keys := KeysOfDigest(reps, digest);
    var kept := First(keys, Recency(reps), MAX_ORIGINS_PER_REPRESENTATION);
    FirstMeaning(keys, Recency(reps), MAX_ORIGINS_PER_REPRESENTATION);
    SubsetSize({key}, keys);
    assert kept != {};
    var k :| k in kept;
    if k != key {
      NewestPrecedes(reps, key, k);
    }
  }

  /** One entry over the limit: everything stays but the least key in rank order. */
  lemma CappedByOne<R>(m: map<Text, R>, rank: Rank, max: nat, key: Text)
    requires key in m && |m| <= max + 1
    ensures key in Capped(m, rank, max) <==> |m| <= max || exists k :: k in m && Precedes(rank, k, key)
  {
    if |m| == max + 1 {
      var gone := First(m.Keys, rank, 1);
      FirstMeaning(m.Keys, rank, 1);
      CappedIs(m, rank, max, gone);
      var least :| least in gone;
      forall a | a in gone ensures a == least {
        SingletonIs(gone, a, least);
      }
      forall k | k in m && k != least ensures Precedes(rank, least, k) && !Precedes(rank, k, least) {
                PrecedesAsymmetric(rank, least, k);
      }
      PrecedesTotal(rank, least, least);
    }
  }

  lemma SingletonIs<T>(s: set<T>, a: T, b: T)
    requires |s| == 1 && a in s && b in s
    ensures a == b
  {
    if a != b {
      SubsetSize({a, b}, s);
    }
  }

  lemma PrecedesAsymmetric(rank: Rank, a: Text, b: Text)
    requires Precedes(rank, a, b)
    ensures !Precedes(rank, b, a)
  {
    if Precedes(rank, b, a) {
      PrecedesTransitive(rank, a, b, a);
      PrecedesTotal(rank, a, a);
    }
  }

  /** What is left to decide whether a key stays: room, an older entry, or a smaller key of the same second. */
  ghost predicate RoomForHost(p: map<Text, HostRecord>, origin: Text, now: nat) {
    || |p.Keys + {origin}| <= MAX_HOSTS
    || exists k :: k in p && k != origin && (p[k].updatedAt < now || TextLess(k, origin))
  }

  ghost predicate RoomForRepresentation(m: map<Text, RepresentationRecord>, key: Text, now: nat) {
    || |m| <= MAX_REPRESENTATIONS
    || exists k :: k in m && k != key && (m[k].updatedAt < now || TextLess(k, key))
  }

  lemma HostSurvival(m: map<Text, HostRecord>, now: nat, origin: Text)
    requires origin in m && m[origin].updatedAt == now && |m| <= MAX_HOSTS + 1
    requires forall k :: k in m ==> m[k].updatedAt <= now
    ensures origin in Capped(m, HostAge(m), MAX_HOSTS) <==> RoomForHost(m, origin, now)
  {
    CappedByOne(m, HostAge(m), MAX_HOSTS, origin);
    PrecedesTotal(HostAge(m), origin, origin);
    assert m.Keys + {origin} == m.Keys && |m.Keys| == |m|;
  }

  lemma HostsAfterFresh(p: map<Text, HostRecord>, origin: Text, o: Observation, now: nat, sequence: nat)
    requires TouchesHost(o) && forall k :: k in p ==> SaturatingSub(now, p[k].updatedAt) < HOST_TTL
    ensures FreshHosts(HostsAfter(p, origin, o, now, sequence), now) == HostsAfter(p, origin, o, now, sequence)
  {
  }

  lemma AddedSize<R>(m: map<Text, R>, key: Text, r: R)
    ensures m[key := r].Keys == m.Keys + {key}
    ensures |m[key := r]| == |m.Keys + {key}| <= |m| + 1
  {
    assert |m| == |m.Keys| && |m[key := r]| == |m[key := r].Keys|;
  }

  /** With a clock that does not go back, the host just updated is lost only when the table overflows and it is
      the least of the entries stamped with this very second. */
  lemma RecordedHostStays(hosts: map<Text, HostRecord>, origin: Text, o: Observation, now: nat, sequence: nat,
                          p: map<Text, HostRecord>)
    requires TouchesHost(o) && p == PruneHosts(hosts, now)
    requires forall k :: k in hosts ==> hosts[k].updatedAt <= now
    ensures origin in RecordHosts(hosts, origin, o, now, sequence) <==> RoomForHost(p, origin, now)
  {
    PrunedTimes(hosts, now);
    HostAfterSurvives(p, origin, o, now, sequence, HostsAfter(p, origin, o, now, sequence));
  }

  lemma PrunedTimes(hosts: map<Text, HostRecord>, now: nat)
    requires forall k :: k in hosts ==> hosts[k].updatedAt <= now
    ensures |PruneHosts(hosts, now)| <= MAX_HOSTS
    ensures forall k :: k in PruneHosts(hosts, now) ==>
              PruneHosts(hosts, now)[k].updatedAt <= now
                  && SaturatingSub(now, PruneHosts(hosts, now)[k].updatedAt) < HOST_TTL
  {
    PruneHostsShrinks(hosts, now);
  }

  lemma HostAfterSurvives(p: map<Text, HostRecord>, origin: Text, o: Observation, now: nat, sequence: nat,
                          m: map<Text, HostRecord>)
    requires TouchesHost(o) && |p| <= MAX_HOSTS && m == HostsAfter(p, origin, o, now, sequence)
    requires forall k :: k in p ==> p[k].updatedAt <= now && SaturatingSub(now, p[k].updatedAt) < HOST_TTL
    ensures origin in PruneHosts(m, now) <==> RoomForHost(p, origin, now)
  {
    AddedSize(p, origin, HostAfter(p, origin, o, now, sequence));
    HostsAfterFresh(p, origin, o, now, sequence);
    HostSurvival(m, now, origin);
    SameOthers(p, m, origin, HostAfter(p, origin, o, now, sequence), now);
  }

  lemma SameOthers(p: map<Text, HostRecord>, m: map<Text, HostRecord>, origin: Text, r: HostRecord, now: nat)
    requires m == p[origin := r]
    ensures RoomForHost(m, origin, now) <==> RoomForHost(p, origin, now)
  {
    assert m.Keys + {origin} == p.Keys + {origin};
    assert forall k :: k != origin ==> (k in m <==> k in p) && (k in p ==> m[k] == p[k]);
  }

  lemma RecordedStaysInTopK(origins: Origins, reps: map<Text, RepresentationRecord>, digest: Text, origin: Text,
                            o: Observation, now: nat, sequence: nat)
    requires RepresentationsSound(origins, reps, now) && HexDigest(digest) && TouchesRepresentation(o)
    requires forall k :: k in reps ==> reps[k].eventSequence < sequence
    ensures var m := RepresentationsAfter(reps, Some(digest), origin, o, now, sequence);
            MapKey(digest, origin) in m && m[MapKey(digest, origin)].updatedAt == now
  {
    var key := MapKey(digest, origin);
    var record := RepresentationAfter(reps, digest, origin, o, now, sequence);
    var added := reps[key := record];
    if key in reps {
      assert RepresentationSound(origins, key, reps[key]);
      MapKeyInjective(digest, origin, reps[key].digest, reps[key].origin);
    }
    NewestStays(added, digest, key);
    TopKShrinks(added, digest);
  }

  lemma RepresentationSurvival(m: map<Text, RepresentationRecord>, now: nat, key: Text)
    requires key in m && m[key].updatedAt == now && |m| <= MAX_REPRESENTATIONS + 1
    requires forall k :: k in m ==> m[k].updatedAt <= now
    ensures key in Capped(m, RepresentationAge(m), MAX_REPRESENTATIONS) <==> RoomForRepresentation(m, key, now)
  {
    CappedByOne(m, RepresentationAge(m), MAX_REPRESENTATIONS, key);
    PrecedesTotal(RepresentationAge(m), key, key);
  }

  lemma SubTableSize<R(!new)>(a: map<Text, R>, b: map<Text, R>)
    requires SubTable(a, b)
    ensures |a| <= |b|
  {
    SubsetSize(a.Keys, b.Keys);
    assert |a| == |a.Keys| && |b| == |b.Keys|;
  }

  lemma AfterTimes(p: map<Text, RepresentationRecord>, digest: Text, origin: Text, o: Observation, now: nat,
                   sequence: nat, m: map<Text, RepresentationRecord>)
    requires TouchesRepresentation(o) && m == RepresentationsAfter(p, Some(digest), origin, o, now, sequence)
    requires forall k :: k in p ==> p[k].updatedAt <= now && SaturatingSub(now, p[k].updatedAt) < REPRESENTATION_TTL
    ensures forall k :: k in m ==> m[k].updatedAt <= now && SaturatingSub(now, m[k].updatedAt) < REPRESENTATION_TTL
  {
    TopKShrinks(p[MapKey(digest, origin) := RepresentationAfter(p, digest, origin, o, now, sequence)], digest);
  }

  lemma AfterSize(p: map<Text, RepresentationRecord>, digest: Text, origin: Text, record: RepresentationRecord)
    ensures |TopK(p[MapKey(digest, origin) := record], digest)| <= |p| + 1
  {
    var added := p[MapKey(digest, origin) := record];
    TopKShrinks(added, digest);
    SubTableSize(TopK(added, digest), added);
    AddedSize(p, MapKey(digest, origin), record);
  }

  /** The origin just observed is among the three its digest keeps, and leaves the table at once only by the size limit,
      when it is the least of the entries stamped with this very second. */
  lemma RecordedRepresentationStays(origins: Origins, reps: map<Text, RepresentationRecord>, origin: Text,
                                    o: Observation, digest: Text, now: nat, sequence: nat,
                                    m: map<Text, RepresentationRecord>)
    requires RepresentationsSound(origins, reps, now) && HexDigest(digest) && TouchesRepresentation(o)
    requires forall k :: k in reps ==> reps[k].eventSequence < sequence
    requires m == RepresentationsAfter(PruneRepresentations(reps, now), Some(digest), origin, o, now, sequence)
    ensures MapKey(digest, origin) in m
    ensures MapKey(digest, origin) in RecordRepresentations(reps, Some(digest), origin, o, now, sequence) <==>
              RoomForRepresentation(m, MapKey(digest, origin), now)
  {
    var p := PruneRepresentations(reps, now);
    PruneRepresentationsShrinks(reps, now);
    RecordedStaysInTopK(origins, p, digest, origin, o, now, sequence);
    AfterTimes(p, digest, origin, o, now, sequence, m);
    AfterSize(p, digest, origin, RepresentationAfter(p, digest, origin, o, now, sequence));
    RepresentationSurvives(m, now, MapKey(digest, origin));
  }

  lemma RepresentationSurvives(m: map<Text, RepresentationRecord>, now: nat, key: Text)
    requires key in m && m[key].updatedAt == now && |m| <= MAX_REPRESENTATIONS + 1
    requires forall k :: k in m ==> m[k].updatedAt <= now && SaturatingSub(now, m[k].updatedAt) < REPRESENTATION_TTL
    ensures key in PruneRepresentations(m, now) <==> RoomForRepresentation(m, key, now)
  {
    assert FreshRepresentations(m, now) == m;
    RepresentationSurvival(m, now, key);
  }

  // ---------------------------------------------------------------- over runs

  lemma RunSnoc(origins: Origins, start: History, events: seq<Event>, e: Event)
    ensures Run(origins, start, events + [e]) == Apply(origins, Run(origins, start, events), e)
  {
    assert (events + [e])[..|events|] == events;
  }

  /** The last event of an orderly run is not before any record. */
  lemma SoundAtLast(origins: Origins, start: History, clock: nat, events: seq<Event>, e: Event, before: History)
    requires Idempotent(origins) && Sound(origins, start, clock) && Orderly(events + [e], clock)
    requires before == Run(origins, start, events)
    ensures Sound(origins, before, e.now)
  {
    var all := events + [e];
    assert all[|events|] == e && forall i :: 0 <= i < |events| ==> all[i] == events[i];
    RunKeepsSound(origins, start, clock, events);
    assert LastTime(events, clock) <= e.now by {
      if events != [] {
        assert all[|events| - 1].now <= all[|events|].now;
      } else {
        assert clock <= all[0].now;
      }
    }
    SoundLater(origins, before, LastTime(events, clock), e.now);
  }

  lemma AppliedHosts(origins: Origins, h: History, e: Event)
    requires e.Observed? && origins(e.url).Some?
    ensures Apply(origins, h, e).hosts
         == RecordHosts(h.hosts, origins(e.url).value, e.observation, e.now, SaturatingAdd(h.sequence, 1))
  {
  }

  lemma AppliedRepresentations(origins: Origins, h: History, e: Event)
    requires e.Observed? && origins(e.url).Some?
    ensures Apply(origins, h, e).representations
         == RecordRepresentations(h.representations, e.digest, origins(e.url).value, e.observation, e.now,
             SaturatingAdd(h.sequence, 1))
  {
  }

  lemma SoundTimes(origins: Origins, h: History, clock: nat)
    requires Sound(origins, h, clock)
    ensures forall k :: k in h.hosts ==> h.hosts[k].updatedAt <= clock
    ensures RepresentationsSound(origins, h.representations, clock)
  {
  }

  /** After every orderly run, the host the last event was about is in the table exactly when there was room for it. */
  lemma LastHostStays(origins: Origins, start: History, clock: nat, events: seq<Event>, e: Event, before: History)
    requires Idempotent(origins) && Sound(origins, start, clock) && Orderly(events + [e], clock)
    requires e.Observed? && origins(e.url).Some? && TouchesHost(e.observation) && before == Run(origins, start, events)
    ensures origins(e.url).value in Run(origins, start, events + [e]).hosts <==>
              RoomForHost(PruneHosts(before.hosts, e.now), origins(e.url).value, e.now)
  {
    RunSnoc(origins, start, events, e);
    AppliedHosts(origins, before, e);
    SoundAtLast(origins, start, clock, events, e, before);
    SoundTimes(origins, before, e.now);
    RecordedHostStays(before.hosts, origins(e.url).value, e.observation, e.now, SaturatingAdd(before.sequence, 1),
                      PruneHosts(before.hosts, e.now));
  }

  /** The same of the representation the last event was about; it is always among the three its digest keeps. */
  lemma LastRepresentationStays(origins: Origins, start: History, clock: nat, events: seq<Event>, e: Event,
                                before: History, origin: Text, digest: Text, m: map<Text, RepresentationRecord>)
    requires Idempotent(origins) && Sound(origins, start, clock) && Numbered(start) && start.sequence <= U64_MAX
    requires Orderly(events + [e], clock) && e.Observed? && origins(e.url) == Some(origin) && e.digest == Some(digest)
    requires TouchesRepresentation(e.observation) && before == Run(origins, start, events) && before.sequence < U64_MAX
    requires m == RepresentationsAfter(PruneRepresentations(before.representations, e.now), Some(digest), origin,
                                       e.observation, e.now, SaturatingAdd(before.sequence, 1))
    ensures MapKey(digest, origin) in m
    ensures MapKey(digest, origin) in Run(origins, start, events + [e]).representations <==>
              RoomForRepresentation(m, MapKey(digest, origin), e.now)
  {
    RunSnoc(origins, start, events, e);
    AppliedRepresentations(origins, before, e);
    SoundAtLast(origins, start, clock, events, e, before);
    SoundTimes(origins, before, e.now);
    RunIsNumbered(origins, start, events);
    LastDigest(events, e, clock);
    RecordedRepresentationStays(origins, before.representations, origin, e.observation, digest, e.now,
                                SaturatingAdd(before.sequence, 1), m);
  }

  lemma LastDigest(events: seq<Event>, e: Event, clock: nat)
    requires Orderly(events + [e], clock) && e.Observed? && e.digest.Some?
    ensures HexDigest(e.digest.value)
  {
    assert (events + [e])[|events|] == e;
  }

  // ---------------------------------------------------------------- a host that is lost at once

  function Success(): Observation {
    Observation(Playback, Complete, 0, None, None, None)
  }

  /** Each of the URLs observed once, all in one second. */
  function Burst(urls: seq<Text>, now: nat): (events: seq<Event>)
    ensures |events| == |urls| && forall i :: 0 <= i < |urls| ==> events[i] == Observed(urls[i], Success(), None, now)
  {
    seq(|urls|, i requires 0 <= i < |urls| => Observed(urls[i], Success(), None, now))
  }

  lemma RoomyRecord(hosts: map<Text, HostRecord>, origin: Text, now: nat, sequence: nat)
    requires |hosts| < MAX_HOSTS && forall k :: k in hosts ==> hosts[k].updatedAt == now
    ensures RecordHosts(hosts, origin, Success(), now, sequence)
         == hosts[origin := HostAfter(hosts, origin, Success(), now, sequence)]
  {
    PruneHostsAgain(hosts, now);
    AddedSize(hosts, origin, HostAfter(hosts, origin, Success(), now, sequence));
    PruneHostsAgain(HostsAfter(hosts, origin, Success(), now, sequence), now);
  }

  lemma RoomyStep(origins: Origins, h: History, url: Text, now: nat, next: History)
    requires |h.hosts| < MAX_HOSTS && (forall k :: k in h.hosts ==> h.hosts[k].updatedAt == now)
             && origins(url) == Some(url)
    requires next == Apply(origins, h, Observed(url, Success(), None, now))
    ensures next.hosts == h.hosts[url := HostAfter(h.hosts, url, Success(), now, SaturatingAdd(h.sequence, 1))]
  {
    RoomyRecord(h.hosts, url, now, SaturatingAdd(h.sequence, 1));
  }

  /** The hosts are exactly those URLs, all stamped with this second. */
  ghost predicate Stamped(h: History, urls: seq<Text>, now: nat) {
    match h
    case History(_, hosts, _) => hosts.Keys == Elements(urls) && forall k :: k in hosts ==> hosts[k].updatedAt == now
  }

  lemma StampedAdded(h: History, urls: seq<Text>, url: Text, now: nat, record: HostRecord, next: History)
    requires Stamped(h, urls, now) && record.updatedAt == now && next.hosts == h.hosts[url := record]
    ensures Stamped(next, urls + [url], now)
  {
    assert Elements(urls + [url]) == Elements(urls) + {url};
  }

  lemma StampedSize(h: History, urls: seq<Text>, now: nat)
    requires Stamped(h, urls, now)
    ensures |h.hosts| <= |urls| && forall k :: k in h.hosts ==> h.hosts[k].updatedAt == now
  {
    ElementsSize(urls);
    assert |h.hosts| == |h.hosts.Keys|;
  }

  lemma {:induction false} ElementsSize<T>(s: seq<T>)
    ensures |Elements(s)| <= |s|
  {
    if s == [] {
      assert Elements(s) == {};
    } else {
      var front := s[..|s| - 1];
      ElementsSize(front);
      assert s == front + [s[|s| - 1]];
      assert Elements(s) == Elements(front) + {s[|s| - 1]};
    }
  }

  lemma StampedStep(origins: Origins, h: History, urls: seq<Text>, url: Text, now: nat, next: History)
    requires Stamped(h, urls, now) && |urls| < MAX_HOSTS && origins(url) == Some(url)
    requires next == Apply(origins, h, Observed(url, Success(), None, now))
    ensures Stamped(next, urls + [url], now)
  {
    StampedSize(h, urls, now);
    RoomyStep(origins, h, url, now, next);
    StampedAdded(h, urls, url, now, HostAfter(h.hosts, url, Success(), now, SaturatingAdd(h.sequence, 1)), next);
  }

  ghost predicate Canonical(origins: Origins, urls: seq<Text>) {
    forall i :: 0 <= i < |urls| ==> origins(urls[i]) == Some(urls[i])
  }

  lemma BurstAt(origins: Origins, urls: seq<Text>, now: nat, n: nat)
    requires Canonical(origins, urls) && n < |urls|
    ensures Burst(urls, now)[n] == Observed(urls[n], Success(), None, now) && origins(urls[n]) == Some(urls[n])
    ensures urls[..n + 1] == urls[..n] + [urls[n]]
  {
  }

  lemma StampedAt(origins: Origins, tables: seq<History>, urls: seq<Text>, now: nat, n: nat)
    requires Tables(origins, EMPTY, tables, Burst(urls, now)) && Canonical(origins, urls) && n < |urls| && n < MAX_HOSTS
    requires Stamped(tables[n], urls[..n], now)
    ensures Stamped(tables[n + 1], urls[..n + 1], now)
  {
    BurstAt(origins, urls, now, n);
    TableStep(origins, EMPTY, tables, Burst(urls, now), n, Observed(urls[n], Success(), None, now));
    StampedStep(origins, tables[n], urls[..n], urls[n], now, tables[n + 1]);
  }

  lemma {:induction false} BurstStamps(origins: Origins, tables: seq<History>, urls: seq<Text>, now: nat, n: nat)
    requires Tables(origins, EMPTY, tables, Burst(urls, now)) && Canonical(origins, urls) && n <= |urls|
             && n <= MAX_HOSTS
    ensures Stamped(tables[n], urls[..n], now)
  {
    if n == 0 {
      assert Elements(urls[..0]) == {};
    } else {
      BurstStamps(origins, tables, urls, now, n - 1);
      StampedAt(origins, tables, urls, now, n - 1);
    }
  }

  lemma NoRoom(h: History, urls: seq<Text>, last: Text, now: nat)
    requires Stamped(h, urls, now) && |urls| == MAX_HOSTS && NoDuplicates(urls)
    requires forall i :: 0 <= i < |urls| ==> TextLess(last, urls[i])
    ensures h.hosts == PruneHosts(h.hosts, now) && !RoomForHost(h.hosts, last, now)
    ensures forall k :: k in h.hosts ==> h.hosts[k].updatedAt == now
  {
    DistinctSize(urls);
    assert |h.hosts| == |h.hosts.Keys|;
    PruneHostsAgain(h.hosts, now);
    forall k | k in h.hosts ensures !TextLess(k, last) && k != last {
      assert k in Elements(urls);
      TextLessTotal(k, last);
    }
  }

  lemma LastIsLost(origins: Origins, h: History, urls: seq<Text>, last: Text, now: nat)
    requires Stamped(h, urls, now) && |urls| == MAX_HOSTS && NoDuplicates(urls) && origins(last) == Some(last)
    requires forall i :: 0 <= i < |urls| ==> TextLess(last, urls[i])
    ensures last !in Apply(origins, h, Observed(last, Success(), None, now)).hosts
  {
    NoRoom(h, urls, last, now);
    AppliedHosts(origins, h, Observed(last, Success(), None, now));
    RecordedHostStays(h.hosts, last, Success(), now, SaturatingAdd(h.sequence, 1), h.hosts);
  }

  lemma LastTableLosesLast(origins: Origins, tables: seq<History>, urls: seq<Text>, now: nat, last: Text)
    requires Tables(origins, EMPTY, tables, Burst(urls, now)) && Canonical(origins, urls)
    requires |urls| == MAX_HOSTS + 1 && NoDuplicates(urls) && last == urls[MAX_HOSTS]
    requires forall i :: 0 <= i < MAX_HOSTS ==> TextLess(last, urls[i])
    ensures last !in tables[MAX_HOSTS + 1].hosts
  {
    BurstStamps(origins, tables, urls, now, MAX_HOSTS);
    BurstAt(origins, urls, now, MAX_HOSTS);
    TableStep(origins, EMPTY, tables, Burst(urls, now), MAX_HOSTS, Observed(last, Success(), None, now));
    LastIsLost(origins, tables[MAX_HOSTS], urls[..MAX_HOSTS], last, now);
  }

  /** A run that loses the host just recorded: 257 origins observed in one second, the least of them last. */
  lemma CrowdedSecondLosesLast(origins: Origins, urls: seq<Text>, now: nat)
    requires Canonical(origins, urls)
    requires |urls| == MAX_HOSTS + 1 && NoDuplicates(urls) && forall i :: 0 <= i < MAX_HOSTS ==>
             TextLess(urls[MAX_HOSTS], urls[i])
    ensures urls[MAX_HOSTS] !in Run(origins, EMPTY, Burst(urls, now)).hosts
  {
    var events := Burst(urls, now);
    var tables := TablesExist(origins, EMPTY, events);
    LastTableLosesLast(origins, tables, urls, now, urls[MAX_HOSTS]);
    TablesReachRun(origins, EMPTY, tables, events, |events|);
    assert events[..|events|] == events;
  }

  /** Such origins exist. */
  function Crowd(n: nat): (urls: seq<Text>)
    ensures |urls| == n && forall i :: 0 <= i < n ==> |urls[i]| == i + 1 && urls[i][0] == 'b'
  {
    seq(n, i requires 0 <= i < n => seq(i + 1, _ => 'b'))
  }

  lemma CrowdIsDistinct(urls: seq<Text>)
    requires urls == Crowd(MAX_HOSTS) + ["a"]
    ensures NoDuplicates(urls) && forall i :: 0 <= i < MAX_HOSTS ==> TextLess(urls[MAX_HOSTS], urls[i])
  {
    forall i, j | 0 <= i < j < |urls| ensures urls[i] != urls[j] {
      assert j < MAX_HOSTS ==> |urls[i]| != |urls[j]|;
      assert j == MAX_HOSTS ==> urls[i][0] != urls[j][0];
    }
  }

  lemma HostIsLostAtOnce(now: nat)
    ensures "a" !in Run(u => Some(u), EMPTY, Burst(Crowd(MAX_HOSTS) + ["a"], now)).hosts
  {
    CrowdIsDistinct(Crowd(MAX_HOSTS) + ["a"]);
    CrowdedSecondLosesLast(u => Some(u), Crowd(MAX_HOSTS) + ["a"], now);
  }
}
