/** The table as the source keeps it: two maps and a counter updated in place. */
module CdnHealthTable {
  import opened Prelude
  import opened Ordering
  import opened CdnHealth
  import opened CdnHealthRuns

  /** The keys collected one by one and sorted by rank. */
  method SortedKeys(keys: set<Text>, rank: Rank) returns (sorted: seq<Text>)
    ensures sorted == Ordered(keys, RankBefore(rank))
  {
    var left, listed: seq<Text> := keys, [];
    while left != {}
      invariant left <= keys && Elements(listed) == keys - left && NoDuplicates(listed)
      decreases left
    {
      var k :| k in left;
      assert k !in Elements(listed);
      assert Elements(listed + [k]) == Elements(listed) + {k};
      left, listed := left - {k}, listed + [k];
    }
    sorted := Sort(listed, RankBefore(rank));
    RankBeforeTotal(keys, rank);
    SortSorts(listed, RankBefore(rank));
    OrderedIs(keys, RankBefore(rank), sorted);
  }

  /** Removes the given keys one after another. */
  method RemoveAll<R>(m: map<Text, R>, keys: seq<Text>) returns (left: map<Text, R>)
    ensures left == m - Elements(keys)
  {
    left := m;
    assert Elements(keys[..0]) == {};
    for i := 0 to |keys|
      invariant left == m - Elements(keys[..i])
    {
      assert Elements(keys[..i + 1]) == Elements(keys[..i]) + {keys[i]};
      left := left - {keys[i]};
    }
    assert keys[..|keys|] == keys;
  }

  /** Drops the oldest entries beyond `max`. */
  method DropOldest<R>(m: map<Text, R>, rank: Rank, max: nat) returns (left: map<Text, R>)
    ensures left == Capped(m, rank, max)
  {
    left := m;
    if |m| > max {
      var oldest := SortedKeys(m.Keys, rank);
      left := RemoveAll(m, oldest[..Min(|m| - max, |oldest|)]);
    }
  }

  lemma SkipIsRest(keys: set<Text>, rank: Rank, n: nat, sorted: seq<Text>)
    requires sorted == Ordered(keys, RankBefore(rank))
    ensures Elements(sorted[Min(n, |sorted|)..]) == keys - First(keys, rank, n)
  {
    RankBeforeTotal(keys, rank);
    SortSorts(Listing(keys), RankBefore(rank));
    AscendingDistinct(sorted, RankBefore(rank));
    SuffixIsRest(sorted, Min(n, |sorted|));
  }

  lemma SuffixIsRest(s: seq<Text>, k: nat)
    requires NoDuplicates(s) && k <= |s|
    ensures Elements(s[k..]) == Elements(s) - Elements(s[..k])
  {
    assert s == s[..k] + s[k..];
    assert Elements(s) == Elements(s[..k]) + Elements(s[k..]);
  }

  lemma {:induction false} TopKEachAppended(reps: map<Text, RepresentationRecord>, digests: seq<Text>, d: Text)
    ensures TopKEach(reps, digests + [d]) == TopK(TopKEach(reps, digests), d)
  {
    var all := digests + [d];
    if digests == [] {
      assert all[1..] == [] && all[0] == d;
    } else {
      assert all[1..] == digests[1..] + [d] && all[0] == digests[0];
      TopKEachAppended(TopK(reps, digests[0]), digests[1..], d);
    }
  }

  class HealthTable {
    var sequence: nat
    var hosts: map<Text, HostRecord>
    var representations: map<Text, RepresentationRecord>

    ghost function Value(): History
      reads this
    {
      History(sequence, hosts, representations)
    }

    constructor ()
      ensures Value() == EMPTY
    {
      sequence, hosts, representations := 0, map[], map[];
    }

    method PruneAt(now: nat)
      modifies this
      ensures Value() == Prune(old(Value()), now)
    {
      hosts := FreshHosts(hosts, now);
      representations := FreshRepresentations(representations, now);
      hosts := DropOldest(hosts, HostAge(hosts), MAX_HOSTS);
      representations := DropOldest(representations, RepresentationAge(representations), MAX_REPRESENTATIONS);
    }

    method PruneTopK(digest: Text)
      modifies this
      ensures Value() == old(Value()).(representations := TopK(old(representations), digest))
    {
      var keys := KeysOfDigest(representations, digest);
      var entries := SortedKeys(keys, Recency(representations));
      SkipIsRest(keys, Recency(representations), MAX_ORIGINS_PER_REPRESENTATION, entries);
      representations := RemoveAll(representations, entries[Min(MAX_ORIGINS_PER_REPRESENTATION, |entries|)..]);
    }

    method Update(origin: Text, o: Observation, digest: Option<Text>, now: nat)
      modifies this
      ensures sequence == old(sequence)
      ensures hosts == HostsAfter(old(hosts), origin, o, now, sequence)
      ensures representations == RepresentationsAfter(old(representations), digest, origin, o, now, sequence)
    {
      if TouchesHost(o) {
        hosts := hosts[origin := HostAfter(hosts, origin, o, now, sequence)];
      }
      if digest.Some? && TouchesRepresentation(o) {
        representations := representations[MapKey(digest.value, origin) :=
                             RepresentationAfter(representations, digest.value, origin, o, now, sequence)];
        PruneTopK(digest.value);
      }
    }

    /** One observation; a URL without a canonical origin changes nothing. */
    method RecordAt(origins: Origins, url: Text, o: Observation, digest: Option<Text>, now: nat)
      modifies this
      ensures Value() == Apply(origins, old(Value()), Observed(url, o, digest, now))
    {
      if origins(url).None? {
        return;
      }
      PruneAt(now);
      sequence := SaturatingAdd(sequence, 1);
      Update(origins(url).value, o, digest, now);
      PruneAt(now);
    }

    /** Keeps three origins of every given digest, in whatever order the set is visited. */
    method PruneEach(digests: set<Text>) returns (ghost order: seq<Text>)
      modifies this
      ensures Elements(order) == digests
      ensures Value() == old(Value()).(representations := TopKEach(old(representations), order))
    {
      var left := digests;
      order := [];
      while left != {}
        invariant left <= digests && Elements(order) == digests - left
        invariant Value() == old(Value()).(representations := TopKEach(old(representations), order))
        decreases left
      {
        var d :| d in left;
        PruneTopK(d);
        TopKEachAppended(old(representations), order, d);
        assert Elements(order + [d]) == Elements(order) + {d};
        left, order := left - {d}, order + [d];
      }
    }

    /** Drops what a well-behaved run could not have written. */
    method ValidateLoadedState(origins: Origins) returns (ghost order: seq<Text>)
      modifies this
      ensures Elements(order) == Digests(SoundRepresentations(origins, old(representations)))
      ensures Value() == ValidateLoaded(origins, old(Value()), order)
    {
      hosts := SoundHosts(origins, hosts);
      representations := SoundRepresentations(origins, representations);
      order := PruneEach(Digests(representations));
      hosts := ModestHosts(hosts);
    }
  }
}
