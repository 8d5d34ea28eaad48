/** Why a clock that goes back costs records on loading: one short run for each way. */
module CdnHealthClock {
  import opened Prelude
  import opened CdnHealth
  import opened CdnHealthRuns

  // ---------------------------------------------------------------- a table of one representation

  ghost predicate Sole(reps: map<Text, RepresentationRecord>, key: Text, now: nat) {
    reps.Keys <= {key} && forall k :: k in reps ==> SaturatingSub(now, reps[k].updatedAt) < REPRESENTATION_TTL
  }

  lemma SolePruned(reps: map<Text, RepresentationRecord>, key: Text, now: nat)
    requires Sole(reps, key, now)
    ensures PruneRepresentations(reps, now) == reps
  {
    SubsetSize(reps.Keys, {key});
    assert |reps| == |reps.Keys|;
    PruneRepresentationsAgain(reps, now);
  }

  lemma SoleAdded(reps: map<Text, RepresentationRecord>, digest: Text, key: Text, record: RepresentationRecord)
    requires reps.Keys <= {key}
    ensures TopK(reps[key := record], digest) == map[key := record]
  {
    var one := map[key := record];
    assert reps[key := record] == one;
    SubsetSize(KeysOfDigest(one, digest), {key});
    TopKOfFew(one, digest);
  }

  lemma SoleAfter(reps: map<Text, RepresentationRecord>, digest: Text, origin: Text, o: Observation, now: nat,
                  sequence: nat, key: Text, after: map<Text, RepresentationRecord>)
    requires key == MapKey(digest, origin) && reps.Keys <= {key} && TouchesRepresentation(o)
    requires after == RepresentationsAfter(reps, Some(digest), origin, o, now, sequence)
    ensures after == map[key := RepresentationAfter(reps, digest, origin, o, now, sequence)]
  {
    SoleAdded(reps, digest, key, RepresentationAfter(reps, digest, origin, o, now, sequence));
  }

  lemma SoleTime(reps: map<Text, RepresentationRecord>, digest: Text, origin: Text, o: Observation, now: nat,
                 sequence: nat, key: Text)
    ensures Sole(map[key := RepresentationAfter(reps, digest, origin, o, now, sequence)], key, now)
  {
  }

  lemma SoleRecord(reps: map<Text, RepresentationRecord>, digest: Text, origin: Text, o: Observation, now: nat,
                   sequence: nat, key: Text, pruned: map<Text, RepresentationRecord>,
                   after: map<Text, RepresentationRecord>)
    requires key == MapKey(digest, origin) && Sole(reps, key, now) && TouchesRepresentation(o)
    requires pruned == PruneRepresentations(reps, now)
    requires after == RepresentationsAfter(pruned, Some(digest), origin, o, now, sequence)
    ensures PruneRepresentations(after, now) == map[key := RepresentationAfter(reps, digest, origin, o, now, sequence)]
  {
    SolePruned(reps, key, now);
    SoleAfter(reps, digest, origin, o, now, sequence, key, after);
    SoleTime(reps, digest, origin, o, now, sequence, key);
    SolePruned(after, key, now);
  }

  /** One event on such a table. */
  lemma SoleStep(origins: Origins, tables: seq<History>, events: seq<Event>, i: nat, digest: Text, origin: Text,
                 key: Text)
    requires Tables(origins, EMPTY, tables, events) && i < |events| && events[i].Observed?
             && events[i].digest == Some(digest)
    requires origins(events[i].url) == Some(origin) && key == MapKey(digest, origin)
             && TouchesRepresentation(events[i].observation)
    requires Sole(tables[i].representations, key, events[i].now)
    ensures tables[i + 1].representations
         == map[key := RepresentationAfter(tables[i].representations, digest, origin, events[i].observation,
             events[i].now,
                                           SaturatingAdd(tables[i].sequence, 1))]
  {
    assert StepAt(origins, tables, events, i);
    var reps, now, sequence := tables[i].representations, events[i].now, SaturatingAdd(tables[i].sequence, 1);
    var pruned := PruneRepresentations(reps, now);
    SoleRecord(reps, digest, origin, events[i].observation, now, sequence, key, pruned,
               RepresentationsAfter(pruned, Some(digest), origin, events[i].observation, now, sequence));
  }

  // ---------------------------------------------------------------- the two ways

  /** The record is in the table and not in the loaded one, whichever way the digests are visited. */
  ghost predicate LostOnLoading(origins: Origins, h: History, key: Text) {
    match h
    case History(_, _, reps) =>
      && key in reps
      && forall order :: Elements(order) == Digests(SoundRepresentations(origins, reps)) ==>
           key !in ValidateLoaded(origins, h, order).representations
  }

  lemma UnsoundIsLost(origins: Origins, h: History, key: Text)
    requires key in h.representations && !RepresentationSound(origins, key, h.representations[key])
    ensures LostOnLoading(origins, h, key)
  {
    forall order | Elements(order) == Digests(SoundRepresentations(origins, h.representations))
      ensures key !in ValidateLoaded(origins, h, order).representations
    {
      TopKEachBounds(SoundRepresentations(origins, h.representations), order);
    }
  }

  function Seen(outcome: Outcome): Observation {
    Observation(Playback, outcome, 0, None, None, None)
  }

  /** Two outcomes of one origin, the second after the clock was set back. */
  ghost predicate SetBack(events: seq<Event>, url: Text, digest: Text, first: Outcome, second: Outcome, late: nat,
                          early: nat) {
    && |events| == 2 && early < late
    && events[0] == Observed(url, Seen(first), Some(digest), late)
    && events[1] == Observed(url, Seen(second), Some(digest), early)
  }

  /** Both events reach the record. */
  lemma SetBackRecord(origins: Origins, tables: seq<History>, events: seq<Event>, url: Text, digest: Text, origin: Text,
                      key: Text, first: Outcome, second: Outcome, late: nat, early: nat)
    returns (r: RepresentationRecord)
    requires SetBack(events, url, digest, first, second, late, early) && Tables(origins, EMPTY, tables, events)
    requires origins(url) == Some(origin) && key == MapKey(digest, origin)
    requires TouchesRepresentation(Seen(first)) && TouchesRepresentation(Seen(second))
    ensures r == RepresentationAfter(map[], digest, origin, Seen(first), late, 1)
    ensures tables[2].representations
         == map[key := RepresentationAfter(map[key := r], digest, origin, Seen(second), early, 2)]
  {
    r := RepresentationAfter(map[], digest, origin, Seen(first), late, 1);
    SoleStep(origins, tables, events, 0, digest, origin, key);
    FirstSequence(origins, tables, events);
    SoleLater(r, key, late, early, digest, origin, first);
    SoleStep(origins, tables, events, 1, digest, origin, key);
  }

  lemma FirstSequence(origins: Origins, tables: seq<History>, events: seq<Event>)
    requires Tables(origins, EMPTY, tables, events) && |events| == 2 && events[0].Observed?
             && origins(events[0].url).Some?
    ensures tables[1].sequence == 1
  {
    assert StepAt(origins, tables, events, 0);
  }

  lemma SoleLater(r: RepresentationRecord, key: Text, late: nat, early: nat, digest: Text, origin: Text, first: Outcome)
    requires r == RepresentationAfter(map[], digest, origin, Seen(first), late, 1) && early < late
    ensures Sole(map[key := r], key, early)
  {
  }

  /** A mismatch and then, by an earlier clock, a timeout: the quarantine ends too late for the record to be loaded. */
  lemma SetBackLosesQuarantine(origins: Origins, events: seq<Event>, url: Text, digest: Text, late: nat, early: nat)
    requires SetBack(events, url, digest, IntegrityMismatch, Timeout, late, early) && origins(url).Some?
    requires late + REPRESENTATION_TTL <= U64_MAX
    ensures LostOnLoading(origins, Run(origins, EMPTY, events), MapKey(digest, origins(url).value))
  {
    var tables := TablesExist(origins, EMPTY, events);
    QuarantineLost(origins, tables, events, url, digest, late, early);
    TablesReachRun(origins, EMPTY, tables, events, 2);
    assert events[..2] == events;
  }

  lemma QuarantineLost(origins: Origins, tables: seq<History>, events: seq<Event>, url: Text, digest: Text, late: nat,
                       early: nat)
    requires SetBack(events, url, digest, IntegrityMismatch, Timeout, late, early) && origins(url).Some?
    requires late + REPRESENTATION_TTL <= U64_MAX && Tables(origins, EMPTY, tables, events)
    ensures LostOnLoading(origins, tables[2], MapKey(digest, origins(url).value))
  {
    var key := MapKey(digest, origins(url).value);
    var r := SetBackRecord(origins, tables, events, url, digest, origins(url).value, key, IntegrityMismatch, Timeout,
        late, early);
    UnsoundIsLost(origins, tables[2], key);
  }

  /** A timeout and then, by a clock ten minutes earlier, a mismatch: the cooldown ends too late. */
  lemma SetBackLosesCooldown(origins: Origins, events: seq<Event>, url: Text, digest: Text, late: nat, early: nat)
    requires SetBack(events, url, digest, Timeout, IntegrityMismatch, late, early) && origins(url).Some?
    requires early + MAX_COOLDOWN < late + BASE_COOLDOWN <= U64_MAX
    ensures LostOnLoading(origins, Run(origins, EMPTY, events), MapKey(digest, origins(url).value))
  {
    var tables := TablesExist(origins, EMPTY, events);
    CooldownLost(origins, tables, events, url, digest, late, early);
    TablesReachRun(origins, EMPTY, tables, events, 2);
    assert events[..2] == events;
  }

  lemma CooldownLost(origins: Origins, tables: seq<History>, events: seq<Event>, url: Text, digest: Text, late: nat,
                     early: nat)
    requires SetBack(events, url, digest, Timeout, IntegrityMismatch, late, early) && origins(url).Some?
    requires early + MAX_COOLDOWN < late + BASE_COOLDOWN <= U64_MAX && Tables(origins, EMPTY, tables, events)
    ensures LostOnLoading(origins, tables[2], MapKey(digest, origins(url).value))
  {
    var key := MapKey(digest, origins(url).value);
    var r := SetBackRecord(origins, tables, events, url, digest, origins(url).value, key, Timeout, IntegrityMismatch,
        late, early);
    CooldownBounds(1);
    UnsoundIsLost(origins, tables[2], key);
  }
}
