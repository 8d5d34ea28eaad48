/** What survives when a CDN health table is saved and loaded again. */
module CdnHealthReload {
  import opened Prelude
  import opened CdnHealth
  import opened CdnHealthRuns
  import opened CdnHealthTraces

  // ---------------------------------------------------------------- what holds with any clock

  predicate Named(origins: Origins, key: Text, r: RepresentationRecord) {
    key == MapKey(r.digest, r.origin) && HexDigest(r.digest) && origins(r.origin) == Some(r.origin)
  }

  ghost predicate HostsHeld(origins: Origins, hosts: map<Text, HostRecord>) {
    forall k :: k in hosts ==> HostSound(origins, k, hosts[k])
  }

  ghost predicate RepresentationsNamed(origins: Origins, reps: map<Text, RepresentationRecord>) {
    forall k :: k in reps ==> Named(origins, k, reps[k])
  }

  /** Every host would be kept on loading, and every representation has its own name. */
  ghost predicate Held(origins: Origins, h: History) {
    HostsHeld(origins, h.hosts) && RepresentationsNamed(origins, h.representations)
  }

  /** Every digest is a hash in hexadecimal. */
  ghost predicate Hashed(events: seq<Event>) {
    forall i :: 0 <= i < |events| && events[i].Observed? && events[i].digest.Some? ==> HexDigest(events[i].digest.value)
  }

  lemma PruneKeepsHeld(origins: Origins, h: History, now: nat)
    requires Held(origins, h)
    ensures Held(origins, Prune(h, now))
  {
    PruneHostsShrinks(h.hosts, now);
    PruneRepresentationsShrinks(h.representations, now);
  }

  lemma RecordHostsHeld(origins: Origins, hosts: map<Text, HostRecord>, origin: Text, o: Observation, now: nat,
                        sequence: nat)
    requires origins(origin) == Some(origin) && HostsHeld(origins, hosts)
    ensures HostsHeld(origins, RecordHosts(hosts, origin, o, now, sequence))
  {
    var p := PruneHosts(hosts, now);
    PruneHostsShrinks(hosts, now);
    HostAfterSound(origins, p, origin, o, now, sequence);
    PruneHostsShrinks(HostsAfter(p, origin, o, now, sequence), now);
  }

  lemma RepresentationsAfterNamed(origins: Origins, reps: map<Text, RepresentationRecord>, digest: Option<Text>,
                                  origin: Text, o: Observation, now: nat, sequence: nat)
    requires origins(origin) == Some(origin) && (digest.Some? ==> HexDigest(digest.value))
             && RepresentationsNamed(origins, reps)
    ensures RepresentationsNamed(origins, RepresentationsAfter(reps, digest, origin, o, now, sequence))
  {
    if digest.Some? && TouchesRepresentation(o) {
      var key := MapKey(digest.value, origin);
      var record := RepresentationAfter(reps, digest.value, origin, o, now, sequence);
      assert key in reps ==> Named(origins, key, reps[key]);
      TopKShrinks(reps[key := record], digest.value);
    }
  }

  lemma RecordRepresentationsNamed(origins: Origins, reps: map<Text, RepresentationRecord>, digest: Option<Text>,
                                   origin: Text, o: Observation, now: nat, sequence: nat)
    requires origins(origin) == Some(origin) && (digest.Some? ==> HexDigest(digest.value))
             && RepresentationsNamed(origins, reps)
    ensures RepresentationsNamed(origins, RecordRepresentations(reps, digest, origin, o, now, sequence))
  {
    var p := PruneRepresentations(reps, now);
    PruneRepresentationsShrinks(reps, now);
    RepresentationsAfterNamed(origins, p, digest, origin, o, now, sequence);
    PruneRepresentationsShrinks(RepresentationsAfter(p, digest, origin, o, now, sequence), now);
  }

  lemma ApplyKeepsHeld(origins: Origins, h: History, e: Event)
    requires Idempotent(origins) && Held(origins, h)
    requires e.Observed? && e.digest.Some? ==> HexDigest(e.digest.value)
    ensures Held(origins, Apply(origins, h, e))
  {
    match e
    case Ranked(now) => PruneKeepsHeld(origins, h, now);
    case Observed(url, o, digest, now) =>
      if origins(url).Some? {
        var sequence := SaturatingAdd(h.sequence, 1);
        RecordHostsHeld(origins, h.hosts, origins(url).value, o, now, sequence);
        RecordRepresentationsNamed(origins, h.representations, digest, origins(url).value, o, now, sequence);
      }
  }

  lemma {:induction false} RunKeepsHeld(origins: Origins, start: History, events: seq<Event>)
    requires Idempotent(origins) && Held(origins, start) && Hashed(events)
    ensures Held(origins, Run(origins, start, events))
  {
    if events != [] {
      RunKeepsHeld(origins, start, events[..|events| - 1]);
      ApplyKeepsHeld(origins, Run(origins, start, events[..|events| - 1]), events[|events| - 1]);
    }
  }

  // ---------------------------------------------------------------- the exact theorem

  /** The blocks of a record end within their limits after its last event. */
  predicate InTime(t: Trace) {
    UntilWithin(CoolingUntil(t), t.at, MAX_COOLDOWN) && UntilWithin(QuarantinedUntil(t), t.at, REPRESENTATION_TTL)
  }

  function InTimeRepresentations(reps: map<Text, RepresentationRecord>,
                                 traces: map<Text, Trace>): map<Text, RepresentationRecord> {
    map k | k in reps && InTime(TraceOf(traces, k)) :: reps[k]
  }

  lemma SoundIsInTime(origins: Origins, key: Text, r: RepresentationRecord, t: Trace)
    requires Named(origins, key, r) && RepresentationFollows(r, t)
    ensures RepresentationSound(origins, key, r) <==> InTime(t)
  {
  }

  lemma SoundAreInTime(origins: Origins, reps: map<Text, RepresentationRecord>, traces: map<Text, Trace>)
    requires RepresentationsNamed(origins, reps) && RepresentationsFollow(reps, traces)
    ensures SoundRepresentations(origins, reps) == InTimeRepresentations(reps, traces)
  {
    forall k | k in reps ensures RepresentationSound(origins, k, reps[k]) <==> InTime(TraceOf(traces, k)) {
      SoundIsInTime(origins, k, reps[k], TraceOf(traces, k));
    }
  }

  lemma FewValidated(origins: Origins, h: History, order: seq<Text>)
    requires HostsHeld(origins, h.hosts) && FewOrigins(h.representations)
    requires Elements(order) == Digests(SoundRepresentations(origins, h.representations))
    ensures ValidateLoaded(origins, h, order)
         == h.(hosts := ModestHosts(h.hosts), representations := SoundRepresentations(origins, h.representations))
  {
    var sound := SoundRepresentations(origins, h.representations);
    SubTableKeepsFew(sound, h.representations);
    TopKEachOfFew(sound, order);
    assert SoundHosts(origins, h.hosts) == h.hosts;
  }

  /**
   Over every run, with any clock and from any start whose hosts and names are in order, saving and loading loses
   exactly the hosts with over 1,000,000 failures or origins over 512 bytes, and the representations whose cooldown
   or quarantine ends too long after their last event.
   */
  lemma ReloadIsExact(origins: Origins, start: History, events: seq<Event>, h: History, t: Traces, order: seq<Text>)
    requires Idempotent(origins) && Held(origins, start) && Bounded(start) && Typed(start) && Hashed(events)
    requires h == Run(origins, start, events) && t == RunTraces(origins, start, events)
    requires Elements(order) == Digests(SoundRepresentations(origins, h.representations))
    ensures ValidateLoaded(origins, h, order)
         == h.(hosts := ModestHosts(h.hosts),
               representations := InTimeRepresentations(h.representations, t.representations))
  {
    RunKeepsHeld(origins, start, events);
    RunIsBounded(origins, start, events);
    RunFollows(origins, start, events);
    SoundAreInTime(origins, h.representations, t.representations);
    FewValidated(origins, h, order);
  }

  lemma EmptyIsHeld(origins: Origins)
    ensures Held(origins, EMPTY) && Bounded(EMPTY) && Typed(EMPTY) && Sound(origins, EMPTY, 0)
  {
    EmptyIsBounded();
  }

  /** From the empty table: a representation survives saving and loading exactly when its blocks end in time. */
  lemma ReloadFromEmpty(origins: Origins, events: seq<Event>, h: History, t: Traces, order: seq<Text>, key: Text)
    requires Idempotent(origins) && Hashed(events)
    requires h == Run(origins, EMPTY, events) && t == RunTraces(origins, EMPTY, events)
    requires Elements(order) == Digests(SoundRepresentations(origins, h.representations))
    ensures key in ValidateLoaded(origins, h, order).representations <==>
              key in h.representations && InTime(TraceOf(t.representations, key))
  {
    EmptyIsHeld(origins);
    ReloadIsExact(origins, EMPTY, events, h, t, order);
  }

  /** With a clock that does not go back nothing is out of time. */
  lemma ReachableTableReloads(origins: Origins, start: History, clock: nat, events: seq<Event>, h: History,
                              order: seq<Text>)
    requires Idempotent(origins) && Sound(origins, start, clock) && Bounded(start) && Orderly(events, clock)
    requires h == Run(origins, start, events)
    requires Elements(order) == Digests(SoundRepresentations(origins, h.representations))
    ensures ValidateLoaded(origins, h, order) == h.(hosts := ModestHosts(h.hosts))
  {
    RunIsBounded(origins, start, events);
    RunKeepsSound(origins, start, clock, events);
    FewValidated(origins, h, order);
    assert SoundRepresentations(origins, h.representations) == h.representations;
  }

  lemma ValidatedIsHeld(origins: Origins, file: History, order: seq<Text>, now: nat)
    requires Elements(order) == Digests(SoundRepresentations(origins, file.representations))
    ensures Held(origins, Prune(ValidateLoaded(origins, file, order), now))
  {
    TopKEachBounds(SoundRepresentations(origins, file.representations), order);
    PruneKeepsHeld(origins, ValidateLoaded(origins, file, order), now);
  }

  lemma ValidatedIsTyped(origins: Origins, file: History, order: seq<Text>, now: nat)
    requires Typed(file) && Elements(order) == Digests(SoundRepresentations(origins, file.representations))
    ensures Typed(Prune(ValidateLoaded(origins, file, order), now))
  {
    var v := ValidateLoaded(origins, file, order);
    TopKEachBounds(SoundRepresentations(origins, file.representations), order);
    PruneHostsShrinks(v.hosts, now);
    PruneRepresentationsShrinks(v.representations, now);
  }

  lemma ValidatedIsBounded(origins: Origins, file: History, order: seq<Text>, now: nat)
    requires Elements(order) == Digests(SoundRepresentations(origins, file.representations))
    ensures Bounded(Prune(ValidateLoaded(origins, file, order), now))
  {
    var v := ValidateLoaded(origins, file, order);
    ValidatedHasFew(origins, file, order);
    PruneKeepsFew(v, now);
  }

  /** The same for the table the program starts with: whatever the file held, validated and pruned. */
  lemma LoadedTableReloads(origins: Origins, file: History, read: seq<Text>, now: nat, start: History,
                           events: seq<Event>, h: History, t: Traces, order: seq<Text>)
    requires Idempotent(origins) && Typed(file) && Hashed(events)
    requires Elements(read) == Digests(SoundRepresentations(origins, file.representations))
    requires start == Prune(ValidateLoaded(origins, file, read), now)
    requires h == Run(origins, start, events) && t == RunTraces(origins, start, events)
    requires Elements(order) == Digests(SoundRepresentations(origins, h.representations))
    ensures ValidateLoaded(origins, h, order)
         == h.(hosts := ModestHosts(h.hosts),
               representations := InTimeRepresentations(h.representations, t.representations))
  {
    ValidatedIsHeld(origins, file, read, now);
    ValidatedIsTyped(origins, file, read, now);
    ValidatedIsBounded(origins, file, read, now);
    ReloadIsExact(origins, start, events, h, t, order);
  }

  /** And without loss of representations when no record of the file is from the future and the clock does not go
      back. */
  lemma LoadedTableReloadsWhole(origins: Origins, file: History, read: seq<Text>, now: nat, clock: nat, start: History,
                                events: seq<Event>, h: History, order: seq<Text>)
    requires Idempotent(origins) && Orderly(events, clock)
    requires Elements(read) == Digests(SoundRepresentations(origins, file.representations))
    requires forall k :: k in file.hosts ==> file.hosts[k].updatedAt <= clock
    requires forall k :: k in file.representations ==> file.representations[k].updatedAt <= clock
    requires start == Prune(ValidateLoaded(origins, file, read), now) && h == Run(origins, start, events)
    requires Elements(order) == Digests(SoundRepresentations(origins, h.representations))
    ensures ValidateLoaded(origins, h, order) == h.(hosts := ModestHosts(h.hosts))
  {
    LoadedTableIsBounded(origins, file, read, now, clock);
    ReachableTableReloads(origins, start, clock, events, h, order);
  }
}
