/** What one observation does to the table, without the functions that compute it. */
module CdnHealthRecord {
  import opened Prelude
  import opened CdnHealth
  import opened CdnHealthRuns

  // ---------------------------------------------------------------- samples

  /** At least one microsecond, otherwise the whole microseconds of the time. */
  predicate MeasuredMicros(micros: nat, nanos: nat) {
    if nanos < 1000 then micros == 1 else 1000 * micros <= nanos < 1000 * micros + 1000
  }

  /** The whole bits per second, or the largest 64-bit number below them. */
  predicate IsRate(sample: nat, bytes: nat, micros: nat) {
    && sample <= U64_MAX && sample * micros <= bytes * 8_000_000
    && (sample < U64_MAX ==> bytes * 8_000_000 < (sample + 1) * micros)
  }

  predicate IsLatency(sample: nat, nanos: nat) {
    sample <= U64_MAX && 1000 * sample <= nanos && (sample < U64_MAX ==> nanos < 1000 * sample + 1000)
  }

  /** Three parts of the old value to one part of the sample, rounded down; the first sample counts whole. */
  predicate Averaged(v: nat, prior: Option<nat>, sample: nat) {
    if prior.None? then v == sample else 4 * v <= 3 * prior.value + sample < 4 * v + 4
  }

  ghost predicate ThroughputAfter(v: Option<nat>, prior: Option<nat>, o: Observation) {
    if o.source.DownloadShard? || o.elapsed.None? || o.elapsed == Some(0) then v == prior
    else v.Some? && exists sample: nat, micros: nat ::
      MeasuredMicros(micros, o.elapsed.value) && IsRate(sample, o.bytes, micros) && Averaged(v.value, prior, sample)
  }

  ghost predicate LatencyAfter(v: Option<nat>, prior: Option<nat>, o: Observation) {
    if o.source.DownloadShard? || o.firstByte.None? then v == prior
    else v.Some? && exists sample: nat :: IsLatency(sample, o.firstByte.value) && Averaged(v.value, prior, sample)
  }

  predicate RangeAfter(v: Option<bool>, prior: Option<bool>, o: Observation) {
    if o.rangeSupported.None? then v == prior else v == o.rangeSupported
  }

  /** Ten seconds after the first failure in a row, doubling with each, from the seventh on ten minutes. */
  predicate IsCooldown(secs: nat, failures: nat) {
    if failures <= 1 then secs == 10
    else if failures == 2 then secs == 20
    else if failures == 3 then secs == 40
    else if failures == 4 then secs == 80
    else if failures == 5 then secs == 160
    else if failures == 6 then secs == 320
    else secs == 600
  }

  // ---------------------------------------------------------------- one record

  function Lookup<R>(m: map<Text, R>, key: Text): (r: Option<R>) {
    if key in m then Some(m[key]) else None
  }

  predicate IsSuccess(o: Observation) {
    o.outcome == Complete
  }

  predicate IsFailure(o: Observation) {
    o.outcome in {ConnectionFailure, Timeout, ServerFailure}
  }

  /** One more failure in a row, and no use of the record until the cooldown has passed. */
  ghost predicate Failed(failures: nat, until: Option<nat>, before: nat, now: nat) {
    && failures == Min(before + 1, U32_MAX)
    && exists secs: nat :: IsCooldown(secs, failures) && until == Some(Min(now + secs, U64_MAX))
  }

  ghost predicate HostSucceeded(r: HostRecord, prior: Option<HostRecord>, o: Observation) {
    && r.latest == Success && r.failures == 0 && r.cooldownUntil == None
    && ThroughputAfter(r.throughput, if prior.Some? then prior.value.throughput else None, o)
    && LatencyAfter(r.latency, if prior.Some? then prior.value.latency else None, o)
    && RangeAfter(r.rangeSupported, if prior.Some? then prior.value.rangeSupported else None, o)
  }

  ghost predicate HostFailed(r: HostRecord, prior: Option<HostRecord>, now: nat) {
    && r.latest == TransportFailure
    && Failed(r.failures, r.cooldownUntil, if prior.Some? then prior.value.failures else 0, now)
    && r.throughput == None && r.latency == None && r.rangeSupported == None
  }

  /** The record of the host that was observed. */
  ghost predicate HostRecorded(r: HostRecord, prior: Option<HostRecord>, o: Observation, now: nat, sequence: nat) {
    && r.updatedAt == now && r.eventSequence == sequence
    && (IsSuccess(o) ==> HostSucceeded(r, prior, o))
    && (IsFailure(o) ==> HostFailed(r, prior, now))
  }

  ghost predicate RepresentationSucceeded(r: RepresentationRecord, prior: Option<RepresentationRecord>,
                                          o: Observation) {
    && r.latest == Success && r.failures == 0 && r.cooldownUntil == None && r.quarantinedUntil == None
    && ThroughputAfter(r.throughput, if prior.Some? then prior.value.throughput else None, o)
    && LatencyAfter(r.latency, if prior.Some? then prior.value.latency else None, o)
    && RangeAfter(r.rangeSupported, if prior.Some? then prior.value.rangeSupported else None, o)
  }

  ghost predicate RepresentationFailed(r: RepresentationRecord, prior: Option<RepresentationRecord>, now: nat) {
    && r.latest == TransportFailure
    && Failed(r.failures, r.cooldownUntil, if prior.Some? then prior.value.failures else 0, now)
    && r.quarantinedUntil == (if prior.Some? then prior.value.quarantinedUntil else None)
    && r.throughput == None && r.latency == None && r.rangeSupported == None
  }

  /** A mismatch quarantines the representation for six hours; its failures and cooldown stay. */
  ghost predicate RepresentationMismatched(r: RepresentationRecord, prior: Option<RepresentationRecord>, now: nat) {
    && r.latest == TransportFailure && r.quarantinedUntil == Some(Min(now + 6 * 60 * 60, U64_MAX))
    && r.failures == (if prior.Some? then prior.value.failures else 0)
    && r.cooldownUntil == (if prior.Some? then prior.value.cooldownUntil else None)
    && r.throughput == None && r.latency == None && r.rangeSupported == None
  }

  /** The record of the representation that was observed. */
  ghost predicate RepresentationRecorded(r: RepresentationRecord, prior: Option<RepresentationRecord>, digest: Text,
                                         origin: Text, o: Observation, now: nat, sequence: nat) {
    && r.updatedAt == now && r.eventSequence == sequence
    && r.digest == (if prior.Some? then prior.value.digest else digest)
    && r.origin == (if prior.Some? then prior.value.origin else origin)
    && (IsSuccess(o) ==> RepresentationSucceeded(r, prior, o))
    && (IsFailure(o) ==> RepresentationFailed(r, prior, now))
    && (o.outcome == IntegrityMismatch ==> RepresentationMismatched(r, prior, now))
  }

  // ---------------------------------------------------------------- the samples are these

  lemma DivisionBounds(num: nat, den: nat)
    requires den > 0
    ensures num / den * den <= num < (num / den + 1) * den
  {
    assert num == num / den * den + num % den;
  }

  lemma CappedRate(bits: nat, micros: nat, sample: nat)
    requires micros > 0 && sample == Min(bits / micros, U64_MAX)
    ensures sample <= U64_MAX && sample * micros <= bits && (sample < U64_MAX ==> bits < (sample + 1) * micros)
  {
    DivisionBounds(bits, micros);
    if sample < bits / micros {
      MulMonotone(sample, bits / micros, micros);
    }
  }

  lemma MulMonotone(a: nat, b: nat, k: nat)
    requires a <= b
    ensures a * k <= b * k
  {
  }

  lemma ThroughputIsRate(o: Observation)
    requires !o.source.DownloadShard? && o.elapsed.Some? && o.elapsed != Some(0)
    ensures ThroughputSample(o).Some?
    ensures exists micros: nat ::
              MeasuredMicros(micros, o.elapsed.value) && IsRate(ThroughputSample(o).value, o.bytes, micros)
  {
    var micros: nat := Max(o.elapsed.value / 1000, 1);
    assert MeasuredMicros(micros, o.elapsed.value);
    assert o.bytes * 8 * 1_000_000 == o.bytes * 8_000_000;
    CappedRate(o.bytes * 8_000_000, micros, ThroughputSample(o).value);
    assert IsRate(ThroughputSample(o).value, o.bytes, micros);
  }

  lemma AbsorbAverages(prior: Option<nat>, sample: nat)
    ensures Absorb(prior, Some(sample)).Some? && Averaged(Absorb(prior, Some(sample)).value, prior, sample)
  {
  }

  lemma ThroughputAbsorbed(prior: Option<nat>, o: Observation)
    ensures ThroughputAfter(Absorb(prior, ThroughputSample(o)), prior, o)
  {
    if !o.source.DownloadShard? && o.elapsed.Some? && o.elapsed != Some(0) {
      ThroughputIsRate(o);
      AbsorbAverages(prior, ThroughputSample(o).value);
    }
  }

  lemma LatencyAbsorbed(prior: Option<nat>, o: Observation)
    ensures LatencyAfter(Absorb(prior, LatencySample(o)), prior, o)
  {
    if !o.source.DownloadShard? && o.firstByte.Some? {
      assert IsLatency(LatencySample(o).value, o.firstByte.value);
      AbsorbAverages(prior, LatencySample(o).value);
    }
  }

  lemma CooldownIs(failures: nat)
    ensures IsCooldown(CooldownSecs(failures), failures)
  {
    assert Pow2(0) == 1 && Pow2(1) == 2 && Pow2(2) == 4 && Pow2(3) == 8;
    assert Pow2(4) == 16 && Pow2(5) == 32 && Pow2(6) == 64;
  }

  lemma FailureIs(before: nat, now: nat, failures: nat)
    requires failures == Min(before + 1, U32_MAX)
    ensures Failed(failures, Some(SaturatingAdd(now, CooldownSecs(failures))), before, now)
  {
    CooldownIs(failures);
  }

  lemma UpdateHostIs(e: HostRecord, o: Observation, now: nat, sequence: nat)
    requires IsSuccess(o) || IsFailure(o)
    ensures HostRecorded(UpdateHost(e, o, now, sequence, IsTransportFailure(o.outcome)), Some(e), o, now, sequence)
  {
    if IsSuccess(o) {
      ThroughputAbsorbed(e.throughput, o);
      LatencyAbsorbed(e.latency, o);
    } else {
      FailureIs(e.failures, now, Min(e.failures + 1, U32_MAX));
    }
  }

  lemma UpdateRepresentationIs(e: RepresentationRecord, o: Observation, now: nat, sequence: nat)
    requires IsSuccess(o) || IsFailure(o) || o.outcome == IntegrityMismatch
    ensures RepresentationRecorded(
              UpdateRepresentation(e, o, now, sequence, IsTransportFailure(o.outcome), o.outcome.IntegrityMismatch?),
              Some(e), e.digest, e.origin, o, now, sequence)
  {
    if IsSuccess(o) {
      ThroughputAbsorbed(e.throughput, o);
      LatencyAbsorbed(e.latency, o);
    } else if IsFailure(o) {
      FailureIs(e.failures, now, Min(e.failures + 1, U32_MAX));
    }
  }

  lemma HostAfterIs(hosts: map<Text, HostRecord>, origin: Text, o: Observation, now: nat, sequence: nat)
    requires IsSuccess(o) || IsFailure(o)
    ensures HostRecorded(HostAfter(hosts, origin, o, now, sequence), Lookup(hosts, origin), o, now, sequence)
  {
    var entry := if origin in hosts then hosts[origin]
                 else NewHost(now, sequence, if o.outcome.Complete? then Success else TransportFailure);
    UpdateHostIs(entry, o, now, sequence);
  }

  lemma RepresentationAfterIs(reps: map<Text, RepresentationRecord>, digest: Text, origin: Text, o: Observation,
                              now: nat, sequence: nat)
    requires IsSuccess(o) || IsFailure(o) || o.outcome == IntegrityMismatch
    ensures RepresentationRecorded(RepresentationAfter(reps, digest, origin, o, now, sequence),
                                   Lookup(reps, MapKey(digest, origin)), digest, origin, o, now, sequence)
  {
    var key := MapKey(digest, origin);
    var entry := if key in reps then reps[key]
                 else NewRepresentation(digest, origin, now, sequence, if o.outcome.Complete? then Success
                     else TransportFailure);
    UpdateRepresentationIs(entry, o, now, sequence);
  }

  // ---------------------------------------------------------------- the whole table

  /** Every record but the one under this key is as it was. */
  ghost predicate OthersKept<R(!new)>(before: map<Text, R>, after: map<Text, R>, key: Text) {
    forall k :: k in after && k != key ==> k in before && after[k] == before[k]
  }

  /** The tables pass through pruning, the update of one record and pruning again. */
  lemma StagesKeep<R(!new)>(before: map<Text, R>, pruned: map<Text, R>, key: Text, r: R, updated: map<Text, R>,
                            after: map<Text, R>)
    requires SubTable(pruned, before) && SubTable(updated, pruned[key := r]) && SubTable(after, updated)
    ensures OthersKept(before, after, key)
    ensures key in after ==> after[key] == r
  {
  }

  lemma HostTableIs(hosts: map<Text, HostRecord>, origin: Text, o: Observation, now: nat, sequence: nat,
                    r: map<Text, HostRecord>)
    requires (IsSuccess(o) || IsFailure(o)) && r == RecordHosts(hosts, origin, o, now, sequence)
    ensures OthersKept(hosts, r, origin)
    ensures origin in r ==> HostRecorded(r[origin], Lookup(PruneHosts(hosts, now), origin), o, now, sequence)
  {
    var p := PruneHosts(hosts, now);
    PruneHostsShrinks(hosts, now);
    HostAfterIs(p, origin, o, now, sequence);
    var q := HostsAfter(p, origin, o, now, sequence);
    PruneHostsShrinks(q, now);
    StagesKeep(hosts, p, origin, HostAfter(p, origin, o, now, sequence), q, r);
  }

  lemma RepresentationUpdateShrinks(p: map<Text, RepresentationRecord>, digest: Text, origin: Text, o: Observation,
                                    now: nat, sequence: nat)
    requires IsSuccess(o) || IsFailure(o) || o.outcome == IntegrityMismatch
    ensures SubTable(RepresentationsAfter(p, Some(digest), origin, o, now, sequence),
                     p[MapKey(digest, origin) := RepresentationAfter(p, digest, origin, o, now, sequence)])
  {
    TopKShrinks(p[MapKey(digest, origin) := RepresentationAfter(p, digest, origin, o, now, sequence)], digest);
  }

  lemma RepresentationTableIs(reps: map<Text, RepresentationRecord>, digest: Text, origin: Text, o: Observation,
                              now: nat, sequence: nat, r: map<Text, RepresentationRecord>)
    requires IsSuccess(o) || IsFailure(o) || o.outcome == IntegrityMismatch
    requires r == RecordRepresentations(reps, Some(digest), origin, o, now, sequence)
    ensures OthersKept(reps, r, MapKey(digest, origin))
    ensures MapKey(digest, origin) in r ==>
              RepresentationRecorded(r[MapKey(digest, origin)], Lookup(PruneRepresentations(reps, now),
                                     MapKey(digest, origin)), digest, origin, o, now, sequence)
  {
    var p := PruneRepresentations(reps, now);
    PruneRepresentationsShrinks(reps, now);
    RepresentationAfterIs(p, digest, origin, o, now, sequence);
    RepresentationUpdateShrinks(p, digest, origin, o, now, sequence);
    var q := RepresentationsAfter(p, Some(digest), origin, o, now, sequence);
    PruneRepresentationsShrinks(q, now);
    StagesKeep(reps, p, MapKey(digest, origin), RepresentationAfter(p, digest, origin, o, now, sequence), q, r);
  }

  /** What one observation of an origin does to the hosts. */
  ghost predicate HostsRecorded(before: map<Text, HostRecord>, after: map<Text, HostRecord>, origin: Text,
                                o: Observation, now: nat, sequence: nat) {
    if IsSuccess(o) || IsFailure(o) then
      && OthersKept(before, after, origin)
      && (origin in after ==> HostRecorded(after[origin], Lookup(PruneHosts(before, now), origin), o, now, sequence))
    else after == PruneHosts(before, now)
  }

  /** What one observation, of this representation if it names one, does to the representations. */
  ghost predicate RepresentationsRecorded(before: map<Text, RepresentationRecord>,
                                          after: map<Text, RepresentationRecord>, digest: Option<Text>, origin: Text,
                                          o: Observation, now: nat, sequence: nat) {
    if digest.Some? && (IsSuccess(o) || IsFailure(o) || o.outcome == IntegrityMismatch) then
      var key := MapKey(digest.value, origin);
      && OthersKept(before, after, key)
      && (key in after ==> RepresentationRecorded(after[key], Lookup(PruneRepresentations(before, now), key),
                                                  digest.value, origin, o, now, sequence))
    else after == PruneRepresentations(before, now)
  }

  lemma HostsRecordedIs(hosts: map<Text, HostRecord>, origin: Text, o: Observation, now: nat, sequence: nat)
    ensures HostsRecorded(hosts, RecordHosts(hosts, origin, o, now, sequence), origin, o, now, sequence)
  {
    if IsSuccess(o) || IsFailure(o) {
      HostTableIs(hosts, origin, o, now, sequence, RecordHosts(hosts, origin, o, now, sequence));
    } else {
      PruneHostsShrinks(hosts, now);
      PruneHostsAgain(PruneHosts(hosts, now), now);
    }
  }

  lemma RepresentationsOnlyPruned(reps: map<Text, RepresentationRecord>, digest: Option<Text>, origin: Text,
                                  o: Observation, now: nat, sequence: nat)
    requires digest.None? || !TouchesRepresentation(o)
    ensures RecordRepresentations(reps, digest, origin, o, now, sequence) == PruneRepresentations(reps, now)
  {
    PruneRepresentationsShrinks(reps, now);
    PruneRepresentationsAgain(PruneRepresentations(reps, now), now);
  }

  lemma RepresentationsRecordedIs(reps: map<Text, RepresentationRecord>, digest: Option<Text>, origin: Text,
                                  o: Observation, now: nat, sequence: nat, r: map<Text, RepresentationRecord>)
    requires r == RecordRepresentations(reps, digest, origin, o, now, sequence)
    ensures RepresentationsRecorded(reps, r, digest, origin, o, now, sequence)
  {
    if digest.Some? && (IsSuccess(o) || IsFailure(o) || o.outcome == IntegrityMismatch) {
      RepresentationTableIs(reps, digest.value, origin, o, now, sequence, r);
    } else {
      RepresentationsOnlyPruned(reps, digest, origin, o, now, sequence);
    }
  }

  /** What one observation does. A success or a failure of the connection rewrites the record of its origin from the one
      that was still live and leaves the other hosts as they are; any other outcome only lets old records expire. The
      same goes for the representation, if the observation names one, where a mismatch counts too. */
  lemma RecordMeaning(h: History, origin: Text, o: Observation, digest: Option<Text>, now: nat)
    ensures Record(h, origin, o, digest, now).sequence == Min(h.sequence + 1, U64_MAX)
    ensures var n := Record(h, origin, o, digest, now);
      HostsRecorded(h.hosts, n.hosts, origin, o, now, n.sequence)
    ensures var n := Record(h, origin, o, digest, now);
      RepresentationsRecorded(h.representations, n.representations, digest, origin, o, now, n.sequence)
  {
    HostsRecordedIs(h.hosts, origin, o, now, SaturatingAdd(h.sequence, 1));
    RepresentationsRecordedIs(h.representations, digest, origin, o, now, SaturatingAdd(h.sequence, 1),
                              Record(h, origin, o, digest, now).representations);
  }
}
