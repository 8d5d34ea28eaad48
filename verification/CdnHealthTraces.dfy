/** What the records of the CDN health table mean in terms of the observations made. */
module CdnHealthTraces {
  import opened Prelude
  import opened CdnHealth
  import opened CdnHealthRuns

  // ---------------------------------------------------------------- averages

  /** Why a record is blocked: for no reason, by an event at some time, or as it was found in the file. */
  datatype Block = Clear | Since(at: nat) | Inherited(until: nat)

  /** What happened to a record since it was created: the samples and the range support reported since its last reset
      (a value found in the file counts as a sample), the failures since its last success and the cooldown of the last
      one, the last mismatch since its last success, and the outcome, time and number of the last event. */
  datatype Trace = Trace(
    throughput: seq<nat>, latency: seq<nat>, range: Option<bool>,
    streak: nat, cooling: Block, mismatch: Block,
    good: bool, at: nat, sequence: nat)

  datatype Traces = Traces(hosts: map<Text, Trace>, representations: map<Text, Trace>)

  const UNTRACED: Trace := Trace([], [], None, 0, Clear, Clear, false, 0, 0)

  function TraceOf(traces: map<Text, Trace>, key: Text): Trace {
    if key in traces then traces[key] else UNTRACED
  }

  // ---------------------------------------------------------------- a table found in the file

  function InheritedBlock(until: Option<nat>): Block {
    if until.None? then Clear else Inherited(until.value)
  }

  function InheritedSample(v: Option<nat>): seq<nat> {
    if v.None? then [] else [v.value]
  }

  function HostTrace(r: HostRecord): Trace {
    Trace(InheritedSample(r.throughput), InheritedSample(r.latency), r.rangeSupported, r.failures,
          InheritedBlock(r.cooldownUntil), Clear, r.latest.Success?, r.updatedAt, r.eventSequence)
  }

  function RepresentationTrace(r: RepresentationRecord): Trace {
    Trace(InheritedSample(r.throughput), InheritedSample(r.latency), r.rangeSupported, r.failures,
          InheritedBlock(r.cooldownUntil), InheritedBlock(r.quarantinedUntil), r.latest.Success?, r.updatedAt,
              r.eventSequence)
  }

  /** The traces of the table a run starts with. */
  function Remembered(h: History): Traces {
    Traces(map k | k in h.hosts :: HostTrace(h.hosts[k]), map k | k in h.representations ::
        RepresentationTrace(h.representations[k]))
  }

  /** The failure counts fit their 32-bit type. */
  ghost predicate Typed(h: History) {
    && (forall k :: k in h.hosts ==> h.hosts[k].failures <= U32_MAX)
    && (forall k :: k in h.representations ==> h.representations[k].failures <= U32_MAX)
  }

  // ---------------------------------------------------------------- events

  function Appended(samples: seq<nat>, sample: Option<nat>): seq<nat> {
    if sample.None? then samples else samples + [sample.value]
  }

  function Extended(t: Trace, o: Observation, now: nat, sequence: nat): Trace {
    if o.outcome.Complete? then
      Trace(Appended(t.throughput, ThroughputSample(o)), Appended(t.latency, LatencySample(o)),
            if o.rangeSupported.Some? then o.rangeSupported else t.range, 0, Clear, Clear, true, now, sequence)
    else if o.outcome.IntegrityMismatch? then
      Trace([], [], None, t.streak, t.cooling, Since(now), false, now, sequence)
    else
      Trace([], [], None, t.streak + 1, Since(now), t.mismatch, false, now, sequence)
  }

  /** An event extends the trace of a live record and starts that of a new one. */
  function TraceAfter(traces: map<Text, Trace>, live: bool, key: Text, o: Observation, now: nat,
                      sequence: nat): map<Text, Trace> {
    traces[key := Extended(if live then TraceOf(traces, key) else UNTRACED, o, now, sequence)]
  }

  function HostTraces(traces: map<Text, Trace>, live: map<Text, HostRecord>, origin: Text, o: Observation, now: nat,
                      sequence: nat): map<Text, Trace> {
    if TouchesHost(o) then TraceAfter(traces, origin in live, origin, o, now, sequence) else traces
  }

  function RepresentationTraces(traces: map<Text, Trace>, live: map<Text, RepresentationRecord>, digest: Option<Text>,
                                origin: Text, o: Observation, now: nat, sequence: nat): map<Text, Trace> {
    if digest.Some? && TouchesRepresentation(o) then
      TraceAfter(traces, MapKey(digest.value, origin) in live, MapKey(digest.value, origin), o, now, sequence)
    else traces
  }

  ghost function Traced(origins: Origins, h: History, t: Traces, e: Event): Traces {
    if e.Ranked? || origins(e.url).None? then t
    else
      var sequence := SaturatingAdd(h.sequence, 1);
      Traces(HostTraces(t.hosts, PruneHosts(h.hosts, e.now), origins(e.url).value, e.observation, e.now, sequence),
             RepresentationTraces(t.representations, PruneRepresentations(h.representations, e.now), e.digest,
                                  origins(e.url).value, e.observation, e.now, sequence))
  }

  ghost function RunTraces(origins: Origins, start: History, events: seq<Event>): Traces {
    if events == [] then Remembered(start)
    else
      var front := events[..|events| - 1];
      Traced(origins, Run(origins, start, front), RunTraces(origins, start, front), events[|events| - 1])
  }

  /** The moving average of a list of samples, oldest first. */
  function Average(samples: seq<nat>): Option<nat> {
    if samples == [] then None
    else Some(Ewma(Average(samples[..|samples| - 1]), samples[|samples| - 1]))
  }

  lemma AverageAppended(samples: seq<nat>, sample: Option<nat>)
    ensures Average(Appended(samples, sample)) == Absorb(Average(samples), sample)
  {
    if sample.Some? {
      assert (samples + [sample.value])[..|samples|] == samples;
    }
  }

  ghost predicate Between(v: nat, samples: seq<nat>) {
    exists i, j :: 0 <= i < |samples| && 0 <= j < |samples| && samples[i] <= v <= samples[j]
  }

  /** The average lies between two of its samples, so between the smallest and the largest. */
  lemma {:induction false} AverageBetween(samples: seq<nat>)
    requires samples != []
    ensures Average(samples).Some? && Between(Average(samples).value, samples)
  {
    var last := |samples| - 1;
    var front := samples[..last];
    if front == [] {
      assert samples[last] <= Average(samples).value <= samples[last];
    } else {
      AverageBetween(front);
      var a := Average(front).value;
      var i, j :| 0 <= i < |front| && 0 <= j < |front| && front[i] <= a <= front[j];
      assert samples[i] == front[i] && samples[j] == front[j];
      var v := Average(samples).value;
      assert samples[if samples[i] <= samples[last] then i else last] <= v
          <= samples[if samples[last] <= samples[j] then j else last];
    }
  }

  function CoolingUntil(t: Trace): Option<nat> {
    match t.cooling
    case Clear => None
    case Since(at) => Some(SaturatingAdd(at, CooldownSecs(Min(t.streak, U32_MAX))))
    case Inherited(until) => Some(until)
  }

  function QuarantinedUntil(t: Trace): Option<nat> {
    match t.mismatch
    case Clear => None
    case Since(at) => Some(SaturatingAdd(at, REPRESENTATION_TTL))
    case Inherited(until) => Some(until)
  }

  /** The trace determines the whole record of a host. */
  ghost predicate HostFollows(r: HostRecord, t: Trace) {
    && r.throughput == Average(t.throughput) && r.latency == Average(t.latency) && r.rangeSupported == t.range
    && r.failures == Min(t.streak, U32_MAX) && r.cooldownUntil == CoolingUntil(t)
    && r.latest.Success? == t.good && r.updatedAt == t.at && r.eventSequence == t.sequence
  }

  /** The trace determines the record of a representation, but for its name. */
  ghost predicate RepresentationFollows(r: RepresentationRecord, t: Trace) {
    && r.throughput == Average(t.throughput) && r.latency == Average(t.latency) && r.rangeSupported == t.range
    && r.failures == Min(t.streak, U32_MAX) && r.cooldownUntil == CoolingUntil(t)
         && r.quarantinedUntil == QuarantinedUntil(t)
    && r.latest.Success? == t.good && r.updatedAt == t.at && r.eventSequence == t.sequence
  }

  ghost predicate HostsFollow(hosts: map<Text, HostRecord>, traces: map<Text, Trace>) {
    forall k :: k in hosts ==> HostFollows(hosts[k], TraceOf(traces, k))
  }

  ghost predicate RepresentationsFollow(reps: map<Text, RepresentationRecord>, traces: map<Text, Trace>) {
    forall k :: k in reps ==> RepresentationFollows(reps[k], TraceOf(traces, k))
  }

  /** What an update reads of the old record. */
  ghost predicate HostCarries(r: HostRecord, t: Trace) {
    && r.throughput == Average(t.throughput) && r.latency == Average(t.latency) && r.rangeSupported == t.range
    && r.failures == Min(t.streak, U32_MAX)
  }

  ghost predicate RepresentationCarries(r: RepresentationRecord, t: Trace) {
    && r.throughput == Average(t.throughput) && r.latency == Average(t.latency) && r.rangeSupported == t.range
    && r.failures == Min(t.streak, U32_MAX) && r.cooldownUntil == CoolingUntil(t)
         && r.quarantinedUntil == QuarantinedUntil(t)
  }

  lemma UpdateHostFollows(e: HostRecord, t: Trace, o: Observation, now: nat, sequence: nat)
    requires HostCarries(e, t) && TouchesHost(o)
    ensures HostFollows(UpdateHost(e, o, now, sequence, IsTransportFailure(o.outcome)), Extended(t, o, now, sequence))
  {
    if o.outcome.Complete? {
      AverageAppended(t.throughput, ThroughputSample(o));
      AverageAppended(t.latency, LatencySample(o));
    } else {
      assert Min(t.streak + 1, U32_MAX) == Min(e.failures + 1, U32_MAX);
    }
  }

  lemma UpdateRepresentationFollows(e: RepresentationRecord, t: Trace, o: Observation, now: nat, sequence: nat)
    requires RepresentationCarries(e, t) && TouchesRepresentation(o)
    ensures RepresentationFollows(
              UpdateRepresentation(e, o, now, sequence, IsTransportFailure(o.outcome), o.outcome.IntegrityMismatch?),
              Extended(t, o, now, sequence))
  {
    if o.outcome.Complete? {
      AverageAppended(t.throughput, ThroughputSample(o));
      AverageAppended(t.latency, LatencySample(o));
    } else {
      assert Min(t.streak + 1, U32_MAX) == Min(e.failures + 1, U32_MAX);
    }
  }

  lemma HostAfterFollows(hosts: map<Text, HostRecord>, traces: map<Text, Trace>, origin: Text, o: Observation, now: nat,
                         sequence: nat)
    requires HostsFollow(hosts, traces) && TouchesHost(o)
    ensures HostFollows(HostAfter(hosts, origin, o, now, sequence),
                        TraceOf(TraceAfter(traces, origin in hosts, origin, o, now, sequence), origin))
  {
    if origin in hosts {
      assert HostFollows(hosts[origin], TraceOf(traces, origin));
      UpdateHostFollows(hosts[origin], TraceOf(traces, origin), o, now, sequence);
    } else {
      UpdateHostFollows(NewHost(now, sequence, if o.outcome.Complete? then Success else TransportFailure), UNTRACED, o,
          now, sequence);
    }
  }

  lemma RepresentationAfterFollows(reps: map<Text, RepresentationRecord>, traces: map<Text, Trace>, digest: Text,
                                   origin: Text, o: Observation, now: nat, sequence: nat)
    requires RepresentationsFollow(reps, traces) && TouchesRepresentation(o)
    ensures RepresentationFollows(
              RepresentationAfter(reps, digest, origin, o, now, sequence),
              TraceOf(TraceAfter(traces, MapKey(digest, origin) in reps, MapKey(digest, origin), o, now, sequence),
                  MapKey(digest, origin)))
  {
    var key := MapKey(digest, origin);
    if key in reps {
      assert RepresentationFollows(reps[key], TraceOf(traces, key));
      UpdateRepresentationFollows(reps[key], TraceOf(traces, key), o, now, sequence);
    } else {
      UpdateRepresentationFollows(
        NewRepresentation(digest, origin, now, sequence, if o.outcome.Complete? then Success else TransportFailure),
            UNTRACED, o, now, sequence);
    }
  }

  lemma HostsAfterFollow(hosts: map<Text, HostRecord>, traces: map<Text, Trace>, origin: Text, o: Observation, now: nat,
                         sequence: nat)
    requires HostsFollow(hosts, traces) && TouchesHost(o)
    ensures HostsFollow(HostsAfter(hosts, origin, o, now, sequence),
            TraceAfter(traces, origin in hosts, origin, o, now, sequence))
  {
    HostAfterFollows(hosts, traces, origin, o, now, sequence);
  }

  lemma RepresentationsAfterFollow(reps: map<Text, RepresentationRecord>, traces: map<Text, Trace>, digest: Text,
                                   origin: Text, o: Observation, now: nat, sequence: nat)
    requires RepresentationsFollow(reps, traces) && TouchesRepresentation(o)
    ensures RepresentationsFollow(RepresentationsAfter(reps, Some(digest), origin, o, now, sequence),
                                  TraceAfter(traces, MapKey(digest, origin) in reps, MapKey(digest, origin), o, now,
                                      sequence))
  {
    RepresentationAfterFollows(reps, traces, digest, origin, o, now, sequence);
    TopKShrinks(reps[MapKey(digest, origin) := RepresentationAfter(reps, digest, origin, o, now, sequence)], digest);
  }

  lemma HostHalfFollows(hosts: map<Text, HostRecord>, traces: map<Text, Trace>, origin: Text, o: Observation, now: nat,
                        sequence: nat)
    requires HostsFollow(hosts, traces)
    ensures HostsFollow(RecordHosts(hosts, origin, o, now, sequence),
            HostTraces(traces, PruneHosts(hosts, now), origin, o, now, sequence))
  {
    var p := PruneHosts(hosts, now);
    PruneHostsShrinks(hosts, now);
    if TouchesHost(o) {
      HostsAfterFollow(p, traces, origin, o, now, sequence);
    }
    PruneHostsShrinks(HostsAfter(p, origin, o, now, sequence), now);
  }

  lemma RepresentationHalfFollows(reps: map<Text, RepresentationRecord>, traces: map<Text, Trace>, digest: Option<Text>,
                                  origin: Text, o: Observation, now: nat, sequence: nat)
    requires RepresentationsFollow(reps, traces)
    ensures RepresentationsFollow(RecordRepresentations(reps, digest, origin, o, now, sequence),
                                  RepresentationTraces(traces, PruneRepresentations(reps, now), digest, origin, o, now,
                                      sequence))
  {
    var p := PruneRepresentations(reps, now);
    PruneRepresentationsShrinks(reps, now);
    if digest.Some? && TouchesRepresentation(o) {
      RepresentationsAfterFollow(p, traces, digest.value, origin, o, now, sequence);
    }
    PruneRepresentationsShrinks(RepresentationsAfter(p, digest, origin, o, now, sequence), now);
  }

  lemma RecordedHostsFollow(origins: Origins, h: History, t: Traces, e: Event)
    requires e.Observed? && origins(e.url).Some? && HostsFollow(h.hosts, t.hosts)
    ensures HostsFollow(Apply(origins, h, e).hosts, Traced(origins, h, t, e).hosts)
  {
    HostHalfFollows(h.hosts, t.hosts, origins(e.url).value, e.observation, e.now, SaturatingAdd(h.sequence, 1));
  }

  lemma RecordedRepresentationsFollow(origins: Origins, h: History, t: Traces, e: Event)
    requires e.Observed? && origins(e.url).Some? && RepresentationsFollow(h.representations, t.representations)
    ensures RepresentationsFollow(Apply(origins, h, e).representations, Traced(origins, h, t, e).representations)
  {
    RepresentationHalfFollows(h.representations, t.representations, e.digest, origins(e.url).value, e.observation,
        e.now,
                              SaturatingAdd(h.sequence, 1));
  }

  lemma ApplyFollows(origins: Origins, h: History, t: Traces, e: Event)
    requires HostsFollow(h.hosts, t.hosts) && RepresentationsFollow(h.representations, t.representations)
    ensures HostsFollow(Apply(origins, h, e).hosts, Traced(origins, h, t, e).hosts)
    ensures RepresentationsFollow(Apply(origins, h, e).representations, Traced(origins, h, t, e).representations)
  {
    if e.Ranked? {
      PruneHostsShrinks(h.hosts, e.now);
      PruneRepresentationsShrinks(h.representations, e.now);
    } else if origins(e.url).Some? {
      RecordedHostsFollow(origins, h, t, e);
      RecordedRepresentationsFollow(origins, h, t, e);
    }
  }

  lemma InheritedAverage(v: Option<nat>)
    ensures Average(InheritedSample(v)) == v
  {
    if v.Some? {
      assert [v.value][..0] == [];
      assert Average([]) == None;
    }
  }

  lemma RememberedFollows(h: History)
    requires Typed(h)
    ensures HostsFollow(h.hosts, Remembered(h).hosts)
    ensures RepresentationsFollow(h.representations, Remembered(h).representations)
  {
    forall v ensures Average(InheritedSample(v)) == v {
      InheritedAverage(v);
    }
  }

  /** In every reachable table, from any start, every record is what its trace says. */
  lemma {:induction false} RunFollows(origins: Origins, start: History, events: seq<Event>)
    requires Typed(start)
    ensures HostsFollow(Run(origins, start, events).hosts, RunTraces(origins, start, events).hosts)
    ensures RepresentationsFollow(Run(origins, start, events).representations,
            RunTraces(origins, start, events).representations)
  {
    if events == [] {
      RememberedFollows(start);
    } else {
      var front := events[..|events| - 1];
      RunFollows(origins, start, front);
      ApplyFollows(origins, Run(origins, start, front), RunTraces(origins, start, front), events[|events| - 1]);
    }
  }

  ghost predicate StoredBetween(stored: Option<nat>, samples: seq<nat>) {
    match stored
    case None => samples == []
    case Some(v) => Between(v, samples)
  }

  /** In every reachable table each stored metric lies between two samples taken since its record's last reset. */
  lemma StoredMetricsAreBetweenSamples(origins: Origins, start: History, events: seq<Event>)
    requires Typed(start)
    ensures var h, t := Run(origins, start, events), RunTraces(origins, start, events);
            && (forall k :: k in h.hosts ==>
                  && StoredBetween(h.hosts[k].throughput, TraceOf(t.hosts, k).throughput)
                  && StoredBetween(h.hosts[k].latency, TraceOf(t.hosts, k).latency))
            && (forall k :: k in h.representations ==>
                  && StoredBetween(h.representations[k].throughput, TraceOf(t.representations, k).throughput)
                  && StoredBetween(h.representations[k].latency, TraceOf(t.representations, k).latency))
  {
    RunFollows(origins, start, events);
    forall s: seq<nat> ensures StoredBetween(Average(s), s) {
      if s != [] {
        AverageBetween(s);
      }
    }
  }
}
