/**
 The background persistence of the CDN history: any number of recorders, one coalescing writer
 task and any number of shutdown calls, interleaved at lock boundaries.

 A snapshot of the history carries its `sequence` number and, as its contents, the observations
 applied so far. Three locks appear explicitly because they are held across other threads' steps:
 the writer lock (`writer`), the persistence lock (`persistence_lock`) and the shutdown lock.
 A critical section that only touches what its own lock protects is one step.
 */
module WriterProtocol {
  import opened Prelude

  type Observation = nat

  datatype Snapshot = Snapshot(sequence: nat, log: seq<Observation>)

  /** Where a recorder is between its increment of `sequence` and the end of `schedule_write`. */
  datatype RecorderPc =
    | Applied          // state lock released, `schedule_write` not entered
    | Entered          // holds the writer lock, nothing changed yet
    | MarkedRunning    // holds the writer lock, `running` set, task not spawned

  /** The two halves of `persist_snapshot` that run under the persistence lock. */
  datatype PersistPc =
    | Begin(snap: Snapshot)
    | Writing(snap: Snapshot)
    | Renamed(snap: Snapshot)

  datatype WriterPc =
    | CheckAdmission
    | TakeSnapshot
    | Persisting(persist: PersistPc)
    | Written(snap: Snapshot)                 // write succeeded, writer lock not yet taken
    | Deciding(snap: Snapshot)                // holds the writer lock
    | Decided(snap: Snapshot, current: nat)   // holds the writer lock, `state.sequence` read
    | GoingIdle                               // about to call `set_writer_idle`

  datatype ShutdownPc =
    | Called
    | HoldingLock
    | Waiting
    | SnapshotDue
    | Flushing(persist: PersistPc)
    | Returned(written: bool)

  datatype Actor = Recorder(t: nat) | Writer(w: nat) | Shutdown(k: nat)

  datatype System = System(
    path: bool,
    loaded: Snapshot,            // what `load` read; never changes
    state: Snapshot,             // `Shared::state`
    disk: Snapshot,              // the file; a missing file is `Snapshot(0, [])`
    persisted: nat,              // `persisted_sequence`
    closed: bool,                // `admission_closed`
    running: bool,
    idle: bool,                  // the `writer_idle` watch value
    writerLock: Option<Actor>,
    ioLock: Option<Actor>,
    shutdownLock: Option<nat>,
    recorders: map<nat, RecorderPc>,
    writers: map<nat, WriterPc>,
    shutdowns: map<nat, ShutdownPc>,
    callState: map<nat, Snapshot>,   // history: the state when each shutdown was called
    stalled: bool)                   // history: a fault since the last writer was spawned

  datatype RecorderAction =
    | Record(t: nat, obs: Observation)
    | LackRuntime(t: nat)
    | EnterSchedule(t: nat)
    | DeclineSchedule(t: nat)
    | MarkRunning(t: nat)
    | SpawnWriter(t: nat, w: nat)

  datatype WriterAction =
    | WriterCheck(w: nat)
    | WriterSnapshot(w: nat)
    | WriterSkip(w: nat)
    | WriterBegin(w: nat)
    | WriterRename(w: nat)
    | WriterCommit(w: nat)
    | WriterFail(w: nat)
    | WriterLock(w: nat)
    | WriterRead(w: nat)
    | WriterContinue(w: nat)
    | WriterFinish(w: nat)
    | WriterIdle(w: nat)

  datatype ShutdownAction =
    | ShutdownCall(k: nat)
    | ShutdownLock(k: nat)
    | ShutdownClose(k: nat)
    | ShutdownSeesIdle(k: nat)
    | ShutdownWithoutPath(k: nat)
    | ShutdownSnapshot(k: nat)
    | ShutdownSkip(k: nat)
    | ShutdownBegin(k: nat)
    | ShutdownRename(k: nat)
    | ShutdownCommit(k: nat)
    | ShutdownFail(k: nat)

  datatype Action = ByRecorder(r: RecorderAction) | ByWriter(v: WriterAction) | ByShutdown(d: ShutdownAction)

  /** The writer task changes neither the recorded history nor the shutdown calls. */
  ghost predicate LeavesCallsAlone(s: System, n: System) {
    n.state == s.state && n.shutdowns == s.shutdowns && n.callState == s.callState
  }

  function Append(s: Snapshot, obs: Observation): Snapshot {
    Snapshot(SaturatingAdd(s.sequence, 1), s.log + [obs])
  }

  // `record_at` up to the release of the state lock, then the cases of `schedule_write`.

  function DoRecord(s: System, t: nat, obs: Observation): Option<System> {
    if t !in s.recorders
    then Some(s.(state := Append(s.state, obs), recorders := s.recorders[t := Applied]))
    else None
  }

  function DoLackRuntime(s: System, t: nat): Option<System> {
    if t in s.recorders && s.recorders[t] == Applied
    then Some(s.(recorders := s.recorders - {t}, stalled := true))
    else None
  }

  function DoEnterSchedule(s: System, t: nat): Option<System> {
    if t in s.recorders && s.recorders[t] == Applied && s.path && s.writerLock == None
    then Some(s.(recorders := s.recorders[t := Entered], writerLock := Some(Recorder(t))))
    else None
  }

  function DoDeclineSchedule(s: System, t: nat): Option<System> {
    if t in s.recorders && s.recorders[t] == Entered && (s.closed || s.running)
    then Some(s.(recorders := s.recorders - {t}, writerLock := None))
    else None
  }

  function DoMarkRunning(s: System, t: nat): Option<System> {
    if t in s.recorders && s.recorders[t] == Entered && !s.closed && !s.running
    then Some(s.(recorders := s.recorders[t := MarkedRunning], running := true))
    else None
  }

  function DoSpawnWriter(s: System, t: nat, w: nat): Option<System> {
    if t in s.recorders && s.recorders[t] == MarkedRunning && w !in s.writers
    then Some(s.(recorders := s.recorders - {t}, writers := s.writers[w := CheckAdmission],
                 idle := false, stalled := false, writerLock := None))
    else None
  }

  // `run_writer`.

  function DoWriterCheck(s: System, w: nat): (r: Option<System>)
    ensures r.Some? ==> LeavesCallsAlone(s, r.value) && r.value.disk == s.disk
  {
    if w in s.writers && s.writers[w] == CheckAdmission && s.writerLock == None
    then Some(s.(writers := s.writers[w := if s.closed then GoingIdle else TakeSnapshot]))
    else None
  }

  function DoWriterSnapshot(s: System, w: nat): (r: Option<System>)
    ensures r.Some? ==> LeavesCallsAlone(s, r.value) && r.value.disk == s.disk
  {
    if w in s.writers && s.writers[w] == TakeSnapshot
    then Some(s.(writers := s.writers[w := Persisting(Begin(s.state))]))
    else None
  }

  function DoWriterSkip(s: System, w: nat): (r: Option<System>)
    ensures r.Some? ==> LeavesCallsAlone(s, r.value) && r.value.disk == s.disk
  {
    if w in s.writers && s.writers[w].Persisting? && s.writers[w].persist.Begin? && s.ioLock == None
       && s.writers[w].persist.snap.sequence < s.persisted
    then Some(s.(writers := s.writers[w := Written(s.writers[w].persist.snap)]))
    else None
  }

  function DoWriterBegin(s: System, w: nat): (r: Option<System>)
    ensures r.Some? ==> LeavesCallsAlone(s, r.value) && r.value.disk == s.disk
  {
    if w in s.writers && s.writers[w].Persisting? && s.writers[w].persist.Begin? && s.ioLock == None
       && s.persisted <= s.writers[w].persist.snap.sequence
    then Some(s.(writers := s.writers[w := Persisting(Writing(s.writers[w].persist.snap))], ioLock := Some(Writer(w))))
    else None
  }

  function DoWriterRename(s: System, w: nat): (r: Option<System>)
    ensures r.Some? ==> LeavesCallsAlone(s, r.value)
  {
    if w in s.writers && s.writers[w].Persisting? && s.writers[w].persist.Writing?
    then Some(s.(writers := s.writers[w := Persisting(Renamed(s.writers[w].persist.snap))],
                 disk := s.writers[w].persist.snap))
    else None
  }

  function DoWriterCommit(s: System, w: nat): (r: Option<System>)
    ensures r.Some? ==> LeavesCallsAlone(s, r.value) && r.value.disk == s.disk
  {
    if w in s.writers && s.writers[w].Persisting? && s.writers[w].persist.Renamed?
    then Some(s.(writers := s.writers[w := Written(s.writers[w].persist.snap)],
                 persisted := s.writers[w].persist.snap.sequence, ioLock := None))
    else None
  }

  function DoWriterFail(s: System, w: nat): (r: Option<System>)
    ensures r.Some? ==> LeavesCallsAlone(s, r.value) && r.value.disk == s.disk
  {
    if w in s.writers && s.writers[w].Persisting? && s.writers[w].persist.Writing?
    then Some(s.(writers := s.writers[w := GoingIdle], ioLock := None, stalled := true))
    else None
  }

  function DoWriterLock(s: System, w: nat): (r: Option<System>)
    ensures r.Some? ==> LeavesCallsAlone(s, r.value) && r.value.disk == s.disk
  {
    if w in s.writers && s.writers[w].Written? && s.writerLock == None
    then Some(s.(writers := s.writers[w := Deciding(s.writers[w].snap)], writerLock := Some(Writer(w))))
    else None
  }

  function DoWriterRead(s: System, w: nat): (r: Option<System>)
    ensures r.Some? ==> LeavesCallsAlone(s, r.value) && r.value.disk == s.disk
  {
    if w in s.writers && s.writers[w].Deciding?
    then Some(s.(writers := s.writers[w := Decided(s.writers[w].snap, s.state.sequence)]))
    else None
  }

  function DoWriterContinue(s: System, w: nat): (r: Option<System>)
    ensures r.Some? ==> LeavesCallsAlone(s, r.value) && r.value.disk == s.disk
  {
    if w in s.writers && s.writers[w].Decided?
       && s.writers[w].current > s.writers[w].snap.sequence && !s.closed
    then Some(s.(writers := s.writers[w := CheckAdmission], writerLock := None))
    else None
  }

  function DoWriterFinish(s: System, w: nat): (r: Option<System>)
    ensures r.Some? ==> LeavesCallsAlone(s, r.value) && r.value.disk == s.disk
  {
    if w in s.writers && s.writers[w].Decided?
       && !(s.writers[w].current > s.writers[w].snap.sequence && !s.closed)
    then Some(s.(writers := s.writers - {w}, running := false, idle := true, writerLock := None))
    else None
  }

  function DoWriterIdle(s: System, w: nat): (r: Option<System>)
    ensures r.Some? ==> LeavesCallsAlone(s, r.value) && r.value.disk == s.disk
  {
    if w in s.writers && s.writers[w] == GoingIdle && s.writerLock == None
    then Some(s.(writers := s.writers - {w}, running := false, idle := true))
    else None
  }

  // `shutdown_and_wait`.

  function DoShutdownCall(s: System, k: nat): (r: Option<System>)
    ensures r.Some? ==> r.value.state == s.state && r.value.disk == s.disk
  {
    if k !in s.shutdowns
    then Some(s.(shutdowns := s.shutdowns[k := Called], callState := s.callState[k := s.state]))
    else None
  }

  function DoShutdownLock(s: System, k: nat): (r: Option<System>)
    ensures r.Some? ==> r.value.state == s.state && r.value.disk == s.disk
  {
    if k in s.shutdowns && s.shutdowns[k] == Called && s.shutdownLock == None
    then Some(s.(shutdowns := s.shutdowns[k := HoldingLock], shutdownLock := Some(k)))
    else None
  }

  function DoShutdownClose(s: System, k: nat): (r: Option<System>)
    ensures r.Some? ==> r.value.state == s.state && r.value.disk == s.disk
  {
    if k in s.shutdowns && s.shutdowns[k] == HoldingLock && s.writerLock == None
    then Some(s.(shutdowns := s.shutdowns[k := Waiting], closed := true, idle := s.idle || !s.running))
    else None
  }

  function DoShutdownSeesIdle(s: System, k: nat): (r: Option<System>)
    ensures r.Some? ==> r.value.state == s.state && r.value.disk == s.disk
  {
    if k in s.shutdowns && s.shutdowns[k] == Waiting && s.idle && s.path
    then Some(s.(shutdowns := s.shutdowns[k := SnapshotDue]))
    else None
  }

  function DoShutdownWithoutPath(s: System, k: nat): (r: Option<System>)
    ensures r.Some? ==> r.value.state == s.state && r.value.disk == s.disk
  {
    if k in s.shutdowns && s.shutdowns[k] == Waiting && s.idle && !s.path
    then Some(s.(shutdowns := s.shutdowns[k := Returned(false)], shutdownLock := None))
    else None
  }

  function DoShutdownSnapshot(s: System, k: nat): (r: Option<System>)
    ensures r.Some? ==> r.value.state == s.state && r.value.disk == s.disk
  {
    if k in s.shutdowns && s.shutdowns[k] == SnapshotDue
    then Some(s.(shutdowns := s.shutdowns[k := Flushing(Begin(s.state))]))
    else None
  }

  function DoShutdownSkip(s: System, k: nat): (r: Option<System>)
    ensures r.Some? ==> r.value.state == s.state && r.value.disk == s.disk
  {
    if k in s.shutdowns && s.shutdowns[k].Flushing? && s.shutdowns[k].persist.Begin? && s.ioLock == None
       && s.shutdowns[k].persist.snap.sequence < s.persisted
    then Some(s.(shutdowns := s.shutdowns[k := Returned(true)], shutdownLock := None))
    else None
  }

  function DoShutdownBegin(s: System, k: nat): (r: Option<System>)
    ensures r.Some? ==> r.value.state == s.state && r.value.disk == s.disk
  {
    if k in s.shutdowns && s.shutdowns[k].Flushing? && s.shutdowns[k].persist.Begin? && s.ioLock == None
       && s.persisted <= s.shutdowns[k].persist.snap.sequence
    then Some(s.(shutdowns := s.shutdowns[k := Flushing(Writing(s.shutdowns[k].persist.snap))],
                 ioLock := Some(Shutdown(k))))
    else None
  }

  function DoShutdownRename(s: System, k: nat): (r: Option<System>)
    ensures r.Some? ==> r.value.state == s.state
  {
    if k in s.shutdowns && s.shutdowns[k].Flushing? && s.shutdowns[k].persist.Writing?
    then Some(s.(shutdowns := s.shutdowns[k := Flushing(Renamed(s.shutdowns[k].persist.snap))],
                 disk := s.shutdowns[k].persist.snap))
    else None
  }

  function DoShutdownCommit(s: System, k: nat): (r: Option<System>)
    ensures r.Some? ==> r.value.state == s.state && r.value.disk == s.disk
  {
    if k in s.shutdowns && s.shutdowns[k].Flushing? && s.shutdowns[k].persist.Renamed?
    then Some(s.(shutdowns := s.shutdowns[k := Returned(true)],
                 persisted := s.shutdowns[k].persist.snap.sequence, ioLock := None, shutdownLock := None))
    else None
  }

  function DoShutdownFail(s: System, k: nat): (r: Option<System>)
    ensures r.Some? ==> r.value.state == s.state && r.value.disk == s.disk
  {
    if k in s.shutdowns && s.shutdowns[k].Flushing? && s.shutdowns[k].persist.Writing?
    then Some(s.(shutdowns := s.shutdowns[k := Returned(false)], ioLock := None, shutdownLock := None))
    else None
  }

  function RecorderStep(s: System, a: RecorderAction): Option<System> {
    match a
    case Record(t, obs) => DoRecord(s, t, obs)
    case LackRuntime(t) => DoLackRuntime(s, t)
    case EnterSchedule(t) => DoEnterSchedule(s, t)
    case DeclineSchedule(t) => DoDeclineSchedule(s, t)
    case MarkRunning(t) => DoMarkRunning(s, t)
    case SpawnWriter(t, w) => DoSpawnWriter(s, t, w)
  }

  function WriterStep(s: System, a: WriterAction): (r: Option<System>)
    ensures r.Some? ==> LeavesCallsAlone(s, r.value)
  {
    match a
    case WriterCheck(w) => DoWriterCheck(s, w)
    case WriterSnapshot(w) => DoWriterSnapshot(s, w)
    case WriterSkip(w) => DoWriterSkip(s, w)
    case WriterBegin(w) => DoWriterBegin(s, w)
    case WriterRename(w) => DoWriterRename(s, w)
    case WriterCommit(w) => DoWriterCommit(s, w)
    case WriterFail(w) => DoWriterFail(s, w)
    case WriterLock(w) => DoWriterLock(s, w)
    case WriterRead(w) => DoWriterRead(s, w)
    case WriterContinue(w) => DoWriterContinue(s, w)
    case WriterFinish(w) => DoWriterFinish(s, w)
    case WriterIdle(w) => DoWriterIdle(s, w)
  }

  function ShutdownStep(s: System, a: ShutdownAction): Option<System> {
    match a
    case ShutdownCall(k) => DoShutdownCall(s, k)
    case ShutdownLock(k) => DoShutdownLock(s, k)
    case ShutdownClose(k) => DoShutdownClose(s, k)
    case ShutdownSeesIdle(k) => DoShutdownSeesIdle(s, k)
    case ShutdownWithoutPath(k) => DoShutdownWithoutPath(s, k)
    case ShutdownSnapshot(k) => DoShutdownSnapshot(s, k)
    case ShutdownSkip(k) => DoShutdownSkip(s, k)
    case ShutdownBegin(k) => DoShutdownBegin(s, k)
    case ShutdownRename(k) => DoShutdownRename(s, k)
    case ShutdownCommit(k) => DoShutdownCommit(s, k)
    case ShutdownFail(k) => DoShutdownFail(s, k)
  }

  /** One atomic step; `None` when the action is not enabled. */
  function Step(s: System, a: Action): Option<System> {
    match a
    case ByRecorder(r) => RecorderStep(s, r)
    case ByWriter(v) => WriterStep(s, v)
    case ByShutdown(d) => ShutdownStep(s, d)
  }

  /** The state after a whole interleaving, if every action was enabled in turn. */
  function Run(s: System, actions: seq<Action>): Option<System>
    decreases |actions|
  {
    if actions == [] then Some(s)
    else
      match Step(s, actions[0])
      case None => None
      case Some(next) => Run(next, actions[1..])
  }

  /** What `load` builds: with no usable path nothing was loaded. */
  ghost predicate Init(s: System) {
    && (s.path || s.loaded == Snapshot(0, []))
    && s.state == s.loaded && s.disk == s.loaded && s.persisted == 0
    && !s.closed && !s.running && s.idle
    && s.writerLock == None && s.ioLock == None && s.shutdownLock == None
    && s.recorders == map[] && s.writers == map[] && s.shutdowns == map[] && s.callState == map[]
    && !s.stalled
  }

  // ---------------------------------------------------------------- the invariant

  /** `a` is an earlier version of `b`: its observations are a prefix, and the numbers agree. */
  ghost predicate Earlier(a: Snapshot, b: Snapshot) {
    a.log <= b.log && b.sequence - a.sequence == |b.log| - |a.log|
  }

  /** `snap` lies between what was loaded and the current state. */
  ghost predicate Between(loaded: Snapshot, snap: Snapshot, state: Snapshot) {
    Earlier(loaded, snap) && Earlier(snap, state)
  }

  /** The file is what the last completed write left, or what `load` found. */
  ghost predicate DiskCommitted(s: System) {
    s.disk.sequence <= Max(s.persisted, s.loaded.sequence)
  }

  /** The recorder holding the writer lock has set `running` and not yet spawned the task. */
  ghost predicate Spawning(s: System) {
    && s.writerLock.Some? && s.writerLock.value.Recorder?
    && s.writerLock.value.t in s.recorders
    && s.recorders[s.writerLock.value.t] == MarkedRunning
  }

  ghost predicate RecorderOk(s: System, t: nat, pc: RecorderPc) {
    pc != Applied ==> s.writerLock == Some(Recorder(t)) && s.path
  }

  ghost predicate PersistOk(s: System, self: Actor, pc: PersistPc) {
    && Between(s.loaded, pc.snap, s.state)
    && (!pc.Begin? ==> s.ioLock == Some(self))
    && (pc.Writing? ==> s.persisted <= pc.snap.sequence && DiskCommitted(s))
    && (pc.Renamed? ==> s.disk == pc.snap)
  }

  ghost predicate WriterOk(s: System, w: nat, pc: WriterPc) {
    match pc
    case CheckAdmission => true
    case TakeSnapshot => true
    case Persisting(persist) => PersistOk(s, Writer(w), persist)
    case Written(snap) => Between(s.loaded, snap, s.state) && snap.sequence <= s.disk.sequence
    case Deciding(snap) =>
      Between(s.loaded, snap, s.state) && snap.sequence <= s.disk.sequence && s.writerLock == Some(Writer(w))
    case Decided(snap, current) =>
      && Between(s.loaded, snap, s.state) && snap.sequence <= s.disk.sequence && s.writerLock == Some(Writer(w))
      && (current < s.state.sequence && !s.stalled ==> s.recorders != map[])
    case GoingIdle => s.closed || s.stalled
  }

  /** A shutdown that has seen the writer idle. */
  predicate PastWait(pc: ShutdownPc) {
    pc.SnapshotDue? || pc.Flushing? || pc.Returned?
  }

  ghost predicate ShutdownOk(s: System, k: nat, pc: ShutdownPc, called: Snapshot) {
    && Between(s.loaded, called, s.state)
    && (!pc.Called? && !pc.Returned? ==> s.shutdownLock == Some(k))
    && (pc.Waiting? || PastWait(pc) ==> s.closed)
    && (PastWait(pc) ==> s.writers == map[] && !s.running)
    && (pc.SnapshotDue? || pc.Flushing? || pc == Returned(true) ==> s.path)
    && (pc.Flushing? ==> PersistOk(s, Shutdown(k), pc.persist) && Earlier(called, pc.persist.snap))
    && (pc == Returned(true) ==> Earlier(called, s.disk))
  }

  /** Each lock holder is at a program point inside that lock's critical section. */
  ghost predicate LockInv(s: System) {
    && (match s.writerLock
        case None => true
        case Some(Recorder(t)) => t in s.recorders && s.recorders[t] != Applied
        case Some(Writer(w)) => w in s.writers && (s.writers[w].Deciding? || s.writers[w].Decided?)
        case Some(Shutdown(_)) => false)
    && (match s.ioLock
        case None => DiskCommitted(s)
        case Some(Recorder(_)) => false
        case Some(Writer(w)) => w in s.writers && s.writers[w].Persisting? && !s.writers[w].persist.Begin?
        case Some(Shutdown(k)) => k in s.shutdowns && s.shutdowns[k].Flushing? && !s.shutdowns[k].persist.Begin?)
    && (s.shutdownLock.Some? ==>
          s.shutdownLock.value in s.shutdowns
          && !s.shutdowns[s.shutdownLock.value].Called? && !s.shutdowns[s.shutdownLock.value].Returned?)
  }

  /** `running` means exactly: one task exists, or the lock holder is about to spawn it. */
  ghost predicate WriterInv(s: System) {
    && (forall w, w' :: w in s.writers && w' in s.writers ==> w == w')
    && (s.running <==> s.writers != map[] || Spawning(s))
    && (Spawning(s) ==> s.writers == map[] && s.idle && !s.closed)
    && (!Spawning(s) ==> s.idle == !s.running)
  }

  ghost predicate DiskInv(s: System) {
    && Between(s.loaded, s.disk, s.state)
    && s.persisted <= s.disk.sequence
  }

  /** An unsaved observation always has somebody responsible for saving it. */
  ghost predicate NoLostUpdate(s: System) {
    s.path && !s.closed && !s.stalled && s.disk.sequence < s.state.sequence
    ==> s.running || s.recorders != map[]
  }

  ghost predicate Control(s: System) {
    LockInv(s) && WriterInv(s) && DiskInv(s) && NoLostUpdate(s)
  }

  ghost predicate RecordersOk(s: System) {
    forall t :: t in s.recorders ==> RecorderOk(s, t, s.recorders[t])
  }

  ghost predicate WritersOk(s: System) {
    forall w :: w in s.writers ==> WriterOk(s, w, s.writers[w])
  }

  ghost predicate ShutdownsOk(s: System) {
    && s.shutdowns.Keys == s.callState.Keys
    && (forall k :: k in s.shutdowns ==> ShutdownOk(s, k, s.shutdowns[k], s.callState[k]))
  }

  ghost predicate Threads(s: System) {
    RecordersOk(s) && WritersOk(s) && ShutdownsOk(s)
  }

  ghost predicate Core(s: System) {
    Control(s) && Threads(s)
  }

  /** Everything below holds as long as the 64-bit sequence number has not reached its maximum. */
  ghost predicate Inv(s: System) {
    s.state.sequence < U64_MAX ==> Core(s)
  }

  lemma EarlierTransitive(a: Snapshot, b: Snapshot, c: Snapshot)
    requires Earlier(a, b) && Earlier(b, c)
    ensures Earlier(a, c)
  {
  }

  /** Two earlier versions of one state are ordered by their sequence numbers. */
  lemma EarlierTotal(a: Snapshot, b: Snapshot, c: Snapshot)
    requires Earlier(a, c) && Earlier(b, c) && a.sequence <= b.sequence
    ensures Earlier(a, b)
  {
    assert |a.log| <= |b.log|;
    assert a.log == c.log[..|a.log|];
    assert b.log == c.log[..|b.log|];
  }

  lemma InitInv(s: System)
    requires Init(s)
    ensures Inv(s)
  {
  }


  /** Appending keeps every earlier version earlier. */
  lemma AppendKeepsEarlier(snap: Snapshot, s: Snapshot, obs: Observation)
    requires Earlier(snap, s) && s.sequence < U64_MAX
    ensures Earlier(snap, Append(s, obs))
  {
  }


  lemma EarlierStays(snap: Snapshot, s: Snapshot, obs: Observation)
    requires s.sequence < U64_MAX
    ensures Earlier(snap, s) ==> Earlier(snap, Append(s, obs))
  {
    if Earlier(snap, s) {
      AppendKeepsEarlier(snap, s, obs);
    }
  }

  lemma RecordKeepsWriters(s: System, t: nat, obs: Observation)
    requires Core(s) && DoRecord(s, t, obs).Some? && s.state.sequence < U64_MAX
    ensures WritersOk(DoRecord(s, t, obs).value)
  {
    var n := DoRecord(s, t, obs).value;
    assert t in n.recorders;
    forall w | w in n.writers ensures WriterOk(n, w, n.writers[w]) {
      var pc := s.writers[w];
      assert WriterOk(s, w, pc);
      match pc {
        case Persisting(persist) => EarlierStays(persist.snap, s.state, obs);
        case Written(snap) => EarlierStays(snap, s.state, obs);
        case Deciding(snap) => EarlierStays(snap, s.state, obs);
        case Decided(snap, _) => EarlierStays(snap, s.state, obs);
        case _ =>
      }
    }
  }

  lemma RecordKeepsShutdowns(s: System, t: nat, obs: Observation)
    requires Core(s) && DoRecord(s, t, obs).Some? && s.state.sequence < U64_MAX
    ensures ShutdownsOk(DoRecord(s, t, obs).value)
  {
    var n := DoRecord(s, t, obs).value;
    forall k | k in n.shutdowns ensures ShutdownOk(n, k, n.shutdowns[k], n.callState[k]) {
      assert ShutdownOk(s, k, s.shutdowns[k], s.callState[k]);
      EarlierStays(s.callState[k], s.state, obs);
      if s.shutdowns[k].Flushing? {
        EarlierStays(s.shutdowns[k].persist.snap, s.state, obs);
      }
    }
  }

  lemma RecordKeepsThreads(s: System, t: nat, obs: Observation)
    requires Core(s) && DoRecord(s, t, obs).Some? && s.state.sequence < U64_MAX
    ensures Threads(DoRecord(s, t, obs).value)
  {
    RecordKeepsWriters(s, t, obs);
    RecordKeepsShutdowns(s, t, obs);
  }

  lemma RecordKeepsControl(s: System, t: nat, obs: Observation)
    requires Core(s) && DoRecord(s, t, obs).Some? && s.state.sequence < U64_MAX
    ensures Control(DoRecord(s, t, obs).value)
  {
    AppendKeepsEarlier(s.disk, s.state, obs);
    assert t in DoRecord(s, t, obs).value.recorders;
  }

  lemma RecordKeepsCore(s: System, t: nat, obs: Observation)
    requires Core(s) && DoRecord(s, t, obs).Some? && s.state.sequence < U64_MAX
    ensures Core(DoRecord(s, t, obs).value)
  {
    RecordKeepsControl(s, t, obs);
    RecordKeepsThreads(s, t, obs);
  }

  lemma LackRuntimeKeepsThreads(s: System, t: nat)
    requires Core(s) && DoLackRuntime(s, t).Some?
    ensures Threads(DoLackRuntime(s, t).value)
  {
  }

  lemma LackRuntimeKeepsCore(s: System, t: nat)
    requires Core(s) && DoLackRuntime(s, t).Some?
    ensures Core(DoLackRuntime(s, t).value)
  {
    LackRuntimeKeepsThreads(s, t);
  }

  lemma EnterScheduleKeepsThreads(s: System, t: nat)
    requires Core(s) && DoEnterSchedule(s, t).Some?
    ensures Threads(DoEnterSchedule(s, t).value)
  {
    assert t in DoEnterSchedule(s, t).value.recorders;
  }

  lemma EnterScheduleKeepsCore(s: System, t: nat)
    requires Core(s) && DoEnterSchedule(s, t).Some?
    ensures Core(DoEnterSchedule(s, t).value)
  {
    EnterScheduleKeepsThreads(s, t);
    assert t in DoEnterSchedule(s, t).value.recorders;
  }

  lemma DeclineScheduleKeepsThreads(s: System, t: nat)
    requires Core(s) && DoDeclineSchedule(s, t).Some?
    ensures Threads(DoDeclineSchedule(s, t).value)
  {
  }

  lemma DeclineScheduleKeepsCore(s: System, t: nat)
    requires Core(s) && DoDeclineSchedule(s, t).Some?
    ensures Core(DoDeclineSchedule(s, t).value)
  {
    DeclineScheduleKeepsThreads(s, t);
  }

  lemma MarkRunningKeepsCore(s: System, t: nat)
    requires Core(s) && DoMarkRunning(s, t).Some?
    ensures Core(DoMarkRunning(s, t).value)
  {
    assert t in DoMarkRunning(s, t).value.recorders;
  }

  lemma SpawnWriterKeepsCore(s: System, t: nat, w: nat)
    requires Core(s) && DoSpawnWriter(s, t, w).Some?
    ensures Core(DoSpawnWriter(s, t, w).value)
  {
    assert w in DoSpawnWriter(s, t, w).value.writers;
  }

  lemma WriterCheckKeepsCore(s: System, w: nat)
    requires Core(s) && DoWriterCheck(s, w).Some?
    ensures Core(DoWriterCheck(s, w).value)
  {
  }

  lemma WriterSnapshotKeepsCore(s: System, w: nat)
    requires Core(s) && DoWriterSnapshot(s, w).Some?
    ensures Core(DoWriterSnapshot(s, w).value)
  {
  }

  lemma WriterSkipKeepsCore(s: System, w: nat)
    requires Core(s) && DoWriterSkip(s, w).Some?
    ensures Core(DoWriterSkip(s, w).value)
  {
  }

  lemma WriterBeginKeepsCore(s: System, w: nat)
    requires Core(s) && DoWriterBegin(s, w).Some?
    ensures Core(DoWriterBegin(s, w).value)
  {
  }

  lemma WriterRenameKeepsCore(s: System, w: nat)
    requires Core(s) && DoWriterRename(s, w).Some?
    ensures Core(DoWriterRename(s, w).value)
  {
  }

  lemma WriterCommitKeepsCore(s: System, w: nat)
    requires Core(s) && DoWriterCommit(s, w).Some?
    ensures Core(DoWriterCommit(s, w).value)
  {
  }

  lemma WriterFailKeepsCore(s: System, w: nat)
    requires Core(s) && DoWriterFail(s, w).Some?
    ensures Core(DoWriterFail(s, w).value)
  {
  }

  lemma WriterLockKeepsCore(s: System, w: nat)
    requires Core(s) && DoWriterLock(s, w).Some?
    ensures Core(DoWriterLock(s, w).value)
  {
  }

  lemma WriterReadKeepsCore(s: System, w: nat)
    requires Core(s) && DoWriterRead(s, w).Some?
    ensures Core(DoWriterRead(s, w).value)
  {
  }

  lemma WriterContinueKeepsCore(s: System, w: nat)
    requires Core(s) && DoWriterContinue(s, w).Some?
    ensures Core(DoWriterContinue(s, w).value)
  {
  }

  lemma WriterFinishKeepsCore(s: System, w: nat)
    requires Core(s) && DoWriterFinish(s, w).Some?
    ensures Core(DoWriterFinish(s, w).value)
  {
  }

  lemma WriterIdleKeepsCore(s: System, w: nat)
    requires Core(s) && DoWriterIdle(s, w).Some?
    ensures Core(DoWriterIdle(s, w).value)
  {
  }

  lemma ShutdownCallKeepsShutdowns(s: System, k: nat)
    requires Core(s) && DoShutdownCall(s, k).Some?
    ensures ShutdownsOk(DoShutdownCall(s, k).value)
  {
    EarlierTransitive(s.loaded, s.disk, s.state);
    var n := DoShutdownCall(s, k).value;
    forall i | i in n.shutdowns ensures ShutdownOk(n, i, n.shutdowns[i], n.callState[i]) {
      assert i in s.shutdowns ==> ShutdownOk(s, i, s.shutdowns[i], s.callState[i]);
    }
  }

  lemma ShutdownCallKeepsWriters(s: System, k: nat)
    requires Core(s) && DoShutdownCall(s, k).Some?
    ensures WritersOk(DoShutdownCall(s, k).value) && RecordersOk(DoShutdownCall(s, k).value)
  {
  }

  lemma ShutdownCallKeepsThreads(s: System, k: nat)
    requires Core(s) && DoShutdownCall(s, k).Some?
    ensures Threads(DoShutdownCall(s, k).value)
  {
    ShutdownCallKeepsShutdowns(s, k);
    ShutdownCallKeepsWriters(s, k);
  }

  lemma ShutdownCallKeepsControl(s: System, k: nat)
    requires Core(s) && DoShutdownCall(s, k).Some?
    ensures Control(DoShutdownCall(s, k).value)
  {
  }

  lemma ShutdownCallKeepsCore(s: System, k: nat)
    requires Core(s) && DoShutdownCall(s, k).Some?
    ensures Core(DoShutdownCall(s, k).value)
  {
    ShutdownCallKeepsControl(s, k);
    ShutdownCallKeepsThreads(s, k);
  }

  lemma ShutdownLockKeepsShutdowns(s: System, k: nat)
    requires Core(s) && DoShutdownLock(s, k).Some?
    ensures ShutdownsOk(DoShutdownLock(s, k).value)
  {
    var n := DoShutdownLock(s, k).value;
    forall i | i in n.shutdowns ensures ShutdownOk(n, i, n.shutdowns[i], n.callState[i]) {
      assert i in s.shutdowns ==> ShutdownOk(s, i, s.shutdowns[i], s.callState[i]);
    }
  }

  lemma ShutdownLockKeepsWriters(s: System, k: nat)
    requires Core(s) && DoShutdownLock(s, k).Some?
    ensures WritersOk(DoShutdownLock(s, k).value) && RecordersOk(DoShutdownLock(s, k).value)
  {
  }

  lemma ShutdownLockKeepsThreads(s: System, k: nat)
    requires Core(s) && DoShutdownLock(s, k).Some?
    ensures Threads(DoShutdownLock(s, k).value)
  {
    ShutdownLockKeepsShutdowns(s, k);
    ShutdownLockKeepsWriters(s, k);
  }

  lemma ShutdownLockKeepsControl(s: System, k: nat)
    requires Core(s) && DoShutdownLock(s, k).Some?
    ensures Control(DoShutdownLock(s, k).value)
  {
  }

  lemma ShutdownLockKeepsCore(s: System, k: nat)
    requires Core(s) && DoShutdownLock(s, k).Some?
    ensures Core(DoShutdownLock(s, k).value)
  {
    ShutdownLockKeepsControl(s, k);
    ShutdownLockKeepsThreads(s, k);
  }

  lemma ShutdownCloseKeepsShutdowns(s: System, k: nat)
    requires Core(s) && DoShutdownClose(s, k).Some?
    ensures ShutdownsOk(DoShutdownClose(s, k).value)
  {
    var n := DoShutdownClose(s, k).value;
    forall i | i in n.shutdowns ensures ShutdownOk(n, i, n.shutdowns[i], n.callState[i]) {
      assert i in s.shutdowns ==> ShutdownOk(s, i, s.shutdowns[i], s.callState[i]);
    }
  }

  lemma ShutdownCloseKeepsWriters(s: System, k: nat)
    requires Core(s) && DoShutdownClose(s, k).Some?
    ensures WritersOk(DoShutdownClose(s, k).value) && RecordersOk(DoShutdownClose(s, k).value)
  {
  }

  lemma ShutdownCloseKeepsThreads(s: System, k: nat)
    requires Core(s) && DoShutdownClose(s, k).Some?
    ensures Threads(DoShutdownClose(s, k).value)
  {
    ShutdownCloseKeepsShutdowns(s, k);
    ShutdownCloseKeepsWriters(s, k);
  }

  lemma ShutdownCloseKeepsControl(s: System, k: nat)
    requires Core(s) && DoShutdownClose(s, k).Some?
    ensures Control(DoShutdownClose(s, k).value)
  {
  }

  lemma ShutdownCloseKeepsCore(s: System, k: nat)
    requires Core(s) && DoShutdownClose(s, k).Some?
    ensures Core(DoShutdownClose(s, k).value)
  {
    ShutdownCloseKeepsControl(s, k);
    ShutdownCloseKeepsThreads(s, k);
  }

  lemma ShutdownSeesIdleKeepsCore(s: System, k: nat)
    requires Core(s) && DoShutdownSeesIdle(s, k).Some?
    ensures Core(DoShutdownSeesIdle(s, k).value)
  {
  }

  lemma ShutdownWithoutPathKeepsCore(s: System, k: nat)
    requires Core(s) && DoShutdownWithoutPath(s, k).Some?
    ensures Core(DoShutdownWithoutPath(s, k).value)
  {
  }

  lemma ShutdownSnapshotKeepsCore(s: System, k: nat)
    requires Core(s) && DoShutdownSnapshot(s, k).Some?
    ensures Core(DoShutdownSnapshot(s, k).value)
  {
  }

  lemma ShutdownSkipKeepsCore(s: System, k: nat)
    requires Core(s) && DoShutdownSkip(s, k).Some?
    ensures Core(DoShutdownSkip(s, k).value)
  {
    var snap := s.shutdowns[k].persist.snap;
    EarlierTotal(snap, s.disk, s.state);
    EarlierTransitive(s.callState[k], snap, s.disk);
  }

  lemma ShutdownBeginKeepsCore(s: System, k: nat)
    requires Core(s) && DoShutdownBegin(s, k).Some?
    ensures Core(DoShutdownBegin(s, k).value)
  {
  }

  lemma ShutdownRenameKeepsCore(s: System, k: nat)
    requires Core(s) && DoShutdownRename(s, k).Some?
    ensures Core(DoShutdownRename(s, k).value)
  {
  }

  lemma ShutdownCommitKeepsCore(s: System, k: nat)
    requires Core(s) && DoShutdownCommit(s, k).Some?
    ensures Core(DoShutdownCommit(s, k).value)
  {
  }

  lemma ShutdownFailKeepsCore(s: System, k: nat)
    requires Core(s) && DoShutdownFail(s, k).Some?
    ensures Core(DoShutdownFail(s, k).value)
  {
  }

  lemma RecorderStepKeepsCore(s: System, a: RecorderAction)
    requires Core(s) && RecorderStep(s, a).Some? && s.state.sequence < U64_MAX
    ensures Core(RecorderStep(s, a).value)
  {
    match a {
      case Record(t, obs) => RecordKeepsCore(s, t, obs);
      case LackRuntime(t) => LackRuntimeKeepsCore(s, t);
      case EnterSchedule(t) => EnterScheduleKeepsCore(s, t);
      case DeclineSchedule(t) => DeclineScheduleKeepsCore(s, t);
      case MarkRunning(t) => MarkRunningKeepsCore(s, t);
      case SpawnWriter(t, w) => SpawnWriterKeepsCore(s, t, w);
    }
  }

  lemma WriterStepKeepsCore(s: System, a: WriterAction)
    requires Core(s) && WriterStep(s, a).Some?
    ensures Core(WriterStep(s, a).value)
  {
    match a {
      case WriterCheck(w) => WriterCheckKeepsCore(s, w);
      case WriterSnapshot(w) => WriterSnapshotKeepsCore(s, w);
      case WriterSkip(w) => WriterSkipKeepsCore(s, w);
      case WriterBegin(w) => WriterBeginKeepsCore(s, w);
      case WriterRename(w) => WriterRenameKeepsCore(s, w);
      case WriterCommit(w) => WriterCommitKeepsCore(s, w);
      case WriterFail(w) => WriterFailKeepsCore(s, w);
      case WriterLock(w) => WriterLockKeepsCore(s, w);
      case WriterRead(w) => WriterReadKeepsCore(s, w);
      case WriterContinue(w) => WriterContinueKeepsCore(s, w);
      case WriterFinish(w) => WriterFinishKeepsCore(s, w);
      case WriterIdle(w) => WriterIdleKeepsCore(s, w);
    }
  }

  lemma ShutdownStepKeepsCore(s: System, a: ShutdownAction)
    requires Core(s) && ShutdownStep(s, a).Some?
    ensures Core(ShutdownStep(s, a).value)
  {
    match a {
      case ShutdownCall(k) => ShutdownCallKeepsCore(s, k);
      case ShutdownLock(k) => ShutdownLockKeepsCore(s, k);
      case ShutdownClose(k) => ShutdownCloseKeepsCore(s, k);
      case ShutdownSeesIdle(k) => ShutdownSeesIdleKeepsCore(s, k);
      case ShutdownWithoutPath(k) => ShutdownWithoutPathKeepsCore(s, k);
      case ShutdownSnapshot(k) => ShutdownSnapshotKeepsCore(s, k);
      case ShutdownSkip(k) => ShutdownSkipKeepsCore(s, k);
      case ShutdownBegin(k) => ShutdownBeginKeepsCore(s, k);
      case ShutdownRename(k) => ShutdownRenameKeepsCore(s, k);
      case ShutdownCommit(k) => ShutdownCommitKeepsCore(s, k);
      case ShutdownFail(k) => ShutdownFailKeepsCore(s, k);
    }
  }

  /** Only a recorder changes the state, and it only appends; it changes nothing on disk. */
  lemma RecorderStepFrame(s: System, a: RecorderAction)
    requires RecorderStep(s, a).Some?
    ensures var n := RecorderStep(s, a).value;
      && s.state.log <= n.state.log
      && (n.state.sequence < U64_MAX ==> s.state.sequence < U64_MAX)
      && n.disk == s.disk && n.shutdowns == s.shutdowns && n.callState == s.callState
  {
  }

  lemma WriterStepKeepsDisk(s: System, a: WriterAction)
    requires WriterStep(s, a).Some? && !a.WriterRename?
    ensures WriterStep(s, a).value.disk == s.disk
  {
    match a
    case WriterCheck(w) => assert WriterStep(s, a) == DoWriterCheck(s, w);
    case WriterSnapshot(w) => assert WriterStep(s, a) == DoWriterSnapshot(s, w);
    case WriterSkip(w) => assert WriterStep(s, a) == DoWriterSkip(s, w);
    case WriterBegin(w) => assert WriterStep(s, a) == DoWriterBegin(s, w);
    case WriterCommit(w) => assert WriterStep(s, a) == DoWriterCommit(s, w);
    case WriterFail(w) => assert WriterStep(s, a) == DoWriterFail(s, w);
    case WriterLock(w) => assert WriterStep(s, a) == DoWriterLock(s, w);
    case WriterRead(w) => assert WriterStep(s, a) == DoWriterRead(s, w);
    case WriterContinue(w) => assert WriterStep(s, a) == DoWriterContinue(s, w);
    case WriterFinish(w) => assert WriterStep(s, a) == DoWriterFinish(s, w);
    case WriterIdle(w) => assert WriterStep(s, a) == DoWriterIdle(s, w);
    case WriterRename(_) =>
  }

  lemma ShutdownStepFrame(s: System, a: ShutdownAction)
    requires ShutdownStep(s, a).Some?
    ensures ShutdownStep(s, a).value.state == s.state
    ensures !a.ShutdownRename? ==> ShutdownStep(s, a).value.disk == s.disk
  {
    match a
    case ShutdownCall(k) => assert ShutdownStep(s, a) == DoShutdownCall(s, k);
    case ShutdownLock(k) => assert ShutdownStep(s, a) == DoShutdownLock(s, k);
    case ShutdownClose(k) => assert ShutdownStep(s, a) == DoShutdownClose(s, k);
    case ShutdownSeesIdle(k) => assert ShutdownStep(s, a) == DoShutdownSeesIdle(s, k);
    case ShutdownWithoutPath(k) => assert ShutdownStep(s, a) == DoShutdownWithoutPath(s, k);
    case ShutdownSnapshot(k) => assert ShutdownStep(s, a) == DoShutdownSnapshot(s, k);
    case ShutdownSkip(k) => assert ShutdownStep(s, a) == DoShutdownSkip(s, k);
    case ShutdownBegin(k) => assert ShutdownStep(s, a) == DoShutdownBegin(s, k);
    case ShutdownRename(k) => assert ShutdownStep(s, a) == DoShutdownRename(s, k);
    case ShutdownCommit(k) => assert ShutdownStep(s, a) == DoShutdownCommit(s, k);
    case ShutdownFail(k) => assert ShutdownStep(s, a) == DoShutdownFail(s, k);
  }

  /** A shutdown call keeps the state it was called in, never goes back past its wait, and ends. */
  ghost predicate CallKept(s: System, n: System, k: nat) {
    k in s.shutdowns && k in s.callState ==>
      && k in n.shutdowns && k in n.callState && n.callState[k] == s.callState[k]
      && (PastWait(s.shutdowns[k]) ==> PastWait(n.shutdowns[k]))
      && (s.shutdowns[k].Returned? ==> n.shutdowns[k] == s.shutdowns[k])
  }

  lemma ShutdownStepKeepsCall(s: System, a: ShutdownAction, k: nat)
    requires ShutdownStep(s, a).Some?
    ensures CallKept(s, ShutdownStep(s, a).value, k)
  {
    if k != a.k {
      assert k in s.shutdowns ==> ShutdownStep(s, a).value.shutdowns[k] == s.shutdowns[k];
    }
  }

  lemma StepKeepsCore(s: System, a: Action)
    requires Core(s) && Step(s, a).Some? && s.state.sequence < U64_MAX
    ensures Core(Step(s, a).value)
  {
    match a {
      case ByRecorder(r) => RecorderStepKeepsCore(s, r);
      case ByWriter(v) => WriterStepKeepsCore(s, v);
      case ByShutdown(d) => ShutdownStepKeepsCore(s, d);
    }
  }

  /** The state only grows, and shutdown call `k` never goes back. */
  lemma StepFrame(s: System, a: Action, k: nat)
    requires Step(s, a).Some?
    ensures var n := Step(s, a).value;
      && s.state.log <= n.state.log
      && (n.state.sequence < U64_MAX ==> s.state.sequence < U64_MAX)
      && CallKept(s, n, k)
  {
    match a {
      case ByRecorder(r) => RecorderStepFrame(s, r);
      case ByWriter(v) =>
      case ByShutdown(d) =>
        ShutdownStepFrame(s, d);
        ShutdownStepKeepsCall(s, d, k);
    }
  }

  /** What every step keeps. */
  lemma StepKeepsInv(s: System, a: Action)
    requires Inv(s) && Step(s, a).Some?
    ensures Inv(Step(s, a).value)
  {
    StepFrame(s, a, 0);
    if Step(s, a).value.state.sequence < U64_MAX {
      StepKeepsCore(s, a);
    }
  }

  predicate IsRename(a: Action) {
    match a
    case ByRecorder(_) => false
    case ByWriter(v) => v.WriterRename?
    case ByShutdown(d) => d.ShutdownRename?
  }

  /** Only the two renames touch the file, and they never put back an older version. */
  lemma StepMovesDiskForward(s: System, a: Action)
    requires Core(s) && Step(s, a).Some?
    ensures Earlier(s.disk, Step(s, a).value.disk)
    ensures Step(s, a).value.disk != s.disk ==> IsRename(a)
  {
    match a {
      case ByRecorder(r) =>
        RecorderStepFrame(s, r);
      case ByWriter(v) =>
        if v.WriterRename? {
          assert WriterOk(s, v.w, s.writers[v.w]);
          EarlierTotal(s.disk, s.writers[v.w].persist.snap, s.state);
        } else {
          WriterStepKeepsDisk(s, v);
        }
      case ByShutdown(d) =>
        ShutdownStepFrame(s, d);
        if d.ShutdownRename? {
          assert ShutdownOk(s, d.k, s.shutdowns[d.k], s.callState[d.k]);
          EarlierTotal(s.disk, s.shutdowns[d.k].persist.snap, s.state);
        }
    }
  }

  // ---------------------------------------------------------------- whole runs

  /** Over every interleaving the invariant holds and the file only moves forward. */
  lemma {:induction false} RunKeepsInv(s: System, actions: seq<Action>)
    requires Inv(s) && Run(s, actions).Some?
    ensures Inv(Run(s, actions).value)
    ensures Run(s, actions).value.state.sequence < U64_MAX ==>
              && s.state.sequence < U64_MAX
              && s.state.log <= Run(s, actions).value.state.log
              && Earlier(s.disk, Run(s, actions).value.disk)
    decreases |actions|
  {
    if actions == [] {
    } else {
      var next := Step(s, actions[0]).value;
      StepKeepsInv(s, actions[0]);
      StepFrame(s, actions[0], 0);
      RunKeepsInv(next, actions[1..]);
      if Run(s, actions).value.state.sequence < U64_MAX {
        StepMovesDiskForward(s, actions[0]);
        EarlierTransitive(s.disk, next.disk, Run(s, actions).value.disk);
      }
    }
  }

  /**
   No lost update. After any interleaving: at most one writer task exists; `writer_idle` is the
   negation of `running` whenever the writer lock is free; and while admission is open, a path
   exists and nothing has failed since the last spawn, an observation missing from the file has a
   running writer or a recorder still on its way to `schedule_write`.
   */
  lemma NoUpdateIsLost(start: System, actions: seq<Action>)
    requires Init(start) && Run(start, actions).Some? && Run(start, actions).value.state.sequence < U64_MAX
    ensures var s := Run(start, actions).value;
      && (forall w, w' :: w in s.writers && w' in s.writers ==> w == w')
      && (s.writerLock == None ==> s.idle == !s.running)
      && (s.writerLock == None ==> (s.running <==> s.writers != map[]))
      && Earlier(start.disk, s.disk) && Earlier(s.disk, s.state)
      && (s.path && !s.closed && !s.stalled && s.disk.sequence < s.state.sequence
          ==> s.running || s.recorders != map[])
  {
    InitInv(start);
    RunKeepsInv(start, actions);
  }

  /** Once every call has finished and nothing failed, the file holds the whole history. */
  lemma QuietSystemIsSaved(start: System, actions: seq<Action>)
    requires Init(start) && Run(start, actions).Some?
    requires var s := Run(start, actions).value;
      && s.state.sequence < U64_MAX && s.path && !s.closed && !s.stalled
      && !s.running && s.recorders == map[]
    ensures Run(start, actions).value.disk == Run(start, actions).value.state
  {
    NoUpdateIsLost(start, actions);
    var s := Run(start, actions).value;
    assert s.disk.log == s.state.log[..|s.disk.log|] == s.state.log;
  }

  /** The snapshot remembered for a shutdown call is the state at that call. */
  lemma {:induction false} CallStateIsFixed(s: System, actions: seq<Action>, k: nat)
    requires Run(s, actions).Some? && k in s.shutdowns && k in s.callState
    ensures var e := Run(s, actions).value;
      k in e.shutdowns && k in e.callState && e.callState[k] == s.callState[k]
    ensures s.shutdowns[k].Returned? ==> Run(s, actions).value.shutdowns[k] == s.shutdowns[k]
    decreases |actions|
  {
    if actions == [] {
    } else {
      var next := Step(s, actions[0]).value;
      StepFrame(s, actions[0], k);
      CallStateIsFixed(next, actions[1..], k);
    }
  }

  /**
   Shutdown. A call made at the end of `before` that has returned from a successful write by the
   end of `during`: whatever happens `after`, the file holds every observation recorded before the
   call, admission stays closed and no writer task exists.
   */
  lemma ShutdownSavesEverything(start: System, before: seq<Action>, k: nat, during: seq<Action>, after: seq<Action>)
    requires Init(start)
    requires Run(start, before).Some? && Step(Run(start, before).value, ByShutdown(ShutdownCall(k))).Some?
    requires Run(Step(Run(start, before).value, ByShutdown(ShutdownCall(k))).value, during).Some?
    requires var e := Run(Step(Run(start, before).value, ByShutdown(ShutdownCall(k))).value, during).value;
      && k in e.shutdowns && e.shutdowns[k] == Returned(true)
      && Run(e, after).Some? && Run(e, after).value.state.sequence < U64_MAX
    ensures var called := Run(start, before).value;
      var last := Run(Run(Step(called, ByShutdown(ShutdownCall(k))).value, during).value, after).value;
      && called.state.log <= last.disk.log
      && last.closed && last.writers == map[] && !last.running
  {
    var called := Run(start, before).value;
    var first := Step(called, ByShutdown(ShutdownCall(k))).value;
    var returned := Run(first, during).value;
    var last := Run(returned, after).value;
    InitInv(start);
    RunKeepsInv(start, before);
    StepKeepsInv(called, ByShutdown(ShutdownCall(k)));
    RunKeepsInv(first, during);
    CallStateIsFixed(first, during, k);
    RunKeepsInv(returned, after);
    CallStateIsFixed(returned, after, k);
    assert ShutdownOk(last, k, last.shutdowns[k], last.callState[k]);
  }

  /** After any shutdown has passed its wait, only a shutdown call can change the file, and no writer can start. */
  lemma OnlyShutdownWritesAfterwards(s: System, k: nat, a: Action)
    requires Inv(s) && s.state.sequence < U64_MAX && k in s.shutdowns && PastWait(s.shutdowns[k])
    requires Step(s, a).Some?
    ensures a.ByRecorder? ==> !a.r.MarkRunning? && !a.r.SpawnWriter?
    ensures Step(s, a).value.disk != s.disk ==> a.ByShutdown?
    ensures var n := Step(s, a).value; k in n.shutdowns && PastWait(n.shutdowns[k]) && n.writers == map[]
  {
    assert ShutdownOk(s, k, s.shutdowns[k], s.callState[k]);
    StepKeepsCore(s, a);
    StepFrame(s, a, k);
    StepMovesDiskForward(s, a);
    var n := Step(s, a).value;
    assert ShutdownOk(n, k, n.shutdowns[k], n.callState[k]);
  }

  /**
   The `stalled` exception is real: after one failed write the system can come to rest with an
   unsaved observation, no writer and admission still open.
   */
  lemma FailedWriteStalls(start: System, obs: Observation)
    requires Init(start) && start.path && start.state.sequence < U64_MAX
    ensures exists actions ::
      && Run(start, actions).Some?
      && var s := Run(start, actions).value;
         s.recorders == map[] && !s.running && !s.closed && s.disk.sequence < s.state.sequence
  {
    var s1 := DoRecord(start, 0, obs).value;
    var s3 := DoMarkRunning(DoEnterSchedule(s1, 0).value, 0).value;
    var s4 := DoSpawnWriter(s3, 0, 0).value;
    var failing := WriterCanFail(s4, 0);
    var spawning := [ByRecorder(SpawnWriter(0, 0))] + failing;
    assert spawning[1..] == failing;
    var schedule := [ByRecorder(EnterSchedule(0)), ByRecorder(MarkRunning(0))] + spawning;
    RunTwo(s1, ByRecorder(EnterSchedule(0)), ByRecorder(MarkRunning(0)), spawning, s3);
    var all := [ByRecorder(Record(0, obs))] + schedule;
    assert all[1..] == schedule;
    assert Run(start, all) == Run(s4, failing);
  }

  /** A freshly spawned writer whose write fails goes idle and leaves the file as it was. */
  lemma WriterCanFail(s: System, w: nat) returns (actions: seq<Action>)
    requires s.writers == map[w := CheckAdmission] && !s.closed && s.persisted <= s.state.sequence
    requires s.writerLock == None && s.ioLock == None
    ensures Run(s, actions) == Some(s.(writers := map[], running := false, idle := true, stalled := true))
  {
    var s2 := DoWriterSnapshot(DoWriterCheck(s, w).value, w).value;
    assert s2 == s.(writers := map[w := Persisting(Begin(s.state))]);
    var write := WriteCanFail(s2, w);
    RunTwo(s, ByWriter(WriterCheck(w)), ByWriter(WriterSnapshot(w)), write, s2);
    actions := [ByWriter(WriterCheck(w)), ByWriter(WriterSnapshot(w))] + write;
  }

  lemma BeginStep(s: System, w: nat)
    requires s.writers == map[w := Persisting(Begin(s.state))] && s.persisted <= s.state.sequence && s.ioLock == None
    ensures Step(s, ByWriter(WriterBegin(w)))
         == Some(s.(writers := map[w := Persisting(Writing(s.state))], ioLock := Some(Writer(w))))
  {
    assert s.writers[w := Persisting(Writing(s.state))] == map[w := Persisting(Writing(s.state))];
  }

  lemma FailStep(s: System, w: nat)
    requires s.writers == map[w := Persisting(Writing(s.state))]
    ensures Step(s, ByWriter(WriterFail(w)))
            == Some(s.(writers := map[w := GoingIdle], ioLock := None, stalled := true))
  {
    assert s.writers[w := GoingIdle] == map[w := GoingIdle];
  }

  lemma IdleStep(s: System, w: nat)
    requires s.writers == map[w := GoingIdle] && s.writerLock == None
    ensures Step(s, ByWriter(WriterIdle(w))) == Some(s.(writers := map[], running := false, idle := true))
  {
    assert s.writers - {w} == map[];
  }

  lemma RunOne(s: System, a: Action, rest: seq<Action>, mid: System)
    requires Step(s, a) == Some(mid)
    ensures Run(s, [a] + rest) == Run(mid, rest)
  {
    assert ([a] + rest)[1..] == rest;
  }

  lemma WriteCanFail(s: System, w: nat) returns (actions: seq<Action>)
    requires s.writers == map[w := Persisting(Begin(s.state))] && s.persisted <= s.state.sequence
    requires s.writerLock == None && s.ioLock == None
    ensures Run(s, actions) == Some(s.(writers := map[], running := false, idle := true, stalled := true))
  {
    var writing := s.(writers := map[w := Persisting(Writing(s.state))], ioLock := Some(Writer(w)));
    var failed := s.(writers := map[w := GoingIdle], stalled := true);
    var last := s.(writers := map[], running := false, idle := true, stalled := true);
    BeginStep(s, w);
    FailStep(writing, w);
    IdleStep(failed, w);
    RunOne(failed, ByWriter(WriterIdle(w)), [], last);
    RunOne(writing, ByWriter(WriterFail(w)), [ByWriter(WriterIdle(w))] + [], failed);
    actions := [ByWriter(WriterBegin(w))] + ([ByWriter(WriterFail(w))] + ([ByWriter(WriterIdle(w))] + []));
    RunOne(s, ByWriter(WriterBegin(w)), [ByWriter(WriterFail(w))] + ([ByWriter(WriterIdle(w))] + []), writing);
  }

  /** Running two actions and then the rest. */
  lemma RunTwo(s: System, a: Action, b: Action, rest: seq<Action>, mid: System)
    requires Step(s, a).Some? && Step(Step(s, a).value, b) == Some(mid)
    ensures Run(s, [a, b] + rest) == Run(mid, rest)
  {
    var actions := [a, b] + rest;
    assert actions[1..] == [b] + rest && actions[1..][1..] == rest;
  }

}
