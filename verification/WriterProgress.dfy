/** No call of the writer protocol gets stuck: every thread can be brought to its end by a few named steps. */
module WriterProgress {
  import opened Prelude
  import opened WriterProtocol

  // ---------------------------------------------------------------- continuations

  function ActorOf(a: Action): Actor {
    match a
    case ByRecorder(r) => Recorder(r.t)
    case ByWriter(v) => Writer(v.w)
    case ByShutdown(d) => Shutdown(d.k)
  }

  /** The actions lead from `s` to `e`, which the invariant still covers. */
  ghost predicate Leads(s: System, actions: seq<Action>, e: System) {
    match e
    case System(_, _, state, _, _, _, _, _, _, _, _, _, _, _, _, _) =>
      Run(s, actions) == Some(e) && Core(e) && state.sequence < U64_MAX
  }

  /** Only these actors take part. */
  ghost predicate Only(actions: seq<Action>, actors: set<Actor>) {
    forall i :: 0 <= i < |actions| ==> ActorOf(actions[i]) in actors
  }

  /** A state the invariant covers. */
  ghost predicate Good(s: System) {
    match s
    case System(_, _, state, _, _, _, _, _, _, _, _, _, _, _, _, _) => Core(s) && state.sequence < U64_MAX
  }

  lemma LeadsNowhere(s: System)
    requires Good(s)
    ensures Leads(s, [], s)
  {
  }

  lemma {:induction false} RunJoins(s: System, a: seq<Action>, m: System, b: seq<Action>)
    requires Run(s, a) == Some(m)
    ensures Run(s, a + b) == Run(m, b)
    decreases |a|
  {
    if a == [] {
      assert a + b == b;
    } else {
      assert (a + b)[1..] == a[1..] + b;
      RunJoins(Step(s, a[0]).value, a[1..], m, b);
    }
  }

  lemma LeadsOn(s: System, a: seq<Action>, m: System, b: seq<Action>, e: System)
    requires Leads(s, a, m) && Leads(m, b, e)
    ensures Leads(s, a + b, e)
  {
    RunJoins(s, a, m, b);
  }

  lemma OnlyOn(a: seq<Action>, b: seq<Action>, actors: set<Actor>)
    requires Only(a, actors) && Only(b, actors)
    ensures Only(a + b, actors)
  {
  }

  /** One enabled step that records nothing. */
  lemma OneStep(s: System, a: Action, n: System)
    requires Good(s) && Step(s, a) == Some(n) && n.state == s.state
    ensures Leads(s, [a], n) && Good(n)
  {
    StepKeepsCore(s, a);
    assert Run(n, []) == Some(n);
    assert [a][1..] == [];
  }

  // ---------------------------------------------------------------- flushing

  /** The call has returned, with a successful write if there is a path; the other calls are where they were. */
  ghost predicate Finishes(s: System, k: nat, e: System) {
    match e
    case System(path, _, state, _, _, _, _, _, _, _, _, _, _, shutdowns, _, _) =>
      path == s.path && state == s.state && k in s.shutdowns && shutdowns == s.shutdowns[k := Returned(path)]
  }

  /** Only this call has moved. */
  ghost predicate MovesOnly(s: System, k: nat, n: System) {
    match n
    case System(path, _, state, _, _, _, _, _, _, _, _, _, _, shutdowns, _, _) =>
      && path == s.path && state == s.state && k in s.shutdowns && k in shutdowns
      && shutdowns == s.shutdowns[k := shutdowns[k]]
  }

  lemma MoveThenFinish(s: System, k: nat, n: System, e: System)
    requires MovesOnly(s, k, n) && Finishes(n, k, e)
    ensures Finishes(s, k, e)
  {
    assert e.shutdowns == s.shutdowns[k := Returned(e.path)];
  }

  /** One step of the call, then what brings it to its end. */
  lemma StepThenFinish(s: System, k: nat, d: ShutdownAction, n: System, rest: seq<Action>, e: System)
    requires Leads(s, [ByShutdown(d)], n) && d.k == k && MovesOnly(s, k, n)
    requires Leads(n, rest, e) && Only(rest, {Shutdown(k)}) && Finishes(n, k, e)
    ensures Leads(s, [ByShutdown(d)] + rest, e) && Only([ByShutdown(d)] + rest, {Shutdown(k)}) && Finishes(s, k, e)
  {
    LeadsOn(s, [ByShutdown(d)], n, rest, e);
    OnlyOn([ByShutdown(d)], rest, {Shutdown(k)});
    MoveThenFinish(s, k, n, e);
  }

  lemma CommitReturns(s: System, k: nat) returns (e: System)
    requires Good(s) && s.path && k in s.shutdowns && s.shutdowns[k].Flushing? && s.shutdowns[k].persist.Renamed?
    ensures Leads(s, [ByShutdown(ShutdownCommit(k))], e) && Finishes(s, k, e)
  {
    e := DoShutdownCommit(s, k).value;
    OneStep(s, ByShutdown(ShutdownCommit(k)), e);
  }

  lemma WritingReturns(s: System, k: nat) returns (actions: seq<Action>, e: System)
    requires Good(s) && s.path && k in s.shutdowns && s.shutdowns[k].Flushing? && s.shutdowns[k].persist.Writing?
    ensures Leads(s, actions, e) && Only(actions, {Shutdown(k)}) && Finishes(s, k, e)
  {
    var n := DoShutdownRename(s, k).value;
    OneStep(s, ByShutdown(ShutdownRename(k)), n);
    e := CommitReturns(n, k);
    StepThenFinish(s, k, ShutdownRename(k), n, [ByShutdown(ShutdownCommit(k))], e);
    actions := [ByShutdown(ShutdownRename(k))] + [ByShutdown(ShutdownCommit(k))];
  }

  /** Past its wait, a shutdown finds the persistence lock free or its own. */
  lemma OnlyOwnIo(s: System, k: nat)
    requires Good(s) && k in s.shutdowns && PastWait(s.shutdowns[k]) && !s.shutdowns[k].Returned?
    ensures s.path
    ensures s.ioLock == None
            || (s.ioLock == Some(Shutdown(k)) && s.shutdowns[k].Flushing? && !s.shutdowns[k].persist.Begin?)
  {
    assert ShutdownOk(s, k, s.shutdowns[k], s.callState[k]);
    if s.ioLock.Some? && s.ioLock.value.Shutdown? {
      var j := s.ioLock.value.k;
      assert ShutdownOk(s, j, s.shutdowns[j], s.callState[j]);
    }
  }

  lemma SkipReturns(s: System, k: nat) returns (e: System)
    requires Good(s) && s.path && k in s.shutdowns && s.shutdowns[k].Flushing? && s.shutdowns[k].persist.Begin?
    requires s.ioLock == None && s.shutdowns[k].persist.snap.sequence < s.persisted
    ensures Leads(s, [ByShutdown(ShutdownSkip(k))], e) && Finishes(s, k, e)
  {
    e := DoShutdownSkip(s, k).value;
    OneStep(s, ByShutdown(ShutdownSkip(k)), e);
  }

  lemma BeginReturns(s: System, k: nat) returns (actions: seq<Action>, e: System)
    requires Good(s) && s.path && k in s.shutdowns && s.shutdowns[k].Flushing? && s.shutdowns[k].persist.Begin?
    ensures Leads(s, actions, e) && Only(actions, {Shutdown(k)}) && Finishes(s, k, e)
  {
    OnlyOwnIo(s, k);
    if s.shutdowns[k].persist.snap.sequence < s.persisted {
      e := SkipReturns(s, k);
      actions := [ByShutdown(ShutdownSkip(k))];
    } else {
      var n := DoShutdownBegin(s, k).value;
      OneStep(s, ByShutdown(ShutdownBegin(k)), n);
      var rest;
      rest, e := WritingReturns(n, k);
      StepThenFinish(s, k, ShutdownBegin(k), n, rest, e);
      actions := [ByShutdown(ShutdownBegin(k))] + rest;
    }
  }

  /** A shutdown past its wait can return, by steps of its own, after a successful flush. */
  lemma ShutdownCanFinish(s: System, k: nat) returns (actions: seq<Action>, e: System)
    requires Inv(s) && s.state.sequence < U64_MAX
    requires k in s.shutdowns && PastWait(s.shutdowns[k]) && !s.shutdowns[k].Returned?
    ensures Leads(s, actions, e) && Only(actions, {Shutdown(k)})
    ensures s.path && Finishes(s, k, e)
  {
    assert Good(s);
    OnlyOwnIo(s, k);
    match s.shutdowns[k]
    case SnapshotDue =>
      var n := DoShutdownSnapshot(s, k).value;
      OneStep(s, ByShutdown(ShutdownSnapshot(k)), n);
      var rest;
      rest, e := BeginReturns(n, k);
      StepThenFinish(s, k, ShutdownSnapshot(k), n, rest, e);
      actions := [ByShutdown(ShutdownSnapshot(k))] + rest;
    case Flushing(persist) =>
      match persist {
        case Begin(_) => actions, e := BeginReturns(s, k);
        case Writing(_) => actions, e := WritingReturns(s, k);
        case Renamed(_) =>
          e := CommitReturns(s, k);
          actions := [ByShutdown(ShutdownCommit(k))];
      }
  }

  // ---------------------------------------------------------------- the writer

  /** The writer lock is free or the writer's own. */
  predicate LockOpen(s: System, w: nat) {
    s.writerLock == None || s.writerLock == Some(Writer(w))
  }

  function Stale(s: System, snap: Snapshot): nat {
    if snap.sequence < s.state.sequence then 10 else 0
  }

  /** How many steps the writer has before it, at most. */
  function StepsLeft(s: System, pc: WriterPc): nat {
    match pc
    case CheckAdmission => 8
    case TakeSnapshot => 7
    case Persisting(Begin(snap)) => 6 + Stale(s, snap)
    case Persisting(Writing(snap)) => 5 + Stale(s, snap)
    case Persisting(Renamed(snap)) => 4 + Stale(s, snap)
    case Written(snap) => 3 + Stale(s, snap)
    case Deciding(snap) => 2 + Stale(s, snap)
    case Decided(snap, current) => if current > snap.sequence then 11 else 1
    case GoingIdle => 1
  }

  /** The writer is on its way to saving what there is now. */
  ghost predicate Heading(s: System, pc: WriterPc) {
    && !s.closed && !pc.GoingIdle?
    && (pc.Decided? ==> pc.current == s.state.sequence)
  }

  /** What one step of the writer achieves: it is nearer its end, and what it was heading for it has or still heads
      for. */
  ghost predicate Advances(s: System, w: nat, n: System) {
    match n
    case System(path, _, state, disk, _, closed, running, _, _, _, _, recorders, writers, shutdowns, _, _) =>
      && path == s.path && state == s.state && closed == s.closed
      && recorders == s.recorders && shutdowns == s.shutdowns
      && LockOpen(n, w) && w in s.writers && (w in writers || !running)
      && (w in writers ==> StepsLeft(n, writers[w]) < StepsLeft(s, s.writers[w]))
      && (Heading(s, s.writers[w]) ==>
            if w in writers then Heading(n, writers[w]) else disk.sequence >= state.sequence)
  }

  lemma WriterIoFree(s: System, w: nat)
    requires Good(s) && w in s.writers && s.writers[w].Persisting? && s.writers[w].persist.Begin?
    ensures s.ioLock == None
  {
  }

  lemma CheckAdvances(s: System, w: nat, n: System)
    requires Good(s) && w in s.writers && LockOpen(s, w) && s.writers[w].CheckAdmission?
    requires DoWriterCheck(s, w) == Some(n)
    ensures Advances(s, w, n)
  {
  }

  lemma SnapshotAdvances(s: System, w: nat, n: System)
    requires Good(s) && w in s.writers && LockOpen(s, w) && s.writers[w].TakeSnapshot?
    requires DoWriterSnapshot(s, w) == Some(n)
    ensures Advances(s, w, n)
  {
  }

  lemma SkipAdvances(s: System, w: nat, n: System)
    requires Good(s) && w in s.writers && LockOpen(s, w) && s.writers[w].Persisting?
    requires DoWriterSkip(s, w) == Some(n)
    ensures Advances(s, w, n)
  {
  }

  lemma BeginAdvances(s: System, w: nat, n: System)
    requires Good(s) && w in s.writers && LockOpen(s, w) && s.writers[w].Persisting?
    requires DoWriterBegin(s, w) == Some(n)
    ensures Advances(s, w, n)
  {
  }

  lemma RenameAdvances(s: System, w: nat, n: System)
    requires Good(s) && w in s.writers && LockOpen(s, w) && s.writers[w].Persisting?
    requires DoWriterRename(s, w) == Some(n)
    ensures Advances(s, w, n)
  {
  }

  lemma CommitAdvances(s: System, w: nat, n: System)
    requires Good(s) && w in s.writers && LockOpen(s, w) && s.writers[w].Persisting?
    requires DoWriterCommit(s, w) == Some(n)
    ensures Advances(s, w, n)
  {
  }

  lemma LockAdvances(s: System, w: nat, n: System)
    requires Good(s) && w in s.writers && LockOpen(s, w) && s.writers[w].Written?
    requires DoWriterLock(s, w) == Some(n)
    ensures Advances(s, w, n)
  {
  }

  lemma ReadAdvances(s: System, w: nat, n: System)
    requires Good(s) && w in s.writers && LockOpen(s, w) && s.writers[w].Deciding?
    requires DoWriterRead(s, w) == Some(n)
    ensures Advances(s, w, n)
  {
  }

  lemma ContinueAdvances(s: System, w: nat, n: System)
    requires Good(s) && w in s.writers && LockOpen(s, w) && s.writers[w].Decided?
    requires DoWriterContinue(s, w) == Some(n)
    ensures Advances(s, w, n)
  {
  }

  lemma FinishAdvances(s: System, w: nat, n: System)
    requires Good(s) && w in s.writers && LockOpen(s, w) && s.writers[w].Decided?
    requires DoWriterFinish(s, w) == Some(n)
    ensures Advances(s, w, n)
  {
  }

  lemma IdleAdvances(s: System, w: nat, n: System)
    requires Good(s) && w in s.writers && LockOpen(s, w) && s.writers[w].GoingIdle?
    requires DoWriterIdle(s, w) == Some(n)
    ensures Advances(s, w, n)
  {
  }

  lemma PersistAdvances(s: System, w: nat) returns (v: WriterAction, n: System)
    requires Good(s) && w in s.writers && LockOpen(s, w) && s.writers[w].Persisting?
    ensures v.w == w && WriterStep(s, v) == Some(n) && Advances(s, w, n)
  {
    match s.writers[w].persist
    case Begin(snap) =>
      WriterIoFree(s, w);
      if snap.sequence < s.persisted {
        v, n := WriterSkip(w), DoWriterSkip(s, w).value;
        SkipAdvances(s, w, n);
      } else {
        v, n := WriterBegin(w), DoWriterBegin(s, w).value;
        BeginAdvances(s, w, n);
      }
    case Writing(_) =>
      v, n := WriterRename(w), DoWriterRename(s, w).value;
      RenameAdvances(s, w, n);
    case Renamed(_) =>
      v, n := WriterCommit(w), DoWriterCommit(s, w).value;
      CommitAdvances(s, w, n);
  }

  lemma DecidedAdvances(s: System, w: nat) returns (v: WriterAction, n: System)
    requires Good(s) && w in s.writers && LockOpen(s, w) && s.writers[w].Decided?
    ensures v.w == w && WriterStep(s, v) == Some(n) && Advances(s, w, n)
  {
    if s.writers[w].current > s.writers[w].snap.sequence && !s.closed {
      v, n := WriterContinue(w), DoWriterContinue(s, w).value;
      ContinueAdvances(s, w, n);
    } else {
      v, n := WriterFinish(w), DoWriterFinish(s, w).value;
      FinishAdvances(s, w, n);
    }
  }

  lemma LockFreeOutside(s: System, w: nat)
    requires Good(s) && w in s.writers && LockOpen(s, w) && !s.writers[w].Deciding? && !s.writers[w].Decided?
    ensures s.writerLock == None
  {
  }

  /** A writer always has a step, other than failing, that takes it nearer its end. */
  lemma WriterAdvances(s: System, w: nat) returns (v: WriterAction, n: System)
    requires Good(s) && w in s.writers && LockOpen(s, w)
    ensures v.w == w && WriterStep(s, v) == Some(n) && Advances(s, w, n)
  {
    match s.writers[w]
    case CheckAdmission =>
      LockFreeOutside(s, w);
      v, n := WriterCheck(w), DoWriterCheck(s, w).value;
      CheckAdvances(s, w, n);
    case TakeSnapshot =>
      v, n := WriterSnapshot(w), DoWriterSnapshot(s, w).value;
      SnapshotAdvances(s, w, n);
    case Persisting(_) => v, n := PersistAdvances(s, w);
    case Written(_) =>
      LockFreeOutside(s, w);
      v, n := WriterLock(w), DoWriterLock(s, w).value;
      LockAdvances(s, w, n);
    case Deciding(_) =>
      v, n := WriterRead(w), DoWriterRead(s, w).value;
      ReadAdvances(s, w, n);
    case Decided(_, _) => v, n := DecidedAdvances(s, w);
    case GoingIdle =>
      LockFreeOutside(s, w);
      v, n := WriterIdle(w), DoWriterIdle(s, w).value;
      IdleAdvances(s, w, n);
  }

  /** What stays the same while somebody else finishes. */
  ghost predicate Undisturbed(s: System, e: System) {
    match e
    case System(path, _, state, _, _, closed, _, _, _, _, _, _, _, shutdowns, _, _) =>
      path == s.path && state == s.state && closed == s.closed && shutdowns == s.shutdowns
  }

  lemma UndisturbedTwice(s: System, m: System, e: System)
    requires Undisturbed(s, m) && Undisturbed(m, e)
    ensures Undisturbed(s, e)
  {
  }

  /** The writer is gone, with what it was heading for saved. */
  ghost predicate Ended(s: System, w: nat, e: System) {
    match e
    case System(_, _, state, disk, _, _, running, _, writerLock, _, _, recorders, writers, _, _, _) =>
      && w in s.writers && w !in writers && !running && writerLock == None && recorders == s.recorders
      && (Heading(s, s.writers[w]) ==> disk.sequence >= state.sequence)
  }

  lemma LastAdvance(s: System, w: nat, n: System)
    requires Good(n) && Advances(s, w, n) && w !in n.writers
    ensures Ended(s, w, n) && Undisturbed(s, n)
  {
  }

  lemma EarlierAdvance(s: System, w: nat, n: System, e: System)
    requires Advances(s, w, n) && w in n.writers && Ended(n, w, e) && Undisturbed(n, e)
    ensures Ended(s, w, e) && Undisturbed(s, e)
  {
  }

  /** A writer that nobody keeps from the writer lock can end, by steps of its own. */
  lemma {:induction false} WriterEnds(s: System, w: nat) returns (actions: seq<Action>, e: System)
    requires Good(s) && w in s.writers && LockOpen(s, w)
    ensures Leads(s, actions, e) && Only(actions, {Writer(w)}) && Ended(s, w, e) && Undisturbed(s, e)
    decreases StepsLeft(s, s.writers[w])
  {
    var v, n := WriterAdvances(s, w);
    OneStep(s, ByWriter(v), n);
    actions, e := [ByWriter(v)], n;
    if w in n.writers {
      var rest;
      rest, e := WriterEnds(n, w);
      LeadsOn(s, [ByWriter(v)], n, rest, e);
      OnlyOn([ByWriter(v)], rest, {Writer(w)});
      EarlierAdvance(s, w, n, e);
      actions := [ByWriter(v)] + rest;
    } else {
      LastAdvance(s, w, n);
    }
  }

  // ---------------------------------------------------------------- the writer lock

  /** The recorder is done and the lock free; if admission is open a writer is running. */
  ghost predicate Scheduled(s: System, t: nat, e: System) {
    match e
    case System(_, _, _, _, _, closed, running, _, writerLock, _, _, recorders, writers, _, _, _) =>
      && writerLock == None && recorders == s.recorders - {t} && (running || closed)
      && forall w :: w in s.writers ==> w in writers && writers[w] == s.writers[w]
  }

  lemma SpawnSchedules(s: System, t: nat) returns (e: System)
    requires Good(s) && s.writerLock == Some(Recorder(t)) && t in s.recorders && s.recorders[t] == MarkedRunning
    ensures Leads(s, [ByRecorder(SpawnWriter(t, 0))], e) && Scheduled(s, t, e) && Undisturbed(s, e)
  {
    e := DoSpawnWriter(s, t, 0).value;
    OneStep(s, ByRecorder(SpawnWriter(t, 0)), e);
  }

  lemma MarkSchedules(s: System, t: nat) returns (actions: seq<Action>, e: System)
    requires Good(s) && s.writerLock == Some(Recorder(t)) && t in s.recorders && s.recorders[t] == Entered
    requires !s.closed && !s.running
    ensures Leads(s, actions, e) && Only(actions, {Recorder(t)}) && Scheduled(s, t, e) && Undisturbed(s, e)
  {
    var a, n := ByRecorder(MarkRunning(t)), DoMarkRunning(s, t).value;
    OneStep(s, a, n);
    e := SpawnSchedules(n, t);
    LeadsOn(s, [a], n, [ByRecorder(SpawnWriter(t, 0))], e);
    actions := [a] + [ByRecorder(SpawnWriter(t, 0))];
    assert n.recorders - {t} == s.recorders - {t};
  }

  /** A recorder inside `schedule_write` can leave it, by steps of its own. */
  lemma RecorderLeaves(s: System, t: nat) returns (actions: seq<Action>, e: System)
    requires Good(s) && s.writerLock == Some(Recorder(t))
    ensures Leads(s, actions, e) && Only(actions, {Recorder(t)}) && Scheduled(s, t, e) && Undisturbed(s, e)
  {
    if s.recorders[t] == MarkedRunning {
      e := SpawnSchedules(s, t);
      actions := [ByRecorder(SpawnWriter(t, 0))];
    } else if s.closed || s.running {
      e := DoDeclineSchedule(s, t).value;
      actions := [ByRecorder(DeclineSchedule(t))];
      OneStep(s, ByRecorder(DeclineSchedule(t)), e);
    } else {
      actions, e := MarkSchedules(s, t);
    }
  }

  function Holder(s: System): set<Actor> {
    match s.writerLock case None => {} case Some(actor) => {actor}
  }

  lemma OnlyMore(actions: seq<Action>, few: set<Actor>, more: set<Actor>)
    requires Only(actions, few) && few <= more
    ensures Only(actions, more)
  {
  }

  ghost predicate OthersKept(s: System, e: System) {
    match e
    case System(_, _, _, _, _, _, _, _, writerLock, _, _, recorders, _, _, _, _) =>
      && writerLock == None
      && forall t :: t in s.recorders && s.recorders[t] == Applied ==> t in recorders && recorders[t] == Applied
  }

  lemma ScheduledKeeps(s: System, t: nat, e: System)
    requires Good(s) && s.writerLock == Some(Recorder(t)) && Scheduled(s, t, e)
    ensures OthersKept(s, e)
  {
  }

  lemma EndedKeeps(s: System, w: nat, e: System)
    requires Ended(s, w, e)
    ensures OthersKept(s, e)
  {
  }

  /** Whoever holds the writer lock can let go of it. */
  lemma WriterLockFreed(s: System) returns (actions: seq<Action>, e: System)
    requires Good(s)
    ensures Leads(s, actions, e) && Only(actions, Holder(s)) && Undisturbed(s, e) && OthersKept(s, e)
  {
    match s.writerLock
    case None =>
      actions, e := [], s;
      LeadsNowhere(s);
    case Some(Recorder(t)) =>
      actions, e := RecorderLeaves(s, t);
      ScheduledKeeps(s, t, e);
    case Some(Writer(w)) =>
      actions, e := WriterEnds(s, w);
      EndedKeeps(s, w, e);
    case Some(Shutdown(_)) =>
  }

  // ---------------------------------------------------------------- writers and recorders

  /** Every spawned writer can end, by steps of its own after whoever holds the writer lock let go; and if it was
      heading for that, it ends with everything there was saved. */
  lemma WriterCanFinish(s: System, w: nat) returns (actions: seq<Action>, e: System)
    requires Inv(s) && s.state.sequence < U64_MAX && w in s.writers
    ensures Leads(s, actions, e) && Only(actions, {Writer(w)} + Holder(s)) && Undisturbed(s, e)
    ensures w !in e.writers && !e.running
    ensures Heading(s, s.writers[w]) ==> e.disk.sequence >= s.state.sequence
  {
    assert Good(s);
    if s.writerLock.Some? && s.writerLock.value.Recorder? {
      var t := s.writerLock.value.t;
      var first, m := RecorderLeaves(s, t);
      var rest;
      rest, e := WriterEnds(m, w);
      LeadsOn(s, first, m, rest, e);
      UndisturbedTwice(s, m, e);
      OnlyMore(first, {Recorder(t)}, {Writer(w)} + Holder(s));
      OnlyMore(rest, {Writer(w)}, {Writer(w)} + Holder(s));
      OnlyOn(first, rest, {Writer(w)} + Holder(s));
      actions := first + rest;
    } else {
      OneWriter(s, w);
      actions, e := WriterEnds(s, w);
      OnlyMore(actions, {Writer(w)}, {Writer(w)} + Holder(s));
    }
  }

  lemma OneWriter(s: System, w: nat)
    requires Good(s) && w in s.writers && !(s.writerLock.Some? && s.writerLock.value.Recorder?)
    ensures LockOpen(s, w)
  {
  }

  lemma AppliedUnlessHolding(s: System, t: nat)
    requires Good(s) && t in s.recorders && s.writerLock != Some(Recorder(t))
    ensures s.recorders[t] == Applied
  {
    assert RecorderOk(s, t, s.recorders[t]);
  }

  lemma EnterLeads(s: System, t: nat) returns (n: System)
    requires Good(s) && s.path && s.writerLock == None && t in s.recorders && s.recorders[t] == Applied
    ensures Leads(s, [ByRecorder(EnterSchedule(t))], n) && Good(n) && Undisturbed(s, n)
    ensures n.writerLock == Some(Recorder(t)) && n.recorders == s.recorders[t := Entered]
  {
    n := DoEnterSchedule(s, t).value;
    OneStep(s, ByRecorder(EnterSchedule(t)), n);
  }

  /** Every recorder can finish its `schedule_write`, by steps of its own after the lock holder let go; it leaves a
      running writer behind, or finds admission closed. */
  lemma RecorderCanFinish(s: System, t: nat) returns (actions: seq<Action>, e: System)
    requires Inv(s) && s.state.sequence < U64_MAX && s.path && t in s.recorders
    ensures Leads(s, actions, e) && Only(actions, {Recorder(t)} + Holder(s)) && Undisturbed(s, e)
    ensures t !in e.recorders && (e.running || e.closed)
  {
    assert Good(s);
    var all := {Recorder(t)} + Holder(s);
    if s.writerLock == Some(Recorder(t)) {
      actions, e := RecorderLeaves(s, t);
      OnlyMore(actions, {Recorder(t)}, all);
    } else {
      AppliedUnlessHolding(s, t);
      var first, m := WriterLockFreed(s);
      var n := EnterLeads(m, t);
      var rest;
      rest, e := RecorderLeaves(n, t);
      LeadsOn(s, first, m, [ByRecorder(EnterSchedule(t))], n);
      LeadsOn(s, first + [ByRecorder(EnterSchedule(t))], n, rest, e);
      UndisturbedTwice(s, m, n);
      UndisturbedTwice(s, n, e);
      OnlyMore(first, Holder(s), all);
      OnlyMore(rest, {Recorder(t)}, all);
      OnlyOn(first, [ByRecorder(EnterSchedule(t))], all);
      OnlyOn(first + [ByRecorder(EnterSchedule(t))], rest, all);
      actions := first + [ByRecorder(EnterSchedule(t))] + rest;
    }
  }

  // ---------------------------------------------------------------- whole shutdown calls

  lemma UndisturbedThenFinish(s: System, m: System, k: nat, e: System)
    requires Undisturbed(s, m) && Finishes(m, k, e)
    ensures Finishes(s, k, e)
  {
  }

  /** With no writer left the waiting call sees it and returns. */
  lemma IdleReturns(s: System, k: nat) returns (actions: seq<Action>, e: System)
    requires Good(s) && k in s.shutdowns && s.shutdowns[k].Waiting? && !s.running
    ensures Leads(s, actions, e) && Finishes(s, k, e)
  {
    assert s.idle;
    if s.path {
      var n := DoShutdownSeesIdle(s, k).value;
      OneStep(s, ByShutdown(ShutdownSeesIdle(k)), n);
      var rest;
      rest, e := ShutdownCanFinish(n, k);
      StepThenFinish(s, k, ShutdownSeesIdle(k), n, rest, e);
      actions := [ByShutdown(ShutdownSeesIdle(k))] + rest;
    } else {
      e := DoShutdownWithoutPath(s, k).value;
      OneStep(s, ByShutdown(ShutdownWithoutPath(k)), e);
      actions := [ByShutdown(ShutdownWithoutPath(k))];
    }
  }

  lemma ClosedMeansWriter(s: System, k: nat)
    requires Good(s) && k in s.shutdowns && s.shutdowns[k].Waiting? && s.running
    ensures s.writers != map[]
  {
    assert ShutdownOk(s, k, s.shutdowns[k], s.callState[k]);
  }

  lemma WaitReturns(s: System, k: nat) returns (actions: seq<Action>, e: System)
    requires Good(s) && k in s.shutdowns && s.shutdowns[k].Waiting?
    ensures Leads(s, actions, e) && Finishes(s, k, e)
  {
    if s.running {
      ClosedMeansWriter(s, k);
      var w :| w in s.writers;
      var first, m := WriterCanFinish(s, w);
      var rest;
      rest, e := IdleReturns(m, k);
      LeadsOn(s, first, m, rest, e);
      UndisturbedThenFinish(s, m, k, e);
      actions := first + rest;
    } else {
      actions, e := IdleReturns(s, k);
    }
  }

  lemma CloseReturns(s: System, k: nat) returns (actions: seq<Action>, e: System)
    requires Good(s) && k in s.shutdowns && s.shutdowns[k].HoldingLock? && s.writerLock == None
    ensures Leads(s, actions, e) && Finishes(s, k, e)
  {
    var n := DoShutdownClose(s, k).value;
    OneStep(s, ByShutdown(ShutdownClose(k)), n);
    var rest;
    rest, e := WaitReturns(n, k);
    LeadsOn(s, [ByShutdown(ShutdownClose(k))], n, rest, e);
    MoveThenFinish(s, k, n, e);
    actions := [ByShutdown(ShutdownClose(k))] + rest;
  }

  lemma HoldingReturns(s: System, k: nat) returns (actions: seq<Action>, e: System)
    requires Good(s) && k in s.shutdowns && s.shutdowns[k].HoldingLock?
    ensures Leads(s, actions, e) && Finishes(s, k, e)
  {
    var first, m := WriterLockFreed(s);
    var rest;
    rest, e := CloseReturns(m, k);
    LeadsOn(s, first, m, rest, e);
    UndisturbedThenFinish(s, m, k, e);
    actions := first + rest;
  }

  /** The call that holds the shutdown lock can return. */
  lemma LockedReturns(s: System, k: nat) returns (actions: seq<Action>, e: System)
    requires Good(s) && k in s.shutdowns && !s.shutdowns[k].Called? && !s.shutdowns[k].Returned?
    ensures Leads(s, actions, e) && Finishes(s, k, e)
  {
    match s.shutdowns[k]
    case HoldingLock => actions, e := HoldingReturns(s, k);
    case Waiting => actions, e := WaitReturns(s, k);
    case SnapshotDue => actions, e := ShutdownCanFinish(s, k);
    case Flushing(_) => actions, e := ShutdownCanFinish(s, k);
  }

  ghost predicate Active(s: System, k: nat) {
    k in s.shutdowns && !s.shutdowns[k].Called? && !s.shutdowns[k].Returned?
  }

  lemma OneActive(s: System)
    requires Good(s)
    ensures forall k: nat :: Active(s, k) ==> s.shutdownLock == Some(k)
    ensures s.shutdownLock.Some? ==> Active(s, s.shutdownLock.value)
  {
    forall k: nat | Active(s, k) ensures s.shutdownLock == Some(k) {
      assert ShutdownOk(s, k, s.shutdowns[k], s.callState[k]);
    }
  }

  lemma LockLetGo(s: System, j: nat, e: System)
    requires Good(s) && Good(e) && s.shutdownLock == Some(j) && Finishes(s, j, e)
    ensures e.shutdownLock == None
  {
    OneActive(s);
    OneActive(e);
    assert forall k: nat :: Active(e, k) ==> Active(s, k) && k != j;
  }

  lemma CalledReturns(s: System, k: nat) returns (actions: seq<Action>, e: System)
    requires Good(s) && k in s.shutdowns && s.shutdowns[k].Called? && s.shutdownLock == None
    ensures Leads(s, actions, e) && Finishes(s, k, e)
  {
    var n := DoShutdownLock(s, k).value;
    OneStep(s, ByShutdown(ShutdownLock(k)), n);
    var rest;
    rest, e := LockedReturns(n, k);
    LeadsOn(s, [ByShutdown(ShutdownLock(k))], n, rest, e);
    MoveThenFinish(s, k, n, e);
    actions := [ByShutdown(ShutdownLock(k))] + rest;
  }

  lemma CallCanReturn(s: System, k: nat) returns (actions: seq<Action>, e: System)
    requires Good(s) && k in s.shutdowns && !s.shutdowns[k].Returned?
    ensures Leads(s, actions, e) && e.state == s.state && k in e.shutdowns && e.shutdowns[k] == Returned(s.path)
  {
    if !s.shutdowns[k].Called? {
      actions, e := LockedReturns(s, k);
    } else if s.shutdownLock == None {
      actions, e := CalledReturns(s, k);
    } else {
      var j := s.shutdownLock.value;
      var first, m := LockedReturns(s, j);
      LockLetGo(s, j, m);
      var rest;
      rest, e := CalledReturns(m, k);
      LeadsOn(s, first, m, rest, e);
      actions := first + rest;
    }
  }

  /** Every shutdown call, wherever it is and whoever holds which lock, can be brought to its return without another
      observation: from a successful write when there is a path, so that everything counted before the call is saved. */
  lemma ShutdownCanReturn(s: System, k: nat) returns (actions: seq<Action>, e: System)
    requires Inv(s) && s.state.sequence < U64_MAX && k in s.shutdowns && !s.shutdowns[k].Returned?
    ensures Run(s, actions) == Some(e) && e.state == s.state && Inv(e)
    ensures k in e.shutdowns && e.shutdowns[k] == Returned(s.path)
    ensures s.path ==> s.callState[k].log <= e.disk.log
  {
    actions, e := CallCanReturn(s, k);
    CallStateIsFixed(s, actions, k);
    assert ShutdownOk(e, k, e.shutdowns[k], e.callState[k]);
  }

  // ---------------------------------------------------------------- one way on

  /** Failing apart, a writer never has a choice between two steps. */
  lemma WriterIsDetermined(s: System, a: WriterAction, b: WriterAction)
    requires WriterStep(s, a).Some? && WriterStep(s, b).Some? && a.w == b.w && !a.WriterFail? && !b.WriterFail?
    ensures a == b
  {
  }

  /** Nor does a shutdown call. */
  lemma ShutdownIsDetermined(s: System, a: ShutdownAction, b: ShutdownAction)
    requires ShutdownStep(s, a).Some? && ShutdownStep(s, b).Some? && a.k == b.k && !a.ShutdownFail? && !b.ShutdownFail?
    ensures a == b
  {
  }

  // ---------------------------------------------------------------- after admission closed

  /** The writer has no write before it, unless admission reopens. */
  predicate PastWriting(pc: WriterPc) {
    !pc.TakeSnapshot? && !pc.Persisting?
  }

  ghost predicate Retiring(s: System, w: nat) {
    match s
    case System(_, _, _, _, _, closed, _, _, _, _, _, _, writers, _, _, _) =>
      closed && (w in writers ==> PastWriting(writers[w]))
  }

  lemma RecorderStepRetires(s: System, r: RecorderAction, w: nat)
    requires Good(s) && Retiring(s, w) && RecorderStep(s, r).Some?
    ensures Retiring(RecorderStep(s, r).value, w)
  {
    if r.SpawnWriter? {
      assert RecorderOk(s, r.t, s.recorders[r.t]);
      assert Spawning(s);
    }
  }

  lemma WriterStepRetires(s: System, v: WriterAction, w: nat)
    requires Retiring(s, w) && WriterStep(s, v).Some?
    ensures Retiring(WriterStep(s, v).value, w)
    ensures v.w == w ==> WriterStep(s, v).value.disk == s.disk
  {
  }

  lemma ShutdownStepRetires(s: System, d: ShutdownAction, w: nat)
    requires Retiring(s, w) && ShutdownStep(s, d).Some?
    ensures Retiring(ShutdownStep(s, d).value, w)
  {
  }

  lemma StepRetires(s: System, a: Action, w: nat)
    requires Inv(s) && s.state.sequence < U64_MAX && Retiring(s, w) && Step(s, a).Some?
    ensures Retiring(Step(s, a).value, w)
    ensures a.ByWriter? && a.v.w == w ==> Step(s, a).value.disk == s.disk
  {
    match a
    case ByRecorder(r) => RecorderStepRetires(s, r, w);
    case ByWriter(v) => WriterStepRetires(s, v, w);
    case ByShutdown(d) => ShutdownStepRetires(s, d, w);
  }

  /** Once admission is closed, a writer past its write starts no other: whatever happens, it never takes a snapshot or
      persists one again. */
  lemma {:induction false} ClosedWriterWritesNoMore(s: System, w: nat, actions: seq<Action>)
    requires Inv(s) && s.closed && (w in s.writers ==> PastWriting(s.writers[w]))
    requires Run(s, actions).Some? && Run(s, actions).value.state.sequence < U64_MAX
    ensures var e := Run(s, actions).value;
      e.closed && (w in e.writers ==> PastWriting(e.writers[w]))
    decreases |actions|
  {
    RunKeepsInv(s, actions);
    if actions != [] {
      StepKeepsInv(s, actions[0]);
      assert Retiring(s, w);
      StepRetires(s, actions[0], w);
      ClosedWriterWritesNoMore(Step(s, actions[0]).value, w, actions[1..]);
    }
  }
}
