/** Compare-and-swap on the shared file of credential bindings, as an interleaving of cooperating processes. */
module CredentialBindings {
  import opened Prelude

  const BINDINGS_VERSION: nat := 1

  datatype Binding = Binding(fingerprint: Text, accountId: nat)

  type Profiles = map<Text, Binding>

  datatype BindingError = Unavailable | Changed

  /** What is on disk: nothing, a parsed file, or something that cannot be read as one. */
  datatype File = Absent | Present(version: nat, profiles: Profiles) | Unreadable

  /** `read_file`: a missing file is an empty one, and only version 1 is understood. */
  function ReadFile(f: File): Result<Profiles, BindingError> {
    match f
    case Absent => Ok(map[])
    case Present(version, profiles) => if version == BINDINGS_VERSION then Ok(profiles) else Err(Unavailable)
    case Unreadable => Err(Unavailable)
  }

  function Get(p: Profiles, profile: Text): Option<Binding> {
    if profile in p then Some(p[profile]) else None
  }

  datatype BindingLookup = Missing | Matches(binding: Binding) | FingerprintMismatch(binding: Binding)

  /** `lookup` on what the file held for the profile. */
  function Judge(found: Option<Binding>, fingerprint: Text): BindingLookup {
    match found
    case None => Missing
    case Some(b) => if b.fingerprint == fingerprint then Matches(b) else FingerprintMismatch(b)
  }

  // ---------------------------------------------------------------- the system

  /** A committed replacement; `id` is the call that made it. */
  datatype Commit = Commit(id: nat, profile: Text, expected: Option<Binding>, binding: Binding)

  /** `at` counts the commits made before the deciding moment. */
  datatype Phase =
    | Called
    | Locked
    | Ready(seen: Profiles)
    | Leaving(outcome: Result<Binding, BindingError>, at: nat)
    | Returned(outcome: Result<Binding, BindingError>, at: nat)
    | Crashed(committed: Option<nat>)

  datatype Call =
    | Replacing(profile: Text, binding: Binding, expected: Option<Binding>, began: nat, phase: Phase)
    | Looking(profile: Text, began: nat, answer: Option<Answer>)

  datatype Answer = Answer(found: Result<Option<Binding>, BindingError>, at: nat)

  /** The log is the order of successful renames; it is not stored anywhere. */
  datatype System = System(file: File, lock: Option<nat>, calls: map<nat, Call>, log: seq<Commit>)

  /** `fails` stands for any failure of the operating system, including a file over the size limit. */
  datatype Action =
    | BeginReplace(id: nat, profile: Text, binding: Binding, expected: Option<Binding>)
    | Acquire(id: nat)
    | GiveUp(id: nat)
    | Read(id: nat, fails: bool)
    | Write(id: nat, fails: bool)
    | Release(id: nat)
    | Crash(id: nat)
    | BeginLookup(id: nat, profile: Text)
    | Look(id: nat, fails: bool)

  function At(s: System, id: nat, phase: Phase): System
    requires id in s.calls && s.calls[id].Replacing?
  {
    s.(calls := s.calls[id := s.calls[id].(phase := phase)])
  }

  function DoRead(s: System, id: nat, fails: bool): System
    requires id in s.calls && s.calls[id].Replacing?
  {
    var c := s.calls[id];
    if fails || ReadFile(s.file).Err? then At(s, id, Leaving(Err(Unavailable), |s.log|))
    else if Get(ReadFile(s.file).value, c.profile) != c.expected then At(s, id, Leaving(Err(Changed), |s.log|))
    else At(s, id, Ready(ReadFile(s.file).value))
  }

  function DoWrite(s: System, id: nat, fails: bool): System
    requires id in s.calls && s.calls[id].Replacing? && s.calls[id].phase.Ready?
  {
    var c := s.calls[id];
    if fails then At(s, id, Leaving(Err(Unavailable), |s.log|))
    else At(s, id, Leaving(Ok(c.binding), |s.log|)).(
           file := Present(BINDINGS_VERSION, c.phase.seen[c.profile := c.binding]),
           log := s.log + [Commit(id, c.profile, c.expected, c.binding)])
  }

  predicate Holding(p: Phase) {
    p.Locked? || p.Ready? || p.Leaving?
  }

  function CommittedIn(p: Phase): Option<nat> {
    match p
    case Leaving(Ok(_), at) => Some(at)
    case Returned(Ok(_), at) => Some(at)
    case Crashed(committed) => committed
    case _ => None
  }

  function DoCrash(s: System, id: nat): System
    requires id in s.calls && s.calls[id].Replacing?
  {
    var p := s.calls[id].phase;
    At(s, id, Crashed(CommittedIn(p))).(lock := if Holding(p) then None else s.lock)
  }

  function DoLook(s: System, id: nat, fails: bool): System
    requires id in s.calls && s.calls[id].Looking?
  {
    var c := s.calls[id];
    var found := if fails
        || ReadFile(s.file).Err? then Err(Unavailable) else Ok(Get(ReadFile(s.file).value, c.profile));
    s.(calls := s.calls[id := c.(answer := Some(Answer(found, |s.log|)))])
  }

  predicate InPhase(s: System, id: nat) {
    id in s.calls && s.calls[id].Replacing?
  }

  /** One atomic step; an action that does not apply changes nothing. */
  function Step(s: System, a: Action): System {
    match a
    case BeginReplace(id, profile, binding, expected) =>
      if id in s.calls then s else s.(calls := s.calls[id := Replacing(profile, binding, expected, |s.log|, Called)])
    case Acquire(id) =>
      if InPhase(s, id) && s.calls[id].phase.Called? && s.lock.None? then At(s, id, Locked).(lock := Some(id)) else s
    case GiveUp(id) =>
      if InPhase(s, id) && s.calls[id].phase.Called? then At(s, id, Returned(Err(Unavailable), |s.log|)) else s
    case Read(id, fails) =>
      if InPhase(s, id) && s.calls[id].phase.Locked? then DoRead(s, id, fails) else s
    case Write(id, fails) =>
      if InPhase(s, id) && s.calls[id].phase.Ready? then DoWrite(s, id, fails) else s
    case Release(id) =>
      if InPhase(s, id) && s.calls[id].phase.Leaving?
      then At(s, id, Returned(s.calls[id].phase.outcome, s.calls[id].phase.at)).(lock := None) else s
    case Crash(id) =>
      if InPhase(s, id) && !s.calls[id].phase.Returned? && !s.calls[id].phase.Crashed? then DoCrash(s, id) else s
    case BeginLookup(id, profile) =>
      if id in s.calls then s else s.(calls := s.calls[id := Looking(profile, |s.log|, None)])
    case Look(id, fails) =>
      if id in s.calls && s.calls[id].Looking? && s.calls[id].answer.None? then DoLook(s, id, fails) else s
  }

  function Run(s: System, actions: seq<Action>): System {
    if actions == [] then s else Step(Run(s, actions[..|actions| - 1]), actions[|actions| - 1])
  }

  function Start(file: File): System {
    System(file, None, map[], [])
  }

  // ---------------------------------------------------------------- the sequential object

  function Initial(file: File): Profiles {
    if ReadFile(file).Ok? then ReadFile(file).value else map[]
  }

  /** The profiles after the first `k` commits, one at a time. */
  function Version(initial: Profiles, log: seq<Commit>, k: nat): Profiles
    requires k <= |log|
  {
    if k == 0 then initial else Version(initial, log, k - 1)[log[k - 1].profile := log[k - 1].binding]
  }

  /** Commit `k` found what it expected. */
  ghost predicate Legal(initial: Profiles, log: seq<Commit>, k: nat)
    requires k < |log|
  {
    Get(Version(initial, log, k), log[k].profile) == log[k].expected
  }

  lemma {:induction false} VersionStable(initial: Profiles, log: seq<Commit>, c: Commit, k: nat)
    requires k <= |log|
    ensures Version(initial, log + [c], k) == Version(initial, log, k)
  {
    if k > 0 {
      VersionStable(initial, log, c, k - 1);
    }
  }

  // ---------------------------------------------------------------- the invariant

  ghost predicate FileOk(first: File, s: System) {
    && (s.log == [] ==> s.file == first)
    && (s.log != [] ==> s.file == Present(BINDINGS_VERSION, Version(Initial(first), s.log, |s.log|)))
  }

  ghost predicate LockOk(s: System, id: nat)
    requires id in s.calls
  {
    s.calls[id].Replacing? ==> (Holding(s.calls[id].phase) <==> s.lock == Some(id))
  }

  /** What the outcome of a replacement means. */
  ghost predicate OutcomeOk(first: File, log: seq<Commit>, id: nat, c: Call, outcome: Result<Binding, BindingError>,
                            at: nat)
    requires c.Replacing?
  {
    && c.began <= at <= |log|
    && match outcome
       case Ok(b) => b == c.binding
       case Err(Changed) => Get(Version(Initial(first), log, at), c.profile) != c.expected
       case Err(Unavailable) => true
  }

  ghost predicate CommittedOk(log: seq<Commit>, id: nat, c: Call)
    requires c.Replacing?
  {
    var k := CommittedIn(c.phase);
    k.Some? ==> c.began <= k.value < |log| && log[k.value] == Commit(id, c.profile, c.expected, c.binding)
  }

  ghost predicate CallOk(first: File, s: System, id: nat, c: Call) {
    match c
    case Replacing(profile, binding, expected, began, phase) =>
      && began <= |s.log| && CommittedOk(s.log, id, c)
      && (phase.Ready? ==> ReadFile(s.file) == Ok(phase.seen) && Get(phase.seen, profile) == expected)
      && (phase.Leaving? ==> OutcomeOk(first, s.log, id, c, phase.outcome, phase.at))
      && (phase.Returned? ==> OutcomeOk(first, s.log, id, c, phase.outcome, phase.at))
    case Looking(profile, began, answer) =>
      && began <= |s.log|
      && (answer.Some? ==> began <= answer.value.at <= |s.log|)
      && (answer.Some? && answer.value.found.Ok? ==>
            answer.value.found.value == Get(Version(Initial(first), s.log, answer.value.at), profile))
  }

  ghost predicate LogOk(first: File, s: System, k: nat)
    requires k < |s.log|
  {
    && Legal(Initial(first), s.log, k)
    && s.log[k].id in s.calls && s.calls[s.log[k].id].Replacing?
    && CommittedIn(s.calls[s.log[k].id].phase) == Some(k)
  }

  ghost predicate Inv(first: File, s: System) {
    && FileOk(first, s)
    && (s.lock.Some? ==> s.lock.value in s.calls && s.calls[s.lock.value].Replacing?)
    && (forall id :: id in s.calls ==> LockOk(s, id))
    && (forall id :: id in s.calls ==> CallOk(first, s, id, s.calls[id]))
    && (forall k :: 0 <= k < |s.log| ==> LogOk(first, s, k))
  }

  lemma ReadIsVersion(first: File, s: System)
    requires FileOk(first, s) && ReadFile(s.file).Ok?
    ensures ReadFile(s.file).value == Version(Initial(first), s.log, |s.log|)
  {
  }

  /** Changing one call that committed nothing and commits nothing keeps the rest of the invariant. */
  lemma OneCallKeepsInv(first: File, s: System, id: nat, c: Call, lock: Option<nat>)
    requires Inv(first, s)
    requires var t := s.(calls := s.calls[id := c], lock := lock);
             && CallOk(first, t, id, c)
             && (forall i :: i in t.calls ==> LockOk(t, i))
             && (lock.Some? ==> lock.value in t.calls && t.calls[lock.value].Replacing?)
    requires id in s.calls && s.calls[id].Replacing? ==>
             c.Replacing? && CommittedIn(c.phase) == CommittedIn(s.calls[id].phase)
    ensures Inv(first, s.(calls := s.calls[id := c], lock := lock))
  {
    var t := s.(calls := s.calls[id := c], lock := lock);
    forall i | i in t.calls ensures CallOk(first, t, i, t.calls[i]) {
      assert i != id ==> CallOk(first, s, i, s.calls[i]);
    }
    forall k | 0 <= k < |t.log| ensures LogOk(first, t, k) {
      assert LogOk(first, s, k);
    }
  }

  lemma BeginKeepsInv(first: File, s: System, id: nat, c: Call)
    requires Inv(first, s) && id !in s.calls && c.began == |s.log|
    requires c.Replacing? ==> c.phase == Called
    requires c.Looking? ==> c.answer == None
    ensures Inv(first, s.(calls := s.calls[id := c]))
  {
    var t := s.(calls := s.calls[id := c]);
    forall i | i in t.calls ensures LockOk(t, i) {
      assert i != id ==> LockOk(s, i);
    }
    OneCallKeepsInv(first, s, id, c, s.lock);
  }

  lemma AcquireKeepsInv(first: File, s: System, id: nat)
    requires Inv(first, s)
    ensures Inv(first, Step(s, Acquire(id)))
  {
    if InPhase(s, id) && s.calls[id].phase.Called? && s.lock.None? {
      var c := s.calls[id].(phase := Locked);
      assert CallOk(first, s, id, s.calls[id]);
      forall i | i in s.calls ensures LockOk(Step(s, Acquire(id)), i) {
        assert LockOk(s, i);
      }
      OneCallKeepsInv(first, s, id, c, Some(id));
    }
  }

  lemma SamePhaseLock(first: File, s: System, id: nat, phase: Phase)
    requires Inv(first, s) && InPhase(s, id) && (Holding(phase) <==> Holding(s.calls[id].phase))
    ensures forall i :: i in s.calls ==> LockOk(At(s, id, phase), i)
  {
    forall i | i in s.calls ensures LockOk(At(s, id, phase), i) {
      assert LockOk(s, i);
    }
  }

  lemma GiveUpKeepsInv(first: File, s: System, id: nat)
    requires Inv(first, s)
    ensures Inv(first, Step(s, GiveUp(id)))
  {
    if InPhase(s, id) && s.calls[id].phase.Called? {
      var phase := Returned(Err(Unavailable), |s.log|);
      assert CallOk(first, s, id, s.calls[id]);
      SamePhaseLock(first, s, id, phase);
      OneCallKeepsInv(first, s, id, s.calls[id].(phase := phase), s.lock);
    }
  }

  lemma ReadKeepsInv(first: File, s: System, id: nat, fails: bool)
    requires Inv(first, s)
    ensures Inv(first, Step(s, Read(id, fails)))
  {
    if InPhase(s, id) && s.calls[id].phase.Locked? {
      assert CallOk(first, s, id, s.calls[id]);
      if ReadFile(s.file).Ok? {
        ReadIsVersion(first, s);
      }
      var phase := DoRead(s, id, fails).calls[id].phase;
      SamePhaseLock(first, s, id, phase);
      OneCallKeepsInv(first, s, id, s.calls[id].(phase := phase), s.lock);
    }
  }

  lemma ReleaseKeepsInv(first: File, s: System, id: nat)
    requires Inv(first, s)
    ensures Inv(first, Step(s, Release(id)))
  {
    if InPhase(s, id) && s.calls[id].phase.Leaving? {
      assert CallOk(first, s, id, s.calls[id]);
      var t := Step(s, Release(id));
      assert LockOk(s, id);
      forall i | i in s.calls ensures LockOk(t, i) {
        assert LockOk(s, i);
      }
      OneCallKeepsInv(first, s, id, t.calls[id], None);
    }
  }

  lemma CrashKeepsInv(first: File, s: System, id: nat)
    requires Inv(first, s)
    ensures Inv(first, Step(s, Crash(id)))
  {
    if InPhase(s, id) && !s.calls[id].phase.Returned? && !s.calls[id].phase.Crashed? {
      assert CallOk(first, s, id, s.calls[id]);
      var t := Step(s, Crash(id));
      assert LockOk(s, id);
      forall i | i in s.calls ensures LockOk(t, i) {
        assert LockOk(s, i);
      }
      OneCallKeepsInv(first, s, id, t.calls[id], t.lock);
    }
  }

  lemma LookKeepsInv(first: File, s: System, id: nat, fails: bool)
    requires Inv(first, s)
    ensures Inv(first, Step(s, Look(id, fails)))
  {
    if id in s.calls && s.calls[id].Looking? && s.calls[id].answer.None? {
      assert CallOk(first, s, id, s.calls[id]);
      if ReadFile(s.file).Ok? {
        ReadIsVersion(first, s);
      }
      var t := Step(s, Look(id, fails));
      forall i | i in t.calls ensures LockOk(t, i) {
        assert LockOk(s, i);
      }
      OneCallKeepsInv(first, s, id, t.calls[id], s.lock);
    }
  }

  lemma OthersSurviveCommit(first: File, s: System, t: System, id: nat, i: nat, commit: Commit)
    requires Inv(first, s) && i in s.calls && i != id && s.lock == Some(id) && t.log == s.log + [commit]
    ensures CallOk(first, t, i, s.calls[i])
  {
    assert CallOk(first, s, i, s.calls[i]) && LockOk(s, i);
    forall k | 0 <= k <= |s.log| ensures Version(Initial(first), t.log, k) == Version(Initial(first), s.log, k) {
      VersionStable(Initial(first), s.log, commit, k);
    }
  }

  lemma OldCommitsSurvive(first: File, s: System, t: System, id: nat, k: nat, commit: Commit)
    requires Inv(first, s) && InPhase(s, id) && CommittedIn(s.calls[id].phase).None?
    requires t.log == s.log + [commit] && k < |s.log| && id in t.calls && t.calls == s.calls[id := t.calls[id]]
    ensures LogOk(first, t, k)
  {
    assert LogOk(first, s, k);
    VersionStable(Initial(first), s.log, commit, k);
  }

  lemma WriteKeepsInv(first: File, s: System, id: nat)
    requires Inv(first, s) && InPhase(s, id) && s.calls[id].phase.Ready?
    ensures Inv(first, DoWrite(s, id, false))
  {
    var c, t := s.calls[id], DoWrite(s, id, false);
    var commit := Commit(id, c.profile, c.expected, c.binding);
    assert CallOk(first, s, id, c) && LockOk(s, id);
    ReadIsVersion(first, s);
    VersionStable(Initial(first), s.log, commit, |s.log|);
    assert t.log == s.log + [commit] && t.log[|s.log|] == commit;
    forall i | i in t.calls ensures LockOk(t, i) && CallOk(first, t, i, t.calls[i]) {
      assert LockOk(s, i);
      if i != id {
        OthersSurviveCommit(first, s, t, id, i, commit);
      }
    }
    forall k | 0 <= k < |t.log| ensures LogOk(first, t, k) {
      if k < |s.log| {
        OldCommitsSurvive(first, s, t, id, k, commit);
      }
    }
  }

  lemma WriteStepKeepsInv(first: File, s: System, id: nat, fails: bool)
    requires Inv(first, s)
    ensures Inv(first, Step(s, Write(id, fails)))
  {
    if InPhase(s, id) && s.calls[id].phase.Ready? {
      if fails {
        var phase := Leaving(Err(Unavailable), |s.log|);
        assert CallOk(first, s, id, s.calls[id]);
        SamePhaseLock(first, s, id, phase);
        OneCallKeepsInv(first, s, id, s.calls[id].(phase := phase), s.lock);
      } else {
        WriteKeepsInv(first, s, id);
      }
    }
  }

  lemma StepKeepsInv(first: File, s: System, a: Action)
    requires Inv(first, s)
    ensures Inv(first, Step(s, a))
  {
    match a
    case BeginReplace(id, profile, binding, expected) =>
      if id !in s.calls {
        BeginKeepsInv(first, s, id, Replacing(profile, binding, expected, |s.log|, Called));
      }
    case Acquire(id) => AcquireKeepsInv(first, s, id);
    case GiveUp(id) => GiveUpKeepsInv(first, s, id);
    case Read(id, fails) => ReadKeepsInv(first, s, id, fails);
    case Write(id, fails) => WriteStepKeepsInv(first, s, id, fails);
    case Release(id) => ReleaseKeepsInv(first, s, id);
    case Crash(id) => CrashKeepsInv(first, s, id);
    case BeginLookup(id, profile) =>
      if id !in s.calls {
        BeginKeepsInv(first, s, id, Looking(profile, |s.log|, None));
      }
    case Look(id, fails) => LookKeepsInv(first, s, id, fails);
  }

  lemma {:induction false} RunKeepsInv(first: File, actions: seq<Action>)
    ensures Inv(first, Run(Start(first), actions))
  {
    if actions != [] {
      var front := actions[..|actions| - 1];
      RunKeepsInv(first, front);
      StepKeepsInv(first, Run(Start(first), front), actions[|actions| - 1]);
    }
  }

  // ---------------------------------------------------------------- linearisability

  /** In every run, the file is what the successful replacements give when applied one at a time in lock order,
      and each of them found the value it expected. */
  lemma SuccessfulReplacementsAreSerial(first: File, actions: seq<Action>)
    ensures var s := Run(Start(first), actions);
            && (s.log == [] ==> s.file == first)
            && (s.log != [] ==> ReadFile(s.file) == Ok(Version(Initial(first), s.log, |s.log|)))
            && forall k :: 0 <= k < |s.log| ==> Legal(Initial(first), s.log, k)
  {
    RunKeepsInv(first, actions);
    var s := Run(Start(first), actions);
    forall k | 0 <= k < |s.log| ensures Legal(Initial(first), s.log, k) {
      assert LogOk(first, s, k);
    }
  }

  /** What each result of `replace` tells its caller, in terms of the commits made between call and return. */
  lemma ResultMeaning(first: File, actions: seq<Action>, id: nat, s: System)
    requires s == Run(Start(first), actions) && InPhase(s, id) && s.calls[id].phase.Returned?
    ensures var c := s.calls[id];
            match c.phase.outcome
            case Ok(b) =>
              && b == c.binding && c.began <= c.phase.at < |s.log|
              && s.log[c.phase.at] == Commit(id, c.profile, c.expected, b)
              && Get(Version(Initial(first), s.log, c.phase.at), c.profile) == c.expected
              && forall k :: 0 <= k < |s.log| && s.log[k].id == id ==> k == c.phase.at
            case Err(e) =>
              && (forall k :: 0 <= k < |s.log| ==> s.log[k].id != id)
              && (e.Changed? ==> c.began <= c.phase.at <= |s.log|
                                 && Get(Version(Initial(first), s.log, c.phase.at), c.profile) != c.expected)
  {
    RunKeepsInv(first, actions);
    var c := s.calls[id];
    assert CallOk(first, s, id, c);
    forall k | 0 <= k < |s.log| && s.log[k].id == id ensures CommittedIn(c.phase) == Some(k) {
      assert LogOk(first, s, k);
    }
    if c.phase.outcome.Ok? {
      assert LogOk(first, s, c.phase.at);
    }
  }

  /** A lookup that answers saw some committed version current between its call and its answer. */
  lemma LookupSeesCommittedVersion(first: File, actions: seq<Action>, id: nat, s: System)
    requires s == Run(Start(first), actions) && id in s.calls && s.calls[id].Looking?
    requires s.calls[id].answer.Some? && s.calls[id].answer.value.found.Ok?
    ensures var c := s.calls[id];
            && c.began <= c.answer.value.at <= |s.log|
            && c.answer.value.found.value == Get(Version(Initial(first), s.log, c.answer.value.at), c.profile)
  {
    RunKeepsInv(first, actions);
    assert CallOk(first, s, id, s.calls[id]);
  }

  /** No update is lost: a profile holds the binding of the last commit that named it. */
  lemma {:induction false} LastCommitWins(initial: Profiles, log: seq<Commit>, k: nat, i: nat)
    requires i < k <= |log| && forall j :: i < j < k ==> log[j].profile != log[i].profile
    ensures Get(Version(initial, log, k), log[i].profile) == Some(log[i].binding)
  {
    if i < k - 1 {
      LastCommitWins(initial, log, k - 1, i);
    }
  }

  /** A profile no commit named is as it was. */
  lemma {:induction false} OthersUntouched(initial: Profiles, log: seq<Commit>, k: nat, profile: Text)
    requires k <= |log| && forall j :: 0 <= j < k ==> log[j].profile != profile
    ensures Get(Version(initial, log, k), profile) == Get(initial, profile)
  {
    if k > 0 {
      OthersUntouched(initial, log, k - 1, profile);
    }
  }

  // ---------------------------------------------------------------- order in real time

  /** Later states extend earlier ones: the log grows, and calls keep their start and their commit. */
  ghost predicate Extends(s: System, t: System) {
    && s.log <= t.log
    && (forall id :: id in s.calls ==> id in t.calls && SameCall(s.calls[id], t.calls[id]))
    && (forall id :: id in t.calls && id !in s.calls ==> |s.log| <= t.calls[id].began)
  }

  ghost predicate SameCall(c: Call, d: Call) {
    && c.Replacing? == d.Replacing? && c.began == d.began && c.profile == d.profile
    && (c.Replacing? ==> c.binding == d.binding && c.expected == d.expected)
    && (c.Replacing? && CommittedIn(c.phase).Some? ==> CommittedIn(d.phase) == CommittedIn(c.phase))
    && (c.Replacing? && c.phase.Returned? ==> d == c)
  }

  lemma OneCallExtends(s: System, id: nat, c: Call, t: System)
    requires t.calls == s.calls[id := c] && s.log <= t.log
    requires id in s.calls ==> SameCall(s.calls[id], c)
    requires id !in s.calls ==> |s.log| <= c.began
    ensures Extends(s, t)
  {
    forall i | i in s.calls && i != id ensures SameCall(s.calls[i], t.calls[i]) {
    }
  }

  /** A step changes at most the call it names. */
  lemma StepTouchesOne(s: System, a: Action, t: System)
    requires t == Step(s, a) && t != s
    ensures a.id in t.calls && t.calls == s.calls[a.id := t.calls[a.id]] && s.log <= t.log
  {
    match a
    case BeginReplace(_, _, _, _) =>
    case Read(_, _) =>
    case Write(_, _) =>
    case Crash(_) =>
    case Look(_, _) =>
    case _ =>
  }

  lemma StepKeepsCall(s: System, a: Action, t: System)
    requires t == Step(s, a) && t != s && a.id in t.calls
    ensures a.id in s.calls ==> SameCall(s.calls[a.id], t.calls[a.id])
    ensures a.id !in s.calls ==> |s.log| <= t.calls[a.id].began
  {
    match a
    case BeginReplace(_, _, _, _) =>
    case Read(_, _) =>
    case Write(_, _) =>
    case Crash(_) =>
    case Look(_, _) =>
    case _ =>
  }

  lemma StepExtends(s: System, a: Action)
    ensures Extends(s, Step(s, a))
  {
    var t := Step(s, a);
    if t != s {
      StepTouchesOne(s, a, t);
      StepKeepsCall(s, a, t);
      OneCallExtends(s, a.id, t.calls[a.id], t);
    }
  }

  lemma ExtendsTransitive(s: System, t: System, u: System)
    requires Extends(s, t) && Extends(t, u)
    ensures Extends(s, u)
  {
    forall id | id in s.calls ensures id in u.calls && SameCall(s.calls[id], u.calls[id]) {
      assert SameCall(s.calls[id], t.calls[id]) && SameCall(t.calls[id], u.calls[id]);
    }
    forall id | id in u.calls && id !in s.calls ensures |s.log| <= u.calls[id].began {
      assert id in t.calls ==> SameCall(t.calls[id], u.calls[id]);
    }
  }

  lemma {:induction false} RunExtends(s: System, actions: seq<Action>)
    ensures Extends(s, Run(s, actions))
  {
    if actions != [] {
      var t := Run(s, actions[..|actions| - 1]);
      RunExtends(s, actions[..|actions| - 1]);
      StepExtends(t, actions[|actions| - 1]);
      ExtendsTransitive(s, t, Run(s, actions));
    }
  }

  lemma {:induction false} RunJoins(s: System, a: seq<Action>, b: seq<Action>)
    ensures Run(s, a + b) == Run(Run(s, a), b)
  {
    if b == [] {
      assert a + b == a;
    } else {
      assert (a + b)[..|a + b| - 1] == a + b[..|b| - 1];
      RunJoins(s, a, b[..|b| - 1]);
    }
  }

  /** The commit order respects real time: a call begun after another committed commits after it. */
  lemma CommitsFollowRealTime(first: File, before: seq<Action>, after: seq<Action>, a: nat, b: nat, s: System,
                              t: System)
    requires s == Run(Start(first), before) && t == Run(Start(first), before + after)
    requires InPhase(s, a) && CommittedIn(s.calls[a].phase).Some?
    requires b !in s.calls && InPhase(t, b) && CommittedIn(t.calls[b].phase).Some?
    ensures InPhase(t, a) && CommittedIn(t.calls[a].phase).Some?
    ensures CommittedIn(t.calls[a].phase).value < CommittedIn(t.calls[b].phase).value
  {
    RunJoins(Start(first), before, after);
    RunExtends(s, after);
    RunKeepsInv(first, before);
    RunKeepsInv(first, before + after);
    assert CallOk(first, s, a, s.calls[a]) && CallOk(first, t, b, t.calls[b]) && SameCall(s.calls[a], t.calls[a]);
  }

  // ---------------------------------------------------------------- taking the lock

  const LOCK_WAIT: nat := 2000
  const LOCK_RETRY: nat := 10

  datatype TryLock = Acquired | WouldBlock | Broken

  /** Successive clock readings in milliseconds: the clock does not go back, and a sleep after reading `2k + 2` lasts.
      */
  ghost predicate Ticks(clock: nat -> nat, deadline: nat) {
    forall k: nat :: clock(2 * k + 1) <= clock(2 * k + 2) && LaterAfterSleep(clock, deadline, k)
  }

  ghost predicate LaterAfterSleep(clock: nat -> nat, deadline: nat, k: nat) {
    clock(2 * k + 2) < deadline ==> clock(2 * k + 3) >= clock(2 * k + 2) + Min(LOCK_RETRY, deadline - clock(2 * k + 2))
  }

  /** `BindingLock::acquire` on an open lock file: it ends within 200 tries and gives up only on an error or a passed
      deadline. */
  method AcquireLock(clock: nat -> nat, attempt: nat -> TryLock) returns (held: bool, tries: nat)
    requires clock(0) <= clock(1) && Ticks(clock, clock(0) + LOCK_WAIT)
    ensures tries <= LOCK_WAIT / LOCK_RETRY
    ensures forall j :: 0 <= j < tries - 1 ==> attempt(j).WouldBlock?
    ensures held ==> tries >= 1 && attempt(tries - 1).Acquired? && clock(2 * tries - 1) < clock(0) + LOCK_WAIT
    ensures !held ==> || (tries >= 1 && attempt(tries - 1).Broken?)
                      || (tries >= 1 && attempt(tries - 1).WouldBlock? && clock(2 * tries) >= clock(0) + LOCK_WAIT)
                      || ((tries >= 1 ==> attempt(tries - 1).WouldBlock?)
                           && clock(2 * tries + 1) >= clock(0) + LOCK_WAIT)
  {
    var deadline := clock(0) + LOCK_WAIT;
    tries := 0;
    while clock(2 * tries + 1) < deadline
      invariant clock(2 * tries + 1) < deadline ==> clock(2 * tries + 1) >= clock(0) + LOCK_RETRY * tries
      invariant tries <= LOCK_WAIT / LOCK_RETRY
      invariant forall j :: 0 <= j < tries ==> attempt(j).WouldBlock?
      decreases LOCK_WAIT / LOCK_RETRY - tries
    {
      var k := tries;
      tries := tries + 1;
      if attempt(k).Acquired? {
        return true, tries;
      }
      if attempt(k).Broken? || clock(2 * k + 2) >= deadline {
        return false, tries;
      }
      assert clock(2 * k + 1) <= clock(2 * k + 2) && LaterAfterSleep(clock, deadline, k);
      assert 2 * tries + 1 == 2 * k + 3;
    }
    held := false;
  }

  // ---------------------------------------------------------------- one call

  /** The file, and `replace` as one process sees it while it holds the lock. */
  class BindingStore {
    var file: File

    constructor (initial: File)
      ensures file == initial
    {
      file := initial;
    }

    /** `locked`, `readFails` and `writeFails` are what the operating system answers. */
    method Replace(profile: Text, binding: Binding, expected: Option<Binding>, locked: bool, readFails: bool,
                   writeFails: bool)
      returns (r: Result<Binding, BindingError>)
      modifies this
      ensures r.Ok? ==>
              r.value == binding && ReadFile(old(file)).Ok?
                  && ReadFile(file) == Ok(ReadFile(old(file)).value[profile := binding])
      ensures r.Err? ==> file == old(file)
      ensures r.Ok? <==> && locked && !readFails && !writeFails
                         && ReadFile(old(file)).Ok? && Get(ReadFile(old(file)).value, profile) == expected
      ensures r == Err(Changed) <==> && locked && !readFails
                                     && ReadFile(old(file)).Ok? && Get(ReadFile(old(file)).value, profile) != expected
    {
      if !locked {
        return Err(Unavailable);
      }
      var read := if readFails then Err(Unavailable) else ReadFile(file);
      if read.Err? {
        return Err(Unavailable);
      }
      if Get(read.value, profile) != expected {
        return Err(Changed);
      }
      if writeFails {
        return Err(Unavailable);
      }
      file := Present(BINDINGS_VERSION, read.value[profile := binding]);
      return Ok(binding);
    }

    method Lookup(profile: Text, fingerprint: Text, readFails: bool) returns (r: Result<BindingLookup, BindingError>)
      ensures r.Err? <==> readFails || ReadFile(file).Err?
      ensures r.Ok? && r.value.Missing? ==> profile !in ReadFile(file).value
      ensures r.Ok? && !r.value.Missing? ==> Get(ReadFile(file).value, profile) == Some(r.value.binding)
      ensures r.Ok? && !r.value.Missing? ==> (r.value.Matches? <==> r.value.binding.fingerprint == fingerprint)
    {
      var read := if readFails then Err(Unavailable) else ReadFile(file);
      if read.Err? {
        return Err(Unavailable);
      }
      return Ok(Judge(Get(read.value, profile), fingerprint));
    }
  }
}
