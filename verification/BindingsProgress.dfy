/** No replacement of a credential binding gets stuck, and each ends as the file says. */
module BindingsProgress {
  import opened Prelude
  import opened CredentialBindings

  lemma {:induction false} RunJoins(s: System, a: seq<Action>, b: seq<Action>)
    ensures Run(s, a + b) == Run(Run(s, a), b)
  {
    if b == [] {
      assert a + b == a;
    } else {
      var front := b[..|b| - 1];
      assert (a + b)[..|a + b| - 1] == a + front;
      RunJoins(s, a, front);
    }
  }

  lemma RunOne(s: System, a: Action)
    ensures Run(s, [a]) == Step(s, a)
  {
    assert [a][..0] == [];
    assert Run(s, []) == s;
  }

  lemma RunFirst(s: System, a: Action, rest: seq<Action>)
    ensures Run(s, [a] + rest) == Run(Step(s, a), rest)
  {
    RunJoins(s, [a], rest);
    RunOne(s, a);
  }

  /** Steps of this call in which nothing fails. */
  predicate OwnStep(a: Action, id: nat) {
    a == Acquire(id) || a == Read(id, false) || a == Write(id, false) || a == Release(id)
  }

  predicate OwnSteps(actions: seq<Action>, id: nat) {
    forall i :: 0 <= i < |actions| ==> OwnStep(actions[i], id)
  }

  lemma OwnStepsMore(a: Action, rest: seq<Action>, id: nat)
    requires OwnStep(a, id) && OwnSteps(rest, id)
    ensures OwnSteps([a] + rest, id)
  {
  }

  /** What one replacement does to a readable file that holds what it expects, and what it reports otherwise. */
  ghost predicate Ends(s: System, id: nat, e: System) {
    && InPhase(s, id) && InPhase(e, id) && e.calls[id].phase.Returned? && e.lock == None
    && var c := s.calls[id];
       var outcome := e.calls[id].phase.outcome;
       match ReadFile(s.file)
       case Err(_) => outcome == Err(Unavailable) && e.file == s.file && e.log == s.log
       case Ok(profiles) =>
         if (if c.profile in profiles then Some(profiles[c.profile]) else None) == c.expected then
           && outcome == Ok(c.binding) && e.file == Present(1, profiles[c.profile := c.binding])
           && e.log == s.log + [Commit(id, c.profile, c.expected, c.binding)]
         else outcome == Err(Changed) && e.file == s.file && e.log == s.log
  }

  /** The other calls are where they were. */
  ghost predicate OnlyMoves(s: System, id: nat, e: System) {
    e.calls.Keys == s.calls.Keys && forall i :: i in s.calls && i != id ==> e.calls[i] == s.calls[i]
  }

  lemma ReleaseEnds(s: System, id: nat) returns (e: System)
    requires InPhase(s, id) && s.calls[id].phase.Leaving?
    ensures e == Step(s, Release(id)) && e.file == s.file && e.log == s.log && e.lock == None && OnlyMoves(s, id, e)
    ensures InPhase(e, id) && e.calls[id].phase == Returned(s.calls[id].phase.outcome, s.calls[id].phase.at)
  {
    e := Step(s, Release(id));
  }

  /** A call that has the lock and has read the file can be brought to its end. */
  lemma ReadyEnds(first: File, s: System, id: nat) returns (actions: seq<Action>, e: System)
    requires Inv(first, s) && InPhase(s, id) && s.calls[id].phase.Ready?
    ensures e == Run(s, actions) && OwnSteps(actions, id) && Ends(s, id, e) && OnlyMoves(s, id, e)
  {
    assert CallOk(first, s, id, s.calls[id]);
    var n := Step(s, Write(id, false));
    e := ReleaseEnds(n, id);
    RunFirst(s, Write(id, false), [Release(id)]);
    RunOne(n, Release(id));
    actions := [Write(id, false)] + [Release(id)];
  }

  lemma LockedEnds(first: File, s: System, id: nat) returns (actions: seq<Action>, e: System)
    requires Inv(first, s) && InPhase(s, id) && s.calls[id].phase.Locked?
    ensures e == Run(s, actions) && OwnSteps(actions, id) && Ends(s, id, e) && OnlyMoves(s, id, e)
  {
    var n := Step(s, Read(id, false));
    var rest;
    if n.calls[id].phase.Ready? {
      StepKeepsInv(first, s, Read(id, false));
      rest, e := ReadyEnds(first, n, id);
    } else {
      e := ReleaseEnds(n, id);
      rest := [Release(id)];
      RunOne(n, Release(id));
    }
    RunFirst(s, Read(id, false), rest);
    OwnStepsMore(Read(id, false), rest, id);
    actions := [Read(id, false)] + rest;
  }

  /** A waiting call that finds the lock free ends by its own steps, with the outcome the file decides. */
  lemma FreeCallEnds(first: File, s: System, id: nat) returns (actions: seq<Action>, e: System)
    requires Inv(first, s) && InPhase(s, id) && s.calls[id].phase.Called? && s.lock == None
    ensures e == Run(s, actions) && OwnSteps(actions, id) && Ends(s, id, e) && OnlyMoves(s, id, e)
  {
    var n := Step(s, Acquire(id));
    StepKeepsInv(first, s, Acquire(id));
    var rest;
    rest, e := LockedEnds(first, n, id);
    RunFirst(s, Acquire(id), rest);
    OwnStepsMore(Acquire(id), rest, id);
    actions := [Acquire(id)] + rest;
  }

  /** Whoever holds the lock can let go of it. */
  lemma HolderLeaves(first: File, s: System, id: nat) returns (actions: seq<Action>, e: System)
    requires Inv(first, s) && s.lock == Some(id)
    ensures e == Run(s, actions) && OwnSteps(actions, id) && e.lock == None && OnlyMoves(s, id, e)
    ensures InPhase(e, id) && e.calls[id].phase.Returned?
  {
    assert LockOk(s, id);
    match s.calls[id].phase
    case Locked => actions, e := LockedEnds(first, s, id);
    case Ready(_) => actions, e := ReadyEnds(first, s, id);
    case Leaving(_, _) =>
      e := ReleaseEnds(s, id);
      actions := [Release(id)];
      RunOne(s, Release(id));
  }

  lemma {:induction false} RunKeepsInvFrom(first: File, s: System, actions: seq<Action>)
    requires Inv(first, s)
    ensures Inv(first, Run(s, actions))
  {
    if actions != [] {
      RunKeepsInvFrom(first, s, actions[..|actions| - 1]);
      StepKeepsInv(first, Run(s, actions[..|actions| - 1]), actions[|actions| - 1]);
    }
  }

  /** Every replacement that has not crashed or returned can be brought to its return without a failure, by steps of its
      own after whoever holds the lock let go; `free` is the state in which it takes or has the lock. */
  lemma ReplacementCanReturn(first: File, s: System, id: nat)
    returns (actions: seq<Action>, free: System, e: System)
    requires Inv(first, s) && InPhase(s, id) && (s.calls[id].phase.Called? || Holding(s.calls[id].phase))
    ensures e == Run(s, actions) && Inv(first, e) && InPhase(e, id) && e.calls[id].phase.Returned? && e.lock == None
    ensures s.calls[id].phase.Called? ==> free.lock == None && OnlyMoves(free, id, e) && Ends(free, id, e)
    ensures InPhase(free, id) && free.calls[id] == s.calls[id] && (s.lock == None ==> free == s)
    ensures exists n :: 0 <= n <= |actions| && free == Run(s, actions[..n])
  {
    free := s;
    if Holding(s.calls[id].phase) {
      assert LockOk(s, id);
      actions, e := HolderLeaves(first, s, id);
      assert free == Run(s, actions[..0]);
    } else if s.lock == None {
      actions, e := FreeCallEnds(first, s, id);
      assert free == Run(s, actions[..0]);
    } else {
      var holder := s.lock.value;
      assert LockOk(s, holder);
      var before, rest;
      before, free := HolderLeaves(first, s, holder);
      RunKeepsInvFrom(first, s, before);
      rest, e := FreeCallEnds(first, free, id);
      RunJoins(s, before, rest);
      actions := before + rest;
      assert actions[..|before|] == before;
    }
    RunKeepsInvFrom(first, s, actions);
  }

  /** An undisturbed lookup answers with what the file holds. */
  lemma LookupAnswers(s: System, id: nat)
    requires id in s.calls && s.calls[id].Looking? && s.calls[id].answer.None?
    ensures var e := Step(s, Look(id, false));
      && e.file == s.file && e.log == s.log && e.lock == s.lock && OnlyMoves(s, id, e)
      && e.calls[id].Looking? && e.calls[id].answer.Some?
      && e.calls[id].answer.value.found ==
           match ReadFile(s.file)
           case Err(_) => Err(Unavailable)
           case Ok(profiles) =>
             var profile := s.calls[id].profile;
             Ok(if profile in profiles then Some(profiles[profile]) else None)
  {
  }
}
