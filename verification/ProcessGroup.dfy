/** Stopping an owned process group from several threads without ever signalling a reused group id. */
module ProcessGroup {
  import opened Prelude

  /** The leader's process id is also its group id; the kernel reserves it until the leader is reaped. */
  datatype Leader = Running | Zombie | Reaped

  datatype Signal = SigTerm | SigKill

  /** A signal, with what held when it was sent; `generation` 0 is the owned group, later ones reuse its id. */
  datatype Sent = Sent(signal: Signal, thread: nat, leader: Leader, generation: nat)

  /** Where a thread is in `stop_process_group`, from waiting for `_stop_lock` on. */
  datatype Point =
    | Waiting
    | CheckCode
    | CheckExit
    | CheckGroup
    | Terminate
    | Grace
    | Kill
    | Reap
    | StoreCode
    | Observe
    | Unlock(stopped: bool)
    | Finished(stopped: bool)

  datatype System = System(
    leader: Leader, returncode: bool, stopLock: Option<nat>, threads: map<nat, Point>, generation: nat, sent: seq<Sent>)

  /** `Advance` moves a thread by one step; `fails` says that the call made there raises, `again` that a loop goes
      round. */
  datatype Action =
    | Enter(id: nat)
    | Advance(id: nat, fails: bool, again: bool)
    | LeaderExits
    | ReuseGroupId

  function To(s: System, id: nat, p: Point): System {
    s.(threads := s.threads[id := p])
  }

  /** `killpg` reaches whatever group has the id now; a denied signal may raise. */
  function Send(s: System, id: nat, signal: Signal): System {
    s.(sent := s.sent + [Sent(signal, id, s.leader, s.generation)])
  }

  /** One step of a thread that holds the lock or is about to. */
  function Move(s: System, id: nat, p: Point, fails: bool, again: bool): System {
    match p
    case Waiting => if s.stopLock.None? then To(s, id, CheckCode).(stopLock := Some(id)) else s
    case CheckCode => if s.returncode then To(s, id, Observe) else To(s, id, CheckExit)
    case CheckExit =>
      if fails || s.leader.Reaped? then To(s, id, Unlock(false))
      else if s.leader.Zombie? then To(s, id, Terminate) else To(s, id, CheckGroup)
    case CheckGroup => if fails then To(s, id, Unlock(false)) else To(s, id, Terminate)
    case Terminate => To(Send(s, id, SigTerm), id, if fails then Unlock(false) else Grace)
    case Grace =>
      if fails || s.leader.Reaped? then To(s, id, Unlock(false))
      else if s.leader.Running? && again then s else To(s, id, Kill)
    case Kill => To(Send(s, id, SigKill), id, if fails then Unlock(false) else Reap)
    case Reap => if fails then To(s, id, Unlock(false)) else if s.leader.Running?
        then s else To(s, id, StoreCode).(leader := Reaped)
    case StoreCode => To(s, id, Observe).(returncode := true)
    case Observe => if again then s else To(s, id, Unlock(!fails))
    case Unlock(stopped) => To(s, id, Finished(stopped)).(stopLock := None)
    case Finished(stopped) => s
  }

  function Step(s: System, a: Action): System {
    match a
    case Enter(id) => if id in s.threads && !s.threads[id].Finished? then s else To(s, id, Waiting)
    case Advance(id, fails, again) => if id in s.threads then Move(s, id, s.threads[id], fails, again) else s
    case LeaderExits => if s.leader.Running? then s.(leader := Zombie) else s
    case ReuseGroupId => if s.leader.Reaped? then s.(generation := s.generation + 1) else s
  }

  function Run(s: System, actions: seq<Action>): System {
    if actions == [] then s else Step(Run(s, actions[..|actions| - 1]), actions[|actions| - 1])
  }

  const STARTED: System := System(Running, false, None, map[], 0, [])

  // ---------------------------------------------------------------- the invariant

  predicate Inside(p: Point) {
    !p.Waiting? && !p.Finished?
  }

  /** The points before the reaping, where signals may still follow. */
  predicate BeforeReaping(p: Point) {
    p.CheckExit? || p.CheckGroup? || p.Terminate? || p.Grace? || p.Kill? || p.Reap?
  }

  ghost predicate ThreadOk(s: System, id: nat, p: Point) {
    && (Inside(p) <==> s.stopLock == Some(id))
    && (BeforeReaping(p) ==> !s.leader.Reaped? && !s.returncode)
    && (p.StoreCode? ==> s.leader.Reaped? && !s.returncode)
    && (p.Observe? || p == Unlock(true) || p == Finished(true) ==> s.returncode)
  }

  ghost predicate SentOk(x: Sent) {
    !x.leader.Reaped? && x.generation == 0
  }

  ghost predicate Inv(s: System) {
    && (s.returncode ==> s.leader.Reaped?)
    && (s.leader.Reaped? && !s.returncode ==>
         s.stopLock.Some? && s.stopLock.value in s.threads && s.threads[s.stopLock.value].StoreCode?)
    && (s.stopLock.Some? ==> s.stopLock.value in s.threads)
    && (s.generation > 0 ==> s.leader.Reaped?)
    && (forall id :: id in s.threads ==> ThreadOk(s, id, s.threads[id]))
    && (forall i :: 0 <= i < |s.sent| ==> SentOk(s.sent[i]))
  }

  /** A step that changes one thread's point and neither the leader nor the return code. */
  lemma PointChanges(s: System, id: nat, p: Point, lock: Option<nat>)
    requires Inv(s) && (id in s.threads ==> !s.threads[id].StoreCode?)
    requires lock == if Inside(p) then Some(id) else if s.stopLock == Some(id) then None else s.stopLock
    requires s.stopLock == None || s.stopLock == Some(id)
             || (!Inside(p) && (id in s.threads ==> !Inside(s.threads[id])))
    requires ThreadOk(To(s, id, p).(stopLock := lock), id, p)
    ensures Inv(To(s, id, p).(stopLock := lock))
  {
    var t := To(s, id, p).(stopLock := lock);
    forall i | i in t.threads ensures ThreadOk(t, i, t.threads[i]) {
      assert i != id ==> ThreadOk(s, i, s.threads[i]);
    }
  }

  lemma MoveKeepsInv(s: System, id: nat, p: Point, fails: bool, again: bool)
    requires Inv(s) && id in s.threads && s.threads[id] == p
    requires !p.Terminate? && !p.Kill? && !p.Reap? && !p.StoreCode?
    ensures Inv(Move(s, id, p, fails, again))
  {
    assert ThreadOk(s, id, p);
    var t := Move(s, id, p, fails, again);
    PointChanges(s, id, t.threads[id], t.stopLock);
    assert t == To(s, id, t.threads[id]).(stopLock := t.stopLock);
  }

  lemma SendKeepsInv(s: System, id: nat, signal: Signal)
    requires Inv(s) && id in s.threads && BeforeReaping(s.threads[id])
    ensures Inv(Send(s, id, signal))
  {
    var t := Send(s, id, signal);
    assert ThreadOk(s, id, s.threads[id]);
    forall i | i in t.threads ensures ThreadOk(t, i, t.threads[i]) {
      assert ThreadOk(s, i, s.threads[i]);
    }
  }

  lemma SignalKeepsInv(s: System, id: nat, p: Point, fails: bool, again: bool)
    requires Inv(s) && id in s.threads && s.threads[id] == p && (p.Terminate? || p.Kill?)
    ensures Inv(Move(s, id, p, fails, again))
  {
    assert ThreadOk(s, id, p);
    var signal := if p.Terminate? then SigTerm else SigKill;
    SendKeepsInv(s, id, signal);
    var t := Move(s, id, p, fails, again);
    PointChanges(Send(s, id, signal), id, t.threads[id], s.stopLock);
  }

  lemma ReapKeepsInv(s: System, id: nat, p: Point, fails: bool, again: bool)
    requires Inv(s) && id in s.threads && s.threads[id] == p && (p.Reap? || p.StoreCode?)
    ensures Inv(Move(s, id, p, fails, again))
  {
    assert ThreadOk(s, id, p);
    var t := Move(s, id, p, fails, again);
    forall i | i in t.threads ensures ThreadOk(t, i, t.threads[i]) {
      assert ThreadOk(s, i, s.threads[i]);
    }
  }

  lemma OutsideKeepsInv(s: System, a: Action)
    requires Inv(s) && !a.Advance?
    ensures Inv(Step(s, a))
  {
    var t := Step(s, a);
    forall i | i in t.threads ensures ThreadOk(t, i, t.threads[i]) {
      assert i in s.threads ==> ThreadOk(s, i, s.threads[i]);
    }
  }

  lemma StepKeepsInv(s: System, a: Action)
    requires Inv(s)
    ensures Inv(Step(s, a))
  {
    if !a.Advance? {
      OutsideKeepsInv(s, a);
    } else if a.id in s.threads {
      var p := s.threads[a.id];
      if p.Terminate? || p.Kill? {
        SignalKeepsInv(s, a.id, p, a.fails, a.again);
      } else if p.Reap? || p.StoreCode? {
        ReapKeepsInv(s, a.id, p, a.fails, a.again);
      } else {
        MoveKeepsInv(s, a.id, p, a.fails, a.again);
      }
    }
  }

  lemma {:induction false} RunKeepsInv(actions: seq<Action>)
    ensures Inv(Run(STARTED, actions))
  {
    if actions != [] {
      RunKeepsInv(actions[..|actions| - 1]);
      StepKeepsInv(Run(STARTED, actions[..|actions| - 1]), actions[|actions| - 1]);
    }
  }

  // ---------------------------------------------------------------- results

  /** Whatever the threads and the kernel do, no signal is sent after the leader was reaped, so none reaches a reused
      group id. */
  lemma SignalsReachOnlyTheOwnedGroup(actions: seq<Action>, i: nat)
    requires i < |Run(STARTED, actions).sent|
    ensures !Run(STARTED, actions).sent[i].leader.Reaped? && Run(STARTED, actions).sent[i].generation == 0
  {
    RunKeepsInv(actions);
    assert SentOk(Run(STARTED, actions).sent[i]);
  }

  /** A stop that returns normally leaves the leader reaped and its return code stored. */
  lemma StoppedMeansReaped(actions: seq<Action>, id: nat)
    requires id in Run(STARTED, actions).threads && Run(STARTED, actions).threads[id] == Finished(true)
    ensures Run(STARTED, actions).leader == Reaped && Run(STARTED, actions).returncode
  {
    RunKeepsInv(actions);
    assert ThreadOk(Run(STARTED, actions), id, Finished(true));
  }

  lemma StepAfterReaping(s: System, a: Action)
    requires Inv(s) && s.leader.Reaped?
    ensures Step(s, a).leader.Reaped? && Step(s, a).sent == s.sent
  {
    if a.Advance? && a.id in s.threads {
      assert ThreadOk(s, a.id, s.threads[a.id]);
    }
  }

  /** Once the leader is reaped nothing more is sent, however often and by whomever a stop is tried again. */
  lemma {:induction false} NoSignalAfterReaping(before: seq<Action>, after: seq<Action>)
    requires Run(STARTED, before).leader.Reaped?
    ensures Run(STARTED, before + after).leader.Reaped?
    ensures Run(STARTED, before + after).sent == Run(STARTED, before).sent
  {
    if after == [] {
      assert before + after == before;
    } else {
      var front := after[..|after| - 1];
      NoSignalAfterReaping(before, front);
      RunKeepsInv(before + front);
      assert (before + after)[..|before + after| - 1] == before + front;
      StepAfterReaping(Run(STARTED, before + front), after[|after| - 1]);
    }
  }

  ghost predicate SentBy(s: System, signal: Signal, id: nat, end: nat) {
    exists i :: 0 <= i < end <= |s.sent| && s.sent[i].signal == signal && s.sent[i].thread == id
  }

  /** Thread `id` sent SIGTERM and later SIGKILL. */
  ghost predicate SentBoth(s: System, id: nat) {
    exists j :: 0 <= j < |s.sent| && s.sent[j].signal == SigKill && s.sent[j].thread == id && SentBy(s, SigTerm, id, j)
  }

  /** What each point proves about the signals already sent. */
  ghost predicate Warned(s: System, id: nat, p: Point) {
    && (p.Grace? || p.Kill? ==> SentBy(s, SigTerm, id, |s.sent|))
    && (p.Reap? || p.StoreCode? ==> SentBoth(s, id))
  }

  ghost predicate AllWarned(s: System) {
    && (forall id :: id in s.threads ==> Warned(s, id, s.threads[id]))
    && (s.leader.Reaped? ==> exists id :: SentBoth(s, id))
  }

  lemma SentStays(s: System, t: System, i: nat)
    requires s.sent <= t.sent
    ensures forall signal :: SentBy(s, signal, i, |s.sent|) ==>
            SentBy(t, signal, i, |s.sent|) && SentBy(t, signal, i, |t.sent|)
    ensures SentBoth(s, i) ==> SentBoth(t, i)
  {
    forall signal | SentBy(s, signal, i, |s.sent|) ensures SentBy(t, signal, i, |s.sent|)
        && SentBy(t, signal, i, |t.sent|) {
      var k :| 0 <= k < |s.sent| && s.sent[k].signal == signal && s.sent[k].thread == i;
      assert t.sent[k] == s.sent[k];
    }
    if SentBoth(s, i) {
      var j :| 0 <= j < |s.sent| && s.sent[j].signal == SigKill && s.sent[j].thread == i && SentBy(s, SigTerm, i, j);
      var k :| 0 <= k < j && s.sent[k].signal == SigTerm && s.sent[k].thread == i;
      assert t.sent[j] == s.sent[j] && t.sent[k] == s.sent[k];
      assert SentBy(t, SigTerm, i, j);
    }
  }

  lemma KillCompletes(s: System, id: nat)
    requires SentBy(s, SigTerm, id, |s.sent|)
    ensures SentBoth(Send(s, id, SigKill), id)
  {
    var t := Send(s, id, SigKill);
    SentStays(s, t, id);
    assert t.sent[|s.sent|] == Sent(SigKill, id, s.leader, s.generation);
  }

  lemma MoveAppends(s: System, id: nat, p: Point, fails: bool, again: bool)
    ensures s.sent <= Move(s, id, p, fails, again).sent
  {
    match p
    case Terminate => assert Move(s, id, p, fails, again).sent == Send(s, id, SigTerm).sent;
    case Kill => assert Move(s, id, p, fails, again).sent == Send(s, id, SigKill).sent;
    case _ => assert Move(s, id, p, fails, again).sent == s.sent;
  }

  /** What was sent stays sent. */
  lemma StepAppends(s: System, a: Action)
    ensures s.sent <= Step(s, a).sent
  {
    match a
    case Advance(id, fails, again) =>
      if id in s.threads {
        MoveAppends(s, id, s.threads[id], fails, again);
      }
    case _ => assert Step(s, a).sent == s.sent;
  }

  lemma MoveMovesOne(s: System, id: nat, p: Point, fails: bool, again: bool)
    requires id in s.threads
    ensures var t := Move(s, id, p, fails, again); id in t.threads && t.threads == s.threads[id := t.threads[id]]
  {
    match p
    case Waiting =>
    case CheckExit =>
    case Grace =>
    case Reap =>
    case Observe =>
    case Finished(_) =>
    case _ =>
  }

  /** A step moves one thread. */
  lemma StepMovesOne(s: System, a: Action, i: nat)
    requires i in Step(s, a).threads && !(a.Advance? && a.id == i)
    ensures Step(s, a).threads[i] == Waiting || (i in s.threads && Step(s, a).threads[i] == s.threads[i])
  {
    match a
    case Advance(id, fails, again) =>
      if id in s.threads {
        MoveMovesOne(s, id, s.threads[id], fails, again);
      }
    case Enter(id) =>
    case LeaderExits =>
    case ReuseGroupId =>
  }

  lemma StepReapsFrom(s: System, a: Action)
    requires Step(s, a).leader.Reaped? && !s.leader.Reaped?
    ensures a.Advance? && a.id in s.threads && s.threads[a.id].Reap?
  {
  }

  lemma ThreadIsWarned(s: System, a: Action, t: System, i: nat)
    requires AllWarned(s) && t == Step(s, a) && i in t.threads
    ensures Warned(t, i, t.threads[i])
  {
    if a.Advance? && a.id == i {
      if i in s.threads {
        assert Warned(s, i, s.threads[i]);
        MoverIsWarned(s, a);
      }
    } else {
      StepMovesOne(s, a, i);
      StepAppends(s, a);
      if !t.threads[i].Waiting? {
        assert Warned(s, i, s.threads[i]);
        SentStays(s, t, i);
      }
    }
  }

  lemma ReapingIsWarned(s: System, a: Action, t: System)
    requires AllWarned(s) && t == Step(s, a) && t.leader.Reaped?
    ensures exists id :: SentBoth(t, id)
  {
    StepAppends(s, a);
    if s.leader.Reaped? {
      var id :| SentBoth(s, id);
      SentStays(s, t, id);
    } else {
      StepReapsFrom(s, a);
      assert Warned(s, a.id, s.threads[a.id]);
      SentStays(s, t, a.id);
    }
  }

  lemma StepKeepsWarned(s: System, a: Action, t: System)
    requires AllWarned(s) && t == Step(s, a)
    ensures AllWarned(t)
  {
    forall i | i in t.threads ensures Warned(t, i, t.threads[i]) {
      ThreadIsWarned(s, a, t, i);
    }
    if t.leader.Reaped? {
      ReapingIsWarned(s, a, t);
    }
  }

  lemma MoverIsWarned(s: System, a: Action)
    requires a.Advance? && a.id in s.threads && Warned(s, a.id, s.threads[a.id])
    ensures Warned(Step(s, a), a.id, Step(s, a).threads[a.id])
  {
    var p := s.threads[a.id];
    if p.Terminate? {
      assert Step(s, a).sent[|s.sent|].thread == a.id;
    } else if p.Kill? {
      KillCompletes(s, a.id);
      SentStays(Send(s, a.id, SigKill), Step(s, a), a.id);
    } else {
      SentStays(s, Step(s, a), a.id);
    }
  }

  lemma {:induction false} RunKeepsWarned(actions: seq<Action>)
    ensures AllWarned(Run(STARTED, actions))
  {
    if actions != [] {
      RunKeepsWarned(actions[..|actions| - 1]);
      StepKeepsWarned(Run(STARTED, actions[..|actions| - 1]), actions[|actions| - 1], Run(STARTED, actions));
    }
  }

  /** The leader is reaped only after some one thread had sent SIGTERM and then SIGKILL to the group. */
  lemma ReapedOnlyAfterBothSignals(actions: seq<Action>)
    requires Run(STARTED, actions).leader.Reaped?
    ensures exists id :: SentBoth(Run(STARTED, actions), id)
  {
    RunKeepsWarned(actions);
  }

  /** At most one thread is between taking and releasing the lock. */
  lemma OneStopAtATime(actions: seq<Action>, a: nat, b: nat)
    requires var t := Run(STARTED, actions).threads; a in t && b in t && Inside(t[a]) && Inside(t[b])
    ensures a == b
  {
    RunKeepsInv(actions);
    var s := Run(STARTED, actions);
    assert ThreadOk(s, a, s.threads[a]) && ThreadOk(s, b, s.threads[b]);
  }

  // ---------------------------------------------------------------- the bounded log

  /** The capped copy of the child's output that the drain thread writes. */
  class BoundedLog {
    const max: nat
    var written: seq<char>
    var limited: bool
    ghost var output: seq<char>

    ghost predicate Valid()
      reads this
    {
      && written == output[..Min(max, |output|)]
      && (limited <==> |output| > max)
    }

    constructor (max: nat)
      ensures Valid() && output == [] && this.max == max
    {
      this.max := max;
      written, limited, output := [], false, [];
    }

    /** One chunk of `_drain`; a limited log leads to a stop. */
    method Drain(chunk: seq<char>) returns (stop: bool)
      requires Valid()
      modifies this
      ensures Valid() && output == old(output) + chunk
      ensures stop <==> |output| > max
      ensures |written| <= max
    {
      var available := max - |written|;
      if |chunk| > available {
        written := written + chunk[..available];
        limited := true;
      } else {
        written := written + chunk;
      }
      output := output + chunk;
      stop := limited;
    }
  }
}
