/** A stop of an owned process group can always be carried through. */
module ProcessProgress {
  import opened Prelude
  import opened ProcessGroup

  lemma {:induction false} RunJoins(s: System, a: seq<Action>, b: seq<Action>)
    ensures Run(s, a + b) == Run(Run(s, a), b)
  {
    if b == [] {
      assert a + b == a;
    } else {
      var front := b[..|b| - 1];
      assert (a + b)[..|a + b| - 1] == a + front;
      RunJoins(s, a, front);
    }
  }

  lemma RunOne(s: System, a: Action)
    ensures Run(s, [a]) == Step(s, a)
  {
    assert [a][..0] == [];
    assert Run(s, []) == s;
  }

  lemma RunFirst(s: System, a: Action, rest: seq<Action>)
    ensures Run(s, [a] + rest) == Run(Step(s, a), rest)
  {
    RunJoins(s, [a], rest);
    RunOne(s, a);
  }

  /** A step of the thread in which nothing fails and no loop goes round, or the exit of the leader. */
  predicate Smooth(a: Action, id: nat) {
    a == LeaderExits || a == Advance(id, false, false)
  }

  predicate AllSmooth(actions: seq<Action>, id: nat) {
    forall i :: 0 <= i < |actions| ==> Smooth(actions[i], id)
  }

  function StepsLeft(p: Point): nat {
    match p
    case Waiting => 11
    case CheckCode => 10
    case CheckExit => 9
    case CheckGroup => 8
    case Terminate => 7
    case Grace => 6
    case Kill => 5
    case Reap => 4
    case StoreCode => 3
    case Observe => 2
    case Unlock(_) => 1
    case Finished(_) => 0
  }

  /** The thread has the lock, or waits for it and it is free. */
  predicate MayGo(s: System, id: nat) {
    id in s.threads && (if s.threads[id].Waiting? then s.stopLock == None else Inside(s.threads[id]))
  }

  /** How the stop ends, unless it has already failed: with a normal return. */
  function EndOf(p: Point): Point {
    if p == Unlock(false) then Finished(false) else Finished(true)
  }

  /** One smooth step takes the thread nearer its end. */
  lemma StepGains(s: System, id: nat, n: System)
    requires Inv(s) && MayGo(s, id) && (s.threads[id].Reap? ==> !s.leader.Running?)
    requires n == Step(s, Advance(id, false, false))
    ensures id in n.threads && n.threads == s.threads[id := n.threads[id]]
    ensures StepsLeft(n.threads[id]) < StepsLeft(s.threads[id])
    ensures n.threads[id].Finished? ==> n.threads[id] == EndOf(s.threads[id]) && n.stopLock == None
    ensures !n.threads[id].Finished? ==> MayGo(n, id) && EndOf(n.threads[id]) == EndOf(s.threads[id])
  {
    assert ThreadOk(s, id, s.threads[id]);
  }

  lemma ThenEnds(s: System, id: nat, n: System, e: System)
    requires id in s.threads && id in n.threads && n.threads == s.threads[id := n.threads[id]]
    requires EndOf(n.threads[id]) == EndOf(s.threads[id]) && e.threads == n.threads[id := EndOf(n.threads[id])]
    ensures e.threads == s.threads[id := EndOf(s.threads[id])]
  {
  }

  /** A thread that may go can be brought to its end by smooth steps of its own and the exit of the leader. */
  lemma {:induction false} StopEnds(s: System, id: nat) returns (actions: seq<Action>, e: System)
    requires Inv(s) && MayGo(s, id)
    ensures e == Run(s, actions) && AllSmooth(actions, id) && Inv(e)
    ensures e.threads == s.threads[id := EndOf(s.threads[id])] && e.stopLock == None
    decreases s.leader.Running?, StepsLeft(s.threads[id])
  {
    var a := if s.threads[id].Reap? && s.leader.Running? then LeaderExits else Advance(id, false, false);
    var n := Step(s, a);
    StepKeepsInv(s, a);
    if a == LeaderExits || !n.threads[id].Finished? {
      if a != LeaderExits {
        StepGains(s, id, n);
      }
      var rest;
      rest, e := StopEnds(n, id);
      ThenEnds(s, id, n, e);
      RunFirst(s, a, rest);
      actions := [a] + rest;
    } else {
      StepGains(s, id, n);
      e := n;
      actions := [a];
      RunOne(s, a);
    }
  }

  /** Every stop that has not failed can be carried through to a normal return, by smooth steps of its thread and of the
      one that holds the lock and the exit of the leader; the leader is then reaped and its return code stored. */
  lemma StopCanSucceed(s: System, id: nat) returns (actions: seq<Action>, e: System)
    requires Inv(s) && id in s.threads && !s.threads[id].Finished? && s.threads[id] != Unlock(false)
    ensures e == Run(s, actions) && Inv(e)
    ensures forall i :: 0 <= i < |actions| ==>
              Smooth(actions[i], id) || (s.stopLock.Some? && Smooth(actions[i], s.stopLock.value))
    ensures id in e.threads && e.threads[id] == Finished(true) && e.stopLock == None
    ensures e.leader == Reaped && e.returncode
  {
    assert ThreadOk(s, id, s.threads[id]);
    if MayGo(s, id) {
      actions, e := StopEnds(s, id);
    } else {
      var holder := s.stopLock.value;
      assert ThreadOk(s, holder, s.threads[holder]);
      var first, free := StopEnds(s, holder);
      var rest;
      rest, e := StopEnds(free, id);
      RunJoins(s, first, rest);
      actions := first + rest;
    }
    assert ThreadOk(e, id, e.threads[id]);
  }
}
