/**
 Calls on the tunnel controller are refused only for a reason, and can always be carried through.
 */
module TunnelCompletion {
  import opened Wrappers
  import opened Runs
  import opened TunnelSteps
  import opened TunnelProtocol
  import opened TunnelInvariant
  import opened TunnelSafety
  import opened TunnelProgress

  // ---------------------------------------------------------------- refusals have a reason

  /** The outside refuses thread t something it asks for: its configuration does not parse, or the adapter,
      the socket, the routes or the engine cannot be had. */
  predicate Refuses(s: State, a: Action, t: nat) {
    match a
    case ParseConfig(u, ok) => u == t && !ok
    case NewAdapter(u, created) => u == t && created.None?
    case Build(u, ok) => u == t && !ok && t in s.threads && s.threads[t].pc.Building? && s.threads[t].pc.k <= 3
    case _ => false
  }

  /** Thread t is on its way to report a failure, or has. */
  predicate Failing(s: State, t: nat) {
    && t in s.threads
    && (s.threads[t].pc.Undo? || s.threads[t].pc == Unlock(Refused) || s.threads[t].pc == Returned(Refused))
  }

  lemma LockStepFails(s: State, a: Action, t: nat)
    requires LockStep(s, a).Some?
    ensures Failing(LockStep(s, a).value, t) <==> Failing(s, t)
  {
  }

  lemma StopActionFails(s: State, owner: nat, t: nat)
    requires StopAction(s, owner).Some?
    ensures Failing(StopAction(s, owner).value, t) <==> Failing(s, t)
  {
  }

  lemma ConnectStepFails(s: State, a: Action, t: nat)
    requires ConnectStep(s, a).Some?
    ensures Failing(ConnectStep(s, a).value, t) <==> Failing(s, t) || Refuses(s, a, t)
  {
  }

  lemma OtherStepFails(s: State, a: Action, t: nat)
    requires WatchStep(s, a).Some? || EngineStep(s, a).Some?
    ensures WatchStep(s, a).Some? ==> (Failing(WatchStep(s, a).value, t) <==> Failing(s, t))
    ensures EngineStep(s, a).Some? ==> (Failing(EngineStep(s, a).value, t) <==> Failing(s, t))
  {
  }

  lemma StepFails(s: State, a: Action, t: nat)
    requires Step(s, a).Some?
    ensures Failing(Step(s, a).value, t) <==> Failing(s, t) || Refuses(s, a, t)
  {
    if a.StopStep? { StopActionFails(s, a.t, t); }
    else if ByLock(a) { LockStepFails(s, a, t); }
    else if ByWatcher(a) || ByEngine(a) { OtherStepFails(s, a, t); }
    else { ConnectStepFails(s, a, t); }
  }

  ghost predicate WasRefused(run: Run<State, Action>, i: nat, t: nat)
    requires i <= |run.actions| <= |run.states|
  {
    exists k :: 0 <= k < i && Refuses(run.states[k], run.actions[k], t)
  }

  ghost predicate FailsSo(s: State, a: Action, u: State, t: nat) {
    Failing(u, t) <==> Failing(s, t) || Refuses(s, a, t)
  }

  lemma {:induction false} FailingForAReason(run: Run<State, Action>, i: nat, t: nat)
    requires |run.states| == |run.actions| + 1 && i < |run.states| && !Failing(run.states[0], t)
    requires forall k | 0 <= k < i :: FailsSo(run.states[k], run.actions[k], run.states[k + 1], t)
    ensures Failing(run.states[i], t) <==> WasRefused(run, i, t)
  {
    if i > 0 {
      FailingForAReason(run, i - 1, t);
      assert FailsSo(run.states[i - 1], run.actions[i - 1], run.states[i - 1 + 1], t);
    }
  }

  /** A call returns with an error just when the outside has refused it something, over every run. */
  lemma RefusedForAReason(run: Run<State, Action>, i: nat, t: nat)
    requires IsRun(Init, Step, run) && i < |run.states|
    requires t in run.states[i].threads && run.states[i].threads[t].pc.Returned?
    ensures run.states[i].threads[t].pc.result == Refused <==> WasRefused(run, i, t)
  {
    forall k | 0 <= k < i ensures FailsSo(run.states[k], run.actions[k], run.states[k + 1], t) {
      Reachable(run, k);
      StepFails(run.states[k], run.actions[k], t);
    }
    FailingForAReason(run, i, t);
  }

  // ---------------------------------------------------------------- calls can be carried through

  /** longer is a run that goes on from where run ends, and ends in last. */
  ghost predicate Continues(run: Run<State, Action>, longer: Run<State, Action>, last: State) {
    && IsRun(Init, Step, longer) && EndsIn(longer, last)
    && run.states <= longer.states && run.actions <= longer.actions
  }

  lemma Take(run: Run<State, Action>, last: State, a: Action, next: State) returns (longer: Run<State, Action>)
    requires IsRun(Init, Step, run) && EndsIn(run, last) && Step(last, a) == Some(next)
    ensures Continues(run, longer, next) && EndsWith(longer, a)
  {
    longer := Extend(Init, Step, run, last, a, next);
  }

  ghost predicate EndsWith(run: Run<State, Action>, a: Action) {
    |run.actions| > 0 && run.actions[|run.actions| - 1] == a
  }

  lemma ContinuesOn(
      run: Run<State, Action>, longer: Run<State, Action>, s: State, longest: Run<State, Action>, u: State)
    requires Continues(run, longer, s) && Continues(longer, longest, u)
    ensures Continues(run, longest, u)
  {
  }

  lemma EndIsReachable(run: Run<State, Action>, last: State)
    requires IsRun(Init, Step, run) && EndsIn(run, last)
    ensures Inv(last)
  {
    Reachable(run, |run.actions|);
  }

  lemma HolderStays(s: State, a: Action, t: nat)
    requires LocksOk(s) && s.holder == Some(t) && Step(s, a).Some? && a != Release(t)
    ensures Step(s, a).value.holder == Some(t)
  {
  }

  lemma ReleaseFrees(s: State, t: nat)
    requires Step(s, Release(t)).Some?
    ensures Step(s, Release(t)).value.holder == None
  {
  }

  lemma OpStays(s: State, a: Action, t: nat)
    requires t in s.threads && Step(s, a).Some?
    ensures t in Step(s, a).value.threads && Step(s, a).value.threads[t].op == s.threads[t].op
  {
  }

  /** A thread still does what it was called for, and fails just when it did before. */
  ghost predicate Keeps(s: State, u: State, t: nat) {
    && t in s.threads && t in u.threads && u.threads[t].op == s.threads[t].op
    && (Failing(u, t) <==> Failing(s, t))
  }

  /** With everything granted the lock holder, or a loop it waits for, takes a step towards the release. */
  lemma HolderGoesOn(s: State, t: nat) returns (a: Action, u: State)
    requires Inv(s) && s.holder == Some(t)
    ensures Step(s, a) == Some(u) && Keeps(s, u, t)
    ensures if a == Release(t) then u.holder == None else u.holder == Some(t) && LockWork(u) < LockWork(s)
  {
    a := LockHolderMoves(s, true);
    u := Step(s, a).value;
    StepFails(s, a, t);
    OpStays(s, a, t);
    assert Grants(a, true) ==> !Refuses(s, a, t);
    if a == Release(t) {
      ReleaseFrees(s, t);
    } else {
      HolderStays(s, a, t);
      LockIsReleased(s, a);
    }
  }

  /** It goes on until the lock is given back. */
  lemma {:induction false} HolderFinishes(run: Run<State, Action>, last: State, t: nat)
    returns (longest: Run<State, Action>, end: State)
    requires IsRun(Init, Step, run) && EndsIn(run, last) && last.holder == Some(t)
    ensures Continues(run, longest, end) && EndsWith(longest, Release(t))
    ensures end.holder == None && Keeps(last, end, t)
    decreases LockWork(last)
  {
    EndIsReachable(run, last);
    var a, next := HolderGoesOn(last, t);
    var longer := Take(run, last, a, next);
    if a == Release(t) {
      return longer, next;
    }
    longest, end := HolderFinishes(longer, next, t);
    ContinuesOn(run, longer, next, longest, end);
  }

  lemma LockGetsFree(run: Run<State, Action>, last: State) returns (longer: Run<State, Action>, free: State)
    requires IsRun(Init, Step, run) && EndsIn(run, last)
    ensures Continues(run, longer, free) && free.holder == None
  {
    longer, free := run, last;
    if last.holder.Some? {
      longer, free := HolderFinishes(run, last, last.holder.value);
    }
  }

  lemma CallStarts(s: State, t: nat, op: Op) returns (called: State, locked: State)
    requires s.holder == None && t !in s.threads && !op.Watch?
    ensures Step(s, Call(t, op)) == Some(called) && Step(called, Lock(t)) == Some(locked)
    ensures locked.holder == Some(t) && !Failing(locked, t) && t in locked.threads && locked.threads[t].op == op
  {
    called := Step(s, Call(t, op)).value;
    locked := Step(called, Lock(t)).value;
  }

  /** A call that finds the lock free takes it and goes on until it returns. */
  lemma CallFinishes(run: Run<State, Action>, last: State, t: nat, op: Op)
    returns (longer: Run<State, Action>, end: State)
    requires IsRun(Init, Step, run) && EndsIn(run, last) && last.holder == None
    requires t !in last.threads && !op.Watch?
    ensures Continues(run, longer, end) && EndsWith(longer, Release(t))
    ensures !Failing(end, t) && t in end.threads && end.threads[t].op == op
  {
    var called, locked := CallStarts(last, t, op);
    var first := Take(run, last, Call(t, op), called);
    var second := Take(first, called, Lock(t), locked);
    ContinuesOn(run, first, called, second, locked);
    longer, end := HolderFinishes(second, locked, t);
    ContinuesOn(run, second, locked, longer, end);
  }

  /** From where any run has come to, any call can be made and carried through, if nothing is refused to it:
      Disconnect ends with no session up, Connect with its own session up under the name asked for, Status
      with the truth. */
  lemma CallCanComplete(run: Run<State, Action>, last: State, op: Op)
    returns (longest: Run<State, Action>, end: State, t: nat)
    requires IsRun(Init, Step, run) && EndsIn(run, last) && !op.Watch?
    ensures Continues(run, longest, end) && EndsWith(longest, Release(t))
    ensures t in end.threads && end.threads[t].op == op
    ensures match op
            case Connect(name) => end.threads[t].pc == Returned(Done) && IsUp(end, name)
            case Disconnect => end.threads[t].pc == Returned(Done) && NothingUp(end)
            case _ => end.threads[t].pc == Returned(Reported(end.core.running))
  {
    var longer, free := LockGetsFree(run, last);
    t := FreshNumber(free.threads.Keys);
    longest, end := CallFinishes(longer, free, t, op);
    ContinuesOn(run, longer, free, longest, end);
    CallsAnswerTruly(longest, |longest.actions| - 1, t);
  }
}
