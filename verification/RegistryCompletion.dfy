/**
 Calls on the callback registry report an error only for a reason, and can always be carried through.
 */
module RegistryCompletion {
  import opened Wrappers
  import opened Runs
  import opened CallbackTable
  import opened RegistryProtocol
  import opened RegistryProgress

  // ---------------------------------------------------------------- errors have a reason

  /** The OS refuses call c the subscription, or its cancellation. */
  predicate Refuses(a: Action, c: nat) {
    a == Subscribe(c, None) || a == FinishCancel(c, false)
  }

  /** Call c is on its way to report an error, or has. */
  predicate Failing(s: State, c: nat) {
    && c in s.calls
    && s.calls[c].pc in {RegUnlockInner(false), RegUnlockOuter(false), RegReturned(false),
                         UnUnlockOuter(false), UnReturned(false)}
  }

  lemma RegisterFails(s: State, d: nat, c: nat)
    requires d in s.calls && RegisterStep(s, d).Some?
    ensures Failing(RegisterStep(s, d).value, c) <==> Failing(s, c)
  {
  }

  lemma UnregisterFails(s: State, d: nat, c: nat)
    requires d in s.calls && UnregisterStep(s, d).Some?
    ensures Failing(UnregisterStep(s, d).value, c) <==> Failing(s, c)
  {
  }

  lemma CallStepFails(waits: bool, s: State, a: Action, c: nat)
    requires CallStep(waits, s, a).Some?
    ensures Failing(CallStep(waits, s, a).value, c) <==> Failing(s, c) || Refuses(a, c)
  {
  }

  lemma NotifyStepKeepsCalls(s: State, a: Action)
    requires NotifyStep(s, a).Some?
    ensures NotifyStep(s, a).value.calls == s.calls
  {
  }

  lemma StepFails(waits: bool, s: State, a: Action, c: nat)
    requires Step(waits, s, a).Some?
    ensures Failing(Step(waits, s, a).value, c) <==> Failing(s, c) || Refuses(a, c)
  {
    if ByNotifier(a) { NotifyStepKeepsCalls(s, a); }
    else if !a.Advance? { CallStepFails(waits, s, a, c); }
    else if Registers(s.calls[a.c].pc) { RegisterFails(s, a.c, c); }
    else { UnregisterFails(s, a.c, c); }
  }

  ghost predicate FailsSo(s: State, a: Action, u: State, c: nat) {
    Failing(u, c) <==> Failing(s, c) || Refuses(a, c)
  }

  ghost predicate WasRefused(actions: seq<Action>, i: nat, c: nat)
    requires i <= |actions|
  {
    exists k :: 0 <= k < i && Refuses(actions[k], c)
  }

  lemma {:induction false} FailingForAReason(run: Run<State, Action>, i: nat, c: nat)
    requires |run.states| == |run.actions| + 1 && i < |run.states| && !Failing(run.states[0], c)
    requires forall k | 0 <= k < i :: FailsSo(run.states[k], run.actions[k], run.states[k + 1], c)
    ensures Failing(run.states[i], c) <==> WasRefused(run.actions, i, c)
  {
    if i > 0 {
      FailingForAReason(run, i - 1, c);
      assert FailsSo(run.states[i - 1], run.actions[i - 1], run.states[i - 1 + 1], c);
    }
  }

  /** A call has returned with an error just when the OS has refused it the subscription it asked for, or
      the cancellation, over every run. */
  lemma ErrorForAReason(waits: bool, run: Run<State, Action>, i: nat, c: nat)
    requires IsRegistryRun(waits, run) && i < |run.states| && HasReturned(run.states[i], c)
    ensures !run.states[i].calls[c].pc.ok <==> WasRefused(run.actions, i, c)
  {
    forall k | 0 <= k < i ensures FailsSo(run.states[k], run.actions[k], run.states[k + 1], c) {
      RunStep(waits, run, k);
      StepFails(waits, run.states[k], run.actions[k], c);
    }
    FailingForAReason(run, i, c);
  }

  // ---------------------------------------------------------------- calls can be carried through

  /** longer is a run that goes on from where run ends, and ends in last. */
  ghost predicate Continues(waits: bool, run: Run<State, Action>, longer: Run<State, Action>, last: State) {
    && IsRegistryRun(waits, longer) && EndsIn(longer, last)
    && run.states <= longer.states && run.actions <= longer.actions
  }

  lemma Take(waits: bool, run: Run<State, Action>, last: State, a: Action, next: State)
    returns (longer: Run<State, Action>)
    requires IsRegistryRun(waits, run) && EndsIn(run, last) && Step(waits, last, a) == Some(next)
    ensures Continues(waits, run, longer, next)
  {
    longer := Extend(Init, (s, a) => Step(waits, s, a), run, last, a, next);
  }

  lemma ContinuesOn(
      waits: bool, run: Run<State, Action>, longer: Run<State, Action>, s: State, longest: Run<State, Action>, u: State)
    requires Continues(waits, run, longer, s) && Continues(waits, longer, longest, u)
    ensures Continues(waits, run, longest, u)
  {
  }

  lemma EndIsReachable(waits: bool, run: Run<State, Action>, last: State)
    requires IsRegistryRun(waits, run) && EndsIn(run, last)
    ensures Inv(last)
  {
    Reachable(waits, run, |run.actions|);
  }

  /** The calls are the same, each for the callback it was made for. */
  ghost predicate SameCallers(s: State, u: State) {
    && u.calls.Keys == s.calls.Keys
    && forall c | c in s.calls ::
         u.calls[c].cb == s.calls[c].cb && (Registers(u.calls[c].pc) <==> Registers(s.calls[c].pc))
  }

  lemma MovingKeepsCallers(s: State, u: State, c: nat, pc: CallPc)
    requires Moved(s, u, c, pc) && (Registers(pc) <==> Registers(s.calls[c].pc))
    ensures SameCallers(s, u)
  {
  }

  lemma StepKeepsCallers(waits: bool, s: State, a: Action)
    requires Inv(s) && Internal(a) && Step(waits, s, a).Some?
    ensures SameCallers(s, Step(waits, s, a).value)
  {
    if ByNotifier(a) {
      NotifyStepKeepsCalls(s, a);
    } else {
      CallGoesOn(waits, s, a);
      EachIsPlaced(s, a.c);
      if !a.Advance? { AnswerMoves(waits, s, a); }
      else if Registers(s.calls[a.c].pc) { RegisterMoves(s, a.c); }
      else { UnregisterMoves(s, a.c); }
      var u := Step(waits, s, a).value;
      MovingKeepsCallers(s, u, a.c, u.calls[a.c].pc);
    }
  }

  /** And c fails just when it did before. */
  ghost predicate Keeps(s: State, u: State, c: nat) {
    SameCallers(s, u) && (Failing(u, c) <==> Failing(s, c))
  }

  /** With everything granted something under way takes a step. */
  lemma SomethingGoesOn(waits: bool, s: State, c: nat, cs: seq<nat>, ns: seq<nat>) returns (a: Action, u: State)
    requires Inv(s) && !Settled(s) && c in s.calls && Lists(s, cs, ns)
    ensures Step(waits, s, a) == Some(u) && Keeps(s, u, c)
    ensures Lists(u, cs, ns) && Work(u, cs, ns) < Work(s, cs, ns)
  {
    var h := FreshNumber(s.live + {0});
    a := NeverStuck(waits, s, Some(h), true);
    u := Step(waits, s, a).value;
    StepFails(waits, s, a, c);
    StepKeepsCallers(waits, s, a);
    InternalStepLessens(waits, s, a, cs, ns);
  }

  /** So it goes on until everything has returned. */
  lemma {:induction false} AllFinish(
      waits: bool, run: Run<State, Action>, last: State, c: nat, cs: seq<nat>, ns: seq<nat>)
    returns (longest: Run<State, Action>, end: State)
    requires IsRegistryRun(waits, run) && EndsIn(run, last) && c in last.calls && Lists(last, cs, ns)
    ensures Continues(waits, run, longest, end) && Settled(end) && Keeps(last, end, c)
    decreases Work(last, cs, ns)
  {
    if Settled(last) {
      return run, last;
    }
    EndIsReachable(waits, run, last);
    var a, next := SomethingGoesOn(waits, last, c, cs, ns);
    var longer := Take(waits, run, last, a, next);
    longest, end := AllFinish(waits, longer, next, c, cs, ns);
    ContinuesOn(waits, run, longer, next, longest, end);
  }

  lemma CallFinishes(waits: bool, run: Run<State, Action>, last: State, a: Action, c: nat, call: Call)
    returns (longest: Run<State, Action>, end: State)
    requires IsRegistryRun(waits, run) && EndsIn(run, last)
    requires c !in last.calls && (call.pc == RegWantOuter || call.pc == UnWantOuter)
    requires Step(waits, last, a) == Some(last.(calls := last.calls[c := call]))
    ensures Continues(waits, run, longest, end) && Settled(end) && HasReturned(end, c) && !Failing(end, c)
    ensures SameCallers(last.(calls := last.calls[c := call]), end)
  {
    var called := last.(calls := last.calls[c := call]);
    var longer := Take(waits, run, last, a, called);
    var cs, ns := WorkExists(called);
    longest, end := AllFinish(waits, longer, called, c, cs, ns);
    ContinuesOn(waits, run, longer, called, longest, end);
  }

  /** From where any run has come to, Register can be called and returns its callback, if the OS grants what
      it is asked; the callback is then in the map, under a live subscription. */
  lemma RegisterCanComplete(waits: bool, run: Run<State, Action>, last: State)
    returns (longest: Run<State, Action>, end: State, c: nat)
    requires IsRegistryRun(waits, run) && EndsIn(run, last)
    ensures c !in last.calls && Continues(waits, run, longest, end) && Settled(end)
    ensures c in end.calls && end.calls[c].pc == RegReturned(true)
    ensures c in end.table.callbacks && end.table.handle in end.live
  {
    c := FreshNumber(last.calls.Keys);
    EndIsReachable(waits, run, last);
    longest, end := CallFinishes(waits, run, last, CallRegister(c), c, Call(c, RegWantOuter));
    EndIsReachable(waits, longest, end);
    NewIsNotGone(last, c, end);
  }

  lemma NewIsNotGone(s: State, c: nat, u: State)
    requires CallsOk(s) && c !in s.calls && SameCallers(s.(calls := s.calls[c := Call(c, RegWantOuter)]), u)
    ensures !Gone(u, c)
  {
    forall d | d in u.calls && u.calls[d].cb == c ensures !Deleted(u.calls[d].pc) {
      assert d == c || d in s.calls;
    }
  }

  /** And a callback that has been returned can be unregistered: then it is out of the map and quiet. */
  lemma UnregisterCanComplete(waits: bool, run: Run<State, Action>, last: State, cb: nat)
    returns (longest: Run<State, Action>, end: State, c: nat)
    requires IsRegistryRun(waits, run) && EndsIn(run, last)
    requires cb in last.calls && last.calls[cb].pc == RegReturned(true)
    ensures c !in last.calls && Continues(waits, run, longest, end) && Settled(end)
    ensures c in end.calls && end.calls[c] == Call(cb, UnReturned(true))
    ensures cb !in end.table.callbacks && InFlight(end.goroutines, cb) == {}
  {
    c := FreshNumber(last.calls.Keys);
    longest, end := CallFinishes(waits, run, last, CallUnregister(c, cb), c, Call(cb, UnWantOuter));
    EndIsReachable(waits, longest, end);
  }
}
