/**
 Progress of the tunnel controller: the lock is released, and a watcher whose session has been stopped
 goes away.
 */
module TunnelProgress {
  import opened Wrappers
  import opened Runs
  import opened TunnelSteps
  import opened TunnelProtocol
  import opened TunnelInvariant

  /** The steps thread t takes itself. */
  predicate IsStepOf(a: Action, t: nat) {
    match a
    case Lock(u) => u == t
    case Decide(u) => u == t
    case StopStep(u) => u == t
    case ParseConfig(u, _) => u == t
    case NewAdapter(u, _) => u == t
    case Build(u, _) => u == t
    case UndoStep(u) => u == t
    case Publish(u, _) => u == t
    case Release(u) => u == t
    case Receive(u) => u == t
    case SeeDone(u) => u == t
    case Judge(u) => u == t
    case _ => false
  }

  function StageWork(stage: StopStage): nat {
    match stage
    case BumpGen => 8
    case CloseEngine => 7
    case RunCleanup => 6
    case CloseSocket => 5
    case CloseAdapter => 4
    case AwaitEngine => 3
    case CloseDone => 2
    case ClearFields => 1
  }

  /** A bound on the steps a thread still takes before it releases the lock. */
  function HolderWork(pc: Pc): nat {
    match pc
    case Unlock(_) => 1
    case Undo(_, _, left) => left + 2
    case Building(_, k) => if k <= 5 then 11 - k else 0
    case CreateAdapter => 11
    case Parse => 12
    case Stop(stage) => 12 + StageWork(stage)
    case Check => 21
    case _ => 0
  }

  function LoopWork(l: Loop): nat {
    if l.Running? then 1 else 0
  }

  /** The same for the lock holder together with the engine loops it waits for. */
  function LockWork(s: State): nat {
    3 * HolderWork(Doing(s))
    + if Doing(s) == Stop(AwaitEngine) && s.core.eng.Some? && s.core.eng.value in s.attempts
      then LoopWork(s.attempts[s.core.eng.value].first) + LoopWork(s.attempts[s.core.eng.value].second) else 0
  }

  /** The lock holder's own steps and the exits of the loops it waits for. */
  predicate Helps(s: State, a: Action) {
    s.holder.Some? && (IsStepOf(a, s.holder.value)
                       || (a.LoopExit? && Doing(s) == Stop(AwaitEngine) && s.core.eng == Some(a.attempt)))
  }

  lemma ClosedBeforeAwait(word: seq<Event>)
    requires word == UP + DOWN[..Downs(AwaitEngine)]
    ensures AllClosed(word)
  {
    assert word[5] == EngineClosed && word[7] == SocketClosed && word[8] == AdapterClosed;
  }

  /** A thread inside stopLocked never waits for the engine in vain: by then engine, socket and
      adapter are closed, so each loop still running can exit. */
  lemma AwaitIsServed(s: State, t: nat) returns (a: Action)
    requires LocksOk(s) && CoreOk(s) && WordsOk(s) && s.holder == Some(t) && Doing(s) == Stop(AwaitEngine)
    ensures Helps(s, a) && Step(s, a).Some?
  {
    var n := s.core.eng.value;
    var at := s.attempts[n];
    assert WordOk(s, n);
    ClosedBeforeAwait(at.word);
    if at.first.Running? {
      a := LoopExit(n, true);
    } else if at.second.Running? {
      a := LoopExit(n, false);
    } else {
      a := StopStep(t);
    }
  }

  /** What the outside answers in such a step, if it is asked. */
  predicate Grants(a: Action, granted: bool) {
    match a
    case ParseConfig(_, ok) => ok == granted
    case NewAdapter(_, created) => created.Some? == granted
    case Build(_, ok) => ok == granted
    case _ => true
  }

  /** Whoever holds the lock can move, or waits for a loop that can, whether what it asks of the outside is
      granted or refused. (Building the engine's own objects and running it cannot be refused.) */
  lemma LockHolderMoves(s: State, granted: bool) returns (a: Action)
    requires LocksOk(s) && ThreadsOk(s) && CoreOk(s) && WordsOk(s) && s.holder.Some?
    ensures Helps(s, a) && Step(s, a).Some? && Grants(a, granted)
  {
    var t := s.holder.value;
    match s.threads[t].pc {
      case Check => a := Decide(t);
      case Stop(stage) =>
        if stage == AwaitEngine {
          a := AwaitIsServed(s, t);
        } else {
          a := StopStep(t);
        }
      case Parse => a := ParseConfig(t, granted);
      case CreateAdapter =>
        var n := FreshNumber(s.attempts.Keys);
        a := NewAdapter(t, if granted then Some(n) else None);
      case Building(n, k) =>
        if k == 5 {
          var w := FreshNumber(s.threads.Keys);
          a := Publish(t, w);
        } else {
          a := Build(t, granted);
        }
      case Undo(_, _, _) => a := UndoStep(t);
      case Unlock(_) => a := Release(t);
      case _ => assert false;
    }
  }

  /** Such a step brings the release of the lock closer, and no other step delays it. */
  ghost predicate ReleaseComesCloser(s: State, a: Action, u: State) {
    && (Helps(s, a) ==> LockWork(u) < LockWork(s))
    && (!Helps(s, a) ==> u.holder == s.holder && LockWork(u) <= LockWork(s))
  }

  lemma LockStepBringsRelease(s: State, a: Action)
    requires LocksOk(s) && CoreOk(s) && s.holder.Some? && LockStep(s, a).Some?
    ensures ReleaseComesCloser(s, a, LockStep(s, a).value)
  {
  }

  lemma WatchStepBringsRelease(s: State, a: Action)
    requires LocksOk(s) && CoreOk(s) && s.holder.Some? && WatchStep(s, a).Some?
    ensures ReleaseComesCloser(s, a, WatchStep(s, a).value)
  {
  }

  lemma EngineStepBringsRelease(s: State, a: Action)
    requires LocksOk(s) && CoreOk(s) && s.holder.Some? && EngineStep(s, a).Some?
    ensures ReleaseComesCloser(s, a, EngineStep(s, a).value)
  {
  }

  lemma StopActionBringsRelease(s: State, t: nat)
    requires LocksOk(s) && CoreOk(s) && s.holder.Some? && StopAction(s, t).Some?
    ensures ReleaseComesCloser(s, StopStep(t), StopAction(s, t).value)
  {
    var u := StopAction(s, t).value;
    assert Doing(s) == s.threads[t].pc;
    assert HolderWork(Doing(u)) < HolderWork(Doing(s));
  }

  lemma ConnectStepBringsRelease(s: State, a: Action)
    requires LocksOk(s) && CoreOk(s) && s.holder.Some? && ConnectStep(s, a).Some?
    ensures ReleaseComesCloser(s, a, ConnectStep(s, a).value)
  {
  }

  lemma LockIsReleased(s: State, a: Action)
    requires Inv(s) && s.holder.Some? && Step(s, a).Some?
    ensures ReleaseComesCloser(s, a, Step(s, a).value)
  {
    if a.StopStep? { StopActionBringsRelease(s, a.t); }
    else if ByLock(a) { LockStepBringsRelease(s, a); }
    else if ByWatcher(a) { WatchStepBringsRelease(s, a); }
    else if ByEngine(a) { EngineStepBringsRelease(s, a); }
    else { ConnectStepBringsRelease(s, a); }
  }

  ghost function HelpingSteps(run: Run<State, Action>, i: nat, j: nat): nat
    requires i <= j <= |run.actions| <= |run.states|
  {
    if i == j then 0 else HelpingSteps(run, i, j - 1) + if Helps(run.states[j - 1], run.actions[j - 1]) then 1 else 0
  }

  ghost predicate ReleaseNears(s: State, a: Action, u: State) {
    s.holder.Some? ==> ReleaseComesCloser(s, a, u)
  }

  lemma {:induction false} ReleaseCountsDown(run: Run<State, Action>, i: nat, j: nat)
    requires |run.states| == |run.actions| + 1 && i <= j < |run.states|
    requires forall k | i <= k < j ::
      run.states[k].holder.Some? && ReleaseNears(run.states[k], run.actions[k], run.states[k + 1])
    ensures HelpingSteps(run, i, j) + LockWork(run.states[j]) <= LockWork(run.states[i])
    decreases j
  {
    if i < j {
      ReleaseCountsDown(run, i, j - 1);
      assert ReleaseNears(run.states[j - 1], run.actions[j - 1], run.states[j - 1 + 1]);
    }
  }

  /** In any stretch of any run through which the lock is held, its holder and the loops it waits for
      take at most 63 steps, whatever everybody else does meanwhile; and one of them always can. */
  lemma LockIsReleasedInTime(run: Run<State, Action>, i: nat, j: nat)
    requires IsRun(Init, Step, run) && i <= j < |run.states|
    requires forall k | i <= k <= j :: run.states[k].holder.Some?
    ensures HelpingSteps(run, i, j) + LockWork(run.states[j]) <= LockWork(run.states[i]) <= 63
    ensures exists a :: Helps(run.states[j], a) && Step(run.states[j], a).Some?
  {
    forall k | i <= k < j ensures ReleaseNears(run.states[k], run.actions[k], run.states[k + 1]) {
      Reachable(run, k);
      LockIsReleased(run.states[k], run.actions[k]);
    }
    ReleaseCountsDown(run, i, j);
    Reachable(run, i);
    WorkIsBounded(run.states[i]);
    Reachable(run, j);
    var a := LockHolderMoves(run.states[j], true);
  }

  lemma WorkIsBounded(s: State)
    requires CoreOk(s)
    ensures LockWork(s) <= 63
  {
  }

  /** The session of watcher t has been stopped. */
  ghost predicate WatchesStopped(s: State, t: nat) {
    t in s.threads && s.threads[t].op.Watch? && !IsCurrent(s, s.threads[t].op.attempt)
  }

  function WatcherWork(pc: Pc): nat {
    match pc
    case Select => 5
    case Received(_) => 4
    case WantLock => 3
    case Check => 2
    case Unlock(_) => 1
    case _ => 0
  }

  /** A watcher of a stopped session always has a step of its own, unless it wants the lock and
      somebody holds it. */
  lemma StoppedWatcherMoves(s: State, t: nat) returns (a: Action)
    requires Inv(s) && WatchesStopped(s, t) && !s.threads[t].pc.Returned?
    requires s.threads[t].pc == WantLock ==> s.holder == None
    ensures IsStepOf(a, t) && Step(s, a).Some?
  {
    var n := s.threads[t].op.attempt;
    match s.threads[t].pc {
      case Select =>
        assert WordOk(s, n);
        SettledAndStarted(s.attempts[n].word);
        a := SeeDone(t);
      case Received(_) => a := Judge(t);
      case WantLock => a := Lock(t);
      case Check => a := Decide(t);
      case _ => a := Release(t);
    }
  }

  /** A step of its own brings it closer to its end; nobody else's step sends it back or makes its
      session current again. */
  ghost predicate ExitComesCloser(s: State, a: Action, u: State, t: nat)
    requires t in s.threads
  {
    && WatchesStopped(u, t)
    && (IsStepOf(a, t) ==> WatcherWork(u.threads[t].pc) < WatcherWork(s.threads[t].pc))
    && (!IsStepOf(a, t) ==> u.threads[t] == s.threads[t])
  }

  lemma LockStepBringsExit(s: State, a: Action, t: nat)
    requires LocksOk(s) && ThreadsOk(s) && CoreOk(s) && WatchersOk(s) && WatchesStopped(s, t) && LockStep(s, a).Some?
    ensures ExitComesCloser(s, a, LockStep(s, a).value, t)
  {
  }

  lemma WatchStepBringsExit(s: State, a: Action, t: nat)
    requires LocksOk(s) && ThreadsOk(s) && CoreOk(s) && WatchersOk(s) && WatchesStopped(s, t) && WatchStep(s, a).Some?
    ensures ExitComesCloser(s, a, WatchStep(s, a).value, t)
  {
  }

  lemma EngineStepBringsExit(s: State, a: Action, t: nat)
    requires LocksOk(s) && ThreadsOk(s) && CoreOk(s) && WatchersOk(s) && WatchesStopped(s, t) && EngineStep(s, a).Some?
    ensures ExitComesCloser(s, a, EngineStep(s, a).value, t)
  {
  }

  lemma StopActionBringsExit(s: State, owner: nat, t: nat)
    requires LocksOk(s) && ThreadsOk(s) && CoreOk(s) && WatchersOk(s) && WatchesStopped(s, t)
    requires StopAction(s, owner).Some?
    ensures ExitComesCloser(s, StopStep(owner), StopAction(s, owner).value, t)
  {
  }

  lemma ConnectStepBringsExit(s: State, a: Action, t: nat)
    requires LocksOk(s) && ThreadsOk(s) && CoreOk(s) && GensOk(s) && WatchersOk(s) && WatchesStopped(s, t)
    requires ConnectStep(s, a).Some?
    ensures ExitComesCloser(s, a, ConnectStep(s, a).value, t)
  {
  }

  lemma StoppedIsInWork(s: State, t: nat)
    requires ThreadsOk(s) && LocksOk(s) && CoreOk(s) && WatchersOk(s) && WatchesStopped(s, t)
    ensures WatcherWork(s.threads[t].pc) == 0 ==> s.threads[t].pc.Returned?
  {
  }

  /** A watcher of a stopped session exits after at most five steps of its own. */
  lemma StoppedWatcherExits(s: State, a: Action, t: nat)
    requires Inv(s) && WatchesStopped(s, t) && Step(s, a).Some?
    ensures ExitComesCloser(s, a, Step(s, a).value, t)
    ensures WatcherWork(s.threads[t].pc) <= 5
  {
    if a.StopStep? { StopActionBringsExit(s, a.t, t); }
    else if ByLock(a) { LockStepBringsExit(s, a, t); }
    else if ByWatcher(a) { WatchStepBringsExit(s, a, t); }
    else if ByEngine(a) { EngineStepBringsExit(s, a, t); }
    else { ConnectStepBringsExit(s, a, t); }
  }

  /** The steps among actions[i..j) that thread t takes itself. */
  function OwnSteps(actions: seq<Action>, t: nat, i: nat, j: nat): nat
    requires i <= j <= |actions|
  {
    if i == j then 0 else OwnSteps(actions, t, i, j - 1) + if IsStepOf(actions[j - 1], t) then 1 else 0
  }

  ghost predicate ExitsOn(s: State, a: Action, u: State, t: nat) {
    WatchesStopped(s, t) ==> ExitComesCloser(s, a, u, t)
  }

  lemma {:induction false} ExitCountsDown(run: Run<State, Action>, i: nat, j: nat, t: nat)
    requires |run.states| == |run.actions| + 1 && i <= j < |run.states| && WatchesStopped(run.states[i], t)
    requires forall k | i <= k < j :: ExitsOn(run.states[k], run.actions[k], run.states[k + 1], t)
    ensures WatchesStopped(run.states[j], t)
    ensures OwnSteps(run.actions, t, i, j) + WatcherWork(run.states[j].threads[t].pc)
         <= WatcherWork(run.states[i].threads[t].pc)
    decreases j
  {
    if i < j {
      ExitCountsDown(run, i, j - 1, t);
      assert ExitsOn(run.states[j - 1], run.actions[j - 1], run.states[j - 1 + 1], t);
    }
  }

  /** The same over runs: in any stretch of any run, a watcher of a stopped session takes at most five
      steps, and has exited once it has taken as many as it had left. */
  lemma StoppedWatcherExitsInTime(run: Run<State, Action>, i: nat, j: nat, t: nat)
    requires IsRun(Init, Step, run) && i <= j < |run.states| && WatchesStopped(run.states[i], t)
    ensures WatchesStopped(run.states[j], t)
    ensures OwnSteps(run.actions, t, i, j) + WatcherWork(run.states[j].threads[t].pc)
         <= WatcherWork(run.states[i].threads[t].pc) <= 5
    ensures WatcherWork(run.states[j].threads[t].pc) == 0 ==> run.states[j].threads[t].pc.Returned?
  {
    forall k | i <= k < j ensures ExitsOn(run.states[k], run.actions[k], run.states[k + 1], t) {
      Reachable(run, k);
      if WatchesStopped(run.states[k], t) {
        StoppedWatcherExits(run.states[k], run.actions[k], t);
      }
    }
    ExitCountsDown(run, i, j, t);
    Reachable(run, j);
    StoppedIsInWork(run.states[j], t);
  }
}
