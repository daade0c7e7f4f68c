/**
 What the watchers are for: a fatal error of an engine loop tears its session down, just when it is the
 first thing the session reports.
 */
module TunnelFailure {
  import opened Wrappers
  import opened Runs
  import opened TunnelSteps
  import opened TunnelProtocol
  import opened TunnelInvariant
  import opened TunnelProgress

  /** The capacity of the error channel is enough: a loop that has not reported is never kept from it. */
  lemma ReportIsNeverBlocked(s: State, n: nat, isFirst: bool, fatal: bool)
    requires Inv(s) && n in s.attempts && LoopOf(s.attempts[n], isFirst) == Running(false)
    ensures Step(s, Report(n, isFirst, fatal)).Some?
  {
    assert LoopsOkFor(s.attempts[n]);
  }

  /** Everything of session n has been closed and awaited. */
  ghost predicate IsDown(s: State, n: nat) {
    n in s.attempts && DoneClosed in s.attempts[n].word
  }

  /** The first report of session n is fatal. */
  ghost predicate Fails(s: State, n: nat) {
    n in s.attempts && s.attempts[n].gen > 0 && |s.attempts[n].reports| > 0 && s.attempts[n].reports[0]
  }

  /** Where its watcher still has steps to take, and how many at most, until the session is down. */
  function FatalWork(pc: Pc): nat {
    match pc
    case Select => 12
    case Received(_) => 11
    case WantLock => 10
    case Check => 9
    case Stop(stage) => StageWork(stage)
    case _ => 0
  }

  ghost predicate OnItsWay(s: State, n: nat) {
    && n in s.attempts && s.attempts[n].watcher in s.threads && s.threads[s.attempts[n].watcher].op.Watch?
    && FatalWork(s.threads[s.attempts[n].watcher].pc) > 0
  }

  lemma NotDownIsCurrent(s: State, n: nat)
    requires CoreOk(s) && WordsOk(s) && LoopsOk(s) && GensOk(s) && n in s.attempts && s.attempts[n].gen > 0
    requires !IsDown(s, n)
    ensures IsCurrent(s, n)
  {
    assert WordOk(s, n) && LoopsOkFor(s.attempts[n]);
    if !IsCurrent(s, n) {
      SettledAndStarted(s.attempts[n].word);
    }
  }

  lemma FailsOnItsWay(s: State, n: nat)
    requires PublishedOk(s) && KnowsOk(s) && ThreadsOk(s) && Fails(s, n) && !IsDown(s, n)
    ensures OnItsWay(s, n)
  {
    assert IsWatched(s, n) && KnowsWell(s, s.attempts[n].watcher);
    assert FitsOp(s.threads[s.attempts[n].watcher]);
  }

  /** Its watcher's own steps take it nearer to the stop; nobody else's step moves the watcher. */
  ghost predicate DownNears(s: State, a: Action, u: State, n: nat) {
    Fails(s, n) ==>
      && Fails(u, n) && u.attempts[n].watcher == s.attempts[n].watcher
      && (IsDown(s, n) ==> IsDown(u, n))
      && (!IsDown(s, n) ==> OnItsWay(s, n) && s.attempts[n].watcher in u.threads)
      && (!IsDown(s, n) && IsStepOf(a, s.attempts[n].watcher) ==>
            FatalWork(u.threads[s.attempts[n].watcher].pc) < FatalWork(s.threads[s.attempts[n].watcher].pc))
      && (!IsDown(s, n) && !IsStepOf(a, s.attempts[n].watcher) ==>
            u.threads[s.attempts[n].watcher] == s.threads[s.attempts[n].watcher])
  }

  /** Words and reports only grow, and a published session keeps its generation and its watcher. */
  ghost predicate RecordsStay(s: State, u: State) {
    forall a | a in s.attempts ::
      && a in u.attempts && s.attempts[a].word <= u.attempts[a].word && s.attempts[a].reports <= u.attempts[a].reports
      && (s.attempts[a].gen > 0 ==>
            u.attempts[a].gen == s.attempts[a].gen && u.attempts[a].watcher == s.attempts[a].watcher)
  }

  lemma PublishKeepsRecords(s: State, t: nat, watcher: nat)
    requires LocksOk(s) && CoreOk(s) && GensOk(s) && ConnectStep(s, Publish(t, watcher)).Some?
    ensures RecordsStay(s, ConnectStep(s, Publish(t, watcher)).value)
  {
    assert Doing(s) == s.threads[t].pc;
  }

  lemma OtherStepsKeepRecords(s: State, a: Action)
    requires Step(s, a).Some? && (ByLock(a) || ByWatcher(a) || ByEngine(a))
    ensures RecordsStay(s, Step(s, a).value)
  {
  }

  lemma StepKeepsRecords(s: State, a: Action)
    requires LocksOk(s) && CoreOk(s) && GensOk(s) && Step(s, a).Some?
    ensures RecordsStay(s, Step(s, a).value)
  {
    if a.StopStep? {
      StopWorks(s, a.t);
    } else if ByLock(a) || ByWatcher(a) || ByEngine(a) {
      OtherStepsKeepRecords(s, a);
    } else if a.Publish? {
      PublishKeepsRecords(s, a.t, a.watcher);
    } else {
      ConnectWorks(s, a);
    }
  }

  lemma FailsStays(s: State, u: State, n: nat)
    requires RecordsStay(s, u) && Fails(s, n)
    ensures Fails(u, n) && u.attempts[n].watcher == s.attempts[n].watcher && (IsDown(s, n) ==> IsDown(u, n))
  {
    var before, after := s.attempts[n], u.attempts[n];
    assert before.reports[0] == after.reports[0];
    assert forall i | 0 <= i < |before.word| :: before.word[i] == after.word[i];
  }

  lemma OthersDoNotMove(s: State, a: Action, w: nat)
    requires w in s.threads && !IsStepOf(a, w) && Step(s, a).Some?
    ensures w in Step(s, a).value.threads && Step(s, a).value.threads[w] == s.threads[w]
  {
  }

  /** The watcher of a failing session that is not down: each step it can take leads to the stop. */
  lemma WatcherGoesOn(s: State, a: Action, n: nat, w: nat)
    requires LocksOk(s) && ThreadsOk(s) && CoreOk(s) && GensOk(s) && DistinctOk(s) && Fails(s, n) && !IsDown(s, n)
    requires w in s.threads && s.threads[w].op.Watch? && s.threads[w].op.attempt == n && WatcherOk(s, w)
    requires IsCurrent(s, n) && KnowsWell(s, w) && IsStepOf(a, w) && Step(s, a).Some?
    ensures w in Step(s, a).value.threads
    ensures FatalWork(Step(s, a).value.threads[w].pc) < FatalWork(s.threads[w].pc)
  {
    assert FitsOp(s.threads[w]);
    if a.Decide? {
      DeciderStopsItsOwn(s, w);
    }
  }

  lemma StepNearsDown(s: State, a: Action, n: nat)
    requires Inv(s) && Step(s, a).Some?
    ensures DownNears(s, a, Step(s, a).value, n)
  {
    if Fails(s, n) {
      StepKeepsRecords(s, a);
      FailsStays(s, Step(s, a).value, n);
      if !IsDown(s, n) {
        WatcherMovesOn(s, a, n);
      }
    }
  }

  lemma WatcherMovesOn(s: State, a: Action, n: nat)
    requires Inv(s) && Step(s, a).Some? && Fails(s, n) && !IsDown(s, n)
    ensures var w, u := s.attempts[n].watcher, Step(s, a).value;
      && OnItsWay(s, n) && w in u.threads
      && (IsStepOf(a, w) ==> FatalWork(u.threads[w].pc) < FatalWork(s.threads[w].pc))
      && (!IsStepOf(a, w) ==> u.threads[w] == s.threads[w])
  {
    var w := s.attempts[n].watcher;
    FailsOnItsWay(s, n);
    if IsStepOf(a, w) {
      NotDownIsCurrent(s, n);
      assert IsWatched(s, n) && KnowsWell(s, w) && WatcherOk(s, w);
      WatcherGoesOn(s, a, n, w);
    } else {
      OthersDoNotMove(s, a, w);
    }
  }

  lemma {:induction false} DownCountsDown(run: Run<State, Action>, i: nat, j: nat, n: nat)
    requires |run.states| == |run.actions| + 1 && i <= j < |run.states|
    requires Fails(run.states[i], n) && !IsDown(run.states[j], n)
    requires forall k | i <= k < j :: DownNears(run.states[k], run.actions[k], run.states[k + 1], n)
    requires OnItsWay(run.states[i], n)
    ensures Fails(run.states[j], n) && !IsDown(run.states[i], n)
    ensures var w := run.states[i].attempts[n].watcher;
      && run.states[j].attempts[n].watcher == w && w in run.states[j].threads
      && OwnSteps(run.actions, w, i, j) + FatalWork(run.states[j].threads[w].pc)
         <= FatalWork(run.states[i].threads[w].pc)
    decreases j
  {
    if i < j {
      assert DownNears(run.states[j - 1], run.actions[j - 1], run.states[j - 1 + 1], n);
      StillFails(run, i, j - 1, n);
      DownCountsDown(run, i, j - 1, n);
    }
  }

  lemma {:induction false} StillFails(run: Run<State, Action>, i: nat, j: nat, n: nat)
    requires |run.states| == |run.actions| + 1 && i <= j < |run.states| && Fails(run.states[i], n)
    requires forall k | i <= k < j :: DownNears(run.states[k], run.actions[k], run.states[k + 1], n)
    ensures Fails(run.states[j], n)
    decreases j
  {
    if i < j {
      StillFails(run, i, j - 1, n);
      assert DownNears(run.states[j - 1], run.actions[j - 1], run.states[j - 1 + 1], n);
    }
  }

  /** A step of thread w, or one that brings the release of the lock closer. */
  predicate CanGo(s: State, a: Action, w: nat) {
    Step(s, a).Some? && (IsStepOf(a, w) || Helps(s, a))
  }

  lemma RunNearsDown(run: Run<State, Action>, i: nat, j: nat, n: nat)
    requires IsRun(Init, Step, run) && i <= j < |run.states|
    ensures forall k | i <= k < j :: DownNears(run.states[k], run.actions[k], run.states[k + 1], n)
  {
    forall k | i <= k < j ensures DownNears(run.states[k], run.actions[k], run.states[k + 1], n) {
      Reachable(run, k);
      StepNearsDown(run.states[k], run.actions[k], n);
    }
  }

  /** A fatal error tears the session down. Over every run: from where the first report of a published
      session is fatal, the session is down once its watcher has taken the at most twelve steps it has
      left; and until then the watcher can take one, or waits for a lock or a loop whose holder can. */
  lemma FatalErrorTearsDown(run: Run<State, Action>, i: nat, j: nat, n: nat)
    requires IsRun(Init, Step, run) && i <= j < |run.states| && Fails(run.states[i], n)
    ensures Fails(run.states[j], n)
    ensures !IsDown(run.states[j], n) ==>
      var w := run.states[i].attempts[n].watcher;
      && w in run.states[i].threads && w in run.states[j].threads
      && OwnSteps(run.actions, w, i, j) + FatalWork(run.states[j].threads[w].pc)
         <= FatalWork(run.states[i].threads[w].pc) <= 12
      && FatalWork(run.states[j].threads[w].pc) > 0
      && exists a :: CanGo(run.states[j], a, w)
  {
    RunNearsDown(run, i, j, n);
    StillFails(run, i, j, n);
    if !IsDown(run.states[j], n) {
      DownStays(run, i, j, n);
      FailingWatcherCanGo(run, i, n);
      DownCountsDown(run, i, j, n);
      FailingWatcherCanGo(run, j, n);
    }
  }

  lemma FailingWatcherCanGo(run: Run<State, Action>, i: nat, n: nat)
    requires IsRun(Init, Step, run) && i < |run.states| && Fails(run.states[i], n) && !IsDown(run.states[i], n)
    ensures OnItsWay(run.states[i], n)
    ensures exists a :: CanGo(run.states[i], a, run.states[i].attempts[n].watcher)
  {
    Reachable(run, i);
    var a := FailingWatcherMoves(run.states[i], n);
    assert CanGo(run.states[i], a, run.states[i].attempts[n].watcher);
  }

  lemma {:induction false} DownStays(run: Run<State, Action>, i: nat, j: nat, n: nat)
    requires |run.states| == |run.actions| + 1 && i <= j < |run.states| && Fails(run.states[i], n)
    requires forall k | i <= k < j :: DownNears(run.states[k], run.actions[k], run.states[k + 1], n)
    ensures IsDown(run.states[i], n) ==> IsDown(run.states[j], n)
    decreases j
  {
    if i < j {
      DownStays(run, i, j - 1, n);
      StillFails(run, i, j - 1, n);
      assert DownNears(run.states[j - 1], run.actions[j - 1], run.states[j - 1 + 1], n);
    }
  }

  lemma FailingWatcherMoves(s: State, n: nat) returns (a: Action)
    requires Inv(s) && Fails(s, n) && !IsDown(s, n)
    ensures OnItsWay(s, n)
    ensures Step(s, a).Some? && (IsStepOf(a, s.attempts[n].watcher) || Helps(s, a))
  {
    FailsOnItsWay(s, n);
    if s.holder.Some? {
      a := LockHolderMoves(s, true);
    } else {
      a := FreeWatcherMoves(s, n);
    }
  }

  lemma FreeWatcherMoves(s: State, n: nat) returns (a: Action)
    requires LocksOk(s) && PublishedOk(s) && KnowsOk(s) && Fails(s, n) && OnItsWay(s, n) && s.holder == None
    ensures IsStepOf(a, s.attempts[n].watcher) && Step(s, a).Some?
  {
    var w := s.attempts[n].watcher;
    assert IsWatched(s, n) && KnowsWell(s, w);
    match s.threads[w].pc {
      case Select => a := Receive(w);
      case Received(_) => a := Judge(w);
      case WantLock => a := Lock(w);
      case _ => assert false;
    }
  }

  /** The condition is exact: a watcher goes for the lock only if the first report is fatal. After a nil
      report it leaves, and no later one is received. */
  lemma OnlyFirstReportCounts(run: Run<State, Action>, i: nat, t: nat)
    requires IsRun(Init, Step, run) && i < |run.states|
    requires t in run.states[i].threads && run.states[i].threads[t].op.Watch?
    ensures var s, n := run.states[i], run.states[i].threads[t].op.attempt;
      && n in s.attempts && s.attempts[n].received <= 1
      && (s.threads[t].pc.WantLock? || s.threads[t].pc.Check? || s.threads[t].pc.Stop? ==> Fails(s, n))
  {
    Reachable(run, i);
    assert WatcherOk(run.states[i], t) && KnowsWell(run.states[i], t);
  }

  // A run in which a nil report comes first: the fatal one after it is never read.

  /** A step takes last to next. */
  ghost predicate Goes(last: State, a: Action, next: State) {
    Step(last, a).Some?
    && var u := Step(last, a).value;
       u.holder == next.holder && u.core == next.core && u.attempts == next.attempts && u.threads == next.threads
  }

  lemma Take(run: Run<State, Action>, last: State, a: Action, next: State) returns (longer: Run<State, Action>)
    requires IsRun(Init, Step, run) && EndsIn(run, last) && Goes(last, a, next)
    ensures IsRun(Init, Step, longer) && EndsIn(longer, next)
  {
    longer := Extend(Init, Step, run, last, a, next);
  }

  /** One Connect, before it has an adapter, ... */
  function Early(holder: Option<nat>, pc: Pc): State {
    State(holder, InitialCore(), map[], map[0 := Thread(Connect("home"), pc)])
  }

  /** ... building its session, ... */
  function Middle(k: nat, word: seq<Event>, loop: Loop): State {
    State(Some(0), InitialCore(), map[0 := Attempt(word, loop, loop, [], 0, 0, 0, 0)],
          map[0 := Thread(Connect("home"), Building(0, k))])
  }

  /** ... and with it up and watched. */
  function Late(
      holder: Option<nat>, connect: Pc, watch: Pc, first: Loop, second: Loop, reports: seq<bool>, received: nat)
    : State
  {
    State(holder, Published(InitialCore(), 0, "home"), map[0 := Attempt(UP, first, second, reports, received, 1, 1, 0)],
          map[0 := Thread(Connect("home"), connect), 1 := Thread(Watch(0, 1), watch)])
  }

  lemma EarlyGoes()
    ensures Goes(State(None, InitialCore(), map[], map[]), Call(0, Connect("home")), Early(None, WantLock))
    ensures Goes(Early(None, WantLock), Lock(0), Early(Some(0), Check))
    ensures Goes(Early(Some(0), Check), Decide(0), Early(Some(0), Parse))
  {
  }

  lemma AdapterGoes()
    ensures Goes(Early(Some(0), Parse), ParseConfig(0, true), Early(Some(0), CreateAdapter))
    ensures Goes(Early(Some(0), CreateAdapter), NewAdapter(0, Some(0)), Middle(1, UP[..1], NotStarted))
  {
  }

  lemma BuildGoes(k: nat)
    requires 1 <= k <= 3
    ensures Goes(Middle(k, UP[..k], NotStarted), Build(0, true), Middle(k + 1, UP[..k + 1], NotStarted))
  {
    assert UP[..k] + [UP[k]] == UP[..k + 1];
  }

  lemma RunGoes()
    ensures Goes(Middle(4, UP[..4], NotStarted), Build(0, true), Middle(5, UP, Running(false)))
  {
    assert UP[..4] + [UP[4]] == UP;
  }

  lemma PublishGoes()
    ensures Goes(Middle(5, UP, Running(false)), Publish(0, 1),
                 Late(Some(0), Unlock(Done), Select, Running(false), Running(false), [], 0))
  {
  }

  lemma ReleaseGoes()
    ensures Goes(Late(Some(0), Unlock(Done), Select, Running(false), Running(false), [], 0), Release(0),
                 Late(None, Returned(Done), Select, Running(false), Running(false), [], 0))
  {
  }

  lemma ReportGoes(watch: Pc, first: Loop, second: Loop, reports: seq<bool>, received: nat, isFirst: bool, fatal: bool)
    requires (if isFirst then first else second) == Running(false) && |reports| < 2
    ensures Goes(Late(None, Returned(Done), watch, first, second, reports, received), Report(0, isFirst, fatal),
                 Late(None, Returned(Done), watch, if isFirst then Running(true) else first,
                      if isFirst then second else Running(true), reports + [fatal], received))
  {
  }

  lemma ReceiveGoes(first: Loop, second: Loop, reports: seq<bool>)
    requires |reports| > 0
    ensures Goes(Late(None, Returned(Done), Select, first, second, reports, 0), Receive(1),
                 Late(None, Returned(Done), Received(reports[0]), first, second, reports, 1))
  {
  }

  lemma JudgeGoes(first: Loop, second: Loop, reports: seq<bool>)
    ensures Goes(Late(None, Returned(Done), Received(false), first, second, reports, 1), Judge(1),
                 Late(None, Returned(Done), Returned(Done), first, second, reports, 1))
  {
  }

  lemma ExitGoes(first: Loop, second: Loop, reports: seq<bool>, isFirst: bool)
    requires (if isFirst then first else second) == Running(true)
    ensures Goes(Late(None, Returned(Done), Returned(Done), first, second, reports, 1), LoopExit(0, isFirst),
                 Late(None, Returned(Done), Returned(Done), if isFirst then Exited(true) else first,
                      if isFirst then second else Exited(true), reports, 1))
  {
  }

  lemma RunToAdapter() returns (run: Run<State, Action>)
    ensures IsRun(Init, Step, run) && EndsIn(run, Middle(1, UP[..1], NotStarted))
  {
    EarlyGoes();
    AdapterGoes();
    var start := State(None, InitialCore(), map[], map[]);
    run := Run([start], []);
    run := Take(run, start, Call(0, Connect("home")), Early(None, WantLock));
    run := Take(run, Early(None, WantLock), Lock(0), Early(Some(0), Check));
    run := Take(run, Early(Some(0), Check), Decide(0), Early(Some(0), Parse));
    run := Take(run, Early(Some(0), Parse), ParseConfig(0, true), Early(Some(0), CreateAdapter));
    run := Take(run, Early(Some(0), CreateAdapter), NewAdapter(0, Some(0)), Middle(1, UP[..1], NotStarted));
  }

  lemma RunToUp() returns (run: Run<State, Action>)
    ensures IsRun(Init, Step, run)
    ensures EndsIn(run, Late(None, Returned(Done), Select, Running(false), Running(false), [], 0))
  {
    run := RunToAdapter();
    for k := 1 to 4
      invariant IsRun(Init, Step, run) && EndsIn(run, Middle(k, UP[..k], NotStarted))
    {
      BuildGoes(k);
      run := Take(run, Middle(k, UP[..k], NotStarted), Build(0, true), Middle(k + 1, UP[..k + 1], NotStarted));
    }
    RunGoes();
    PublishGoes();
    ReleaseGoes();
    var up := Late(Some(0), Unlock(Done), Select, Running(false), Running(false), [], 0);
    run := Take(run, Middle(4, UP[..4], NotStarted), Build(0, true), Middle(5, UP, Running(false)));
    run := Take(run, Middle(5, UP, Running(false)), Publish(0, 1), up);
    run := Take(run, up, Release(0), Late(None, Returned(Done), Select, Running(false), Running(false), [], 0));
  }

  lemma RunToNil() returns (run: Run<State, Action>)
    ensures IsRun(Init, Step, run)
    ensures EndsIn(run, Late(None, Returned(Done), Returned(Done), Running(true), Running(false), [false], 1))
  {
    run := RunToUp();
    var gone, on := Running(true), Running(false);
    ReportGoes(Select, on, on, [], 0, true, false);
    assert [] + [false] == [false];
    ReceiveGoes(gone, on, [false]);
    JudgeGoes(gone, on, [false]);
    run := Take(run, Late(None, Returned(Done), Select, on, on, [], 0), Report(0, true, false),
                Late(None, Returned(Done), Select, gone, on, [false], 0));
    run := Take(run, Late(None, Returned(Done), Select, gone, on, [false], 0), Receive(1),
                Late(None, Returned(Done), Received(false), gone, on, [false], 1));
    run := Take(run, Late(None, Returned(Done), Received(false), gone, on, [false], 1), Judge(1),
                Late(None, Returned(Done), Returned(Done), gone, on, [false], 1));
  }

  /** Both loops have gone, the second with a fatal error that lies in the channel; the session is still
      the current one, and its watcher has returned. */
  lemma NilReportLosesTheNext() returns (run: Run<State, Action>)
    ensures IsRun(Init, Step, run) && |run.states| > 0
    ensures var s := run.states[|run.states| - 1];
      && IsCurrent(s, 0) && s.attempts.Keys == {0} && LoopsExited(s.attempts[0])
      && s.attempts[0].reports == [false, true] && s.attempts[0].received == 1
      && At(s, s.attempts[0].watcher, Returned(Done))
  {
    run := RunToNil();
    var idle, gone, on := Returned(Done), Running(true), Running(false);
    ReportGoes(idle, gone, on, [false], 1, false, true);
    assert [false] + [true] == [false, true];
    ExitGoes(gone, gone, [false, true], true);
    ExitGoes(Exited(true), gone, [false, true], false);
    run := Take(run, Late(None, idle, idle, gone, on, [false], 1), Report(0, false, true),
                Late(None, idle, idle, gone, gone, [false, true], 1));
    run := Take(run, Late(None, idle, idle, gone, gone, [false, true], 1), LoopExit(0, true),
                Late(None, idle, idle, Exited(true), gone, [false, true], 1));
    run := Take(run, Late(None, idle, idle, Exited(true), gone, [false, true], 1), LoopExit(0, false),
                Late(None, idle, idle, Exited(true), Exited(true), [false, true], 1));
  }
}
