/**
 The tunnel controller as a step system (wintunnel/tunnel.go): any number of Connect, Disconnect
 and Status calls, of sessions with their watchers, and of engine loops, interleaved arbitrarily.
 Calls and watchers are threads with numbers. The engine is not part of the repository; it is
 assumed to run two loops, each of which reports at most one error and exits after reporting or
 once the engine, the socket and the adapter have been closed.
 */
module TunnelProtocol {
  import opened Wrappers
  import opened Runs
  import opened TunnelSteps

  datatype Loop = NotStarted | Running(reported: bool) | Exited(reported: bool)

  /** reports is what the loops have reported, true for a non-nil error, the first received of it having
      been taken from the error channel; gen is the generation the session was published with, 0 before;
      watcher is the thread that watches it and builder the call that created its adapter. */
  datatype Attempt = Attempt(
    word: seq<Event>, first: Loop, second: Loop, reports: seq<bool>, received: nat, gen: nat, watcher: nat,
    builder: nat)

  const CHANNEL_CAPACITY: nat := 2

  datatype Op = Connect(name: string) | Disconnect | Status | Watch(attempt: nat, gen: nat)

  datatype Outcome = Done | Refused | Reported(connected: bool)

  datatype Pc =
    | WantLock
    | Check                                        // locked, before the first test
    | Stop(stage: StopStage)                       // inside stopLocked
    | Parse
    | CreateAdapter
    | Building(a: nat, k: nat)                     // Connect, with the first k events of UP done
    | Undo(undoing: nat, total: nat, left: nat)    // Connect, failed
    | Unlock(outcome: Outcome)
    | Select                                       // watcher, waiting for an error or done
    | Received(fatal: bool)                        // watcher, with an error in hand
    | Returned(result: Outcome)

  datatype Thread = Thread(op: Op, pc: Pc)

  datatype State = State(holder: Option<nat>, core: Core, attempts: map<nat, Attempt>, threads: map<nat, Thread>)

  datatype Action =
    | Call(t: nat, op: Op) | Lock(t: nat) | Decide(t: nat) | StopStep(t: nat)
    | ParseConfig(t: nat, ok: bool) | NewAdapter(t: nat, created: Option<nat>) | Build(t: nat, ok: bool)
    | UndoStep(t: nat) | Publish(t: nat, watcher: nat) | Release(t: nat)
    | Receive(t: nat) | SeeDone(t: nat) | Judge(t: nat)
    | Report(attempt: nat, isFirst: bool, fatal: bool) | LoopExit(attempt: nat, isFirst: bool)

  predicate Init(s: State) {
    s == State(None, InitialCore(), map[], map[])
  }

  predicate At(s: State, t: nat, pc: Pc) {
    t in s.threads && s.threads[t].pc == pc
  }

  function Go(s: State, t: nat, pc: Pc): State
    requires t in s.threads
  {
    s.(threads := s.threads[t := s.threads[t].(pc := pc)])
  }

  function Log(s: State, a: nat, e: Event): State {
    if a in s.attempts then s.(attempts := s.attempts[a := s.attempts[a].(word := s.attempts[a].word + [e])]) else s
  }

  predicate LoopsExited(at: Attempt) {
    !at.first.Running? && !at.second.Running?
  }

  /** The test a thread makes with the lock: does it stop the running session? */
  predicate WantsStop(core: Core, op: Op) {
    core.running && (match op
                     case Connect(_) => true
                     case Disconnect => true
                     case Status => false
                     case Watch(_, gen) => core.gen == gen)
  }

  function AfterCheck(core: Core, op: Op): Pc {
    match op
    case Connect(_) => Parse
    case Status => Unlock(Reported(core.running && core.eng.Some?))
    case _ => Unlock(Done)
  }

  function LockStep(s: State, a: Action): Option<State> {
    match a
    case Call(t, op) =>
      if t in s.threads || op.Watch? then None else Some(s.(threads := s.threads[t := Thread(op, WantLock)]))
    case Lock(t) =>
      if At(s, t, WantLock) && s.holder == None then Some(Go(s, t, Check).(holder := Some(t))) else None
    case Decide(t) =>
      if !At(s, t, Check) then None
      else if WantsStop(s.core, s.threads[t].op) then Some(Go(s, t, Stop(BumpGen)))
      else Some(Go(s, t, AfterCheck(s.core, s.threads[t].op)))
    case Release(t) =>
      if t in s.threads && s.threads[t].pc.Unlock?
      then Some(Go(s, t, Returned(s.threads[t].pc.outcome)).(holder := None)) else None
    case _ => None
  }

  function StopAction(s: State, t: nat): Option<State> {
    if !(t in s.threads && s.threads[t].pc.Stop?) then None else
    var stage := s.threads[t].pc.stage;
    var event := StopEvent(s.core, stage);
    if stage == AwaitEngine && event.Some? && event.value.0 in s.attempts
       && !LoopsExited(s.attempts[event.value.0]) then None else
    var logged := if event.Some? then Log(s, event.value.0, event.value.1) else s;
    Some(Go(logged, t, match NextStage(stage)
                       case Some(next) => Stop(next)
                       case None => AfterCheck(StopCore(s.core, stage), s.threads[t].op))
         .(core := StopCore(s.core, stage)))
  }

  function ConnectStep(s: State, a: Action): Option<State> {
    match a
    case ParseConfig(t, ok) =>
      if At(s, t, Parse) then Some(Go(s, t, if ok then CreateAdapter else Unlock(Refused))) else None
    case NewAdapter(t, created) =>
      if !At(s, t, CreateAdapter) then None
      else (match created
            case None => Some(Go(s, t, Unlock(Refused)))
            case Some(n) =>
              if n in s.attempts then None
              else
                var at := Attempt(UP[..1], NotStarted, NotStarted, [], 0, 0, 0, t);
                Some(Go(s, t, Building(n, 1)).(attempts := s.attempts[n := at])))
    case Build(t, ok) =>
      if !(t in s.threads && s.threads[t].pc.Building?) then None else
      var n, k := s.threads[t].pc.a, s.threads[t].pc.k;
      if n !in s.attempts || k == 0 || k >= 5 then None
      else if k <= 3 && !ok then Some(Go(s, t, Undo(n, k, k)))
      else
        var next := Go(Log(s, n, UP[k]), t, Building(n, k + 1));
        var on := Running(false);
        Some(if k == 4 then next.(attempts := next.attempts[n := next.attempts[n].(first := on, second := on)])
             else next)
    case UndoStep(t) =>
      if !(t in s.threads && s.threads[t].pc.Undo?) then None else
      var Undo(n, total, left) := s.threads[t].pc;
      if left == 0 || left > total || total > 3 then Some(Go(s, t, Unlock(Refused)))
      else Some(Go(Log(s, n, UNDO[3 - left]), t, Undo(n, total, left - 1)))
    case Publish(t, watcher) =>
      if !(t in s.threads && s.threads[t].pc.Building? && s.threads[t].pc.k == 5 && s.threads[t].op.Connect?)
      then None else
      var n := s.threads[t].pc.a;
      if watcher in s.threads || n !in s.attempts then None else
      var core := Published(s.core, n, s.threads[t].op.name);
      Some(s.(core := core,
              attempts := s.attempts[n := s.attempts[n].(gen := core.gen, watcher := watcher)],
              threads := s.threads[t := s.threads[t].(pc := Unlock(Done))]
                                  [watcher := Thread(Watch(n, core.gen), Select)]))
    case _ => None
  }

  function WatchStep(s: State, a: Action): Option<State> {
    match a
    case Receive(t) =>
      if !(At(s, t, Select) && s.threads[t].op.Watch? && s.threads[t].op.attempt in s.attempts) then None else
      var n := s.threads[t].op.attempt;
      var at := s.attempts[n];
      if at.received >= |at.reports| then None
      else Some(Go(s, t, Received(at.reports[at.received]))
                .(attempts := s.attempts[n := at.(received := at.received + 1)]))
    case SeeDone(t) =>
      if At(s, t, Select) && s.threads[t].op.Watch? && s.threads[t].op.attempt in s.attempts
         && DoneClosed in s.attempts[s.threads[t].op.attempt].word
      then Some(Go(s, t, Returned(Done))) else None
    case Judge(t) =>
      if t in s.threads && s.threads[t].pc.Received?
      then Some(Go(s, t, if s.threads[t].pc.fatal then WantLock else Returned(Done))) else None
    case _ => None
  }

  predicate AllClosed(word: seq<Event>) {
    EngineClosed in word && SocketClosed in word && AdapterClosed in word
  }

  function LoopOf(at: Attempt, isFirst: bool): Loop {
    if isFirst then at.first else at.second
  }

  function SetLoop(at: Attempt, isFirst: bool, l: Loop): Attempt {
    if isFirst then at.(first := l) else at.(second := l)
  }

  function InChannel(at: Attempt): int {
    |at.reports| - at.received
  }

  function EngineStep(s: State, a: Action): Option<State> {
    match a
    case Report(n, isFirst, fatal) =>
      if n in s.attempts && LoopOf(s.attempts[n], isFirst) == Running(false)
         && InChannel(s.attempts[n]) < CHANNEL_CAPACITY
      then Some(s.(attempts := s.attempts[n :=
             SetLoop(s.attempts[n], isFirst, Running(true)).(reports := s.attempts[n].reports + [fatal])]))
      else None
    case LoopExit(n, isFirst) =>
      if n !in s.attempts || !LoopOf(s.attempts[n], isFirst).Running? then None else
      var reported := LoopOf(s.attempts[n], isFirst).reported;
      if reported || AllClosed(s.attempts[n].word)
      then Some(s.(attempts := s.attempts[n := SetLoop(s.attempts[n], isFirst, Exited(reported))]))
      else None
    case _ => None
  }

  function Step(s: State, a: Action): Option<State> {
    if a.StopStep? then StopAction(s, a.t)
    else if ByLock(a) then LockStep(s, a)
    else if ByWatcher(a) then WatchStep(s, a)
    else if ByEngine(a) then EngineStep(s, a)
    else ConnectStep(s, a)
  }

  predicate ByLock(a: Action) {
    a.Call? || a.Lock? || a.Decide? || a.Release?
  }

  predicate ByWatcher(a: Action) {
    a.Receive? || a.SeeDone? || a.Judge?
  }

  predicate ByEngine(a: Action) {
    a.Report? || a.LoopExit?
  }

  // ---------------------------------------------------------------- invariant

  predicate NeedsLock(pc: Pc) {
    !(pc.WantLock? || pc.Select? || pc.Received? || pc.Returned?)
  }

  /** What the lock holder is doing; Returned when the lock is free. */
  function Doing(s: State): Pc {
    if s.holder.Some? && s.holder.value in s.threads then s.threads[s.holder.value].pc else Returned(Done)
  }

  ghost predicate LocksOk(s: State) {
    && (s.holder.Some? ==> s.holder.value in s.threads)
    && (forall t | t in s.threads :: NeedsLock(s.threads[t].pc) <==> s.holder == Some(t))
  }

  /** The kind of a thread agrees with where it is. */
  predicate FitsOp(thread: Thread) {
    && (thread.pc.Parse? || thread.pc.CreateAdapter? || thread.pc.Building? || thread.pc.Undo? ==> thread.op.Connect?)
    && (thread.pc.Select? || thread.pc.Received? ==> thread.op.Watch?)
    && (thread.pc.Stop? ==> !thread.op.Status?)
  }

  ghost predicate ThreadsOk(s: State) {
    forall t | t in s.threads :: FitsOp(s.threads[t])
  }

  /** All five fields name the running session; or all are nil. */
  ghost predicate CoreOk(s: State) {
    && (s.core.running ==>
          && s.core.eng.Some? && s.core.eng.value in s.attempts
          && s.core.tun == s.core.conn == s.core.cleanup == s.core.done == s.core.eng
          && s.core.iface == ADAPTER_NAME)
    && (!s.core.running ==> s.core == InitialCore().(gen := s.core.gen))
    && (Doing(s).Stop? ==> s.core.running)
    && (Doing(s).Parse? || Doing(s).CreateAdapter? || Doing(s).Building? || Doing(s).Undo? ==> !s.core.running)
    && (Doing(s).Building? ==> 1 <= Doing(s).k <= 5 && Doing(s).a in s.attempts)
    && (Doing(s).Undo? ==>
          Doing(s).left <= Doing(s).total <= 3 && 1 <= Doing(s).total && Doing(s).undoing in s.attempts)
  }

  predicate IsCurrent(s: State, a: nat) {
    s.core.running && s.core.eng == Some(a)
  }

  /** What must have been done to attempt a, by what the fields and the lock holder say. */
  ghost predicate WordOk(s: State, a: nat)
    requires a in s.attempts && CoreOk(s)
  {
    var word := s.attempts[a].word;
    var doing := Doing(s);
    if IsCurrent(s, a) then word == UP + DOWN[..if doing.Stop? then Downs(doing.stage) else 0]
    else if doing.Building? && doing.a == a then word == UP[..doing.k]
    else if doing.Undo? && doing.undoing == a then word == UndoneTo(doing.total, doing.left)
    else Settled(word)
  }

  ghost predicate WordsOk(s: State)
    requires CoreOk(s)
  {
    forall a | a in s.attempts :: WordOk(s, a)
  }

  predicate Started(word: seq<Event>) {
    |word| >= 5 && word[4] == EngineRun
  }

  predicate Awaited(word: seq<Event>) {
    |word| >= 10 && word[9] == EngineAwaited
  }

  predicate HasReported(l: Loop) {
    !l.NotStarted? && l.reported
  }

  /** The loops run from EngineRun on, have exited by EngineAwaited, and have reported at most one error
      each. */
  predicate LoopsOkFor(at: Attempt) {
    && (Started(at.word) <==> !at.first.NotStarted?) && (Started(at.word) <==> !at.second.NotStarted?)
    && (Awaited(at.word) ==> LoopsExited(at))
    && (at.gen > 0 ==> Started(at.word))
    && at.received <= |at.reports|
    && |at.reports| <= (if HasReported(at.first) then 1 else 0) + (if HasReported(at.second) then 1 else 0)
  }

  ghost predicate LoopsOk(s: State) {
    forall a | a in s.attempts :: LoopsOkFor(s.attempts[a])
  }

  /** No two sessions were published with the same generation. */
  ghost predicate DistinctOk(s: State) {
    forall a, b | a in s.attempts && b in s.attempts :: s.attempts[a].gen == s.attempts[b].gen > 0 ==> a == b
  }

  /** The running session has the current generation. */
  ghost predicate GensOk(s: State)
    requires CoreOk(s)
  {
    && (forall a | a in s.attempts :: s.attempts[a].gen <= s.core.gen)
    && (s.core.running ==>
          && s.attempts[s.core.eng.value].gen > 0
          && s.core.gen
             == s.attempts[s.core.eng.value].gen + if Doing(s).Stop? && !Doing(s).stage.BumpGen? then 1 else 0)
    && (Doing(s).Building? ==> s.attempts[Doing(s).a].gen == 0)
    && (Doing(s).Undo? ==> s.attempts[Doing(s).undoing].gen == 0)
  }

  /** A watcher knows the generation of its session and is its only one, and inside stopLocked it stops
      its own session. */
  predicate WatcherOk(s: State, t: nat)
    requires t in s.threads && s.threads[t].op.Watch?
  {
    var Watch(n, gen) := s.threads[t].op;
    && n in s.attempts && s.attempts[n].gen == gen > 0 && s.attempts[n].watcher == t
    && (s.threads[t].pc.Stop? ==> s.core.eng == Some(n))
  }

  ghost predicate WatchersOk(s: State) {
    forall t | t in s.threads && s.threads[t].op.Watch? :: WatcherOk(s, t)
  }

  /** What a watcher knows by where it is: it takes one report, acts on it if it is fatal, and leaves
      once the session is down or after a report that is not. */
  predicate Knows(at: Attempt, pc: Pc) {
    match pc
    case Select => at.received == 0
    case Received(fatal) => at.received == 1 <= |at.reports| && at.reports[0] == fatal
    case Unlock(_) => at.received <= 1 && DoneClosed in at.word
    case Returned(_) =>
      at.received <= 1 && (DoneClosed in at.word || (at.received == 1 <= |at.reports| && !at.reports[0]))
    case _ => at.received == 1 <= |at.reports| && at.reports[0]
  }

  predicate KnowsWell(s: State, t: nat)
    requires t in s.threads
  {
    s.threads[t].op.Watch? ==>
      s.threads[t].op.attempt in s.attempts && Knows(s.attempts[s.threads[t].op.attempt], s.threads[t].pc)
  }

  ghost predicate KnowsOk(s: State) {
    forall t | t in s.threads :: KnowsWell(s, t)
  }

  /** A published session has its watcher; from another nothing has been received. */
  predicate IsWatched(s: State, a: nat)
    requires a in s.attempts
  {
    var at := s.attempts[a];
    if at.gen > 0 then at.watcher in s.threads && s.threads[at.watcher].op == Watch(a, at.gen) else at.received == 0
  }

  ghost predicate PublishedOk(s: State) {
    forall a | a in s.attempts :: IsWatched(s, a)
  }

  /** What a call may answer, by what it was asked for, when it gives the lock back. */
  predicate Answers(s: State, t: nat, outcome: Outcome)
    requires t in s.threads
  {
    match s.threads[t].op
    case Disconnect => outcome == Done && !s.core.running
    case Status => outcome == Reported(s.core.running)
    case Watch(_, _) => outcome == Done
    case Connect(name) =>
      if outcome == Done then
        && s.core.running && s.core.name == name
        && s.core.eng.Some? && s.core.eng.value in s.attempts && s.attempts[s.core.eng.value].builder == t
      else outcome == Refused && !s.core.running
  }

  /** The lock holder builds or undoes an attempt of its own, and answers truly. */
  predicate HoldsWell(s: State, t: nat)
    requires t in s.threads
  {
    match s.threads[t].pc
    case Building(a, _) => a in s.attempts && s.attempts[a].builder == t
    case Undo(a, _, _) => a in s.attempts && s.attempts[a].builder == t
    case Unlock(outcome) => Answers(s, t, outcome)
    case _ => true
  }

  predicate HolderOk(s: State) {
    s.holder.Some? && s.holder.value in s.threads ==> HoldsWell(s, s.holder.value)
  }

  ghost predicate Inv(s: State) {
    && LocksOk(s) && ThreadsOk(s) && CoreOk(s) && WordsOk(s) && LoopsOk(s)
    && DistinctOk(s) && GensOk(s) && WatchersOk(s) && KnowsOk(s) && PublishedOk(s) && HolderOk(s)
  }
}
