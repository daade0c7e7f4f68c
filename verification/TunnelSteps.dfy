/**
 What a tunnel session consists of and the order in which the controller brings it up and down
 (wintunnel/tunnel.go). The steps are shared by the interleaved protocol and by the methods of the
 Tunnel class. Every adapter Connect creates starts an attempt with a number of its own; the word
 of an attempt is everything done to its resources so far, in order.
 */
module TunnelSteps {
  import opened Wrappers

  datatype Event =
    | AdapterUp | SocketUp | RoutesUp | EngineBuilt | EngineRun
    | EngineClosed | RoutesDown | SocketClosed | AdapterClosed | EngineAwaited | DoneClosed

  /** Bringing a session up; a failure in the middle is undone from the end. */
  const UP: seq<Event> := [AdapterUp, SocketUp, RoutesUp, EngineBuilt, EngineRun]
  const UNDO: seq<Event> := [RoutesDown, SocketClosed, AdapterClosed]

  /** Taking it down. */
  const DOWN: seq<Event> := [EngineClosed, RoutesDown, SocketClosed, AdapterClosed, EngineAwaited, DoneClosed]

  /** The word of an attempt that failed holding its first total resources, when left are yet to go. */
  function UndoneTo(total: nat, left: nat): seq<Event>
    requires left <= total <= 3
  {
    UP[..total] + UNDO[3 - total..3 - left]
  }

  /** Nothing more will happen to such an attempt. */
  predicate Settled(word: seq<Event>) {
    word == UP + DOWN || word == UndoneTo(1, 0) || word == UndoneTo(2, 0) || word == UndoneTo(3, 0)
  }

  /** The fields of the controller; eng, tun, conn, cleanup and done name the attempt they belong to. */
  datatype Core = Core(
    running: bool, gen: nat, name: string, iface: string,
    eng: Option<nat>, tun: Option<nat>, conn: Option<nat>, cleanup: Option<nat>, done: Option<nat>)

  function InitialCore(): Core {
    Core(false, 0, "", "", None, None, None, None, None)
  }

  const ADAPTER_NAME: string := "veil0"

  /** The controller's fields once attempt a, named name, is up. */
  function Published(core: Core, a: nat, name: string): Core {
    Core(true, core.gen + 1, name, ADAPTER_NAME, Some(a), Some(a), Some(a), Some(a), Some(a))
  }

  /** The controller's fields once a running session, if any, has been stopped. */
  function Stopped(core: Core): Core {
    if core.running then InitialCore().(gen := core.gen + 1) else core
  }

  // ---------------------------------------------------------------- stopLocked, step by step

  datatype StopStage =
    | BumpGen | CloseEngine | RunCleanup | CloseSocket | CloseAdapter | AwaitEngine | CloseDone | ClearFields

  /** How many of the DOWN events have happened when a stage is about to run. */
  function Downs(stage: StopStage): nat {
    match stage
    case BumpGen => 0
    case CloseEngine => 0
    case RunCleanup => 1
    case CloseSocket => 2
    case CloseAdapter => 3
    case AwaitEngine => 4
    case CloseDone => 5
    case ClearFields => 6
  }

  /** The event of a stage and the field it acts through; a stage whose field is nil is skipped. */
  function StopEvent(core: Core, stage: StopStage): Option<(nat, Event)> {
    match stage
    case CloseEngine => if core.eng.Some? then Some((core.eng.value, EngineClosed)) else None
    case RunCleanup => if core.cleanup.Some? then Some((core.cleanup.value, RoutesDown)) else None
    case CloseSocket => if core.conn.Some? then Some((core.conn.value, SocketClosed)) else None
    case CloseAdapter => if core.tun.Some? then Some((core.tun.value, AdapterClosed)) else None
    case AwaitEngine => if core.eng.Some? then Some((core.eng.value, EngineAwaited)) else None
    case CloseDone => if core.done.Some? then Some((core.done.value, DoneClosed)) else None
    case _ => None
  }

  function StopCore(core: Core, stage: StopStage): Core {
    match stage
    case BumpGen => core.(gen := core.gen + 1)
    case ClearFields => Core(false, core.gen, "", "", None, None, None, None, None)
    case _ => core
  }

  function NextStage(stage: StopStage): Option<StopStage> {
    match stage
    case BumpGen => Some(CloseEngine)
    case CloseEngine => Some(RunCleanup)
    case RunCleanup => Some(CloseSocket)
    case CloseSocket => Some(CloseAdapter)
    case CloseAdapter => Some(AwaitEngine)
    case AwaitEngine => Some(CloseDone)
    case CloseDone => Some(ClearFields)
    case ClearFields => None
  }

  /** The fields after stopLocked has run from a stage to its end. */
  function StoppedFrom(core: Core, stage: StopStage): Core
    decreases 7 - Rank(stage)
  {
    match NextStage(stage)
    case None => StopCore(core, stage)
    case Some(next) => StoppedFrom(StopCore(core, stage), next)
  }

  /** What it does to the outside on the way, in order. */
  function StopTrace(core: Core, stage: StopStage): seq<(nat, Event)>
    decreases 7 - Rank(stage)
  {
    var now := match StopEvent(core, stage) case Some(event) => [event] case None => [];
    match NextStage(stage)
    case None => now
    case Some(next) => now + StopTrace(StopCore(core, stage), next)
  }

  function Rank(stage: StopStage): nat {
    if stage.BumpGen? then 0 else 1 + Downs(stage)
  }

  /** Stopping a running session, step by step, bumps the generation once and clears everything. */
  lemma StopClearsFields(core: Core)
    requires core.running
    ensures StoppedFrom(core, BumpGen) == Stopped(core)
  {
    var c := StopCore(core, BumpGen);
    assert StoppedFrom(c, CloseSocket) == InitialCore().(gen := core.gen + 1);
  }

  /** The events of a word, as they befall attempt a. */
  function Befalling(a: nat, word: seq<Event>): seq<(nat, Event)> {
    seq(|word|, i requires 0 <= i < |word| => (a, word[i]))
  }

  lemma {:induction false} StopDoesRest(core: Core, a: nat, stage: StopStage)
    requires core.eng == core.tun == core.conn == core.cleanup == core.done == Some(a)
    ensures StopTrace(core, stage) == Befalling(a, DOWN[Downs(stage)..])
    decreases 7 - Rank(stage)
  {
    var k := Downs(stage);
    match NextStage(stage) {
      case None =>
      case Some(next) =>
        StopDoesRest(StopCore(core, stage), a, next);
        if stage != BumpGen {
          assert StopEvent(core, stage) == Some((a, DOWN[k]));
          assert Befalling(a, DOWN[k..]) == [(a, DOWN[k])] + Befalling(a, DOWN[k + 1..]);
        }
    }
  }

  /** It does DOWN to the session a that the fields name, in that order, and to nothing else. */
  lemma StopDoesDown(core: Core, a: nat)
    requires core.eng == core.tun == core.conn == core.cleanup == core.done == Some(a)
    ensures StopTrace(core, BumpGen) == Befalling(a, DOWN)
  {
    StopDoesRest(core, a, BumpGen);
    assert DOWN[0..] == DOWN;
  }

  /** Each event of a word takes it to the next of the legal words. */
  lemma UpSteps()
    ensures UP[..1] == [AdapterUp] && UP[..1] + [SocketUp] == UP[..2] && UP[..2] + [RoutesUp] == UP[..3]
    ensures UP[..3] + [EngineBuilt] == UP[..4] && UP[..4] + [EngineRun] == UP
  {
  }

  lemma SliceGrows(s: seq<Event>, i: nat, j: nat)
    requires i <= j < |s|
    ensures s[i..j] + [s[j]] == s[i..j + 1]
  {
  }

  lemma UndoSteps(total: nat, left: nat)
    requires 1 <= total <= 3 && left <= total
    ensures UndoneTo(total, total) == UP[..total]
    ensures left > 0 ==> UndoneTo(total, left) + [UNDO[3 - left]] == UndoneTo(total, left - 1)
  {
    assert UNDO[3 - total..3 - total] == [];
    if left > 0 {
      SliceGrows(UNDO, 3 - total, 3 - left);
      assert UndoneTo(total, left) + [UNDO[3 - left]] == UP[..total] + (UNDO[3 - total..3 - left] + [UNDO[3 - left]]);
    }
  }

  lemma DownSteps()
    ensures UP + DOWN[..0] == UP
    ensures UP + DOWN[..0] + [EngineClosed] == UP + DOWN[..1] && UP + DOWN[..1] + [RoutesDown] == UP + DOWN[..2]
    ensures UP + DOWN[..2] + [SocketClosed] == UP + DOWN[..3] && UP + DOWN[..3] + [AdapterClosed] == UP + DOWN[..4]
    ensures UP + DOWN[..4] + [EngineAwaited] == UP + DOWN[..5] && UP + DOWN[..5] + [DoneClosed] == UP + DOWN
  {
  }

  // ---------------------------------------------------------------- what the words mean

  function CountTo(word: seq<Event>, e: Event, k: nat): nat
    requires k <= |word|
  {
    if k == 0 then 0 else CountTo(word, e, k - 1) + if word[k - 1] == e then 1 else 0
  }

  function Count(word: seq<Event>, e: Event): nat {
    CountTo(word, e, |word|)
  }

  /** Acquiring events and the events that release the same resource. */
  function Release(e: Event): Option<Event> {
    match e
    case AdapterUp => Some(AdapterClosed)
    case SocketUp => Some(SocketClosed)
    case RoutesUp => Some(RoutesDown)
    case EngineBuilt => Some(EngineClosed)
    case _ => None
  }

  /** Every resource acquired has been released exactly once, and nothing else has been released. */
  predicate Conserved(word: seq<Event>) {
    forall e: Event :: Release(e).Some? ==> Count(word, e) <= 1 && Count(word, Release(e).value) == Count(word, e)
  }

  /** Every resource has been acquired once, and none released. */
  predicate AllHeld(word: seq<Event>) {
    forall e: Event :: Release(e).Some? ==> Count(word, e) == 1 && Count(word, Release(e).value) == 0
  }

  lemma {:induction false} CountUnique(word: seq<Event>, e: Event, at: nat, k: nat)
    requires k <= |word| && forall i | 0 <= i < |word| :: word[i] == e <==> i == at
    ensures CountTo(word, e, k) == if at < k then 1 else 0
  {
    if k > 0 {
      CountUnique(word, e, at, k - 1);
    }
  }

  /** In the word of a session that has come and gone, everything happens exactly once. */
  lemma EverythingOnce(e: Event)
    ensures Count(UP + DOWN, e) == 1
  {
    var word := UP + DOWN;
    assert word == [AdapterUp, SocketUp, RoutesUp, EngineBuilt, EngineRun,
                    EngineClosed, RoutesDown, SocketClosed, AdapterClosed, EngineAwaited, DoneClosed];
    var at := match e
      case AdapterUp => 0 case SocketUp => 1 case RoutesUp => 2 case EngineBuilt => 3 case EngineRun => 4
      case EngineClosed => 5 case RoutesDown => 6 case SocketClosed => 7 case AdapterClosed => 8
      case EngineAwaited => 9 case DoneClosed => 10;
    CountUnique(word, e, at, |word|);
  }

  lemma UndoneWords()
    ensures UndoneTo(1, 0) == [AdapterUp, AdapterClosed]
    ensures UndoneTo(2, 0) == [AdapterUp, SocketUp, SocketClosed, AdapterClosed]
    ensures UndoneTo(3, 0) == [AdapterUp, SocketUp, RoutesUp, RoutesDown, SocketClosed, AdapterClosed]
  {
    assert UP[..1] == [AdapterUp] && UNDO[2..3] == [AdapterClosed];
    assert UP[..2] == [AdapterUp, SocketUp] && UNDO[1..3] == [SocketClosed, AdapterClosed];
    assert UP[..3] == [AdapterUp, SocketUp, RoutesUp] && UNDO[0..3] == [RoutesDown, SocketClosed, AdapterClosed];
  }

  lemma UndoneOnce(e: Event)
    ensures Count(UndoneTo(1, 0), e) == if e in {AdapterUp, AdapterClosed} then 1 else 0
    ensures Count(UndoneTo(2, 0), e) == if e in {AdapterUp, SocketUp, SocketClosed, AdapterClosed} then 1 else 0
    ensures Count(UndoneTo(3, 0), e)
         == if e in {AdapterUp, SocketUp, RoutesUp, RoutesDown, SocketClosed, AdapterClosed} then 1 else 0
  {
    var never := 6;
    UndoneWords();
    CountUnique(UndoneTo(1, 0), e, match e case AdapterUp => 0 case AdapterClosed => 1 case _ => never, 2);
    CountUnique(UndoneTo(2, 0), e,
      match e case AdapterUp => 0 case SocketUp => 1 case SocketClosed => 2 case AdapterClosed => 3 case _ => never, 4);
    CountUnique(UndoneTo(3, 0), e,
      match e case AdapterUp => 0 case SocketUp => 1 case RoutesUp => 2 case RoutesDown => 3 case SocketClosed => 4
      case AdapterClosed => 5 case _ => never, 6);
  }

  /** An attempt that is over has kept nothing and released nothing twice, whichever step of Connect
      failed; its done channel was closed just when its engine ever ran. */
  lemma SettledIsConserved(word: seq<Event>)
    requires Settled(word)
    ensures Conserved(word) && Count(word, DoneClosed) == Count(word, EngineRun)
  {
    EverythingOnce(DoneClosed);
    EverythingOnce(EngineRun);
    UndoneOnce(DoneClosed);
    UndoneOnce(EngineRun);
    forall e: Event
      ensures Count(word, e) <= 1
      ensures Release(e).Some? ==> Count(word, Release(e).value) == Count(word, e)
    {
      EverythingOnce(e);
      UndoneOnce(e);
      if Release(e).Some? {
        EverythingOnce(Release(e).value);
        UndoneOnce(Release(e).value);
      }
    }
  }

  lemma UpIsAllHeld()
    ensures AllHeld(UP) && Count(UP, DoneClosed) == 0
  {
    forall e: Event ensures Count(UP, e) == if e in UP then 1 else 0 {
      var never := 5;
      CountUnique(UP, e,
        match e case AdapterUp => 0 case SocketUp => 1 case RoutesUp => 2 case EngineBuilt => 3 case EngineRun => 4
        case _ => never, 5);
    }
  }
}
