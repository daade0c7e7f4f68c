/**
 The shutdown handshake of the TUN device (veiltun/device.go): one reader, one writer, any
 number of Close calls and the driver, interleaved step by step. The closed flag, the wait
 group and the read-wait event are the shared state; the event is an auto-reset flag that the
 driver raises whenever it queues a packet.
 */
module DeviceShutdown {
  import opened Wrappers
  import opened Runs
  import opened Rings

  /** Where the goroutine calling Read is. Slot index and packet count coincide, so n is both. */
  datatype ReaderPc =
    | RIdle(refused: bool)             // no call running; refused: the last one returned ErrClosed
    | RRetry(len: nat)                 // at the retry label, counted in the wait group
    | RLoop(n: nat, len: nat)          // at the head of the batch loop
    | RPoll(n: nat, len: nat)          // about to call ReceivePacket
    | RRelease(n: nat, len: nat)       // packet copied, about to call ReleaseReceivePacket
    | RWait(len: nat)                  // blocked on the read-wait event
    | RLeave(refused: bool)            // result decided, deferred Done outstanding

  /** Where the goroutine calling Write is; left is the number of buffers still to go. */
  datatype WriterPc =
    | WIdle(refused: bool)
    | WCheck(left: nat)
    | WLoop(left: nat)
    | WSend(left: nat)
    | WLeave(refused: bool)

  datatype CloserPc = CAtOnce | CStore | CSignal | CAwait | CEnd | CAdapter | CReturned

  datatype Once = Fresh | Busy(owner: nat) | Finished

  datatype Device = Device(
    closed: bool,
    event: bool,
    running: int,
    ends: nat,
    adapterCloses: nat,
    once: Once,
    queued: nat,
    reader: ReaderPc,
    writer: WriterPc,
    closers: map<nat, CloserPc>)

  datatype Action =
    | BeginRead(len: nat) | RetryCheck | LoopCheck | Poll(outcome: Receipt, park: bool)
    | Release | Wake | EndRead
    | BeginWrite(bufs: nat) | WriteCheck | SkipBuffer | Alloc(granted: Allotment) | Send | LoopDone | EndWrite
    | CallClose(c: nat) | EnterOnce(c: nat) | StoreClosed(c: nat) | SignalEvent(c: nat)
    | AwaitCalls(c: nat) | EndSession(c: nat) | CloseAdapter(c: nat)
    | Enqueue

  predicate Init(s: Device) {
    s == Device(false, false, 0, 0, 0, Fresh, 0, RIdle(false), WIdle(false), map[])
  }

  function ReadStep(s: Device, a: Action): Option<Device> {
    match (a, s.reader)
    case (BeginRead(len), RIdle(_)) => Some(s.(reader := RRetry(len), running := s.running + 1))
    case (RetryCheck, RRetry(len)) => Some(s.(reader := if s.closed then RLeave(true) else RLoop(0, len)))
    case (LoopCheck, RLoop(n, len)) =>
      Some(s.(reader := if n >= len then RLeave(false) else if s.closed then RLeave(n == 0) else RPoll(n, len)))
    case (Poll(outcome, park), RPoll(n, len)) =>
      (match outcome
       case Received(_) => if s.queued == 0 then None else Some(s.(reader := RRelease(n, len), queued := s.queued - 1))
       case NoMoreItems =>
         if s.queued > 0 then None
         else Some(s.(reader := if n > 0 then RLeave(false) else if park then RWait(len) else RLoop(n, len)))
       case HandleEof => Some(s.(reader := RLeave(n == 0)))
       case ReceiveFailed => Some(s.(reader := RLeave(false))))
    case (Release, RRelease(n, len)) => Some(s.(reader := RLoop(n + 1, len)))
    case (Wake, RWait(len)) => if s.event then Some(s.(reader := RRetry(len), event := false)) else None
    case (EndRead, RLeave(refused)) => Some(s.(reader := RIdle(refused), running := s.running - 1))
    case _ => None
  }

  function WriteStep(s: Device, a: Action): Option<Device> {
    match (a, s.writer)
    case (BeginWrite(bufs), WIdle(_)) => Some(s.(writer := WCheck(bufs), running := s.running + 1))
    case (WriteCheck, WCheck(left)) => Some(s.(writer := if s.closed then WLeave(true) else WLoop(left)))
    case (SkipBuffer, WLoop(left)) => if left == 0 then None else Some(s.(writer := WLoop(left - 1)))
    case (Alloc(granted), WLoop(left)) =>
      if left == 0 then None else
      Some(s.(writer := match granted
                        case Granted => WSend(left)
                        case BufferOverflow => WLoop(left - 1)
                        case AllocEof => WLeave(true)
                        case AllocFailed => WLeave(false)))
    case (Send, WSend(left)) => if left == 0 then None else Some(s.(writer := WLoop(left - 1)))
    case (LoopDone, WLoop(left)) => if left == 0 then Some(s.(writer := WLeave(false))) else None
    case (EndWrite, WLeave(refused)) => Some(s.(writer := WIdle(refused), running := s.running - 1))
    case _ => None
  }

  /** The steps of Close; the body runs inside closeOnce.Do, and later callers wait for it there. */
  function CloseStep(s: Device, a: Action): Option<Device> {
    match a
    case CallClose(c) => if c in s.closers then None else Some(s.(closers := s.closers[c := CAtOnce]))
    case EnterOnce(c) =>
      if !(c in s.closers && s.closers[c] == CAtOnce) then None
      else (match s.once
            case Fresh => Some(s.(once := Busy(c), closers := s.closers[c := CStore]))
            case Busy(_) => None
            case Finished => Some(s.(closers := s.closers[c := CReturned])))
    case StoreClosed(c) =>
      if At(s, c, CStore) then Some(s.(closed := true, closers := s.closers[c := CSignal])) else None
    case SignalEvent(c) =>
      if At(s, c, CSignal) then Some(s.(event := true, closers := s.closers[c := CAwait])) else None
    case AwaitCalls(c) =>
      if At(s, c, CAwait) && s.running == 0 then Some(s.(closers := s.closers[c := CEnd])) else None
    case EndSession(c) =>
      if At(s, c, CEnd) then Some(s.(ends := s.ends + 1, closers := s.closers[c := CAdapter])) else None
    case CloseAdapter(c) =>
      if At(s, c, CAdapter)
      then Some(s.(adapterCloses := s.adapterCloses + 1, once := Finished, closers := s.closers[c := CReturned]))
      else None
    case _ => None
  }

  predicate At(s: Device, c: nat, pc: CloserPc) {
    c in s.closers && s.closers[c] == pc
  }

  function Step(s: Device, a: Action): Option<Device> {
    match a
    case Enqueue => Some(s.(queued := s.queued + 1, event := true))
    case BeginRead(_) => ReadStep(s, a)
    case RetryCheck => ReadStep(s, a)
    case LoopCheck => ReadStep(s, a)
    case Poll(_, _) => ReadStep(s, a)
    case Release => ReadStep(s, a)
    case Wake => ReadStep(s, a)
    case EndRead => ReadStep(s, a)
    case BeginWrite(_) => WriteStep(s, a)
    case WriteCheck => WriteStep(s, a)
    case SkipBuffer => WriteStep(s, a)
    case Alloc(_) => WriteStep(s, a)
    case Send => WriteStep(s, a)
    case LoopDone => WriteStep(s, a)
    case EndWrite => WriteStep(s, a)
    case _ => CloseStep(s, a)
  }

  /** Steps that call into the driver's rings through the session handle, or wait on its event. */
  predicate UsesSession(a: Action) {
    a.Poll? || a.Release? || a.Wake? || a.Alloc? || a.Send?
  }

  // ---------------------------------------------------------------- invariant

  predicate InBody(pc: CloserPc) {
    pc.CStore? || pc.CSignal? || pc.CAwait? || pc.CEnd? || pc.CAdapter?
  }

  /** The progress of Close's once-body: 0 before it starts, 6 when it has finished. */
  function PhaseOf(once: Once, closers: map<nat, CloserPc>): nat {
    match once
    case Fresh => 0
    case Finished => 6
    case Busy(c) =>
      if c !in closers then 0 else
      match closers[c]
      case CStore => 1
      case CSignal => 2
      case CAwait => 3
      case CEnd => 4
      case CAdapter => 5
      case _ => 0
  }

  function Phase(s: Device): nat {
    PhaseOf(s.once, s.closers)
  }

  predicate ReaderPastCheck(pc: ReaderPc) {
    pc.RLoop? || pc.RPoll? || pc.RRelease? || pc.RWait?
  }

  predicate WriterPastCheck(pc: WriterPc) {
    pc.WLoop? || pc.WSend?
  }

  /** Exactly the closer that owns the once-body is inside it; none has returned before it finished. */
  ghost predicate ClosersOk(once: Once, closers: map<nat, CloserPc>) {
    && (forall c | c in closers :: InBody(closers[c]) <==> once == Busy(c))
    && (once.Busy? ==> once.owner in closers)
    && (forall c | c in closers && closers[c].CReturned? :: once.Finished?)
  }

  /** What the phase says of the flags and of the outside. */
  predicate FlagsOk(s: Device, phase: nat) {
    && (s.closed <==> phase >= 2)
    && s.ends == (if phase >= 5 then 1 else 0)
    && s.adapterCloses == (if phase == 6 then 1 else 0)
  }

  predicate CallsOk(s: Device, phase: nat) {
    && s.running == (if s.reader.RIdle? then 0 else 1) + (if s.writer.WIdle? then 0 else 1)
    // Close's wait has seen every call that got past its closed check.
    && (phase >= 4 ==> !ReaderPastCheck(s.reader) && !WriterPastCheck(s.writer))
    // Close's wake-up cannot be consumed by a reader that will not look at closed again.
    && (phase == 3 && ReaderPastCheck(s.reader) ==> s.event)
    // A parked reader with a packet queued has a wake-up pending.
    && (s.reader.RWait? && s.queued > 0 ==> s.event)
    && (s.writer.WSend? ==> s.writer.left > 0)
  }

  ghost predicate Inv(s: Device) {
    ClosersOk(s.once, s.closers) && FlagsOk(s, Phase(s)) && CallsOk(s, Phase(s))
  }

  lemma PollKeepsCalls(s: Device, outcome: Receipt, park: bool, phase: nat)
    requires FlagsOk(s, phase) && CallsOk(s, phase) && ReadStep(s, Poll(outcome, park)).Some?
    ensures FlagsOk(ReadStep(s, Poll(outcome, park)).value, phase)
    ensures CallsOk(ReadStep(s, Poll(outcome, park)).value, phase)
  {
  }

  lemma ReadStepKeepsCalls(s: Device, a: Action, phase: nat)
    requires FlagsOk(s, phase) && CallsOk(s, phase) && ReadStep(s, a).Some?
    ensures FlagsOk(ReadStep(s, a).value, phase) && CallsOk(ReadStep(s, a).value, phase)
    ensures ReadStep(s, a).value.once == s.once && ReadStep(s, a).value.closers == s.closers
  {
    if a.Poll? {
      PollKeepsCalls(s, a.outcome, a.park, phase);
    }
  }

  lemma WriteStepKeepsCalls(s: Device, a: Action, phase: nat)
    requires FlagsOk(s, phase) && CallsOk(s, phase) && WriteStep(s, a).Some?
    ensures FlagsOk(WriteStep(s, a).value, phase) && CallsOk(WriteStep(s, a).value, phase)
    ensures WriteStep(s, a).value.once == s.once && WriteStep(s, a).value.closers == s.closers
  {
  }

  lemma NewCloserKeeps(once: Once, closers: map<nat, CloserPc>, c: nat)
    requires ClosersOk(once, closers) && c !in closers
    ensures ClosersOk(once, closers[c := CAtOnce]) && PhaseOf(once, closers[c := CAtOnce]) == PhaseOf(once, closers)
  {
  }

  lemma EnterKeeps(once: Once, closers: map<nat, CloserPc>, c: nat)
    requires ClosersOk(once, closers) && c in closers && closers[c] == CAtOnce
    ensures once.Fresh? ==> ClosersOk(Busy(c), closers[c := CStore]) && PhaseOf(Busy(c), closers[c := CStore]) == 1
    ensures once.Finished? ==> ClosersOk(once, closers[c := CReturned])
  {
  }

  /** The owner of the once-body goes on to its next step, or out of it. */
  lemma BodyKeeps(once: Once, closers: map<nat, CloserPc>, c: nat, pc: CloserPc)
    requires ClosersOk(once, closers) && c in closers && InBody(closers[c])
    ensures once == Busy(c)
    ensures InBody(pc) ==> ClosersOk(once, closers[c := pc])
    ensures ClosersOk(Finished, closers[c := CReturned])
  {
  }

  predicate EntersOrCalls(a: Action) {
    a.CallClose? || a.EnterOnce?
  }

  lemma EntryInv(s: Device, a: Action)
    requires Inv(s) && EntersOrCalls(a) && CloseStep(s, a).Some?
    ensures Inv(CloseStep(s, a).value)
    ensures Phase(CloseStep(s, a).value) == if a.EnterOnce? && s.once.Fresh? then 1 else Phase(s)
  {
    if a.CallClose? {
      NewCloserKeeps(s.once, s.closers, a.c);
    } else {
      EnterKeeps(s.once, s.closers, a.c);
    }
  }

  lemma BodyStepInv(s: Device, a: Action)
    requires Inv(s) && !EntersOrCalls(a) && CloseStep(s, a).Some?
    ensures Inv(CloseStep(s, a).value) && Phase(CloseStep(s, a).value) == Phase(s) + 1
  {
    BodyKeeps(s.once, s.closers, a.c, CloseStep(s, a).value.closers[a.c]);
  }

  lemma CloseStepInv(s: Device, a: Action)
    requires Inv(s) && CloseStep(s, a).Some?
    ensures Inv(CloseStep(s, a).value)
    ensures Phase(CloseStep(s, a).value)
         == if a.CallClose? || (a.EnterOnce? && s.once.Finished?) then Phase(s) else Phase(s) + 1
  {
    if EntersOrCalls(a) { EntryInv(s, a); } else { BodyStepInv(s, a); }
  }

  lemma StepInv(s: Device, a: Action)
    requires Inv(s) && Step(s, a).Some?
    ensures Inv(Step(s, a).value)
  {
    if ReadStep(s, a).Some? { ReadStepKeepsCalls(s, a, Phase(s)); }
    if WriteStep(s, a).Some? { WriteStepKeepsCalls(s, a, Phase(s)); }
    if CloseStep(s, a).Some? { CloseStepInv(s, a); }
  }

  lemma InvInductive()
    ensures Inductive(Init, Step, Inv)
  {
    forall s, a | Inv(s) && Step(s, a).Some? ensures Inv(Step(s, a).value) {
      StepInv(s, a);
    }
  }

  lemma Reachable(run: Run<Device, Action>, i: nat)
    requires IsRun(Init, Step, run) && i < |run.states|
    ensures Inv(run.states[i])
    ensures i < |run.actions| ==> Step(run.states[i], run.actions[i]) == Some(run.states[i + 1])
  {
    InvInductive();
    InvariantHolds(Init, Step, Inv, run, i);
  }

  // ---------------------------------------------------------------- safety

  ghost predicate Ended(s: Device) {
    s.ends >= 1
  }

  lemma EndedStays(s: Device, a: Action)
    requires Ended(s) && Step(s, a).Some?
    ensures Ended(Step(s, a).value)
  {
  }

  lemma EndedIsStable(run: Run<Device, Action>, i: nat, j: nat)
    requires IsRun(Init, Step, run) && i <= j < |run.states| && Ended(run.states[i])
    ensures Ended(run.states[j])
  {
    InvInductive();
    forall s, a | Inv(s) && Ended(s) && Step(s, a).Some? ensures Ended(Step(s, a).value) {
      EndedStays(s, a);
    }
    StableHolds(Init, Step, Inv, Ended, run, i, j);
  }

  /** Nothing touches the session once End has been called: for every run, every later step. */
  lemma NoSessionUseAfterEnd(run: Run<Device, Action>, i: nat, j: nat)
    requires IsRun(Init, Step, run)
    requires i < j < |run.actions| && run.actions[i].EndSession?
    ensures !UsesSession(run.actions[j])
  {
    Reachable(run, i);
    EndedIsStable(run, i + 1, j);
    Reachable(run, j);
  }

  /** However many goroutines call Close: at the moment any of them has returned, the session has been
      ended once, the adapter closed once, and no Read or Write is past its closed check. */
  lemma ReturnedCloseMeansClosed(run: Run<Device, Action>, i: nat, c: nat)
    requires IsRun(Init, Step, run)
    requires i < |run.states| && At(run.states[i], c, CReturned)
    ensures var s := run.states[i];
      && s.closed && s.ends == 1 && s.adapterCloses == 1
      && !ReaderPastCheck(s.reader) && !WriterPastCheck(s.writer)
  {
    Reachable(run, i);
  }

  /** A parked reader is never forgotten: if a packet is queued or Close has raised its signal, the
      wait it is blocked on is already satisfied. */
  lemma NoLostWakeUp(run: Run<Device, Action>, i: nat)
    requires IsRun(Init, Step, run)
    requires i < |run.states| && run.states[i].reader.RWait?
    requires run.states[i].queued > 0 || Phase(run.states[i]) >= 3
    ensures Step(run.states[i], Wake).Some?
  {
    Reachable(run, i);
  }

  // ---------------------------------------------------------------- Close completes

  /** An upper bound on the steps the reader can still take once closed is set, counting one
      further call if its last call did not return ErrClosed. */
  function ReaderWork(pc: ReaderPc): nat {
    match pc
    case RIdle(refused) => if refused then 0 else 3
    case RLeave(refused) => if refused then 1 else 4
    case RRetry(_) => 2
    case RWait(_) => 3
    case RLoop(_, _) => 5
    case RRelease(_, _) => 6
    case RPoll(_, _) => 7
  }

  function WriterWork(pc: WriterPc): nat {
    match pc
    case WIdle(refused) => if refused then 0 else 3
    case WLeave(refused) => if refused then 1 else 4
    case WCheck(_) => 2
    case WLoop(left) => 5 + 2 * left
    case WSend(left) => 4 + 2 * left
  }

  function Work(s: Device): nat {
    ReaderWork(s.reader) + WriterWork(s.writer) + (if Phase(s) <= 6 then 6 - Phase(s) else 0)
  }

  /** Steps of the reader, the writer and the running once-body. The others belong to the driver and
      to further Close callers. */
  predicate Productive(a: Action) {
    !(a.Enqueue? || a.CallClose? || a.EnterOnce?)
  }

  /** A caller that was told ErrClosed calls again. */
  predicate Repeats(s: Device, a: Action) {
    (a.BeginRead? && s.reader == RIdle(true)) || (a.BeginWrite? && s.writer == WIdle(true))
  }

  lemma ReadWorkDecreases(s: Device, a: Action)
    requires s.closed && ReadStep(s, a).Some? && !Repeats(s, a)
    ensures ReadStep(s, a).value.closed && Work(ReadStep(s, a).value) < Work(s)
  {
    assert Phase(ReadStep(s, a).value) == Phase(s);
  }

  lemma WriteWorkDecreases(s: Device, a: Action)
    requires Inv(s) && s.closed && WriteStep(s, a).Some? && !Repeats(s, a)
    ensures WriteStep(s, a).value.closed && Work(WriteStep(s, a).value) < Work(s)
  {
    assert Phase(WriteStep(s, a).value) == Phase(s);
  }

  lemma WorkDecreases(s: Device, a: Action)
    requires Inv(s) && s.closed && Step(s, a).Some? && !Repeats(s, a)
    ensures Step(s, a).value.closed
    ensures Productive(a) ==> Work(Step(s, a).value) < Work(s)
    ensures !Productive(a) ==> Work(Step(s, a).value) == Work(s)
  {
    if ReadStep(s, a).Some? { ReadWorkDecreases(s, a); }
    else if WriteStep(s, a).Some? { WriteWorkDecreases(s, a); }
    else if CloseStep(s, a).Some? { CloseStepInv(s, a); }
  }

  /** The receive ring may answer so: with a packet just when one is queued, unless it fails. */
  predicate MayAnswer(queued: nat, outcome: Receipt) {
    (outcome.Received? ==> queued > 0) && (outcome.NoMoreItems? ==> queued == 0)
  }

  /** What the rings say in such a step, if they are asked. */
  predicate Says(a: Action, outcome: Receipt, granted: Allotment) {
    (a.Poll? ==> a.outcome == outcome) && (a.Alloc? ==> a.granted == granted)
  }

  lemma ReaderMoves(s: Device, outcome: Receipt) returns (a: Action)
    requires !s.reader.RIdle? && (s.reader.RWait? ==> s.event) && MayAnswer(s.queued, outcome)
    ensures Productive(a) && !a.BeginRead? && !a.BeginWrite? && !a.Alloc? && Step(s, a).Some?
    ensures a.Poll? ==> a.outcome == outcome
  {
    match s.reader {
      case RRetry(_) => a := RetryCheck;
      case RLoop(_, _) => a := LoopCheck;
      case RPoll(_, _) => a := Poll(outcome, false);
      case RRelease(_, _) => a := Release;
      case RWait(_) => a := Wake;
      case _ => a := EndRead;
    }
  }

  lemma WriterMoves(s: Device, granted: Allotment) returns (a: Action)
    requires !s.writer.WIdle? && (s.writer.WSend? ==> s.writer.left > 0)
    ensures Productive(a) && !a.BeginRead? && !a.BeginWrite? && !a.Poll? && Step(s, a).Some?
    ensures a.Alloc? ==> a.granted == granted
  {
    match s.writer {
      case WCheck(_) => a := WriteCheck;
      case WLoop(left) => a := if left == 0 then LoopDone else Alloc(granted);
      case WSend(_) => a := Send;
      case _ => a := EndWrite;
    }
  }

  /** Inside the once-body, Close or a call it waits for can always move, whatever the rings answer. */
  lemma CloseNotStuck(s: Device, outcome: Receipt, granted: Allotment) returns (a: Action)
    requires Inv(s) && s.once.Busy? && MayAnswer(s.queued, outcome)
    ensures Productive(a) && !a.BeginRead? && !a.BeginWrite? && Step(s, a).Some? && Says(a, outcome, granted)
  {
    var c := s.once.owner;
    match s.closers[c] {
      case CStore => a := StoreClosed(c);
      case CSignal => a := SignalEvent(c);
      case CEnd => a := EndSession(c);
      case CAdapter => a := CloseAdapter(c);
      case _ =>
        if s.running == 0 {
          a := AwaitCalls(c);
        } else if !s.reader.RIdle? {
          a := ReaderMoves(s, outcome);
        } else {
          a := WriterMoves(s, granted);
        }
    }
  }

  function CountProductive(actions: seq<Action>): nat {
    if actions == [] then 0
    else CountProductive(actions[..|actions| - 1]) + (if Productive(actions[|actions| - 1]) then 1 else 0)
  }

  lemma CountExtends(actions: seq<Action>, i: nat, j: nat)
    requires i < j <= |actions|
    ensures CountProductive(actions[i..j])
         == CountProductive(actions[i..j - 1]) + if Productive(actions[j - 1]) then 1 else 0
  {
    assert actions[i..j][..|actions[i..j]| - 1] == actions[i..j - 1];
  }

  lemma {:induction false} ProductiveBound(run: Run<Device, Action>, i: nat, j: nat)
    requires IsRun(Init, Step, run) && i <= j < |run.states| && run.states[i].closed
    requires forall k | i <= k < j :: !Repeats(run.states[k], run.actions[k])
    ensures run.states[j].closed
    ensures CountProductive(run.actions[i..j]) + Work(run.states[j]) <= Work(run.states[i])
    decreases j
  {
    if i < j {
      ProductiveBound(run, i, j - 1);
      var k := j - 1;
      Reachable(run, k);
      WorkDecreases(run.states[k], run.actions[k]);
      CountExtends(run.actions, i, j);
    }
  }

  /** Close always completes. From any reachable state with closed set, whatever the driver and other
      Close callers do, and if nobody who was told ErrClosed calls again: the reader, the writer and
      Close together take at most Work(states[i]) further steps, one of them is enabled as long as
      Close is not finished, and after that many steps it is finished. */
  lemma CloseCompletes(run: Run<Device, Action>, i: nat, j: nat)
    requires IsRun(Init, Step, run) && i <= j < |run.states| && run.states[i].closed
    requires forall k | i <= k < j :: !Repeats(run.states[k], run.actions[k])
    ensures CountProductive(run.actions[i..j]) <= Work(run.states[i])
    ensures CountProductive(run.actions[i..j]) == Work(run.states[i]) ==> run.states[j].once == Finished
    ensures run.states[j].once != Finished ==>
      exists a :: Productive(a) && !a.BeginRead? && !a.BeginWrite? && Step(run.states[j], a).Some?
  {
    ProductiveBound(run, i, j);
    Reachable(run, j);
    if run.states[j].once != Finished {
      var a := CloseNotStuck(run.states[j], HandleEof, AllocEof);
    }
  }

  // Without that assumption Close can wait for ever: a reader and a writer that call again whenever they
  // are told ErrClosed, each while the other is counted, keep the wait group above zero.

  /** Close waits; the reader is about to look at closed, the writer has just been told. */
  function Starved(): Device {
    Device(true, true, 1, 0, 0, Busy(0), 0, RRetry(0), WIdle(true), map[0 := CAwait])
  }

  /** On the way there: one Read has begun and Close has come to pc, ... */
  function Closing(closed: bool, event: bool, once: Once, pc: CloserPc): Device {
    Device(closed, event, 1, 0, 0, once, 0, RRetry(0), WIdle(false), map[0 := pc])
  }

  /** ... and then a Write has. */
  function Waiting(running: int, writer: WriterPc): Device {
    Device(true, true, running, 0, 0, Busy(0), 0, RRetry(0), writer, map[0 := CAwait])
  }

  lemma CallStarts()
    ensures var s := Device(false, false, 0, 0, 0, Fresh, 0, RIdle(false), WIdle(false), map[]);
            var t := s.(reader := RRetry(0), running := 1);
      && Step(s, BeginRead(0)) == Some(t)
      && Step(t, CallClose(0)) == Some(Closing(false, false, Fresh, CAtOnce))
  {
  }

  lemma CloseEnters()
    ensures Step(Closing(false, false, Fresh, CAtOnce), EnterOnce(0)) == Some(Closing(false, false, Busy(0), CStore))
    ensures Step(Closing(false, false, Busy(0), CStore), StoreClosed(0)) == Some(Closing(true, false, Busy(0), CSignal))
    ensures Step(Closing(true, false, Busy(0), CSignal), SignalEvent(0)) == Some(Closing(true, true, Busy(0), CAwait))
  {
    assert forall a: CloserPc, b: CloserPc :: map[0 := a][0 := b] == map[0 := b];
  }

  lemma WriteIsTold()
    ensures Step(Closing(true, true, Busy(0), CAwait), BeginWrite(0)) == Some(Waiting(2, WCheck(0)))
    ensures Step(Waiting(2, WCheck(0)), WriteCheck) == Some(Waiting(2, WLeave(true)))
    ensures Step(Waiting(2, WLeave(true)), EndWrite) == Some(Starved())
  {
  }

  lemma RunToStarved() returns (run: Run<Device, Action>)
    ensures IsRun(Init, Step, run) && EndsIn(run, Starved()) && |run.states| == |run.actions| + 1
  {
    CallStarts();
    CloseEnters();
    WriteIsTold();
    var start := Device(false, false, 0, 0, 0, Fresh, 0, RIdle(false), WIdle(false), map[]);
    var reading := start.(reader := RRetry(0), running := 1);
    run := Run([start], []);
    run := Extend(Init, Step, run, start, BeginRead(0), reading);
    run := Extend(Init, Step, run, reading, CallClose(0), Closing(false, false, Fresh, CAtOnce));
    run := RunOfClose(run);
    run := Extend(Init, Step, run, Closing(true, true, Busy(0), CAwait), BeginWrite(0), Waiting(2, WCheck(0)));
    run := Extend(Init, Step, run, Waiting(2, WCheck(0)), WriteCheck, Waiting(2, WLeave(true)));
    run := Extend(Init, Step, run, Waiting(2, WLeave(true)), EndWrite, Starved());
  }

  lemma RunOfClose(run: Run<Device, Action>) returns (longer: Run<Device, Action>)
    requires IsRun(Init, Step, run) && EndsIn(run, Closing(false, false, Fresh, CAtOnce))
    ensures IsRun(Init, Step, longer) && EndsIn(longer, Closing(true, true, Busy(0), CAwait))
  {
    CloseEnters();
    var outside, storing := Closing(false, false, Fresh, CAtOnce), Closing(false, false, Busy(0), CStore);
    var signalling, waiting := Closing(true, false, Busy(0), CSignal), Closing(true, true, Busy(0), CAwait);
    longer := Extend(Init, Step, run, outside, EnterOnce(0), storing);
    longer := Extend(Init, Step, longer, storing, StoreClosed(0), signalling);
    longer := Extend(Init, Step, longer, signalling, SignalEvent(0), waiting);
  }

  /** Round once: both are told again, and nobody else can have moved. */
  lemma StarvedRound(run: Run<Device, Action>) returns (longer: Run<Device, Action>)
    requires IsRun(Init, Step, run) && EndsIn(run, Starved())
    ensures IsRun(Init, Step, longer) && EndsIn(longer, Starved())
    ensures run.actions <= longer.actions && run.states <= longer.states && |longer.actions| == |run.actions| + 6
    ensures forall k | |run.actions| <= k < |longer.actions| :: Productive(longer.actions[k])
  {
    var s := Starved();
    var s1 := s.(writer := WCheck(0), running := 2);
    var s2 := s1.(reader := RLeave(true));
    var s3 := s2.(reader := RIdle(true), running := 1);
    var s4 := s3.(reader := RRetry(0), running := 2);
    var s5 := s4.(writer := WLeave(true));
    longer := Extend(Init, Step, run, s, BeginWrite(0), s1);
    longer := Extend(Init, Step, longer, s1, RetryCheck, s2);
    longer := Extend(Init, Step, longer, s2, EndRead, s3);
    longer := Extend(Init, Step, longer, s3, BeginRead(0), s4);
    longer := Extend(Init, Step, longer, s4, WriteCheck, s5);
    longer := Extend(Init, Step, longer, s5, EndWrite, s);
  }

  /** For every bound there is a run in which reader and writer take more steps than that after closed
      has been set, and Close is still waiting. */
  lemma RepeatedCallsCanStarveClose(n: nat) returns (run: Run<Device, Action>, i: nat)
    ensures IsRun(Init, Step, run) && i <= |run.actions| < |run.states|
    ensures run.states[i].closed && n <= |run.actions| - i
    ensures forall k | i <= k < |run.actions| :: Productive(run.actions[k])
    ensures EndsIn(run, Starved()) && Step(Starved(), AwaitCalls(0)).None?
  {
    run := RunToStarved();
    i := |run.actions|;
    while |run.actions| - i < n
      invariant IsRun(Init, Step, run) && EndsIn(run, Starved()) && i <= |run.actions| < |run.states|
      invariant run.states[i] == Starved()
      invariant forall k | i <= k < |run.actions| :: Productive(run.actions[k])
      decreases n - (|run.actions| - i)
    {
      run := StarvedRound(run);
    }
  }
}
