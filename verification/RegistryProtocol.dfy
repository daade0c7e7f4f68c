/**
 The change-callback registry (winipcfg/interface_change_handler.go and its two copies for routes
 and unicast addresses), as a step system: any number of Register and Unregister calls, of
 notifications arriving on OS threads and of callback goroutines, interleaved arbitrarily.
 Calls, notifications and goroutines carry numbers; a callback object is known by the number of
 the Register call that allocates it.
 */
module RegistryProtocol {
  import opened Wrappers
  import opened Runs
  import opened CallbackTable

  datatype CallPc =
    | RegWantOuter | RegWantInner | RegInsert | RegSubscribe
    | RegUnlockInner(ok: bool) | RegUnlockOuter(ok: bool) | RegReturned(ok: bool)
    | UnWantOuter | UnWantInner | UnDelete | UnUnlockInner(removeIt: bool) | UnWait(removeIt: bool)
    | UnCancel | UnCancelling | UnClear | UnUnlockOuter(ok: bool) | UnReturned(ok: bool)

  /** cb is the callback a call registers (its own number) or unregisters. */
  datatype Call = Call(cb: nat, pc: CallPc)

  datatype NotificationPc = WantInner | Spawning(todo: set<nat>)

  datatype Holder = Free | ByCall(call: nat) | ByNotification(notification: nat)

  datatype State = State(
    outer: Option<nat>,             // holder of the add/remove mutex
    inner: Holder,                  // holder of the callback mutex
    table: Table,                   // callback map, handle, wait groups
    live: set<nat>,                 // subscriptions the OS is serving
    calls: map<nat, Call>,
    notifications: map<nat, NotificationPc>,
    goroutines: map<nat, nat>)      // running callback goroutines and their callbacks

  datatype Action =
    | CallRegister(c: nat) | CallUnregister(c: nat, cb: nat)
    | Advance(c: nat)                                  // the next step of call c, if it has no choice
    | Subscribe(c: nat, granted: Option<nat>)          // the OS answers a subscription with a handle or fails
    | FinishCancel(c: nat, ok: bool)
    | Notify(n: nat) | LockForNotify(n: nat) | Spawn(n: nat, cb: nat, g: nat) | EndNotify(n: nat)
    | FinishCallback(g: nat)                           // the callback returns and its goroutine calls Done

  predicate Init(s: State) {
    s == State(None, Free, EmptyTable(), {}, map[], map[], map[])
  }

  function Go(s: State, c: nat, pc: CallPc): State
    requires c in s.calls
  {
    s.(calls := s.calls[c := s.calls[c].(pc := pc)])
  }

  function RegisterStep(s: State, c: nat): Option<State>
    requires c in s.calls
  {
    match s.calls[c].pc
    case RegWantOuter => if s.outer.Some? then None else Some(Go(s, c, RegWantInner).(outer := Some(c)))
    case RegWantInner => if s.inner != Free then None else Some(Go(s, c, RegInsert).(inner := ByCall(c)))
    case RegInsert =>
      Some(Go(s, c, if s.table.handle == 0 then RegSubscribe else RegUnlockInner(true)).(table := s.table.Insert(c)))
    case RegUnlockInner(ok) => Some(Go(s, c, RegUnlockOuter(ok)).(inner := Free))
    case RegUnlockOuter(ok) => Some(Go(s, c, RegReturned(ok)).(outer := None))
    case _ => None
  }

  function UnregisterStep(s: State, c: nat): Option<State>
    requires c in s.calls
  {
    var cb := s.calls[c].cb;
    match s.calls[c].pc
    case UnWantOuter => if s.outer.Some? then None else Some(Go(s, c, UnWantInner).(outer := Some(c)))
    case UnWantInner => if s.inner != Free then None else Some(Go(s, c, UnDelete).(inner := ByCall(c)))
    case UnDelete =>
      var table := s.table.Delete(cb);
      Some(Go(s, c, UnUnlockInner(table.Unused())).(table := table))
    case UnUnlockInner(removeIt) => Some(Go(s, c, UnWait(removeIt)).(inner := Free))
    case UnWait(removeIt) =>
      if s.table.Waiting(cb) > 0 then None else Some(Go(s, c, if removeIt then UnCancel else UnUnlockOuter(true)))
    case UnCancel => Some(Go(s, c, UnCancelling))
    case UnClear => Some(Go(s, c, UnUnlockOuter(true)).(table := s.table.ClearHandle()))
    case UnUnlockOuter(ok) => Some(Go(s, c, UnReturned(ok)).(outer := None))
    case _ => None
  }

  /** A new call, and the answers of the OS to a call; waits says whether cancelling a subscription
      waits for the notifications that are running. */
  function CallStep(waits: bool, s: State, a: Action): Option<State> {
    match a
    case CallRegister(c) =>
      if c in s.calls then None else Some(s.(calls := s.calls[c := Call(c, RegWantOuter)]))
    case CallUnregister(c, cb) =>
      // Only a callback that a Register call has returned can be unregistered.
      if c in s.calls || cb !in s.calls || s.calls[cb].pc != RegReturned(true) then None
      else Some(s.(calls := s.calls[c := Call(cb, UnWantOuter)]))
    case Subscribe(c, granted) =>
      if c !in s.calls || s.calls[c].pc != RegSubscribe then None
      else (match granted
            case Some(h) =>
              if h == 0 || h in s.live then None
              else Some(Go(s, c, RegUnlockInner(true)).(table := s.table.SetHandle(h), live := s.live + {h}))
            case None => Some(Go(s, c, RegUnlockInner(false)).(table := s.table.Delete(c).ClearHandle())))
    case FinishCancel(c, ok) =>
      if c !in s.calls || s.calls[c].pc != UnCancelling || (waits && s.notifications != map[]) then None
      else if ok then Some(Go(s, c, UnClear).(live := s.live - {s.table.handle}))
      else Some(Go(s, c, UnUnlockOuter(false)))
    case _ => None
  }

  function NotifyStep(s: State, a: Action): Option<State> {
    match a
    case Notify(n) =>
      if n in s.notifications || s.live == {} then None
      else Some(s.(notifications := s.notifications[n := WantInner]))
    case LockForNotify(n) =>
      if n !in s.notifications || s.notifications[n] != WantInner || s.inner != Free then None
      else Some(s.(inner := ByNotification(n), notifications := s.notifications[n := Spawning(s.table.callbacks)]))
    case Spawn(n, cb, g) =>
      if n !in s.notifications || !s.notifications[n].Spawning? || cb !in s.notifications[n].todo
         || g in s.goroutines then None
      else Some(s.(table := s.table.Add(cb), goroutines := s.goroutines[g := cb],
                   notifications := s.notifications[n := Spawning(s.notifications[n].todo - {cb})]))
    case EndNotify(n) =>
      if n !in s.notifications || s.notifications[n] != Spawning({}) then None
      else Some(s.(inner := Free, notifications := s.notifications - {n}))
    case FinishCallback(g) =>
      if g !in s.goroutines then None
      else Some(s.(table := s.table.Done(s.goroutines[g]), goroutines := s.goroutines - {g}))
    case _ => None
  }

  predicate ByNotifier(a: Action) {
    a.Notify? || a.LockForNotify? || a.Spawn? || a.EndNotify? || a.FinishCallback?
  }

  function Step(waits: bool, s: State, a: Action): Option<State> {
    if a.Advance? then
      if a.c !in s.calls then None
      else if Registers(s.calls[a.c].pc) then RegisterStep(s, a.c)
      else UnregisterStep(s, a.c)
    else if ByNotifier(a) then NotifyStep(s, a)
    else CallStep(waits, s, a)
  }

  // ---------------------------------------------------------------- invariant

  predicate HoldsOuter(pc: CallPc) {
    !(pc.RegWantOuter? || pc.RegReturned? || pc.UnWantOuter? || pc.UnReturned?)
  }

  predicate HoldsInner(pc: CallPc) {
    pc.RegInsert? || pc.RegSubscribe? || pc.RegUnlockInner? || pc.UnDelete? || pc.UnUnlockInner?
  }

  predicate Registers(pc: CallPc) {
    pc.RegWantOuter? || pc.RegWantInner? || pc.RegInsert? || pc.RegSubscribe?
    || pc.RegUnlockInner? || pc.RegUnlockOuter? || pc.RegReturned?
  }

  /** The callback of such a call may be in the map. */
  predicate Inserted(pc: CallPc) {
    pc.RegSubscribe? || ((pc.RegUnlockInner? || pc.RegUnlockOuter? || pc.RegReturned?) && pc.ok)
  }

  /** Unregister has taken its callback out of the map. */
  predicate Deleted(pc: CallPc) {
    pc.UnUnlockInner? || pc.UnWait? || Quiet(pc)
  }

  /** Unregister has seen the wait group of its callback at zero. */
  predicate Quiet(pc: CallPc) {
    pc.UnCancel? || pc.UnCancelling? || pc.UnClear? || pc.UnUnlockOuter? || pc.UnReturned?
  }

  /** Unregister has decided to cancel the subscription and has not cleared the handle yet. */
  predicate Removing(pc: CallPc) {
    ((pc.UnUnlockInner? || pc.UnWait?) && pc.removeIt) || pc.UnCancel? || pc.UnCancelling? || pc.UnClear?
  }

  function InFlight(goroutines: map<nat, nat>, cb: nat): set<nat> {
    set g | g in goroutines && goroutines[g] == cb
  }

  ghost predicate LocksOk(s: State) {
    && (s.outer.Some? ==> s.outer.value in s.calls)
    && (s.inner.ByCall? ==> s.inner.call in s.calls)
    && (s.inner.ByNotification? ==> s.inner.notification in s.notifications)
    && (forall c | c in s.calls :: HoldsOuter(s.calls[c].pc) <==> s.outer == Some(c))
    && (forall c | c in s.calls :: HoldsInner(s.calls[c].pc) <==> s.inner == ByCall(c))
    && (forall n | n in s.notifications :: s.notifications[n].Spawning? <==> s.inner == ByNotification(n))
  }

  ghost predicate CallsOk(s: State) {
    && (forall c | c in s.calls :: Registers(s.calls[c].pc) ==> s.calls[c].cb == c)
    && (forall c | c in s.calls :: !Registers(s.calls[c].pc) ==>
          s.calls[c].cb in s.calls && s.calls[s.calls[c].cb].pc == RegReturned(true))
  }

  ghost predicate CallbacksOk(s: State) {
    && (forall cb | cb in s.table.callbacks :: cb in s.calls && Inserted(s.calls[cb].pc))
    && (forall c | c in s.calls :: Deleted(s.calls[c].pc) ==> s.calls[c].cb !in s.table.callbacks)
    && (forall n | n in s.notifications ::
          s.notifications[n].Spawning? ==> s.notifications[n].todo <= s.table.callbacks)
  }

  ghost predicate WaitsOk(s: State) {
    && (forall cb: nat :: s.table.Waiting(cb) == |InFlight(s.goroutines, cb)|)
    && (forall c | c in s.calls :: Quiet(s.calls[c].pc) ==> InFlight(s.goroutines, s.calls[c].cb) == {})
  }

  ghost predicate At(s: State, pc: CallPc) {
    s.outer.Some? && s.outer.value in s.calls && s.calls[s.outer.value].pc == pc
  }

  ghost predicate SubscriptionOk(s: State) {
    && (s.table.handle == 0 ==> s.table.callbacks == if At(s, RegSubscribe) then {s.outer.value} else {})
    && (At(s, RegSubscribe) ==> s.table.handle == 0)
    && (s.outer.Some? && s.outer.value in s.calls && Removing(s.calls[s.outer.value].pc) ==> s.table.Unused())
    && s.live == (if s.table.handle == 0 || At(s, UnClear) then {} else {s.table.handle})
  }

  /** An Unregister call has taken callback cb out of the map. */
  ghost predicate Gone(s: State, cb: nat) {
    exists d :: d in s.calls && s.calls[d].cb == cb && Deleted(s.calls[d].pc)
  }

  /** What has been inserted is in the map until it is unregistered. */
  ghost predicate PresentOk(s: State) {
    forall c | c in s.calls && Inserted(s.calls[c].pc) :: c in s.table.callbacks || Gone(s, c)
  }

  /** Unregister removes the subscription just when it has left no callback, and reports an error just when
      that was refused. */
  predicate DecidesWell(table: Table, pc: CallPc) {
    match pc
    case UnUnlockInner(removeIt) => removeIt <==> table.Unused()
    case UnWait(removeIt) => removeIt <==> table.Unused()
    case UnUnlockOuter(ok) => ok <==> !table.Unused()
    case _ => true
  }

  ghost predicate DecisionsOk(s: State) {
    s.outer.Some? && s.outer.value in s.calls ==> DecidesWell(s.table, s.calls[s.outer.value].pc)
  }

  ghost predicate Inv(s: State) {
    && LocksOk(s) && CallsOk(s) && CallbacksOk(s) && WaitsOk(s) && SubscriptionOk(s)
    && PresentOk(s) && DecisionsOk(s)
  }

  // The wait count of a callback follows its goroutines.

  lemma InFlightAdd(goroutines: map<nat, nat>, g: nat, cb: nat, x: nat)
    requires g !in goroutines
    ensures x == cb ==> InFlight(goroutines[g := cb], x) == InFlight(goroutines, x) + {g}
    ensures x != cb ==> InFlight(goroutines[g := cb], x) == InFlight(goroutines, x)
    ensures g !in InFlight(goroutines, x)
  {
  }

  lemma InFlightRemove(goroutines: map<nat, nat>, g: nat, x: nat)
    requires g in goroutines
    ensures x == goroutines[g] ==> InFlight(goroutines - {g}, x) == InFlight(goroutines, x) - {g}
    ensures x == goroutines[g] ==> g in InFlight(goroutines, x)
    ensures x != goroutines[g] ==> InFlight(goroutines - {g}, x) == InFlight(goroutines, x)
  {
  }

  // A call that moves on, and a call that is new, keep the parts of the invariant.

  /** Between s and t call c has gone to pc, and no other call, notification or goroutine has moved. */
  ghost predicate Moved(s: State, t: State, c: nat, pc: CallPc) {
    && c in s.calls
    && t.calls == s.calls[c := s.calls[c].(pc := pc)]
    && t.notifications == s.notifications && t.goroutines == s.goroutines
  }

  /** Each mutex stays where it is, unless c takes it while it is free or gives it back. */
  ghost predicate LocksMoved(s: State, t: State, c: nat, pc: CallPc) {
    && (HoldsOuter(pc) ==> (s.outer == None || s.outer == Some(c)) && t.outer == Some(c))
    && (!HoldsOuter(pc) ==> t.outer == if s.outer == Some(c) then None else s.outer)
    && (HoldsInner(pc) ==> (s.inner == Free || s.inner == ByCall(c)) && t.inner == ByCall(c))
    && (!HoldsInner(pc) ==> t.inner == if s.inner == ByCall(c) then Free else s.inner)
  }

  lemma MoveKeepsLocks(s: State, t: State, c: nat, pc: CallPc)
    requires LocksOk(s) && Moved(s, t, c, pc) && LocksMoved(s, t, c, pc)
    ensures LocksOk(t)
  {
  }

  lemma MoveKeepsCalls(s: State, t: State, c: nat, pc: CallPc)
    requires CallsOk(s) && Moved(s, t, c, pc)
    requires Registers(pc) <==> Registers(s.calls[c].pc)
    requires s.calls[c].pc != RegReturned(true)
    ensures CallsOk(t)
  {
  }

  /** A callback enters the map when its own call inserts it, and leaves it when c unregisters it or fails to
      register it, with the callback mutex in the hands of c. */
  ghost predicate CallbacksMoved(s: State, t: State, c: nat, pc: CallPc)
    requires c in s.calls
  {
    && (t.table.callbacks == s.table.callbacks
        || (t.table.callbacks == s.table.callbacks + {c} && s.calls[c].pc == RegInsert)
        || (t.table.callbacks == s.table.callbacks - {s.calls[c].cb} && s.inner == ByCall(c)
            && (Deleted(pc) || (Registers(pc) && !Inserted(pc)))))
    && (Inserted(pc) && !Inserted(s.calls[c].pc) ==> c in t.table.callbacks)
    && (Deleted(s.calls[c].pc) ==> Deleted(pc))
    && (c in t.table.callbacks ==> Inserted(pc))
    && (Deleted(pc) ==> s.calls[c].cb !in t.table.callbacks)
  }

  lemma MoveKeepsCallbacks(s: State, t: State, c: nat, pc: CallPc)
    requires LocksOk(s) && CallsOk(s) && CallbacksOk(s) && Moved(s, t, c, pc) && CallbacksMoved(s, t, c, pc)
    ensures CallbacksOk(t)
  {
  }

  lemma MoveKeepsPresent(s: State, t: State, c: nat, pc: CallPc)
    requires CallsOk(s) && PresentOk(s) && Moved(s, t, c, pc) && CallbacksMoved(s, t, c, pc)
    requires Registers(pc) <==> Registers(s.calls[c].pc)
    ensures PresentOk(t)
  {
    forall x | x in t.calls && Inserted(t.calls[x].pc) ensures x in t.table.callbacks || Gone(t, x) {
      if Gone(s, x) {
        var d :| d in s.calls && s.calls[d].cb == x && Deleted(s.calls[d].pc);
        assert t.calls[d].cb == x && Deleted(t.calls[d].pc);
      } else if x in s.table.callbacks && x !in t.table.callbacks {
        assert t.calls[c].cb == x;
      }
    }
  }

  lemma MoveKeepsWaits(s: State, t: State, c: nat, pc: CallPc)
    requires WaitsOk(s) && Moved(s, t, c, pc) && t.table.waits == s.table.waits
    requires Quiet(pc) ==> Quiet(s.calls[c].pc) || s.table.Waiting(s.calls[c].cb) <= 0
    ensures WaitsOk(t)
  {
    forall cb: nat ensures t.table.Waiting(cb) == |InFlight(t.goroutines, cb)| {
      assert s.table.Waiting(cb) == |InFlight(s.goroutines, cb)|;
    }
  }

  ghost predicate IsNewCall(s: State, c: nat, call: Call) {
    && c !in s.calls
    && (call == Call(c, RegWantOuter)
        || (call.pc == UnWantOuter && call.cb in s.calls && s.calls[call.cb].pc == RegReturned(true)))
  }

  lemma NewCallKeepsLocksAndCalls(s: State, c: nat, call: Call)
    requires LocksOk(s) && CallsOk(s) && IsNewCall(s, c, call)
    ensures LocksOk(s.(calls := s.calls[c := call])) && CallsOk(s.(calls := s.calls[c := call]))
  {
  }

  lemma NewCallKeepsTable(s: State, c: nat, call: Call)
    requires LocksOk(s) && CallbacksOk(s) && WaitsOk(s) && SubscriptionOk(s) && IsNewCall(s, c, call)
    ensures var t := s.(calls := s.calls[c := call]); CallbacksOk(t) && WaitsOk(t) && SubscriptionOk(t)
  {
  }

  lemma NewCallKeepsPresent(s: State, c: nat, call: Call)
    requires LocksOk(s) && PresentOk(s) && DecisionsOk(s) && IsNewCall(s, c, call)
    ensures var t := s.(calls := s.calls[c := call]); PresentOk(t) && DecisionsOk(t)
  {
    var t := s.(calls := s.calls[c := call]);
    forall x | x in t.calls && Inserted(t.calls[x].pc) ensures x in t.table.callbacks || Gone(t, x) {
      if Gone(s, x) {
        var d :| d in s.calls && s.calls[d].cb == x && Deleted(s.calls[d].pc);
        assert t.calls[d].cb == x && Deleted(t.calls[d].pc);
      }
    }
  }

  lemma NewCallInv(s: State, c: nat, call: Call)
    requires Inv(s) && IsNewCall(s, c, call)
    ensures Inv(s.(calls := s.calls[c := call]))
  {
    NewCallKeepsLocksAndCalls(s, c, call);
    NewCallKeepsTable(s, c, call);
    NewCallKeepsPresent(s, c, call);
  }

  ghost predicate Consistent(s: State) {
    LocksOk(s) && CallsOk(s) && CallbacksOk(s) && WaitsOk(s) && PresentOk(s)
  }

  /** What the invariant says of call c alone. */
  ghost predicate Placed(s: State, c: nat) {
    && c in s.calls
    && (HoldsOuter(s.calls[c].pc) <==> s.outer == Some(c))
    && (HoldsInner(s.calls[c].pc) <==> s.inner == ByCall(c))
    && (Registers(s.calls[c].pc) ==> s.calls[c].cb == c)
    && (c in s.table.callbacks ==> Inserted(s.calls[c].pc))
    && (Deleted(s.calls[c].pc) ==> s.calls[c].cb !in s.table.callbacks)
  }

  lemma EachIsPlaced(s: State, c: nat)
    requires Consistent(s) && c in s.calls
    ensures Placed(s, c)
  {
  }

  ghost predicate LegalMove(s: State, t: State, c: nat, pc: CallPc) {
    && Moved(s, t, c, pc) && LocksMoved(s, t, c, pc) && CallbacksMoved(s, t, c, pc)
    && (Registers(pc) <==> Registers(s.calls[c].pc)) && s.calls[c].pc != RegReturned(true)
    && t.table.waits == s.table.waits
    && (Quiet(pc) ==> Quiet(s.calls[c].pc) || s.table.Waiting(s.calls[c].cb) <= 0)
  }

  lemma MoveKeeps(s: State, t: State, c: nat, pc: CallPc)
    requires Consistent(s) && LegalMove(s, t, c, pc)
    ensures Consistent(t)
  {
    MoveKeepsLocks(s, t, c, pc);
    MoveKeepsCalls(s, t, c, pc);
    MoveKeepsCallbacks(s, t, c, pc);
    MoveKeepsWaits(s, t, c, pc);
    MoveKeepsPresent(s, t, c, pc);
  }

  lemma RegisterMoves(s: State, c: nat)
    requires Placed(s, c) && RegisterStep(s, c).Some?
    ensures LegalMove(s, RegisterStep(s, c).value, c, RegisterStep(s, c).value.calls[c].pc)
  {
  }

  lemma UnregisterMoves(s: State, c: nat)
    requires Placed(s, c) && UnregisterStep(s, c).Some?
    ensures LegalMove(s, UnregisterStep(s, c).value, c, UnregisterStep(s, c).value.calls[c].pc)
  {
  }

  lemma AnswerMoves(waits: bool, s: State, a: Action)
    requires (a.Subscribe? || a.FinishCancel?) && CallStep(waits, s, a).Some? && Placed(s, a.c)
    ensures LegalMove(s, CallStep(waits, s, a).value, a.c, CallStep(waits, s, a).value.calls[a.c].pc)
  {
  }

  lemma RegisterKeepsSubscription(s: State, c: nat)
    requires Placed(s, c) && SubscriptionOk(s) && RegisterStep(s, c).Some?
    ensures SubscriptionOk(RegisterStep(s, c).value)
  {
  }

  lemma UnregisterKeepsSubscription(s: State, c: nat)
    requires Placed(s, c) && SubscriptionOk(s) && UnregisterStep(s, c).Some?
    ensures SubscriptionOk(UnregisterStep(s, c).value)
  {
  }

  lemma AnswerKeepsSubscription(waits: bool, s: State, a: Action)
    requires (a.Subscribe? || a.FinishCancel?) && CallStep(waits, s, a).Some?
    requires Placed(s, a.c) && SubscriptionOk(s)
    ensures SubscriptionOk(CallStep(waits, s, a).value)
  {
  }

  lemma RegisterKeepsDecisions(s: State, c: nat)
    requires Placed(s, c) && DecisionsOk(s) && RegisterStep(s, c).Some?
    ensures DecisionsOk(RegisterStep(s, c).value)
  {
  }

  lemma UnregisterKeepsDecisions(s: State, c: nat)
    requires Placed(s, c) && DecisionsOk(s) && SubscriptionOk(s) && UnregisterStep(s, c).Some?
    ensures DecisionsOk(UnregisterStep(s, c).value)
  {
  }

  lemma AnswerKeepsDecisions(waits: bool, s: State, a: Action)
    requires (a.Subscribe? || a.FinishCancel?) && CallStep(waits, s, a).Some?
    requires Placed(s, a.c) && DecisionsOk(s) && SubscriptionOk(s)
    ensures DecisionsOk(CallStep(waits, s, a).value)
  {
  }

  lemma NotifyStepKeepsPresent(s: State, a: Action)
    requires PresentOk(s) && DecisionsOk(s) && NotifyStep(s, a).Some?
    ensures PresentOk(NotifyStep(s, a).value) && DecisionsOk(NotifyStep(s, a).value)
  {
    var t := NotifyStep(s, a).value;
    forall x | x in t.calls && Inserted(t.calls[x].pc) ensures x in t.table.callbacks || Gone(t, x) {
      if Gone(s, x) {
        var d :| d in s.calls && s.calls[d].cb == x && Deleted(s.calls[d].pc);
        assert t.calls[d].cb == x && Deleted(t.calls[d].pc);
      }
    }
  }

  lemma NotifyStepKeepsLocks(s: State, a: Action)
    requires LocksOk(s) && NotifyStep(s, a).Some?
    ensures LocksOk(NotifyStep(s, a).value)
  {
  }

  lemma NotifyStepKeepsCalls(s: State, a: Action)
    requires CallsOk(s) && NotifyStep(s, a).Some?
    ensures CallsOk(NotifyStep(s, a).value)
  {
  }

  lemma NotifyStepKeepsCallbacks(s: State, a: Action)
    requires LocksOk(s) && CallsOk(s) && CallbacksOk(s) && NotifyStep(s, a).Some?
    ensures CallbacksOk(NotifyStep(s, a).value)
  {
  }

  /** With the goroutines of one callback changed by one and its wait count by as much. */
  lemma SpawnCounts(s: State, n: nat, cb: nat, g: nat, x: nat)
    requires WaitsOk(s) && NotifyStep(s, Spawn(n, cb, g)).Some?
    ensures var t := NotifyStep(s, Spawn(n, cb, g)).value; t.table.Waiting(x) == |InFlight(t.goroutines, x)|
  {
    assert s.table.Waiting(x) == |InFlight(s.goroutines, x)|;
    InFlightAdd(s.goroutines, g, cb, x);
  }

  lemma SpawnKeepsWaits(s: State, n: nat, cb: nat, g: nat)
    requires LocksOk(s) && CallsOk(s) && CallbacksOk(s) && WaitsOk(s)
    requires NotifyStep(s, Spawn(n, cb, g)).Some?
    ensures WaitsOk(NotifyStep(s, Spawn(n, cb, g)).value)
  {
    var t := NotifyStep(s, Spawn(n, cb, g)).value;
    forall x: nat ensures t.table.Waiting(x) == |InFlight(t.goroutines, x)| {
      SpawnCounts(s, n, cb, g, x);
    }
    forall c | c in t.calls && Quiet(t.calls[c].pc) ensures InFlight(t.goroutines, t.calls[c].cb) == {} {
      InFlightAdd(s.goroutines, g, cb, t.calls[c].cb);
    }
  }

  lemma FinishCounts(s: State, g: nat, x: nat)
    requires WaitsOk(s) && NotifyStep(s, FinishCallback(g)).Some?
    ensures var t := NotifyStep(s, FinishCallback(g)).value; t.table.Waiting(x) == |InFlight(t.goroutines, x)|
  {
    assert s.table.Waiting(x) == |InFlight(s.goroutines, x)|;
    InFlightRemove(s.goroutines, g, x);
  }

  lemma FinishKeepsWaits(s: State, g: nat)
    requires WaitsOk(s) && NotifyStep(s, FinishCallback(g)).Some?
    ensures WaitsOk(NotifyStep(s, FinishCallback(g)).value)
  {
    var t := NotifyStep(s, FinishCallback(g)).value;
    forall x: nat ensures t.table.Waiting(x) == |InFlight(t.goroutines, x)| {
      FinishCounts(s, g, x);
    }
    forall c | c in t.calls && Quiet(t.calls[c].pc) ensures InFlight(t.goroutines, t.calls[c].cb) == {} {
      InFlightRemove(s.goroutines, g, t.calls[c].cb);
    }
  }

  lemma NotifyStepKeepsWaits(s: State, a: Action)
    requires LocksOk(s) && CallsOk(s) && CallbacksOk(s) && WaitsOk(s) && NotifyStep(s, a).Some?
    ensures WaitsOk(NotifyStep(s, a).value)
  {
    match a {
      case Spawn(n, cb, g) => SpawnKeepsWaits(s, n, cb, g);
      case FinishCallback(g) => FinishKeepsWaits(s, g);
      case _ =>
    }
  }

  lemma NotifyStepKeepsSubscription(s: State, a: Action)
    requires LocksOk(s) && SubscriptionOk(s) && NotifyStep(s, a).Some?
    ensures SubscriptionOk(NotifyStep(s, a).value)
  {
  }

  lemma RegisterKeepsConsistent(s: State, c: nat)
    requires Consistent(s) && c in s.calls && RegisterStep(s, c).Some?
    ensures Consistent(RegisterStep(s, c).value)
  {
    EachIsPlaced(s, c);
    RegisterMoves(s, c);
    MoveKeeps(s, RegisterStep(s, c).value, c, RegisterStep(s, c).value.calls[c].pc);
  }

  lemma RegisterStepInv(s: State, c: nat)
    requires Inv(s) && c in s.calls && RegisterStep(s, c).Some?
    ensures Inv(RegisterStep(s, c).value)
  {
    EachIsPlaced(s, c);
    RegisterKeepsConsistent(s, c);
    RegisterKeepsSubscription(s, c);
    RegisterKeepsDecisions(s, c);
  }

  lemma UnregisterKeepsConsistent(s: State, c: nat)
    requires Consistent(s) && c in s.calls && UnregisterStep(s, c).Some?
    ensures Consistent(UnregisterStep(s, c).value)
  {
    EachIsPlaced(s, c);
    UnregisterMoves(s, c);
    MoveKeeps(s, UnregisterStep(s, c).value, c, UnregisterStep(s, c).value.calls[c].pc);
  }

  lemma UnregisterStepInv(s: State, c: nat)
    requires Inv(s) && c in s.calls && UnregisterStep(s, c).Some?
    ensures Inv(UnregisterStep(s, c).value)
  {
    EachIsPlaced(s, c);
    UnregisterKeepsConsistent(s, c);
    UnregisterKeepsSubscription(s, c);
    UnregisterKeepsDecisions(s, c);
  }

  lemma AnswerKeepsConsistent(waits: bool, s: State, a: Action)
    requires Consistent(s) && (a.Subscribe? || a.FinishCancel?) && CallStep(waits, s, a).Some?
    ensures Consistent(CallStep(waits, s, a).value)
  {
    EachIsPlaced(s, a.c);
    AnswerMoves(waits, s, a);
    MoveKeeps(s, CallStep(waits, s, a).value, a.c, CallStep(waits, s, a).value.calls[a.c].pc);
  }

  lemma AnswerInv(waits: bool, s: State, a: Action)
    requires Inv(s) && (a.Subscribe? || a.FinishCancel?) && CallStep(waits, s, a).Some?
    ensures Inv(CallStep(waits, s, a).value)
  {
    EachIsPlaced(s, a.c);
    AnswerKeepsConsistent(waits, s, a);
    AnswerKeepsSubscription(waits, s, a);
    AnswerKeepsDecisions(waits, s, a);
  }

  lemma CallStepInv(waits: bool, s: State, a: Action)
    requires Inv(s) && CallStep(waits, s, a).Some?
    ensures Inv(CallStep(waits, s, a).value)
  {
    match a {
      case CallRegister(c) => NewCallInv(s, c, Call(c, RegWantOuter));
      case CallUnregister(c, cb) => NewCallInv(s, c, Call(cb, UnWantOuter));
      case _ => AnswerInv(waits, s, a);
    }
  }

  lemma NotifyStepInv(s: State, a: Action)
    requires Inv(s) && NotifyStep(s, a).Some?
    ensures Inv(NotifyStep(s, a).value)
  {
    NotifyStepKeepsLocks(s, a);
    NotifyStepKeepsCalls(s, a);
    NotifyStepKeepsCallbacks(s, a);
    NotifyStepKeepsWaits(s, a);
    NotifyStepKeepsSubscription(s, a);
    NotifyStepKeepsPresent(s, a);
  }

  lemma StepInv(waits: bool, s: State, a: Action)
    requires Inv(s) && Step(waits, s, a).Some?
    ensures Inv(Step(waits, s, a).value)
  {
    if ByNotifier(a) { NotifyStepInv(s, a); }
    else if !a.Advance? { CallStepInv(waits, s, a); }
    else if Registers(s.calls[a.c].pc) { RegisterStepInv(s, a.c); }
    else { UnregisterStepInv(s, a.c); }
  }

  lemma InvInductive(waits: bool)
    ensures Inductive(Init, (s, a) => Step(waits, s, a), Inv)
  {
    forall s, a | Inv(s) && Step(waits, s, a).Some? ensures Inv(Step(waits, s, a).value) {
      StepInv(waits, s, a);
    }
  }

  ghost predicate IsRegistryRun(waits: bool, run: Run<State, Action>) {
    IsRun(Init, (s, a) => Step(waits, s, a), run)
  }

  lemma RunStep(waits: bool, run: Run<State, Action>, i: nat)
    requires IsRegistryRun(waits, run) && i < |run.actions|
    ensures Step(waits, run.states[i], run.actions[i]) == Some(run.states[i + 1])
  {
  }

  lemma Reachable(waits: bool, run: Run<State, Action>, i: nat)
    requires IsRegistryRun(waits, run) && i < |run.states|
    ensures Inv(run.states[i])
    ensures i < |run.actions| ==> Step(waits, run.states[i], run.actions[i]) == Some(run.states[i + 1])
  {
    InvInductive(waits);
    InvariantHolds(Init, (s, a) => Step(waits, s, a), Inv, run, i);
  }

  // ---------------------------------------------------------------- quiescence

  /** The wait count of a callback is the number of its goroutines, in every state of every run. */
  lemma WaitCountsGoroutines(waits: bool, run: Run<State, Action>, i: nat, cb: nat)
    requires IsRegistryRun(waits, run) && i < |run.states|
    ensures run.states[i].table.Waiting(cb) == |InFlight(run.states[i].goroutines, cb)|
  {
    Reachable(waits, run, i);
  }

  ghost predicate HasReturned(s: State, c: nat) {
    c in s.calls && (s.calls[c].pc.UnReturned? || s.calls[c].pc.RegReturned?)
  }

  lemma ReturnedStays(waits: bool, s: State, a: Action, c: nat)
    requires HasReturned(s, c) && Step(waits, s, a).Some?
    ensures var t := Step(waits, s, a).value; c in t.calls && t.calls[c] == s.calls[c]
  {
  }

  lemma ReturnedForGood(waits: bool, run: Run<State, Action>, i: nat, j: nat, c: nat)
    requires IsRegistryRun(waits, run) && i <= j < |run.states| && HasReturned(run.states[i], c)
    ensures c in run.states[j].calls && run.states[j].calls[c] == run.states[i].calls[c]
  {
    var call := run.states[i].calls[c];
    var p := (s: State) => c in s.calls && s.calls[c] == call;
    forall s, a | p(s) && Step(waits, s, a).Some? ensures p(Step(waits, s, a).value) {
      ReturnedStays(waits, s, a, c);
    }
    InvInductive(waits);
    StableHolds(Init, (s, a) => Step(waits, s, a), Inv, p, run, i, j);
  }

  /** Once Unregister of a callback has returned, with or without an error, no goroutine for it is
      running and none is ever started again. */
  lemma QuietAfterUnregister(waits: bool, run: Run<State, Action>, i: nat, j: nat, c: nat)
    requires IsRegistryRun(waits, run) && i <= j < |run.states|
    requires c in run.states[i].calls && run.states[i].calls[c].pc.UnReturned?
    ensures var cb := run.states[i].calls[c].cb;
      && (forall g | g in run.states[j].goroutines :: run.states[j].goroutines[g] != cb)
      && cb !in run.states[j].table.callbacks
      && (j < |run.actions| && run.actions[j].Spawn? ==> run.actions[j].cb != cb)
  {
    ReturnedForGood(waits, run, i, j, c);
    Reachable(waits, run, j);
    var s, cb := run.states[j], run.states[i].calls[c].cb;
    forall g | g in s.goroutines ensures s.goroutines[g] != cb {
      assert g !in InFlight(s.goroutines, cb);
    }
  }

  /** A registered callback is in the map, to be notified, until an Unregister call for it has come to its
      deletion. */
  lemma RegisteredStaysInMap(waits: bool, run: Run<State, Action>, i: nat, c: nat)
    requires IsRegistryRun(waits, run) && i < |run.states|
    requires c in run.states[i].calls && run.states[i].calls[c].pc == RegReturned(true)
    ensures c in run.states[i].table.callbacks <==> !Gone(run.states[i], c)
  {
    Reachable(waits, run, i);
    var s := run.states[i];
    if Gone(s, c) {
      var d :| d in s.calls && s.calls[d].cb == c && Deleted(s.calls[d].pc);
    }
  }

  /** What a call reports is so at the moment it returns. Register: its callback is in the map under a live
      subscription, or is not in it. Unregister: its callback is not in the map, and an error means that no
      callback is left and the subscription still is. */
  lemma ResultsAreTrue(waits: bool, run: Run<State, Action>, i: nat, c: nat)
    requires IsRegistryRun(waits, run) && i < |run.actions|
    requires c in run.states[i].calls && !HasReturned(run.states[i], c) && HasReturned(run.states[i + 1], c)
    ensures var u := run.states[i + 1];
      if u.calls[c].pc.RegReturned? then
        (u.calls[c].pc.ok <==> c in u.table.callbacks) && (u.calls[c].pc.ok ==> u.table.handle in u.live)
      else
        u.calls[c].cb !in u.table.callbacks
        && (!u.calls[c].pc.ok <==> u.table.callbacks == {} && u.table.handle in u.live)
  {
    Reachable(waits, run, i);
    ReturnIsLast(waits, run.states[i], run.actions[i], c);
    ResultIsTrue(run.states[i], c);
  }

  lemma ReturnIsLast(waits: bool, s: State, a: Action, c: nat)
    requires c in s.calls && !HasReturned(s, c) && Step(waits, s, a).Some? && HasReturned(Step(waits, s, a).value, c)
    ensures var u, pc := Step(waits, s, a).value, s.calls[c].pc;
      && u.table == s.table && u.live == s.live && u.calls[c].cb == s.calls[c].cb
      && ((pc.RegUnlockOuter? && u.calls[c].pc == RegReturned(pc.ok))
          || (pc.UnUnlockOuter? && u.calls[c].pc == UnReturned(pc.ok)))
  {
  }

  lemma ResultIsTrue(s: State, c: nat)
    requires Inv(s) && c in s.calls
    ensures s.calls[c].pc.RegUnlockOuter? ==>
      (s.calls[c].pc.ok <==> c in s.table.callbacks) && (s.calls[c].pc.ok ==> s.table.handle in s.live)
    ensures s.calls[c].pc.UnUnlockOuter? ==>
      s.calls[c].cb !in s.table.callbacks
      && (!s.calls[c].pc.ok <==> s.table.callbacks == {} && s.table.handle in s.live)
  {
    EachIsPlaced(s, c);
    if s.calls[c].pc.RegUnlockOuter? {
      NotGoneYet(s, c);
    }
  }

  lemma NotGoneYet(s: State, c: nat)
    requires CallsOk(s) && c in s.calls && s.calls[c].pc != RegReturned(true)
    ensures !Gone(s, c)
  {
  }

  // ---------------------------------------------------------------- the subscription

  /** Whenever the callback mutex is free, a non-empty map means a live subscription; there is never
      more than one; and a subscription is cancelled only while the map is empty. */
  lemma SubscriptionFollowsCallbacks(waits: bool, run: Run<State, Action>, i: nat)
    requires IsRegistryRun(waits, run) && i < |run.states|
    ensures var s := run.states[i];
      && (s.inner == Free && s.table.callbacks != {} ==> s.table.handle in s.live)
      && |s.live| <= 1
      && (forall c | c in s.calls && (s.calls[c].pc.UnCancel? || s.calls[c].pc.UnCancelling?) ::
            s.table.callbacks == {} && s.table.handle in s.live)
  {
    Reachable(waits, run, i);
  }

  /** The goroutines that notification n starts for cb among actions[i..j). */
  function Spawns(actions: seq<Action>, n: nat, cb: nat, i: nat, j: nat): nat
    requires i <= j <= |actions|
  {
    if i == j then 0
    else Spawns(actions, n, cb, i, j - 1)
         + if actions[j - 1].Spawn? && actions[j - 1].n == n && actions[j - 1].cb == cb then 1 else 0
  }

  /** A notification that is starting goroutines goes on doing so: its own steps take callbacks off its
      list, one each, and nobody else touches it. */
  ghost predicate SpawnsOn(s: State, a: Action, t: State, n: nat) {
    n in s.notifications && s.notifications[n].Spawning? ==>
      && n in t.notifications
      && (a.Spawn? && a.n == n ==>
            a.cb in s.notifications[n].todo && t.notifications[n] == Spawning(s.notifications[n].todo - {a.cb}))
      && (!(a.Spawn? && a.n == n) ==> t.notifications[n] == s.notifications[n])
  }

  lemma SpawningGoesOn(waits: bool, s: State, a: Action, n: nat)
    requires a != EndNotify(n) && Step(waits, s, a).Some?
    ensures SpawnsOn(s, a, Step(waits, s, a).value, n)
  {
  }

  lemma {:induction false} SpawnedSoFar(run: Run<State, Action>, n: nat, cb: nat, i: nat, j: nat)
    requires |run.states| == |run.actions| + 1 && i <= j < |run.states|
    requires n in run.states[i].notifications && run.states[i].notifications[n].Spawning?
    requires forall k | i <= k < j :: SpawnsOn(run.states[k], run.actions[k], run.states[k + 1], n)
    ensures n in run.states[j].notifications && run.states[j].notifications[n].Spawning?
    ensures Spawns(run.actions, n, cb, i, j) + (if cb in run.states[j].notifications[n].todo then 1 else 0)
         == if cb in run.states[i].notifications[n].todo then 1 else 0
    decreases j
  {
    if i < j {
      SpawnedSoFar(run, n, cb, i, j - 1);
      assert SpawnsOn(run.states[j - 1], run.actions[j - 1], run.states[j - 1 + 1], n);
    }
  }

  /** Between taking the callback mutex and giving it back a notification starts one goroutine for
      every callback that was in the map, and none for any other. */
  lemma NotificationReachesEach(waits: bool, run: Run<State, Action>, n: nat, cb: nat, i: nat, j: nat)
    requires IsRegistryRun(waits, run) && i < j < |run.actions|
    requires run.actions[i] == LockForNotify(n) && run.actions[j] == EndNotify(n)
    requires forall k | i < k < j :: run.actions[k] != EndNotify(n)
    ensures Spawns(run.actions, n, cb, i + 1, j) == if cb in run.states[i].table.callbacks then 1 else 0
  {
    forall k | i < k < j ensures SpawnsOn(run.states[k], run.actions[k], run.states[k + 1], n) {
      RunStep(waits, run, k);
      SpawningGoesOn(waits, run.states[k], run.actions[k], n);
    }
    RunStep(waits, run, i);
    SpawnedSoFar(run, n, cb, i + 1, j);
    RunStep(waits, run, j);
  }
}
