/**
 Progress of the callback registry: it never deadlocks, and every call, notification and callback
 goroutine that is under way comes to its end after a bounded number of steps.
 */
module RegistryProgress {
  import opened Wrappers
  import opened Runs
  import opened CallbackTable
  import opened RegistryProtocol

  /** Nothing is under way: every call has returned, no notification or callback is running. */
  ghost predicate Settled(s: State) {
    && (forall c | c in s.calls :: HasReturned(s, c))
    && s.notifications == map[] && s.goroutines == map[]
  }

  /** Steps that finish what is under way rather than start something new. */
  predicate Internal(a: Action) {
    !(a.CallRegister? || a.CallUnregister? || a.Notify?)
  }

  /** What the OS says in such a step, if it is asked: a handle that is not in use, or no; done, or no. */
  predicate Says(a: Action, granted: Option<nat>, cancelled: bool) {
    (a.Subscribe? ==> a.granted == granted) && (a.FinishCancel? ==> a.ok == cancelled)
  }

  predicate IsNew(s: State, granted: Option<nat>) {
    granted.Some? ==> granted.value != 0 && granted.value !in s.live
  }

  lemma HolderOfOuterMoves(waits: bool, s: State, c: nat, granted: Option<nat>, cancelled: bool) returns (a: Action)
    requires Placed(s, c) && WaitsOk(s) && s.outer == Some(c) && s.inner == Free && s.notifications == map[]
    requires IsNew(s, granted)
    ensures Internal(a) && Step(waits, s, a).Some? && Says(a, granted, cancelled)
  {
    var call := s.calls[c];
    match call.pc {
      case RegSubscribe => a := Subscribe(c, granted);
      case UnCancelling => a := FinishCancel(c, cancelled);
      case UnWait(removeIt) =>
        if s.table.Waiting(call.cb) > 0 {
          assert s.table.Waiting(call.cb) == |InFlight(s.goroutines, call.cb)|;
          var g :| g in InFlight(s.goroutines, call.cb);
          a := FinishCallback(g);
        } else {
          a := Advance(c);
        }
      case _ => a := Advance(c);
    }
  }

  lemma HolderOfInnerMoves(waits: bool, s: State, c: nat, granted: Option<nat>) returns (a: Action)
    requires Placed(s, c) && s.inner == ByCall(c) && IsNew(s, granted)
    ensures Internal(a) && Step(waits, s, a).Some? && Says(a, granted, true) && Says(a, granted, false)
  {
    a := if s.calls[c].pc == RegSubscribe then Subscribe(c, granted) else Advance(c);
  }

  lemma WaiterMoves(waits: bool, s: State, c: nat)
    requires Placed(s, c) && s.outer == None && s.inner == Free && !HasReturned(s, c)
    ensures Step(waits, s, Advance(c)).Some?
  {
  }

  lemma SpawnerMoves(waits: bool, s: State, n: nat) returns (a: Action)
    requires n in s.notifications && s.notifications[n].Spawning?
    ensures Internal(a) && Step(waits, s, a).Some? && (a.EndNotify? || a.Spawn?)
  {
    var todo := s.notifications[n].todo;
    if todo == {} {
      a := EndNotify(n);
    } else {
      var cb :| cb in todo;
      var g := FreshNumber(s.goroutines.Keys);
      a := Spawn(n, cb, g);
    }
  }

  /** The registry never deadlocks: in every reachable state something under way can move, whatever the OS
      answers, even if cancelling a subscription waits for running notifications. (Callbacks neither
      register nor unregister, so a goroutine can always finish.) */
  lemma NeverStuck(waits: bool, s: State, granted: Option<nat>, cancelled: bool) returns (a: Action)
    requires Inv(s) && !Settled(s) && IsNew(s, granted)
    ensures Internal(a) && Step(waits, s, a).Some? && Says(a, granted, cancelled)
  {
    if s.inner.ByNotification? {
      a := SpawnerMoves(waits, s, s.inner.notification);
    } else if s.inner.ByCall? {
      EachIsPlaced(s, s.inner.call);
      a := HolderOfInnerMoves(waits, s, s.inner.call, granted);
    } else if s.notifications != map[] {
      var n :| n in s.notifications;
      a := LockForNotify(n);
    } else if s.outer.Some? {
      EachIsPlaced(s, s.outer.value);
      a := HolderOfOuterMoves(waits, s, s.outer.value, granted, cancelled);
    } else if s.goroutines != map[] {
      var g :| g in s.goroutines;
      a := FinishCallback(g);
    } else {
      var c :| c in s.calls && !HasReturned(s, c);
      EachIsPlaced(s, c);
      WaiterMoves(waits, s, c);
      a := Advance(c);
    }
  }

  /** The same over runs. */
  lemma NoDeadlock(waits: bool, run: Run<State, Action>, i: nat, granted: Option<nat>, cancelled: bool)
    requires IsRegistryRun(waits, run) && i < |run.states| && !Settled(run.states[i])
    requires IsNew(run.states[i], granted)
    ensures exists a :: Internal(a) && Step(waits, run.states[i], a).Some? && Says(a, granted, cancelled)
  {
    Reachable(waits, run, i);
    var a := NeverStuck(waits, run.states[i], granted, cancelled);
  }

  // ---------------------------------------------------------------- everything under way ends

  /** The steps a call still has to take, at most. */
  function CallWork(pc: CallPc): nat {
    match pc
    case RegWantOuter => 6
    case RegWantInner => 5
    case RegInsert => 4
    case RegSubscribe => 3
    case RegUnlockInner(_) => 2
    case RegUnlockOuter(_) => 1
    case RegReturned(_) => 0
    case UnWantOuter => 9
    case UnWantInner => 8
    case UnDelete => 7
    case UnUnlockInner(_) => 6
    case UnWait(_) => 5
    case UnCancel => 4
    case UnCancelling => 3
    case UnClear => 2
    case UnUnlockOuter(_) => 1
    case UnReturned(_) => 0
  }

  /** Such a call may still put its callback into the map. */
  predicate WillInsert(pc: CallPc) {
    pc.RegWantOuter? || pc.RegWantInner? || pc.RegInsert?
  }

  function Sum(f: nat -> nat, xs: seq<nat>, k: nat): nat
    requires k <= |xs|
  {
    if k == 0 then 0 else Sum(f, xs, k - 1) + f(xs[k - 1])
  }

  lemma {:induction false} SumDrops(f: nat -> nat, g: nat -> nat, xs: seq<nat>, k: nat, i: nat, d: nat)
    requires k <= |xs| && i < |xs| && f(xs[i]) + d <= g(xs[i])
    requires forall j | 0 <= j < |xs| :: f(xs[j]) <= g(xs[j])
    ensures Sum(f, xs, k) + (if i < k then d else 0) <= Sum(g, xs, k)
  {
    if k > 0 {
      SumDrops(f, g, xs, k - 1, i, d);
    }
  }

  lemma {:induction false} SumStays(f: nat -> nat, g: nat -> nat, xs: seq<nat>, k: nat)
    requires k <= |xs| && forall j | 0 <= j < |xs| :: f(xs[j]) <= g(xs[j])
    ensures Sum(f, xs, k) <= Sum(g, xs, k)
  {
    if k > 0 {
      SumStays(f, g, xs, k - 1);
    }
  }

  function WorkOfCall(s: State, c: nat): nat {
    if c in s.calls then CallWork(s.calls[c].pc) else 0
  }

  function InsertOfCall(s: State, c: nat): nat {
    if c in s.calls && WillInsert(s.calls[c].pc) then 1 else 0
  }

  /** A bound on the callbacks that a notification can still meet; cs lists the calls. */
  function Reach(s: State, cs: seq<nat>): nat {
    |s.table.callbacks| + Sum(c => InsertOfCall(s, c), cs, |cs|)
  }

  /** A notification takes the mutex, gives each callback it meets a goroutine, which then ends, and
      gives the mutex back. */
  function WorkOfNotification(s: State, reach: nat, n: nat): nat {
    if n !in s.notifications then 0
    else match s.notifications[n]
         case WantInner => 2 * reach + 2
         case Spawning(todo) => 2 * |todo| + 1
  }

  /** A bound on the steps of what is under way; cs and ns list the calls and the notifications. */
  function Work(s: State, cs: seq<nat>, ns: seq<nat>): nat {
    Sum(c => WorkOfCall(s, c), cs, |cs|) + Sum(n => WorkOfNotification(s, Reach(s, cs), n), ns, |ns|) + |s.goroutines|
  }

  ghost predicate Lists(s: State, cs: seq<nat>, ns: seq<nat>) {
    (forall c | c in s.calls :: c in cs) && (forall n | n in s.notifications :: n in ns)
  }

  /** Call c goes on to pc, which leaves it less to do; the map grows only if c inserts. */
  ghost predicate GoesOn(s: State, u: State, c: nat, pc: CallPc) {
    && Moved(s, u, c, pc)
    && CallWork(pc) < CallWork(s.calls[c].pc)
    && (WillInsert(pc) ==> WillInsert(s.calls[c].pc))
    && (u.table.callbacks <= s.table.callbacks
        || (u.table.callbacks <= s.table.callbacks + {c} && WillInsert(s.calls[c].pc) && !WillInsert(pc)))
  }

  lemma SubsetSize(a: set<nat>, b: set<nat>)
    requires a <= b
    ensures |a| <= |b|
  {
    assert b == a + (b - a);
  }

  lemma ReachStays(s: State, u: State, c: nat, pc: CallPc, cs: seq<nat>)
    requires GoesOn(s, u, c, pc) && c in cs
    ensures Reach(u, cs) <= Reach(s, cs)
  {
    var i :| 0 <= i < |cs| && cs[i] == c;
    if u.table.callbacks <= s.table.callbacks {
      SubsetSize(u.table.callbacks, s.table.callbacks);
      SumDrops(c => InsertOfCall(u, c), c => InsertOfCall(s, c), cs, |cs|, i, 0);
    } else {
      SubsetSize(u.table.callbacks, s.table.callbacks + {c});
      SumDrops(c => InsertOfCall(u, c), c => InsertOfCall(s, c), cs, |cs|, i, 1);
    }
  }

  lemma GoingOnLessens(s: State, u: State, c: nat, pc: CallPc, cs: seq<nat>, ns: seq<nat>)
    requires GoesOn(s, u, c, pc) && c in cs
    ensures Work(u, cs, ns) < Work(s, cs, ns)
  {
    ReachStays(s, u, c, pc, cs);
    var i :| 0 <= i < |cs| && cs[i] == c;
    SumDrops(c => WorkOfCall(u, c), c => WorkOfCall(s, c), cs, |cs|, i, 1);
    var before, after := Reach(s, cs), Reach(u, cs);
    SumStays(n => WorkOfNotification(u, after, n), n => WorkOfNotification(s, before, n), ns, |ns|);
  }

  lemma RegisterGoesOn(s: State, c: nat)
    requires c in s.calls && RegisterStep(s, c).Some?
    ensures GoesOn(s, RegisterStep(s, c).value, c, RegisterStep(s, c).value.calls[c].pc)
  {
  }

  lemma UnregisterGoesOn(s: State, c: nat)
    requires c in s.calls && UnregisterStep(s, c).Some?
    ensures GoesOn(s, UnregisterStep(s, c).value, c, UnregisterStep(s, c).value.calls[c].pc)
  {
  }

  lemma AnswerGoesOn(waits: bool, s: State, a: Action)
    requires (a.Subscribe? || a.FinishCancel?) && CallStep(waits, s, a).Some?
    ensures GoesOn(s, CallStep(waits, s, a).value, a.c, CallStep(waits, s, a).value.calls[a.c].pc)
  {
  }

  /** Notification n goes on, with d less to do for itself than the new goroutines have. */
  lemma NotifyingLessens(s: State, u: State, n: nat, d: nat, cs: seq<nat>, ns: seq<nat>)
    requires u.calls == s.calls && u.table.callbacks == s.table.callbacks && n in ns
    requires forall m | m != n :: WorkOfNotification(u, Reach(s, cs), m) == WorkOfNotification(s, Reach(s, cs), m)
    requires WorkOfNotification(u, Reach(s, cs), n) + d <= WorkOfNotification(s, Reach(s, cs), n)
    requires |u.goroutines| < |s.goroutines| + d
    ensures Work(u, cs, ns) < Work(s, cs, ns)
  {
    SameCalls(s, u, cs);
    var i :| 0 <= i < |ns| && ns[i] == n;
    var reach := Reach(s, cs);
    SumDrops(m => WorkOfNotification(u, reach, m), m => WorkOfNotification(s, reach, m), ns, |ns|, i, d);
    SumStays(m => WorkOfNotification(u, Reach(u, cs), m), m => WorkOfNotification(u, reach, m), ns, |ns|);
  }

  lemma SameCalls(s: State, u: State, cs: seq<nat>)
    requires u.calls == s.calls && u.table.callbacks == s.table.callbacks
    ensures Reach(u, cs) == Reach(s, cs)
    ensures Sum(c => WorkOfCall(u, c), cs, |cs|) == Sum(c => WorkOfCall(s, c), cs, |cs|)
  {
    SumStays(c => InsertOfCall(u, c), c => InsertOfCall(s, c), cs, |cs|);
    SumStays(c => InsertOfCall(s, c), c => InsertOfCall(u, c), cs, |cs|);
    SumStays(c => WorkOfCall(u, c), c => WorkOfCall(s, c), cs, |cs|);
    SumStays(c => WorkOfCall(s, c), c => WorkOfCall(u, c), cs, |cs|);
  }

  lemma OneMore(m: map<nat, nat>, g: nat, cb: nat)
    requires g !in m
    ensures |m[g := cb]| == |m| + 1
  {
    assert m[g := cb].Keys == m.Keys + {g};
    assert |m[g := cb].Keys| == |m[g := cb]| && |m.Keys| == |m|;
  }

  lemma OneLess(m: map<nat, nat>, g: nat)
    requires g in m
    ensures |m - {g}| == |m| - 1
  {
    assert m.Keys == (m - {g}).Keys + {g};
    assert |(m - {g}).Keys| == |m - {g}| && |m.Keys| == |m|;
  }

  lemma LockForNotifyLessens(s: State, n: nat, cs: seq<nat>, ns: seq<nat>)
    requires Lists(s, cs, ns) && NotifyStep(s, LockForNotify(n)).Some?
    ensures Work(NotifyStep(s, LockForNotify(n)).value, cs, ns) < Work(s, cs, ns)
  {
    NotifyingLessens(s, NotifyStep(s, LockForNotify(n)).value, n, 1, cs, ns);
  }

  lemma SpawnLessens(s: State, n: nat, cb: nat, g: nat, cs: seq<nat>, ns: seq<nat>)
    requires Lists(s, cs, ns) && NotifyStep(s, Spawn(n, cb, g)).Some?
    ensures Work(NotifyStep(s, Spawn(n, cb, g)).value, cs, ns) < Work(s, cs, ns)
  {
    var u, todo := NotifyStep(s, Spawn(n, cb, g)).value, s.notifications[n].todo;
    assert |todo - {cb}| == |todo| - 1;
    OneMore(s.goroutines, g, cb);
    NotifyingLessens(s, u, n, 2, cs, ns);
  }

  lemma EndNotifyLessens(s: State, n: nat, cs: seq<nat>, ns: seq<nat>)
    requires Lists(s, cs, ns) && NotifyStep(s, EndNotify(n)).Some?
    ensures Work(NotifyStep(s, EndNotify(n)).value, cs, ns) < Work(s, cs, ns)
  {
    NotifyingLessens(s, NotifyStep(s, EndNotify(n)).value, n, 1, cs, ns);
  }

  lemma FinishCallbackLessens(s: State, g: nat, cs: seq<nat>, ns: seq<nat>)
    requires NotifyStep(s, FinishCallback(g)).Some?
    ensures Work(NotifyStep(s, FinishCallback(g)).value, cs, ns) < Work(s, cs, ns)
  {
    var u := NotifyStep(s, FinishCallback(g)).value;
    OneLess(s.goroutines, g);
    SameCalls(s, u, cs);
    var before, after := Reach(s, cs), Reach(u, cs);
    SumStays(n => WorkOfNotification(u, after, n), n => WorkOfNotification(s, before, n), ns, |ns|);
  }

  lemma InternalStepLessens(waits: bool, s: State, a: Action, cs: seq<nat>, ns: seq<nat>)
    requires Lists(s, cs, ns) && Internal(a) && Step(waits, s, a).Some?
    ensures Lists(Step(waits, s, a).value, cs, ns)
    ensures Work(Step(waits, s, a).value, cs, ns) < Work(s, cs, ns)
  {
    KeepsListed(waits, s, a, cs, ns);
    if ByNotifier(a) {
      match a {
        case LockForNotify(n) => LockForNotifyLessens(s, n, cs, ns);
        case Spawn(n, cb, g) => SpawnLessens(s, n, cb, g, cs, ns);
        case EndNotify(n) => EndNotifyLessens(s, n, cs, ns);
        case FinishCallback(g) => FinishCallbackLessens(s, g, cs, ns);
      }
    } else {
      CallGoesOn(waits, s, a);
      var u := Step(waits, s, a).value;
      GoingOnLessens(s, u, a.c, u.calls[a.c].pc, cs, ns);
    }
  }

  lemma CallGoesOn(waits: bool, s: State, a: Action)
    requires Internal(a) && !ByNotifier(a) && Step(waits, s, a).Some?
    ensures a.c in s.calls && a.c in Step(waits, s, a).value.calls
    ensures GoesOn(s, Step(waits, s, a).value, a.c, Step(waits, s, a).value.calls[a.c].pc)
  {
    if !a.Advance? {
      AnswerGoesOn(waits, s, a);
    } else if Registers(s.calls[a.c].pc) {
      RegisterGoesOn(s, a.c);
    } else {
      UnregisterGoesOn(s, a.c);
    }
  }

  lemma KeepsListed(waits: bool, s: State, a: Action, cs: seq<nat>, ns: seq<nat>)
    requires Lists(s, cs, ns) && Internal(a) && Step(waits, s, a).Some?
    ensures Lists(Step(waits, s, a).value, cs, ns)
  {
  }

  ghost predicate Lessens(s: State, u: State, cs: seq<nat>, ns: seq<nat>) {
    Lists(s, cs, ns) ==> Lists(u, cs, ns) && Work(u, cs, ns) < Work(s, cs, ns)
  }

  lemma {:induction false} WorkCountsDown(states: seq<State>, i: nat, j: nat, cs: seq<nat>, ns: seq<nat>)
    requires i <= j < |states| && Lists(states[i], cs, ns)
    requires forall k | i <= k < j :: Lessens(states[k], states[k + 1], cs, ns)
    ensures Lists(states[j], cs, ns) && j - i + Work(states[j], cs, ns) <= Work(states[i], cs, ns)
    decreases j
  {
    if i < j {
      WorkCountsDown(states, i, j - 1, cs, ns);
      assert Lessens(states[j - 1], states[j - 1 + 1], cs, ns);
    }
  }

  /** While nothing new is begun, what is under way ends: from any state of any run at most Work steps
      are taken, one is enabled until everything has returned, and after that many everything has. Any
      lists of the calls and the notifications will do. */
  lemma EverythingReturns(waits: bool, run: Run<State, Action>, i: nat, j: nat, cs: seq<nat>, ns: seq<nat>)
    requires IsRegistryRun(waits, run) && i <= j < |run.states| && Lists(run.states[i], cs, ns)
    requires forall k | i <= k < j :: Internal(run.actions[k])
    ensures j - i <= Work(run.states[i], cs, ns)
    ensures j - i == Work(run.states[i], cs, ns) ==> Settled(run.states[j])
    ensures !Settled(run.states[j]) ==> exists a :: Internal(a) && Step(waits, run.states[j], a).Some?
  {
    forall k | i <= k < j ensures Lessens(run.states[k], run.states[k + 1], cs, ns) {
      RunStep(waits, run, k);
      if Lists(run.states[k], cs, ns) {
        InternalStepLessens(waits, run.states[k], run.actions[k], cs, ns);
      }
    }
    WorkCountsDown(run.states, i, j, cs, ns);
    if !Settled(run.states[j]) {
      NoDeadlock(waits, run, j, None, false);
      var a :| Internal(a) && Step(waits, run.states[j], a).Some?;
      InternalStepLessens(waits, run.states[j], a, cs, ns);
    }
  }

  lemma ListOf(keys: set<nat>) returns (list: seq<nat>)
    ensures forall x | x in keys :: x in list
  {
    list := [];
    var rest := keys;
    while rest != {}
      invariant forall x | x in keys && x !in rest :: x in list
      decreases rest
    {
      var x :| x in rest;
      list, rest := list + [x], rest - {x};
    }
  }

  /** Such lists exist, so every state has a bound. */
  lemma WorkExists(s: State) returns (cs: seq<nat>, ns: seq<nat>)
    ensures Lists(s, cs, ns)
  {
    cs := ListOf(s.calls.Keys);
    ns := ListOf(s.notifications.Keys);
  }
}
