/**
 Every step of the tunnel controller keeps its invariant. A thread that moves and a record that grows
 keep the parts that do not speak of them; what is left is shown step by step.
 */
module TunnelInvariant {
  import opened Wrappers
  import opened Runs
  import opened TunnelSteps
  import opened TunnelProtocol

  // A thread that moves, and a thread that is new, keep locks and kinds.

  predicate Placed(s: State, t: nat) {
    t in s.threads && (NeedsLock(s.threads[t].pc) <==> s.holder == Some(t)) && FitsOp(s.threads[t])
  }

  ghost predicate Moved(s: State, u: State, t: nat, pc: Pc) {
    && t in s.threads && u.threads == s.threads[t := s.threads[t].(pc := pc)] && FitsOp(u.threads[t])
    && (NeedsLock(pc) ==> (s.holder == None || s.holder == Some(t)) && u.holder == Some(t))
    && (!NeedsLock(pc) ==> u.holder == if s.holder == Some(t) then None else s.holder)
  }

  lemma MoveKeepsPlaces(s: State, u: State, t: nat, pc: Pc)
    requires LocksOk(s) && ThreadsOk(s) && Moved(s, u, t, pc)
    ensures LocksOk(u) && ThreadsOk(u)
  {
  }

  lemma NewThreadKeepsPlaces(s: State, u: State, t: nat, thread: Thread)
    requires LocksOk(s) && ThreadsOk(s) && t !in s.threads && !NeedsLock(thread.pc) && FitsOp(thread)
    requires u.threads == s.threads[t := thread] && u.holder == s.holder
    ensures LocksOk(u) && ThreadsOk(u)
  {
  }

  lemma LockMoves(s: State, a: Action)
    requires a.Lock? || a.Decide? || a.Release?
    requires LockStep(s, a).Some? && Placed(s, a.t)
    ensures Moved(s, LockStep(s, a).value, a.t, LockStep(s, a).value.threads[a.t].pc)
  {
  }

  lemma WatchMoves(s: State, a: Action)
    requires WatchStep(s, a).Some? && Placed(s, a.t)
    ensures Moved(s, WatchStep(s, a).value, a.t, WatchStep(s, a).value.threads[a.t].pc)
  {
  }

  lemma StopMoves(s: State, t: nat)
    requires StopAction(s, t).Some? && Placed(s, t)
    ensures Moved(s, StopAction(s, t).value, t, StopAction(s, t).value.threads[t].pc)
  {
  }

  lemma ConnectMoves(s: State, a: Action)
    requires ConnectStep(s, a).Some? && !a.Publish? && Placed(s, a.t)
    ensures Moved(s, ConnectStep(s, a).value, a.t, ConnectStep(s, a).value.threads[a.t].pc)
  {
  }

  lemma LockStepKeepsPlaces(s: State, a: Action)
    requires LocksOk(s) && ThreadsOk(s) && LockStep(s, a).Some?
    ensures LocksOk(LockStep(s, a).value) && ThreadsOk(LockStep(s, a).value)
  {
    var u := LockStep(s, a).value;
    if a.Call? {
      NewThreadKeepsPlaces(s, u, a.t, Thread(a.op, WantLock));
    } else {
      LockMoves(s, a);
      MoveKeepsPlaces(s, u, a.t, u.threads[a.t].pc);
    }
  }

  lemma WatchStepKeepsPlaces(s: State, a: Action)
    requires LocksOk(s) && ThreadsOk(s) && WatchStep(s, a).Some?
    ensures LocksOk(WatchStep(s, a).value) && ThreadsOk(WatchStep(s, a).value)
  {
    WatchMoves(s, a);
    MoveKeepsPlaces(s, WatchStep(s, a).value, a.t, WatchStep(s, a).value.threads[a.t].pc);
  }

  lemma StopActionKeepsPlaces(s: State, t: nat)
    requires LocksOk(s) && ThreadsOk(s) && StopAction(s, t).Some?
    ensures LocksOk(StopAction(s, t).value) && ThreadsOk(StopAction(s, t).value)
  {
    StopMoves(s, t);
    MoveKeepsPlaces(s, StopAction(s, t).value, t, StopAction(s, t).value.threads[t].pc);
  }

  lemma PublishKeepsPlaces(s: State, t: nat, watcher: nat)
    requires LocksOk(s) && ThreadsOk(s) && ConnectStep(s, Publish(t, watcher)).Some?
    ensures LocksOk(ConnectStep(s, Publish(t, watcher)).value) && ThreadsOk(ConnectStep(s, Publish(t, watcher)).value)
  {
    var u, v := ConnectStep(s, Publish(t, watcher)).value, Go(s, t, Unlock(Done));
    MoveKeepsPlaces(s, v, t, Unlock(Done));
    NewThreadKeepsPlaces(v, u, watcher, u.threads[watcher]);
  }

  lemma ConnectStepKeepsPlaces(s: State, a: Action)
    requires LocksOk(s) && ThreadsOk(s) && ConnectStep(s, a).Some?
    ensures LocksOk(ConnectStep(s, a).value) && ThreadsOk(ConnectStep(s, a).value)
  {
    if a.Publish? {
      PublishKeepsPlaces(s, a.t, a.watcher);
    } else {
      ConnectMoves(s, a);
      MoveKeepsPlaces(s, ConnectStep(s, a).value, a.t, ConnectStep(s, a).value.threads[a.t].pc);
    }
  }

  lemma LockStepKeepsCore(s: State, a: Action)
    requires LocksOk(s) && CoreOk(s) && LockStep(s, a).Some?
    ensures CoreOk(LockStep(s, a).value)
  {
  }

  lemma StopActionKeepsCore(s: State, t: nat)
    requires LocksOk(s) && CoreOk(s) && StopAction(s, t).Some?
    ensures CoreOk(StopAction(s, t).value)
  {
  }

  lemma ConnectStepKeepsCore(s: State, a: Action)
    requires LocksOk(s) && CoreOk(s) && ConnectStep(s, a).Some?
    ensures CoreOk(ConnectStep(s, a).value)
  {
  }

  // Taking the lock and giving it back, watching and running the engine change no fields and no words.

  /** With the lock but with nothing done yet, or done. */
  predicate AtRest(pc: Pc) {
    !(pc.Building? || pc.Undo? || (pc.Stop? && pc.stage != BumpGen))
  }

  predicate SameRecord(at: Attempt, at': Attempt) {
    at'.word == at.word && at'.gen == at.gen && at'.watcher == at.watcher && at'.builder == at.builder
  }

  ghost predicate Unchanging(s: State, u: State) {
    && u.core == s.core && u.attempts.Keys == s.attempts.Keys
    && (forall a | a in s.attempts :: SameRecord(s.attempts[a], u.attempts[a]))
    && (Doing(u) == Doing(s) || (AtRest(Doing(u)) && AtRest(Doing(s))))
  }

  lemma LockStepIsUnchanging(s: State, a: Action)
    requires LocksOk(s) && LockStep(s, a).Some?
    ensures Unchanging(s, LockStep(s, a).value)
  {
  }

  lemma WatchStepIsUnchanging(s: State, a: Action)
    requires LocksOk(s) && WatchStep(s, a).Some?
    ensures Unchanging(s, WatchStep(s, a).value)
  {
  }

  lemma EngineStepIsUnchanging(s: State, a: Action)
    requires EngineStep(s, a).Some?
    ensures Unchanging(s, EngineStep(s, a).value)
  {
  }

  lemma UnchangingKeepsCore(s: State, u: State)
    requires CoreOk(s) && Unchanging(s, u) && Doing(u) == Doing(s)
    ensures CoreOk(u)
  {
  }

  lemma UnchangingKeepsWords(s: State, u: State)
    requires CoreOk(s) && WordsOk(s) && CoreOk(u) && Unchanging(s, u)
    ensures WordsOk(u)
  {
    forall a | a in u.attempts ensures WordOk(u, a) {
      assert WordOk(s, a) && SameRecord(s.attempts[a], u.attempts[a]);
    }
  }

  lemma UnchangingKeepsGens(s: State, u: State)
    requires CoreOk(s) && GensOk(s) && DistinctOk(s) && CoreOk(u) && Unchanging(s, u)
    ensures GensOk(u) && DistinctOk(u)
  {
    forall a | a in u.attempts ensures u.attempts[a].gen == s.attempts[a].gen {
      assert SameRecord(s.attempts[a], u.attempts[a]);
    }
  }

  lemma UnchangingKeepsWatchers(s: State, u: State)
    requires WatchersOk(s) && Unchanging(s, u)
    requires forall t | t in u.threads && u.threads[t].op.Watch? ::
      t in s.threads && u.threads[t].op == s.threads[t].op
      && (u.threads[t].pc.Stop? ==> s.threads[t].pc.Stop? || s.core.eng == Some(s.threads[t].op.attempt))
    ensures WatchersOk(u)
  {
    forall t | t in u.threads && u.threads[t].op.Watch? ensures WatcherOk(u, t) {
      assert WatcherOk(s, t);
      assert SameRecord(s.attempts[s.threads[t].op.attempt], u.attempts[s.threads[t].op.attempt]);
    }
  }

  lemma LockStepKeepsRecords(s: State, a: Action)
    requires LocksOk(s) && CoreOk(s) && WordsOk(s) && LoopsOk(s) && GensOk(s) && DistinctOk(s) && LockStep(s, a).Some?
    requires CoreOk(LockStep(s, a).value)
    ensures var u := LockStep(s, a).value; WordsOk(u) && LoopsOk(u) && GensOk(u) && DistinctOk(u)
  {
    LockStepIsUnchanging(s, a);
    UnchangingKeepsWords(s, LockStep(s, a).value);
    UnchangingKeepsGens(s, LockStep(s, a).value);
  }

  lemma WatchStepKeepsRecords(s: State, a: Action)
    requires LocksOk(s) && CoreOk(s) && WordsOk(s) && LoopsOk(s) && GensOk(s) && DistinctOk(s) && WatchStep(s, a).Some?
    ensures var u := WatchStep(s, a).value; CoreOk(u) && WordsOk(u) && LoopsOk(u) && GensOk(u) && DistinctOk(u)
  {
    WatchStepIsUnchanging(s, a);
    UnchangingKeepsCore(s, WatchStep(s, a).value);
    UnchangingKeepsWords(s, WatchStep(s, a).value);
    UnchangingKeepsGens(s, WatchStep(s, a).value);
    WatchStepKeepsLoops(s, a);
  }

  lemma EngineStepKeepsRecords(s: State, a: Action)
    requires LocksOk(s) && CoreOk(s) && WordsOk(s) && LoopsOk(s) && GensOk(s) && DistinctOk(s) && EngineStep(s, a).Some?
    ensures var u := EngineStep(s, a).value; CoreOk(u) && WordsOk(u) && LoopsOk(u) && GensOk(u) && DistinctOk(u)
  {
    EngineStepIsUnchanging(s, a);
    UnchangingKeepsCore(s, EngineStep(s, a).value);
    UnchangingKeepsWords(s, EngineStep(s, a).value);
    UnchangingKeepsGens(s, EngineStep(s, a).value);
    EngineStepKeepsLoops(s, a);
  }

  lemma DeciderStopsItsOwn(s: State, t: nat)
    requires CoreOk(s) && GensOk(s) && DistinctOk(s) && At(s, t, Check) && s.threads[t].op.Watch? && WatcherOk(s, t)
    requires s.holder == Some(t)
    ensures WantsStop(s.core, s.threads[t].op) <==> IsCurrent(s, s.threads[t].op.attempt)
  {
  }

  lemma LockStepKeepsWatchers(s: State, a: Action)
    requires LocksOk(s) && CoreOk(s) && DistinctOk(s) && GensOk(s) && WatchersOk(s) && LockStep(s, a).Some?
    ensures WatchersOk(LockStep(s, a).value)
  {
    LockStepIsUnchanging(s, a);
    if a.Decide? && s.threads[a.t].op.Watch? {
      assert WatcherOk(s, a.t);
      DeciderStopsItsOwn(s, a.t);
    }
    UnchangingKeepsWatchers(s, LockStep(s, a).value);
  }

  lemma WatchStepKeepsLoops(s: State, a: Action)
    requires LoopsOk(s) && WatchStep(s, a).Some?
    ensures LoopsOk(WatchStep(s, a).value)
  {
  }

  lemma EngineStepKeepsLoops(s: State, a: Action)
    requires LoopsOk(s) && EngineStep(s, a).Some?
    ensures LoopsOk(EngineStep(s, a).value)
  {
    var u := EngineStep(s, a).value;
    assert LoopsOkFor(s.attempts[a.attempt]);
    OneAttemptKeepsLoops(s, u, a.attempt);
  }

  lemma StoppedWord(s: State, t: nat)
    requires LocksOk(s) && CoreOk(s) && WordsOk(s) && StopAction(s, t).Some?
    requires CoreOk(StopAction(s, t).value)
    ensures var u, n := StopAction(s, t).value, s.core.eng.value;
      Doing(s) == s.threads[t].pc && u.holder == Some(t) && Doing(u) == u.threads[t].pc
      && n in u.attempts && WordOk(u, n)
  {
    assert Doing(s) == s.threads[t].pc;
    assert WordOk(s, s.core.eng.value);
    DownSteps();
  }

  lemma StopActionKeepsWords(s: State, t: nat)
    requires LocksOk(s) && CoreOk(s) && WordsOk(s) && StopAction(s, t).Some?
    requires CoreOk(StopAction(s, t).value)
    ensures WordsOk(StopAction(s, t).value)
  {
    StoppedWord(s, t);
    OthersAreOver(s, StopAction(s, t).value, s.core.eng.value);
  }

  lemma StopActionKeepsLoops(s: State, t: nat)
    requires LocksOk(s) && CoreOk(s) && WordsOk(s) && LoopsOk(s) && StopAction(s, t).Some?
    ensures LoopsOk(StopAction(s, t).value)
  {
    assert Doing(s) == s.threads[t].pc;
    var u, n := StopAction(s, t).value, s.core.eng.value;
    if u.attempts != s.attempts {
      assert WordOk(s, n) && LoopsOkFor(s.attempts[n]);
      if s.threads[t].pc.stage != AwaitEngine {
        LoopsGoOn(s.attempts[n], StopEvent(s.core, s.threads[t].pc.stage).value.1);
      }
      OneAttemptKeepsLoops(s, u, n);
    }
  }

  predicate Grown(at: Attempt, at': Attempt) {
    at.word <= at'.word && at.reports <= at'.reports && at'.received == at.received
  }

  /** Thread t takes a step of its own; records grow, and new ones are unpublished. */
  ghost predicate Works(s: State, u: State, t: nat) {
    && t in s.threads && t in u.threads && u.threads == s.threads[t := s.threads[t].(pc := u.threads[t].pc)]
    && (forall a | a in s.attempts :: a in u.attempts && Grown(s.attempts[a], u.attempts[a])
                                      && SamePublication(s.attempts[a], u.attempts[a]))
    && (forall a | a in u.attempts && a !in s.attempts :: u.attempts[a].gen == u.attempts[a].received == 0)
  }

  predicate SamePublication(at: Attempt, at': Attempt) {
    && at'.gen == at.gen && at'.watcher == at.watcher && at'.builder == at.builder
    && (at.gen == 0 ==> at'.received == at.received)
  }

  lemma StopWorks(s: State, t: nat)
    requires StopAction(s, t).Some?
    ensures Works(s, StopAction(s, t).value, t)
  {
  }

  lemma ConnectWorks(s: State, a: Action)
    requires ConnectStep(s, a).Some? && !a.Publish?
    ensures Works(s, ConnectStep(s, a).value, a.t) && ConnectStep(s, a).value.core == s.core
  {
  }

  lemma WorkKeepsWatchers(s: State, u: State, t: nat)
    requires WatchersOk(s) && Works(s, u, t)
    requires forall w | w in u.threads && u.threads[w].pc.Stop? :: s.threads[w].pc.Stop? && u.core.eng == s.core.eng
    ensures WatchersOk(u)
  {
    forall w | w in u.threads && u.threads[w].op.Watch? ensures WatcherOk(u, w) {
      assert WatcherOk(s, w);
      assert SamePublication(s.attempts[s.threads[w].op.attempt], u.attempts[s.threads[w].op.attempt]);
    }
  }

  lemma StopGens(s: State, u: State, t: nat)
    requires CoreOk(s) && GensOk(s) && CoreOk(u) && Works(s, u, t) && u.attempts.Keys == s.attempts.Keys
    requires Doing(s).Stop? && u.core == StopCore(s.core, Doing(s).stage)
    requires match NextStage(Doing(s).stage) case Some(next) => Doing(u) == Stop(next) case None => AtRest(Doing(u))
    ensures GensOk(u)
  {
    forall a | a in u.attempts ensures u.attempts[a].gen == s.attempts[a].gen {
      assert SamePublication(s.attempts[a], u.attempts[a]);
    }
  }

  lemma WorkKeepsDistinct(s: State, u: State, t: nat)
    requires DistinctOk(s) && Works(s, u, t)
    ensures DistinctOk(u)
  {
    forall a | a in u.attempts ensures u.attempts[a].gen == if a in s.attempts then s.attempts[a].gen else 0 {
      assert a in s.attempts ==> SamePublication(s.attempts[a], u.attempts[a]);
    }
  }

  lemma StopActionKeepsGens(s: State, t: nat)
    requires LocksOk(s) && CoreOk(s) && GensOk(s) && DistinctOk(s) && StopAction(s, t).Some?
    requires CoreOk(StopAction(s, t).value)
    ensures GensOk(StopAction(s, t).value) && DistinctOk(StopAction(s, t).value)
  {
    var u := StopAction(s, t).value;
    assert Doing(s) == s.threads[t].pc;
    assert u.holder == Some(t) && Doing(u) == u.threads[t].pc;
    StopWorks(s, t);
    StopGens(s, u, t);
    WorkKeepsDistinct(s, u, t);
  }

  /** The word of the attempt that a Connect is building, and of one it is undoing. */
  lemma BuilderWord(s: State, t: nat)
    requires LocksOk(s) && CoreOk(s) && WordsOk(s) && t in s.threads && s.threads[t].pc.Building?
    ensures var Building(n, k) := s.threads[t].pc;
      Doing(s) == s.threads[t].pc && 1 <= k <= 5 && n in s.attempts && s.attempts[n].word == UP[..k]
  {
    assert Doing(s) == s.threads[t].pc;
    assert WordOk(s, s.threads[t].pc.a);
  }

  lemma UndoerWord(s: State, t: nat)
    requires LocksOk(s) && CoreOk(s) && WordsOk(s) && t in s.threads && s.threads[t].pc.Undo?
    ensures var Undo(n, total, left) := s.threads[t].pc;
      Doing(s) == s.threads[t].pc && 1 <= total <= 3 && left <= total && n in s.attempts
      && s.attempts[n].word == UndoneTo(total, left)
  {
    assert Doing(s) == s.threads[t].pc;
    assert WordOk(s, s.threads[t].pc.undoing);
  }

  /** The attempts other than n are over, before and after. */
  lemma OthersAreOver(s: State, u: State, n: nat)
    requires CoreOk(s) && WordsOk(s) && CoreOk(u)
    requires !s.core.running || s.core.eng == Some(n)
    requires !u.core.running || u.core.eng == Some(n)
    requires (Doing(s).Building? ==> Doing(s).a == n) && (Doing(s).Undo? ==> Doing(s).undoing == n)
    requires (Doing(u).Building? ==> Doing(u).a == n) && (Doing(u).Undo? ==> Doing(u).undoing == n)
    requires forall a | a in u.attempts && a != n :: a in s.attempts && u.attempts[a].word == s.attempts[a].word
    requires n in u.attempts ==> WordOk(u, n)
    ensures WordsOk(u)
  {
    forall a | a in u.attempts ensures WordOk(u, a) {
      if a != n {
        assert WordOk(s, a);
      }
    }
  }

  lemma BuildKeepsWords(s: State, t: nat, ok: bool)
    requires LocksOk(s) && CoreOk(s) && WordsOk(s) && ConnectStep(s, Build(t, ok)).Some?
    requires CoreOk(ConnectStep(s, Build(t, ok)).value)
    ensures WordsOk(ConnectStep(s, Build(t, ok)).value)
  {
    BuilderWord(s, t);
    var u, n, k := ConnectStep(s, Build(t, ok)).value, s.threads[t].pc.a, s.threads[t].pc.k;
    assert Doing(u) == u.threads[t].pc;
    UpSteps();
    if k <= 3 {
      UndoSteps(k, k);
    }
    OthersAreOver(s, u, n);
  }

  lemma UndoKeepsWords(s: State, t: nat)
    requires LocksOk(s) && CoreOk(s) && WordsOk(s) && ConnectStep(s, UndoStep(t)).Some?
    requires CoreOk(ConnectStep(s, UndoStep(t)).value)
    ensures WordsOk(ConnectStep(s, UndoStep(t)).value)
  {
    UndoerWord(s, t);
    var u := ConnectStep(s, UndoStep(t)).value;
    var Undo(n, total, left) := s.threads[t].pc;
    assert Doing(u) == u.threads[t].pc;
    UndoSteps(total, left);
    OthersAreOver(s, u, n);
  }

  lemma PublishKeepsWords(s: State, t: nat, watcher: nat)
    requires LocksOk(s) && CoreOk(s) && WordsOk(s) && ConnectStep(s, Publish(t, watcher)).Some?
    requires CoreOk(ConnectStep(s, Publish(t, watcher)).value)
    ensures WordsOk(ConnectStep(s, Publish(t, watcher)).value)
  {
    BuilderWord(s, t);
    var u, n := ConnectStep(s, Publish(t, watcher)).value, s.threads[t].pc.a;
    assert Doing(u) == u.threads[t].pc;
    DownSteps();
    OthersAreOver(s, u, n);
  }

  lemma ConnectStepKeepsWords(s: State, a: Action)
    requires LocksOk(s) && CoreOk(s) && WordsOk(s) && ConnectStep(s, a).Some?
    requires CoreOk(ConnectStep(s, a).value)
    ensures WordsOk(ConnectStep(s, a).value)
  {
    if a.Build? {
      BuildKeepsWords(s, a.t, a.ok);
    } else if a.UndoStep? {
      UndoKeepsWords(s, a.t);
    } else if a.Publish? {
      PublishKeepsWords(s, a.t, a.watcher);
    } else {
      var u := ConnectStep(s, a).value;
      assert Doing(s) == s.threads[a.t].pc && Doing(u) == u.threads[a.t].pc;
      OthersAreOver(s, u, if a.NewAdapter? && a.created.Some? then a.created.value else 0);
    }
  }

  lemma OneAttemptKeepsLoops(s: State, u: State, n: nat)
    requires LoopsOk(s) && n in u.attempts && LoopsOkFor(u.attempts[n])
    requires u.attempts == s.attempts[n := u.attempts[n]]
    ensures LoopsOk(u)
  {
  }

  lemma LoopsGoOn(at: Attempt, e: Event)
    requires LoopsOkFor(at) && e != EngineRun && e != EngineAwaited
    ensures LoopsOkFor(at.(word := at.word + [e]))
  {
  }

  lemma BuildKeepsLoops(s: State, t: nat, ok: bool)
    requires LocksOk(s) && CoreOk(s) && WordsOk(s) && LoopsOk(s) && ConnectStep(s, Build(t, ok)).Some?
    ensures LoopsOk(ConnectStep(s, Build(t, ok)).value)
  {
    BuilderWord(s, t);
    var u, n, k := ConnectStep(s, Build(t, ok)).value, s.threads[t].pc.a, s.threads[t].pc.k;
    if u.attempts != s.attempts {
      assert LoopsOkFor(s.attempts[n]);
      if k < 4 {
        LoopsGoOn(s.attempts[n], UP[k]);
      }
      OneAttemptKeepsLoops(s, u, n);
    }
  }

  lemma UndoKeepsLoops(s: State, t: nat)
    requires LocksOk(s) && CoreOk(s) && LoopsOk(s) && ConnectStep(s, UndoStep(t)).Some?
    ensures LoopsOk(ConnectStep(s, UndoStep(t)).value)
  {
    var Undo(n, total, left) := s.threads[t].pc;
    if 0 < left <= total <= 3 && n in s.attempts {
      assert LoopsOkFor(s.attempts[n]);
      LoopsGoOn(s.attempts[n], UNDO[3 - left]);
      OneAttemptKeepsLoops(s, ConnectStep(s, UndoStep(t)).value, n);
    }
  }

  lemma PublishKeepsLoops(s: State, t: nat, watcher: nat)
    requires LocksOk(s) && CoreOk(s) && WordsOk(s) && LoopsOk(s) && ConnectStep(s, Publish(t, watcher)).Some?
    ensures LoopsOk(ConnectStep(s, Publish(t, watcher)).value)
  {
    BuilderWord(s, t);
    var n := s.threads[t].pc.a;
    assert LoopsOkFor(s.attempts[n]);
    OneAttemptKeepsLoops(s, ConnectStep(s, Publish(t, watcher)).value, n);
  }

  lemma NewAdapterKeepsLoops(s: State, t: nat, created: Option<nat>)
    requires LoopsOk(s) && ConnectStep(s, NewAdapter(t, created)).Some?
    ensures LoopsOk(ConnectStep(s, NewAdapter(t, created)).value)
  {
    if created.Some? {
      OneAttemptKeepsLoops(s, ConnectStep(s, NewAdapter(t, created)).value, created.value);
    }
  }

  lemma ConnectStepKeepsLoops(s: State, a: Action)
    requires LocksOk(s) && CoreOk(s) && WordsOk(s) && LoopsOk(s) && ConnectStep(s, a).Some?
    ensures LoopsOk(ConnectStep(s, a).value)
  {
    match a {
      case ParseConfig(t, ok) =>
      case NewAdapter(t, created) => NewAdapterKeepsLoops(s, t, created);
      case Build(t, ok) => BuildKeepsLoops(s, t, ok);
      case UndoStep(t) => UndoKeepsLoops(s, t);
      case Publish(t, watcher) => PublishKeepsLoops(s, t, watcher);
    }
  }

  lemma PublishKeepsGens(s: State, t: nat, watcher: nat)
    requires LocksOk(s) && CoreOk(s) && GensOk(s) && DistinctOk(s) && ConnectStep(s, Publish(t, watcher)).Some?
    requires CoreOk(ConnectStep(s, Publish(t, watcher)).value)
    ensures GensOk(ConnectStep(s, Publish(t, watcher)).value) && DistinctOk(ConnectStep(s, Publish(t, watcher)).value)
  {
    assert Doing(s) == s.threads[t].pc;
  }

  /** The other steps of Connect publish nothing. */
  lemma WorkKeepsGens(s: State, u: State, t: nat)
    requires CoreOk(s) && GensOk(s) && CoreOk(u) && Works(s, u, t) && u.core == s.core && !s.core.running
    requires Doing(u).Building? ==> u.attempts[Doing(u).a].gen == 0
    requires Doing(u).Undo? ==> u.attempts[Doing(u).undoing].gen == 0
    ensures GensOk(u)
  {
    forall a | a in u.attempts ensures u.attempts[a].gen <= u.core.gen {
      assert a in s.attempts ==> SamePublication(s.attempts[a], u.attempts[a]);
    }
  }

  /** What Connect is building or undoing is not published. */
  lemma UnpublishedYet(s: State, a: Action)
    requires LocksOk(s) && CoreOk(s) && GensOk(s) && ConnectStep(s, a).Some? && !a.Publish?
    requires CoreOk(ConnectStep(s, a).value)
    ensures var u := ConnectStep(s, a).value;
      && !s.core.running
      && (Doing(u).Building? ==> u.attempts[Doing(u).a].gen == 0)
      && (Doing(u).Undo? ==> u.attempts[Doing(u).undoing].gen == 0)
  {
    var u := ConnectStep(s, a).value;
    assert Doing(s) == s.threads[a.t].pc && Doing(u) == u.threads[a.t].pc;
  }

  lemma ConnectStepKeepsGens(s: State, a: Action)
    requires LocksOk(s) && CoreOk(s) && GensOk(s) && DistinctOk(s) && ConnectStep(s, a).Some?
    requires CoreOk(ConnectStep(s, a).value)
    ensures GensOk(ConnectStep(s, a).value) && DistinctOk(ConnectStep(s, a).value)
  {
    if a.Publish? {
      PublishKeepsGens(s, a.t, a.watcher);
    } else {
      ConnectWorks(s, a);
      UnpublishedYet(s, a);
      WorkKeepsGens(s, ConnectStep(s, a).value, a.t);
      WorkKeepsDistinct(s, ConnectStep(s, a).value, a.t);
    }
  }

  lemma PublishKeepsWatchers(s: State, t: nat, watcher: nat)
    requires LocksOk(s) && CoreOk(s) && GensOk(s) && WatchersOk(s) && ConnectStep(s, Publish(t, watcher)).Some?
    ensures WatchersOk(ConnectStep(s, Publish(t, watcher)).value)
  {
    assert Doing(s) == s.threads[t].pc;
    var u := ConnectStep(s, Publish(t, watcher)).value;
    forall w | w in u.threads && u.threads[w].op.Watch? ensures WatcherOk(u, w) {
      assert w != watcher ==> WatcherOk(s, w);
    }
  }

  lemma ConnectStepKeepsWatchers(s: State, a: Action)
    requires LocksOk(s) && ThreadsOk(s) && CoreOk(s) && GensOk(s) && WatchersOk(s) && ConnectStep(s, a).Some?
    ensures WatchersOk(ConnectStep(s, a).value)
  {
    if a.Publish? {
      PublishKeepsWatchers(s, a.t, a.watcher);
    } else {
      ConnectWorks(s, a);
      ConnectMoves(s, a);
      WorkKeepsWatchers(s, ConnectStep(s, a).value, a.t);
    }
  }

  lemma StopActionKeepsWatchers(s: State, t: nat)
    requires LocksOk(s) && CoreOk(s) && WatchersOk(s) && StopAction(s, t).Some?
    ensures WatchersOk(StopAction(s, t).value)
  {
    StopWorks(s, t);
    WorkKeepsWatchers(s, StopAction(s, t).value, t);
  }

  lemma WatchStepKeepsWatchers(s: State, a: Action)
    requires LocksOk(s) && WatchersOk(s) && WatchStep(s, a).Some?
    ensures WatchersOk(WatchStep(s, a).value)
  {
    WatchStepIsUnchanging(s, a);
    UnchangingKeepsWatchers(s, WatchStep(s, a).value);
  }

  lemma EngineStepKeepsWatchers(s: State, a: Action)
    requires WatchersOk(s) && EngineStep(s, a).Some?
    ensures WatchersOk(EngineStep(s, a).value)
  {
    EngineStepIsUnchanging(s, a);
    UnchangingKeepsWatchers(s, EngineStep(s, a).value);
  }

  lemma SettledAndStarted(word: seq<Event>)
    requires Settled(word) && Started(word)
    ensures DoneClosed in word
  {
    assert word == UP + DOWN;
    assert word[10] == DoneClosed;
  }

  // What watchers know.

  lemma KnowsStays(at: Attempt, at': Attempt, pc: Pc)
    requires Knows(at, pc) && Grown(at, at')
    ensures Knows(at', pc)
  {
    assert forall i | 0 <= i < |at.word| :: at.word[i] == at'.word[i];
  }

  lemma OthersStillKnow(s: State, u: State, movers: set<nat>)
    requires KnowsOk(s)
    requires forall a | a in s.attempts :: a in u.attempts && Grown(s.attempts[a], u.attempts[a])
    requires forall t | t in u.threads && t !in movers :: t in s.threads && u.threads[t] == s.threads[t]
    requires forall t | t in u.threads && t in movers :: KnowsWell(u, t)
    ensures KnowsOk(u)
  {
    forall t | t in u.threads ensures KnowsWell(u, t) {
      if t !in movers && u.threads[t].op.Watch? {
        assert KnowsWell(s, t);
        KnowsStays(s.attempts[s.threads[t].op.attempt], u.attempts[s.threads[t].op.attempt], s.threads[t].pc);
      }
    }
  }

  /** A watcher that has the lock and does not stop finds its session down. */
  lemma DeciderKnows(s: State, t: nat)
    requires CoreOk(s) && WordsOk(s) && LoopsOk(s) && GensOk(s) && DistinctOk(s) && At(s, t, Check)
    requires s.threads[t].op.Watch? && WatcherOk(s, t) && s.holder == Some(t) && !WantsStop(s.core, s.threads[t].op)
    ensures DoneClosed in s.attempts[s.threads[t].op.attempt].word
  {
    var n := s.threads[t].op.attempt;
    DeciderStopsItsOwn(s, t);
    assert WordOk(s, n) && LoopsOkFor(s.attempts[n]);
    SettledAndStarted(s.attempts[n].word);
  }

  lemma LockStepMoverKnows(s: State, a: Action)
    requires LocksOk(s) && CoreOk(s) && WordsOk(s) && LoopsOk(s) && GensOk(s) && DistinctOk(s)
    requires WatchersOk(s) && KnowsOk(s) && LockStep(s, a).Some?
    ensures a.t in LockStep(s, a).value.threads && KnowsWell(LockStep(s, a).value, a.t)
  {
    if a.t in s.threads && s.threads[a.t].op.Watch? {
      assert WatcherOk(s, a.t) && KnowsWell(s, a.t);
      if a.Decide? && !WantsStop(s.core, s.threads[a.t].op) {
        DeciderKnows(s, a.t);
      }
    }
  }

  lemma LockStepKeepsKnows(s: State, a: Action)
    requires LocksOk(s) && CoreOk(s) && WordsOk(s) && LoopsOk(s) && GensOk(s) && DistinctOk(s)
    requires WatchersOk(s) && KnowsOk(s) && LockStep(s, a).Some?
    ensures KnowsOk(LockStep(s, a).value)
  {
    LockStepMoverKnows(s, a);
    OthersStillKnow(s, LockStep(s, a).value, {a.t});
  }

  lemma ReceiveKeepsKnows(s: State, t: nat)
    requires WatchersOk(s) && KnowsOk(s) && WatchStep(s, Receive(t)).Some?
    ensures KnowsOk(WatchStep(s, Receive(t)).value)
  {
    var u := WatchStep(s, Receive(t)).value;
    assert WatcherOk(s, t) && KnowsWell(s, t);
    forall w | w in u.threads ensures KnowsWell(u, w) {
      if w != t && s.threads[w].op.Watch? {
        assert WatcherOk(s, w) && KnowsWell(s, w);
      }
    }
  }

  lemma WatchStepKeepsKnows(s: State, a: Action)
    requires WatchersOk(s) && KnowsOk(s) && WatchStep(s, a).Some?
    ensures KnowsOk(WatchStep(s, a).value)
  {
    if a.Receive? {
      ReceiveKeepsKnows(s, a.t);
    } else {
      assert KnowsWell(s, a.t);
      OthersStillKnow(s, WatchStep(s, a).value, {a.t});
    }
  }

  lemma EngineStepKeepsKnows(s: State, a: Action)
    requires KnowsOk(s) && EngineStep(s, a).Some?
    ensures KnowsOk(EngineStep(s, a).value)
  {
    OthersStillKnow(s, EngineStep(s, a).value, {});
  }

  lemma WorkKeepsKnows(s: State, u: State, t: nat)
    requires KnowsOk(s) && Works(s, u, t) && KnowsWell(u, t)
    ensures KnowsOk(u)
  {
    OthersStillKnow(s, u, {t});
  }

  lemma StopActionKeepsKnows(s: State, t: nat)
    requires LocksOk(s) && CoreOk(s) && WordsOk(s) && WatchersOk(s) && KnowsOk(s) && StopAction(s, t).Some?
    ensures KnowsOk(StopAction(s, t).value)
  {
    StopWorks(s, t);
    StopperKnows(s, t);
    WorkKeepsKnows(s, StopAction(s, t).value, t);
  }

  lemma StopperKnows(s: State, t: nat)
    requires LocksOk(s) && CoreOk(s) && WordsOk(s) && WatchersOk(s) && KnowsOk(s) && StopAction(s, t).Some?
    ensures KnowsWell(StopAction(s, t).value, t)
  {
    assert Doing(s) == s.threads[t].pc;
    assert KnowsWell(s, t);
    if s.threads[t].op.Watch? {
      var n := s.threads[t].op.attempt;
      assert WatcherOk(s, t) && WordOk(s, n);
      assert s.threads[t].pc.stage == ClearFields ==> s.attempts[n].word[10] == DoneClosed;
    }
  }

  lemma PublishKeepsKnows(s: State, t: nat, watcher: nat)
    requires LocksOk(s) && ThreadsOk(s) && CoreOk(s) && GensOk(s) && KnowsOk(s) && PublishedOk(s)
    requires ConnectStep(s, Publish(t, watcher)).Some?
    ensures KnowsOk(ConnectStep(s, Publish(t, watcher)).value)
  {
    assert Doing(s) == s.threads[t].pc;
    assert IsWatched(s, s.threads[t].pc.a);
    OthersStillKnow(s, ConnectStep(s, Publish(t, watcher)).value, {t, watcher});
  }

  lemma ConnectStepKeepsKnows(s: State, a: Action)
    requires LocksOk(s) && ThreadsOk(s) && CoreOk(s) && GensOk(s) && KnowsOk(s) && PublishedOk(s)
    requires ConnectStep(s, a).Some?
    ensures KnowsOk(ConnectStep(s, a).value)
  {
    if a.Publish? {
      PublishKeepsKnows(s, a.t, a.watcher);
    } else {
      ConnectWorks(s, a);
      ConnectMoves(s, a);
      WorkKeepsKnows(s, ConnectStep(s, a).value, a.t);
    }
  }

  /** Threads keep their kind, and publishing apart sessions keep their watchers. */
  lemma StaysPublished(s: State, u: State)
    requires PublishedOk(s)
    requires forall t | t in s.threads :: t in u.threads && u.threads[t].op == s.threads[t].op
    requires forall a | a in u.attempts :: if a in s.attempts then SamePublication(s.attempts[a], u.attempts[a])
                                           else u.attempts[a].gen == u.attempts[a].received == 0
    ensures PublishedOk(u)
  {
    forall a | a in u.attempts ensures IsWatched(u, a) {
      assert a in s.attempts ==> IsWatched(s, a);
    }
  }

  lemma LockStepKeepsPublished(s: State, a: Action)
    requires PublishedOk(s) && LockStep(s, a).Some?
    ensures PublishedOk(LockStep(s, a).value)
  {
    StaysPublished(s, LockStep(s, a).value);
  }

  lemma WatchStepKeepsPublished(s: State, a: Action)
    requires WatchersOk(s) && PublishedOk(s) && WatchStep(s, a).Some?
    ensures PublishedOk(WatchStep(s, a).value)
  {
    assert s.threads[a.t].op.Watch? ==> WatcherOk(s, a.t);
    StaysPublished(s, WatchStep(s, a).value);
  }

  lemma EngineStepKeepsPublished(s: State, a: Action)
    requires PublishedOk(s) && EngineStep(s, a).Some?
    ensures PublishedOk(EngineStep(s, a).value)
  {
    StaysPublished(s, EngineStep(s, a).value);
  }

  lemma StopActionKeepsPublished(s: State, t: nat)
    requires PublishedOk(s) && StopAction(s, t).Some?
    ensures PublishedOk(StopAction(s, t).value)
  {
    StopWorks(s, t);
    StaysPublished(s, StopAction(s, t).value);
  }

  lemma PublishKeepsPublished(s: State, t: nat, watcher: nat)
    requires LocksOk(s) && CoreOk(s) && GensOk(s) && PublishedOk(s) && ConnectStep(s, Publish(t, watcher)).Some?
    ensures PublishedOk(ConnectStep(s, Publish(t, watcher)).value)
  {
    var u := ConnectStep(s, Publish(t, watcher)).value;
    forall n | n in u.attempts ensures IsWatched(u, n) {
      assert IsWatched(s, n);
    }
  }

  lemma ConnectStepKeepsPublished(s: State, a: Action)
    requires LocksOk(s) && CoreOk(s) && GensOk(s) && PublishedOk(s) && ConnectStep(s, a).Some?
    ensures PublishedOk(ConnectStep(s, a).value)
  {
    if a.Publish? {
      PublishKeepsPublished(s, a.t, a.watcher);
    } else {
      ConnectWorks(s, a);
      StaysPublished(s, ConnectStep(s, a).value);
    }
  }

  // The lock holder answers truly.

  lemma LockStepKeepsHolder(s: State, a: Action)
    requires LocksOk(s) && CoreOk(s) && HolderOk(s) && LockStep(s, a).Some?
    ensures HolderOk(LockStep(s, a).value)
  {
  }

  lemma WatchStepKeepsHolder(s: State, a: Action)
    requires LocksOk(s) && HolderOk(s) && WatchStep(s, a).Some?
    ensures HolderOk(WatchStep(s, a).value)
  {
  }

  lemma EngineStepKeepsHolder(s: State, a: Action)
    requires HolderOk(s) && EngineStep(s, a).Some?
    ensures HolderOk(EngineStep(s, a).value)
  {
  }

  lemma StopActionKeepsHolder(s: State, t: nat)
    requires LocksOk(s) && ThreadsOk(s) && HolderOk(s) && StopAction(s, t).Some?
    ensures HolderOk(StopAction(s, t).value)
  {
    assert FitsOp(s.threads[t]);
  }

  lemma ConnectStepKeepsHolder(s: State, a: Action)
    requires LocksOk(s) && ThreadsOk(s) && CoreOk(s) && HolderOk(s) && ConnectStep(s, a).Some?
    ensures HolderOk(ConnectStep(s, a).value)
  {
    assert FitsOp(s.threads[a.t]) && Doing(s) == s.threads[a.t].pc;
  }

  lemma LockStepInv(s: State, a: Action)
    requires Inv(s) && LockStep(s, a).Some?
    ensures Inv(LockStep(s, a).value)
  {
    LockStepKeepsPlaces(s, a);
    LockStepKeepsCore(s, a);
    LockStepKeepsRecords(s, a);
    LockStepKeepsWatchers(s, a);
    LockStepKeepsKnows(s, a);
    LockStepKeepsPublished(s, a);
    LockStepKeepsHolder(s, a);
  }

  lemma WatchStepInv(s: State, a: Action)
    requires Inv(s) && WatchStep(s, a).Some?
    ensures Inv(WatchStep(s, a).value)
  {
    WatchStepKeepsPlaces(s, a);
    WatchStepKeepsRecords(s, a);
    WatchStepKeepsWatchers(s, a);
    WatchStepKeepsKnows(s, a);
    WatchStepKeepsPublished(s, a);
    WatchStepKeepsHolder(s, a);
  }

  lemma EngineStepInv(s: State, a: Action)
    requires Inv(s) && EngineStep(s, a).Some?
    ensures Inv(EngineStep(s, a).value)
  {
    EngineStepKeepsRecords(s, a);
    EngineStepKeepsWatchers(s, a);
    EngineStepKeepsKnows(s, a);
    EngineStepKeepsPublished(s, a);
    EngineStepKeepsHolder(s, a);
  }

  lemma StopActionInv(s: State, t: nat)
    requires Inv(s) && StopAction(s, t).Some?
    ensures Inv(StopAction(s, t).value)
  {
    StopActionKeepsPlaces(s, t);
    StopActionKeepsCore(s, t);
    StopActionKeepsWords(s, t);
    StopActionKeepsLoops(s, t);
    StopActionKeepsGens(s, t);
    StopActionKeepsWatchers(s, t);
    StopActionKeepsKnows(s, t);
    StopActionKeepsPublished(s, t);
    StopActionKeepsHolder(s, t);
  }

  lemma ConnectStepInv(s: State, a: Action)
    requires Inv(s) && ConnectStep(s, a).Some?
    ensures Inv(ConnectStep(s, a).value)
  {
    ConnectStepKeepsPlaces(s, a);
    ConnectStepKeepsCore(s, a);
    ConnectStepKeepsWords(s, a);
    ConnectStepKeepsLoops(s, a);
    ConnectStepKeepsGens(s, a);
    ConnectStepKeepsWatchers(s, a);
    ConnectStepKeepsKnows(s, a);
    ConnectStepKeepsPublished(s, a);
    ConnectStepKeepsHolder(s, a);
  }

  lemma StepInv(s: State, a: Action)
    requires Inv(s) && Step(s, a).Some?
    ensures Inv(Step(s, a).value)
  {
    if a.StopStep? { StopActionInv(s, a.t); }
    else if ByLock(a) { LockStepInv(s, a); }
    else if ByWatcher(a) { WatchStepInv(s, a); }
    else if ByEngine(a) { EngineStepInv(s, a); }
    else { ConnectStepInv(s, a); }
  }

  lemma InvInductive()
    ensures Inductive(Init, Step, Inv)
  {
    forall s, a | Inv(s) && Step(s, a).Some? ensures Inv(Step(s, a).value) {
      StepInv(s, a);
    }
  }

  lemma Reachable(run: Run<State, Action>, i: nat)
    requires IsRun(Init, Step, run) && i < |run.states|
    ensures Inv(run.states[i])
    ensures i < |run.actions| ==> Step(run.states[i], run.actions[i]) == Some(run.states[i + 1])
  {
    InvInductive();
    InvariantHolds(Init, Step, Inv, run, i);
  }
}
