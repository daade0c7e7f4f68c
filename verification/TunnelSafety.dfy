/**
 What holds in every run of the tunnel controller, whatever fails and however threads interleave.
 */
module TunnelSafety {
  import opened Wrappers
  import opened Runs
  import opened TunnelSteps
  import opened TunnelProtocol
  import opened TunnelInvariant

  lemma StopActsOnCurrent(s: State, t: nat, a: nat)
    requires LocksOk(s) && CoreOk(s) && StopAction(s, t).Some? && a in s.attempts && !IsCurrent(s, a)
    ensures s.core.running
    ensures a in StopAction(s, t).value.attempts && StopAction(s, t).value.attempts[a] == s.attempts[a]
  {
  }

  /** However long a watcher waited between its error and the lock: if it stops a session, every step
      of the stop acts on the session whose error it received, and on no other. */
  lemma WatcherStopsItsOwnSession(run: Run<State, Action>, i: nat, t: nat)
    requires IsRun(Init, Step, run) && i < |run.actions| && run.actions[i] == StopStep(t)
    requires t in run.states[i].threads && run.states[i].threads[t].op.Watch?
    ensures var s, u, own := run.states[i], run.states[i + 1], run.states[i].threads[t].op.attempt;
      && IsCurrent(s, own)
      && (forall a | a in s.attempts && a != own :: a in u.attempts && u.attempts[a] == s.attempts[a])
  {
    Reachable(run, i);
    var s := run.states[i];
    assert IsCurrent(s, s.threads[t].op.attempt);
    forall a | a in s.attempts && a != s.threads[t].op.attempt
      ensures a in run.states[i + 1].attempts && run.states[i + 1].attempts[a] == s.attempts[a]
    {
      StopActsOnCurrent(s, t, a);
    }
  }

  /** A watcher that takes the lock after its session was stopped, by whomever, does nothing. */
  lemma StaleWatcherIsHarmless(run: Run<State, Action>, i: nat, t: nat)
    requires IsRun(Init, Step, run) && i < |run.states|
    requires At(run.states[i], t, Check) && run.states[i].threads[t].op.Watch?
    ensures WantsStop(run.states[i].core, run.states[i].threads[t].op)
       <==> IsCurrent(run.states[i], run.states[i].threads[t].op.attempt)
  {
    Reachable(run, i);
  }

  /** Whenever the mutex is free, whichever steps of whichever Connects failed: everything acquired
      has been released exactly once, except by the current session, which holds everything. */
  lemma NothingLeaks(run: Run<State, Action>, i: nat, a: nat)
    requires IsRun(Init, Step, run) && i < |run.states| && run.states[i].holder == None
    requires a in run.states[i].attempts
    ensures var s := run.states[i];
      if IsCurrent(s, a) then AllHeld(s.attempts[a].word) && Count(s.attempts[a].word, DoneClosed) == 0
      else Conserved(s.attempts[a].word)
           && Count(s.attempts[a].word, DoneClosed) == Count(s.attempts[a].word, EngineRun)
  {
    Reachable(run, i);
    var s := run.states[i];
    assert WordOk(s, a);
    UpIsAllHeld();
    if IsCurrent(s, a) {
      assert s.attempts[a].word == UP;
    } else {
      SettledIsConserved(s.attempts[a].word);
    }
  }

  /** What a call has achieved when it gives the lock back, whatever was interleaved with it. Disconnect:
      no session is up and nothing of any is left. Connect, if it succeeds: the session it has built is the
      current one, under the name asked for; if it does not: none is. Status: whether one is. */
  lemma CallsAnswerTruly(run: Run<State, Action>, i: nat, t: nat)
    requires IsRun(Init, Step, run) && i < |run.actions| && run.actions[i] == Release(t)
    ensures var s, u := run.states[i], run.states[i + 1];
      && t in s.threads && t in u.threads && s.threads[t].op == u.threads[t].op && u.threads[t].pc.Returned?
      && u.core == s.core && u.attempts == s.attempts && u.holder == None
      && var outcome := u.threads[t].pc.result;
         match s.threads[t].op
         case Disconnect => outcome == Done && NothingUp(u)
         case Status => outcome == Reported(u.core.running)
         case Watch(n, _) => outcome == Done && n in u.attempts && DoneClosed in u.attempts[n].word
         case Connect(name) =>
           if outcome == Done then IsUp(u, name) && u.attempts[u.core.eng.value].builder == t
           else outcome == Refused && NothingUp(u)
  {
    Reachable(run, i);
    ReleaseAnswers(run.states[i], t);
  }

  ghost predicate NothingUp(s: State) {
    !s.core.running && forall a | a in s.attempts :: Settled(s.attempts[a].word)
  }

  ghost predicate IsUp(s: State, name: string) {
    && s.core.running && s.core.name == name && s.core.iface == ADAPTER_NAME
    && s.core.eng.Some? && s.core.eng.value in s.attempts && s.attempts[s.core.eng.value].word == UP
  }

  lemma ReleaseAnswers(s: State, t: nat)
    requires Inv(s) && LockStep(s, Release(t)).Some?
    ensures Answers(s, t, s.threads[t].pc.outcome)
    ensures !s.core.running ==> NothingUp(LockStep(s, Release(t)).value)
    ensures s.core.running ==> IsUp(LockStep(s, Release(t)).value, s.core.name)
    ensures s.threads[t].op.Watch? ==>
      s.threads[t].op.attempt in s.attempts && DoneClosed in s.attempts[s.threads[t].op.attempt].word
  {
    assert Doing(s) == s.threads[t].pc && KnowsWell(s, t);
    forall a | a in s.attempts ensures !s.core.running ==> Settled(s.attempts[a].word) {
      assert WordOk(s, a);
    }
    if s.core.running {
      assert WordOk(s, s.core.eng.value);
    }
  }

  /** In every state: what has been done to an attempt is a beginning of one of the four legal words,
      so every stop closes the engine, undoes the routing, closes the socket and the adapter, awaits
      the engine and closes done, in that order and each once. */
  lemma StopOrder(run: Run<State, Action>, i: nat, a: nat)
    requires IsRun(Init, Step, run) && i < |run.states| && a in run.states[i].attempts
    ensures var word := run.states[i].attempts[a].word;
      word <= UP + DOWN || exists total, left | 1 <= total <= 3 && left <= total :: word == UndoneTo(total, left)
  {
    Reachable(run, i);
    assert WordOk(run.states[i], a);
    var doing := Doing(run.states[i]);
    if doing.Undo? && doing.undoing == a {
      assert run.states[i].attempts[a].word == UndoneTo(doing.total, doing.left);
    }
  }

  lemma CreatorFindsAllOver(s: State, t: nat, a: nat)
    requires Inv(s) && At(s, t, CreateAdapter) && a in s.attempts
    ensures LoopsExited(s.attempts[a]) && Settled(s.attempts[a].word)
  {
    assert Doing(s) == CreateAdapter;
    assert WordOk(s, a) && LoopsOkFor(s.attempts[a]);
    SettledLoops(s.attempts[a]);
  }

  /** Sessions never overlap: when Connect creates an adapter no engine loop of any earlier session is
      running and every earlier attempt is over. */
  lemma SessionsNeverOverlap(run: Run<State, Action>, i: nat, a: nat)
    requires IsRun(Init, Step, run) && i < |run.actions| && run.actions[i].NewAdapter?
    requires a in run.states[i].attempts
    ensures LoopsExited(run.states[i].attempts[a]) && Settled(run.states[i].attempts[a].word)
  {
    Reachable(run, i);
    CreatorFindsAllOver(run.states[i], run.actions[i].t, a);
  }

  lemma SettledLoops(at: Attempt)
    requires Settled(at.word) && LoopsOkFor(at)
    ensures LoopsExited(at)
  {
    if at.word == UP + DOWN {
      assert Awaited(at.word);
    } else {
      assert !Started(at.word) by {
        assert |at.word| >= 5 ==> at.word[4] == SocketClosed;
      }
    }
  }

  /** Status never sees a session half up or half down. */
  lemma StatusIsConsistent(run: Run<State, Action>, i: nat, t: nat)
    requires IsRun(Init, Step, run) && i < |run.states|
    requires At(run.states[i], t, Check) && run.states[i].threads[t].op.Status?
    ensures var s := run.states[i];
      if s.core.running then s.core.eng.Some? && s.core.eng.value in s.attempts
                             && s.attempts[s.core.eng.value].word == UP && s.core.iface == ADAPTER_NAME
      else s.core.eng == None && s.core.name == "" && forall a | a in s.attempts :: Settled(s.attempts[a].word)
  {
    Reachable(run, i);
    var s := run.states[i];
    forall a | a in s.attempts ensures !s.core.running ==> Settled(s.attempts[a].word) {
      assert WordOk(s, a);
    }
    if s.core.running {
      assert WordOk(s, s.core.eng.value);
    }
  }
}
