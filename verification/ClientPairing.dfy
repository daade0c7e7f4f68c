/**
 Request and reply pairing of the control client (control/client.go): any number of goroutines call
 Do on one client; the lock serialises them over one connection to one serving loop. Messages are
 whole (see Framing); writing, reading and decoding may fail. Whatever the server answers is part of
 the action.
 */
module ClientPairing {
  import opened Wrappers
  import opened Runs

  datatype Pc<R> =
    | WantLock | Write | Read(exchange: nat)
    | Unlock(exchange: nat, reply: R) | Returned(exchange: nat, reply: R)
    | UnlockFailed | ReturnedFailed

  datatype Call<Q, R> = Call(request: Q, pc: Pc<R>)

  datatype State<Q, R> = State(
    holder: Option<nat>,
    calls: map<nat, Call<Q, R>>,
    requests: seq<Q>,              // on the wire to the server
    replies: seq<R>,               // on the wire back
    served: seq<(Q, R)>,           // what the server has answered, in order
    writers: seq<nat>,             // the callers whose requests have been written, in order
    broken: bool)                  // a caller has left without the reply to a request it wrote

  datatype Action<Q, R> =
    | Do(c: nat, request: Q) | Lock(c: nat) | Send(c: nat) | Serve(reply: R) | Receive(c: nat) | Release(c: nat)
    | SendFails(c: nat, delivered: bool)       // marshalling or writing fails; the server may have the request
    | ReceiveFails(c: nat, consumed: bool)     // reading fails, or decoding a reply that has been read

  ghost predicate Init<Q, R>(s: State<Q, R>) {
    s == State(None, map[], [], [], [], [], false)
  }

  function Go<Q, R>(s: State<Q, R>, c: nat, pc: Pc<R>): State<Q, R>
    requires c in s.calls
  {
    s.(calls := s.calls[c := s.calls[c].(pc := pc)])
  }

  /** final says whether a connection that has failed stays failed: nothing more is read from it. */
  function Step<Q, R>(final: bool, s: State<Q, R>, a: Action<Q, R>): Option<State<Q, R>> {
    match a
    case Do(c, request) => if c in s.calls then None else Some(s.(calls := s.calls[c := Call(request, WantLock)]))
    case Lock(c) =>
      if c in s.calls && s.calls[c].pc.WantLock? && s.holder == None
      then Some(Go(s, c, Write).(holder := Some(c))) else None
    case Send(c) =>
      if c in s.calls && s.calls[c].pc.Write? then Some(Sent(Go(s, c, Read(|s.writers|)), c)) else None
    case SendFails(c, delivered) =>
      if !(c in s.calls && s.calls[c].pc.Write?) then None
      else if delivered then Some(Sent(Go(s, c, UnlockFailed), c).(broken := true))
      else Some(Go(s, c, UnlockFailed))
    case Serve(reply) =>
      if s.requests == [] then None
      else Some(s.(requests := s.requests[1..], replies := s.replies + [reply],
                   served := s.served + [(s.requests[0], reply)]))
    case Receive(c) =>
      if c in s.calls && s.calls[c].pc.Read? && s.replies != [] && !(final && s.broken)
      then Some(Go(s, c, Unlock(s.calls[c].pc.exchange, s.replies[0])).(replies := s.replies[1..])) else None
    case ReceiveFails(c, consumed) =>
      if !(c in s.calls && s.calls[c].pc.Read?) then None
      else if !consumed then Some(Go(s, c, UnlockFailed).(broken := true))
      else if s.replies == [] then None
      else Some(Go(s, c, UnlockFailed).(replies := s.replies[1..]))
    case Release(c) =>
      if c !in s.calls then None
      else (match s.calls[c].pc
            case Unlock(exchange, reply) => Some(Go(s, c, Returned(exchange, reply)).(holder := None))
            case UnlockFailed => Some(Go(s, c, ReturnedFailed).(holder := None))
            case _ => None)
  }

  function Sent<Q, R>(s: State<Q, R>, c: nat): State<Q, R>
    requires c in s.calls
  {
    s.(requests := s.requests + [s.calls[c].request], writers := s.writers + [c])
  }

  /** Exchange number k was c's: c wrote the k-th request and the server's k-th answer was to it. */
  ghost predicate Paired<Q, R>(s: State<Q, R>, c: nat, k: nat, reply: R) {
    && c in s.calls && k < |s.writers| && k < |s.served|
    && s.writers[k] == c && s.served[k] == (s.calls[c].request, reply)
  }

  predicate HoldsLock<R>(pc: Pc<R>) {
    pc.Write? || pc.Read? || pc.Unlock? || pc.UnlockFailed?
  }

  /** The call waiting for a reply has the only message on the wire; nobody else has any. */
  ghost predicate WireOk<Q, R>(s: State<Q, R>) {
    if s.holder.Some? && s.holder.value in s.calls && s.calls[s.holder.value].pc.Read? then
      var c := s.holder.value;
      var k := s.calls[c].pc.exchange;
      && |s.writers| == k + 1 && s.writers[k] == c
      && ((s.requests == [s.calls[c].request] && s.replies == [] && |s.served| == k)
          || (s.requests == [] && |s.served| == k + 1 && s.replies == [s.served[k].1]
              && s.served[k].0 == s.calls[c].request))
    else s.requests == [] && s.replies == [] && |s.served| == |s.writers|
  }

  ghost predicate LockOk<Q, R>(s: State<Q, R>) {
    && (s.holder.Some? ==> s.holder.value in s.calls)
    && (forall c | c in s.calls :: HoldsLock(s.calls[c].pc) <==> s.holder == Some(c))
  }

  /** Whoever has written has written once. */
  ghost predicate WritersOk<Q, R>(s: State<Q, R>) {
    && (forall k | 0 <= k < |s.writers| :: s.writers[k] in s.calls && !BeforeWrite(s.calls[s.writers[k]].pc))
    && (forall j, k | 0 <= j < k < |s.writers| :: s.writers[j] != s.writers[k])
  }

  ghost predicate RepliesOk<Q, R>(s: State<Q, R>) {
    forall c | c in s.calls :: ReplyOk(s, c)
  }

  ghost predicate ReplyOk<Q, R>(s: State<Q, R>, c: nat)
    requires c in s.calls
  {
    match s.calls[c].pc
    case Unlock(exchange, reply) => Paired(s, c, exchange, reply)
    case Returned(exchange, reply) => Paired(s, c, exchange, reply)
    case _ => true
  }

  ghost predicate Inv<Q, R>(s: State<Q, R>) {
    LockOk(s) && WritersOk(s) && RepliesOk(s) && (!s.broken ==> WireOk(s))
  }

  lemma StepKeepsLock<Q, R>(final: bool, s: State<Q, R>, a: Action<Q, R>)
    requires LockOk(s) && Step(final, s, a).Some?
    ensures LockOk(Step(final, s, a).value)
  {
  }

  /** Nobody goes back to before writing, and the last writer, if new, has only now written. */
  lemma WritersGoOn<Q, R>(s: State<Q, R>, u: State<Q, R>, c: nat)
    requires WritersOk(s) && (u.writers == s.writers || u.writers == s.writers + [c])
    requires u.writers != s.writers ==>
      c in s.calls && s.calls[c].pc.Write? && c in u.calls && !BeforeWrite(u.calls[c].pc)
    requires forall d | d in s.calls :: d in u.calls && (BeforeWrite(u.calls[d].pc) ==> BeforeWrite(s.calls[d].pc))
    ensures WritersOk(u)
  {
    forall k | 0 <= k < |u.writers| ensures u.writers[k] in u.calls && !BeforeWrite(u.calls[u.writers[k]].pc) {
      if k < |s.writers| {
        assert u.writers[k] == s.writers[k];
      }
    }
  }

  predicate BeforeWrite<R>(pc: Pc<R>) {
    pc.WantLock? || pc.Write?
  }

  lemma StepKeepsWriters<Q, R>(final: bool, s: State<Q, R>, a: Action<Q, R>)
    requires WritersOk(s) && Step(final, s, a).Some?
    ensures WritersOk(Step(final, s, a).value)
  {
    WritersGoOn(s, Step(final, s, a).value, if a.Serve? then 0 else a.c);
  }

  /** What a call has been given stays its own while others go on. */
  lemma RepliesStay<Q, R>(s: State<Q, R>, u: State<Q, R>, movers: set<nat>)
    requires RepliesOk(s) && s.writers <= u.writers && s.served <= u.served
    requires forall c | c in u.calls && c !in movers :: c in s.calls && u.calls[c] == s.calls[c]
    requires forall c | c in u.calls && c in movers :: ReplyOk(u, c)
    ensures RepliesOk(u)
  {
    forall c | c in u.calls ensures ReplyOk(u, c) {
      assert c !in movers ==> ReplyOk(s, c);
    }
  }

  lemma ReceivedIsPaired<Q, R>(s: State<Q, R>, c: nat)
    requires LockOk(s) && WireOk(s) && Step(true, s, Receive(c)).Some?
    ensures ReplyOk(Step(true, s, Receive(c)).value, c)
  {
    assert s.holder == Some(c);
  }

  lemma MoverIsPaired<Q, R>(s: State<Q, R>, a: Action<Q, R>)
    requires RepliesOk(s) && !a.Receive? && !a.Serve? && Step(true, s, a).Some?
    ensures a.c in Step(true, s, a).value.calls && ReplyOk(Step(true, s, a).value, a.c)
  {
    assert a.c in s.calls ==> ReplyOk(s, a.c);
  }

  lemma StepKeepsReplies<Q, R>(s: State<Q, R>, a: Action<Q, R>)
    requires LockOk(s) && RepliesOk(s) && (!s.broken ==> WireOk(s)) && Step(true, s, a).Some?
    ensures RepliesOk(Step(true, s, a).value)
  {
    var u := Step(true, s, a).value;
    if a.Serve? {
      RepliesStay(s, u, {});
    } else {
      if a.Receive? {
        ReceivedIsPaired(s, a.c);
      } else {
        MoverIsPaired(s, a);
      }
      RepliesStay(s, u, {a.c});
    }
  }

  lemma StepKeepsWire<Q, R>(final: bool, s: State<Q, R>, a: Action<Q, R>)
    requires LockOk(s) && WireOk(s) && Step(final, s, a).Some? && !Step(final, s, a).value.broken
    ensures WireOk(Step(final, s, a).value)
  {
  }

  lemma StepInv<Q, R>(s: State<Q, R>, a: Action<Q, R>)
    requires Inv(s) && Step(true, s, a).Some?
    ensures Inv(Step(true, s, a).value)
  {
    StepKeepsLock(true, s, a);
    StepKeepsWriters(true, s, a);
    StepKeepsReplies(s, a);
    if !Step(true, s, a).value.broken {
      StepKeepsWire(true, s, a);
    }
  }

  ghost predicate IsClientRun<Q(!new), R(!new)>(final: bool, run: Run<State<Q, R>, Action<Q, R>>) {
    IsRun(Init, (s, a) => Step(final, s, a), run)
  }

  lemma Reachable<Q(!new), R(!new)>(run: Run<State<Q, R>, Action<Q, R>>, i: nat)
    requires IsClientRun(true, run) && i < |run.states|
    ensures Inv(run.states[i])
  {
    forall s: State<Q, R>, a: Action<Q, R> | Inv(s) && Step(true, s, a).Some? ensures Inv(Step(true, s, a).value) {
      StepInv(s, a);
    }
    InvariantHolds(Init, (s, a) => Step(true, s, a), Inv, run, i);
  }

  /** Each caller that gets a reply gets the one to its own request: the server's answer to the request it
      wrote, which is answered once and given to nobody else; whatever fails for whomever, provided that
      nothing is read from a connection on which a caller has gone without its reply. */
  lemma EachGetsItsOwnReply<Q(!new), R(!new)>(run: Run<State<Q, R>, Action<Q, R>>, i: nat, c: nat)
    requires IsClientRun(true, run) && i < |run.states|
    requires c in run.states[i].calls && run.states[i].calls[c].pc.Returned?
    ensures var s := run.states[i];
            var k := s.calls[c].pc.exchange;
      && Paired(s, c, k, s.calls[c].pc.reply)
      && forall d | d in s.calls && d != c && s.calls[d].pc.Returned? :: s.calls[d].pc.exchange != k
  {
    Reachable(run, i);
    assert ReplyOk(run.states[i], c);
    assert forall d | d in run.states[i].calls :: ReplyOk(run.states[i], d);
  }

  /** Nobody waits for ever for a server that answers: as long as some call has not returned, and no caller
      has gone without its reply, a step is enabled that is no failure and no new call. */
  lemma SomebodyMoves<Q, R>(final: bool, s: State<Q, R>, answer: R) returns (a: Action<Q, R>)
    requires Inv(s) && !s.broken
    requires exists c :: c in s.calls && !s.calls[c].pc.Returned? && !s.calls[c].pc.ReturnedFailed?
    ensures Step(final, s, a).Some? && (a.Lock? || a.Send? || a.Serve? || a.Receive? || a.Release?)
  {
    if s.holder.Some? {
      var c := s.holder.value;
      match s.calls[c].pc {
        case Write => a := Send(c);
        case Read(_) => a := if s.requests != [] then Serve(answer) else Receive(c);
        case _ => a := Release(c);
      }
    } else {
      var c :| c in s.calls && !s.calls[c].pc.Returned? && !s.calls[c].pc.ReturnedFailed?;
      a := Lock(c);
    }
  }

  // The proviso is needed: the client keeps a connection after an error, and the next caller would read
  // the reply meant for the one that gave up. Requests and replies are numbers here.

  function One(pc: Pc<nat>): map<nat, Call<nat, nat>> {
    map[0 := Call(10, pc)]
  }

  function Two(pc: Pc<nat>): map<nat, Call<nat, nat>> {
    map[0 := Call(10, ReturnedFailed), 1 := Call(11, pc)]
  }

  ghost predicate Goes(last: State<nat, nat>, a: Action<nat, nat>, next: State<nat, nat>) {
    && Step(false, last, a).Some?
    && var u := Step(false, last, a).value;
       && u.holder == next.holder && u.calls == next.calls && u.requests == next.requests && u.replies == next.replies
       && u.served == next.served && u.writers == next.writers && u.broken == next.broken
  }

  lemma Take(
      run: Run<State<nat, nat>, Action<nat, nat>>, last: State<nat, nat>, a: Action<nat, nat>, next: State<nat, nat>)
    returns (longer: Run<State<nat, nat>, Action<nat, nat>>)
    requires IsClientRun(false, run) && EndsIn(run, last) && Goes(last, a, next)
    ensures IsClientRun(false, longer) && EndsIn(longer, next)
  {
    longer := Extend(Init, (s, a) => Step(false, s, a), run, last, a, next);
  }

  lemma FirstGivesUp() returns (run: Run<State<nat, nat>, Action<nat, nat>>)
    ensures IsClientRun(false, run) && EndsIn(run, State(None, One(ReturnedFailed), [10], [], [], [0], true))
  {
    var s0: State<nat, nat> := State(None, map[], [], [], [], [], false);
    var s1 := s0.(calls := One(WantLock));
    var s2 := s1.(calls := One(Write), holder := Some(0));
    var s3 := s2.(calls := One(Read(0)), requests := [10], writers := [0]);
    var s4 := s3.(calls := One(UnlockFailed), broken := true);
    var s5 := s4.(calls := One(ReturnedFailed), holder := None);
    run := Run([s0], []);
    run := Take(run, s0, Do(0, 10), s1);
    run := Take(run, s1, Lock(0), s2);
    run := Take(run, s2, Send(0), s3);
    run := Take(run, s3, ReceiveFails(0, false), s4);
    run := Take(run, s4, Release(0), s5);
  }

  lemma SecondReads() returns (run: Run<State<nat, nat>, Action<nat, nat>>)
    ensures IsClientRun(false, run)
    ensures EndsIn(run, State(Some(1), Two(Unlock(1, 20)), [11], [], [(10, 20)], [0, 1], true))
  {
    run := FirstGivesUp();
    var s0 := State(None, One(ReturnedFailed), [10], [], [], [0], true);
    var s1 := s0.(calls := Two(WantLock));
    var s2 := s1.(calls := Two(Write), holder := Some(1));
    var s3 := s2.(calls := Two(Read(1)), requests := [10, 11], writers := [0, 1]);
    var s4 := s3.(requests := [11], replies := [20], served := [(10, 20)]);
    var s5 := s4.(calls := Two(Unlock(1, 20)), replies := []);
    run := Take(run, s0, Do(1, 11), s1);
    run := Take(run, s1, Lock(1), s2);
    run := Take(run, s2, Send(1), s3);
    run := Take(run, s3, Serve(20), s4);
    run := Take(run, s4, Receive(1), s5);
  }

  /** The second caller has returned with the server's answer to the first. */
  lemma LateReplyIsMispaired() returns (run: Run<State<nat, nat>, Action<nat, nat>>)
    ensures IsClientRun(false, run) && |run.states| > 0
    ensures var s := run.states[|run.states| - 1];
      && 1 in s.calls && s.calls[1] == Call(11, Returned(1, 20)) && s.served == [(10, 20)]
      && !Paired(s, 1, 1, 20)
  {
    run := SecondReads();
    var last := State(Some(1), Two(Unlock(1, 20)), [11], [], [(10, 20)], [0, 1], true);
    run := Take(run, last, Release(1), last.(calls := Two(Returned(1, 20)), holder := None));
  }
}
