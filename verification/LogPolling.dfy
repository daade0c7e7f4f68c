/**
 The cursor contract between the log buffer and a polling front-end (control/proto.go,
 control/client.go): the front-end passes back the highest Seq it has seen and the buffer answers
 with what it still holds above it.
 */
module LogPolling {
  import opened Octets
  import opened LogBuffer

  datatype Event = Appended(msg: Text, time: int) | Polled(reply: seq<LogLine>)

  /** A buffer's history, the front-end's cursor and everything it has been sent. */
  datatype Session = Session(history: seq<LogLine>, cursor: nat, received: seq<LogLine>)

  function After(s: Session, e: Event): Session {
    match e
    case Appended(msg, time) => s.(history := s.history + [LogLine(|s.history| + 1, time, msg)])
    case Polled(reply) =>
      s.(received := s.received + reply, cursor := if reply == [] then s.cursor else reply[|reply| - 1].seqNo)
  }

  /** The state after the first n events. */
  function Run(events: seq<Event>, n: nat): Session
    requires n <= |events|
  {
    if n == 0 then Session([], 0, []) else After(Run(events, n - 1), events[n - 1])
  }

  /** Event k, if a poll, is answered as a buffer of the given capacity answers the cursor. */
  ghost predicate GenuineAt(capacity: nat, events: seq<Event>, k: nat)
    requires k < |events|
  {
    events[k].Polled? ==> events[k].reply == Reply(Run(events, k).history, capacity, Run(events, k).cursor)
  }

  ghost predicate Genuine(capacity: nat, events: seq<Event>) {
    forall k | 0 <= k < |events| :: GenuineAt(capacity, events, k)
  }

  /** The number of lines appended since the last poll among the first n events. */
  function Backlog(events: seq<Event>, n: nat): nat
    requires n <= |events|
  {
    if n == 0 || events[n - 1].Polled? then 0 else Backlog(events, n - 1) + 1
  }

  /** Event k is not a poll that finds more new lines than the buffer holds. */
  predicate InTime(capacity: nat, events: seq<Event>, k: nat)
    requires k < |events|
  {
    events[k].Polled? ==> Backlog(events, k) <= capacity
  }

  predicate KeepsUp(capacity: nat, events: seq<Event>, n: nat)
    requires n <= |events|
  {
    forall k | 0 <= k < n :: InTime(capacity, events, k)
  }

  /** What the front-end has been sent is strictly increasing in Seq and is history, unaltered. */
  ghost predicate Faithful(s: Session) {
    && (forall i | 0 <= i < |s.received| ::
          1 <= s.received[i].seqNo <= |s.history| && s.received[i] == s.history[s.received[i].seqNo - 1])
    && (forall i, j | 0 <= i < j < |s.received| :: s.received[i].seqNo < s.received[j].seqNo)
  }

  /** The state after a run in which k lines have been appended since the last poll. */
  ghost predicate InStep(s: Session, k: nat) {
    && Numbered(s.history)
    && s.cursor + k == |s.history|
    && |s.received| <= s.cursor
    && (forall i | 0 <= i < |s.received| :: s.received[i].seqNo <= s.cursor)
  }

  ghost predicate Sound(s: Session, k: nat) {
    InStep(s, k) && Faithful(s)
  }

  /** The front-end has everything logged up to its cursor. */
  ghost predicate Complete(s: Session) {
    s.cursor <= |s.history| && s.received == s.history[..s.cursor]
  }

  /** The lines a poll misses when k have been appended since the last one. */
  function Missed(capacity: nat, k: nat): nat {
    if k > capacity then k - capacity else 0
  }

  lemma AfterAppend(s: Session, k: nat, msg: Text, time: int)
    requires Sound(s, k)
    ensures Sound(After(s, Appended(msg, time)), k + 1)
    ensures Complete(After(s, Appended(msg, time))) <==> Complete(s)
  {
    assert After(s, Appended(msg, time)).history[..s.cursor] == s.history[..s.cursor];
  }

  lemma AfterPoll(s: Session, k: nat, missed: nat)
    requires Sound(s, k) && missed <= k && (missed == k ==> k == 0)
    ensures Sound(After(s, Polled(s.history[s.cursor + missed..])), 0)
  {
  }

  lemma PollCompletes(s: Session, k: nat, missed: nat)
    requires InStep(s, k) && missed <= k && (missed == k ==> k == 0)
    ensures Complete(After(s, Polled(s.history[s.cursor + missed..]))) <==> Complete(s) && missed == 0
  {
    var reply := s.history[s.cursor + missed..];
    var t := After(s, Polled(reply));
    assert t.cursor == |s.history| && s.history[..t.cursor] == s.history;
    if Complete(t) {
      assert |s.received| + |reply| == |s.history|;
      assert missed == 0 && |s.received| == s.cursor;
      assert s.received == t.received[..s.cursor];
    }
    if Complete(s) && missed == 0 {
      assert s.history[..s.cursor] + s.history[s.cursor..] == s.history;
    }
  }

  lemma GenuineReply(capacity: nat, s: Session, k: nat, reply: seq<LogLine>)
    requires capacity > 0 && InStep(s, k) && reply == Reply(s.history, capacity, s.cursor)
    ensures s.cursor + Missed(capacity, k) <= |s.history| && reply == s.history[s.cursor + Missed(capacity, k)..]
  {
    ReplyIsHistorySuffix(s.history, capacity, s.cursor);
  }

  /** One event of a run: what it keeps, and when it keeps the record complete. */
  lemma AfterStep(capacity: nat, s: Session, e: Event, k: nat)
    requires capacity > 0 && Sound(s, k)
    requires e.Polled? ==>
      s.cursor + Missed(capacity, k) <= |s.history| && e.reply == s.history[s.cursor + Missed(capacity, k)..]
    ensures Sound(After(s, e), if e.Polled? then 0 else k + 1)
    ensures Complete(After(s, e)) <==> Complete(s) && (e.Polled? ==> k <= capacity)
  {
    match e {
      case Appended(msg, time) => AfterAppend(s, k, msg, time);
      case Polled(_) =>
        assert e == Polled(s.history[s.cursor + Missed(capacity, k)..]);
        AfterPoll(s, k, Missed(capacity, k));
        PollCompletes(s, k, Missed(capacity, k));
    }
  }

  /** Over every run: the front-end never sees a line twice, out of order, or one that was not
      logged. */
  lemma {:induction false} RunIsSound(capacity: nat, events: seq<Event>, n: nat)
    requires capacity > 0 && Genuine(capacity, events) && n <= |events|
    ensures Sound(Run(events, n), Backlog(events, n))
  {
    if n > 0 {
      RunIsSound(capacity, events, n - 1);
      RunStep(capacity, events, n);
    }
  }

  lemma RunStep(capacity: nat, events: seq<Event>, n: nat)
    requires capacity > 0 && Genuine(capacity, events) && 0 < n <= |events|
    requires Sound(Run(events, n - 1), Backlog(events, n - 1))
    ensures Sound(Run(events, n), Backlog(events, n))
    ensures Complete(Run(events, n)) <==> Complete(Run(events, n - 1)) && InTime(capacity, events, n - 1)
  {
    assert GenuineAt(capacity, events, n - 1);
    var s, k, e := Run(events, n - 1), Backlog(events, n - 1), events[n - 1];
    if e.Polled? {
      GenuineReply(capacity, s, k, e.reply);
    }
    AfterStep(capacity, s, e, k);
  }

  /** The record of the front-end is complete up to its cursor just when every poll so far came
      within capacity appends of the one before. */
  lemma {:induction false} CompleteIffKeepsUp(capacity: nat, events: seq<Event>, n: nat)
    requires capacity > 0 && Genuine(capacity, events) && n <= |events|
    ensures Complete(Run(events, n)) <==> KeepsUp(capacity, events, n)
  {
    if n > 0 {
      CompleteIffKeepsUp(capacity, events, n - 1);
      RunIsSound(capacity, events, n - 1);
      RunStep(capacity, events, n);
    }
  }

  /** A poll with k appends since the previous one is answered with the newest min(k, capacity)
      lines: exactly the oldest max(0, k - capacity) of the new ones are missed. */
  lemma PollReply(capacity: nat, events: seq<Event>, n: nat)
    requires capacity > 0 && Genuine(capacity, events) && n < |events| && events[n].Polled?
    ensures var s := Run(events, n);
            var k := Backlog(events, n);
      && s.cursor + k == |s.history|
      && events[n].reply == s.history[s.cursor + Missed(capacity, k)..]
      && Run(events, n + 1).cursor == |s.history|
  {
    RunIsSound(capacity, events, n);
    assert GenuineAt(capacity, events, n);
    GenuineReply(capacity, Run(events, n), Backlog(events, n), events[n].reply);
    AfterStep(capacity, Run(events, n), events[n], Backlog(events, n));
  }
}
