/**
 The log ring buffer of the control channel (control/logbuf.go): a bounded array updated in
 place that must agree with an unbounded history of lines, and the line splitter in front of it.
 Text is bytes. The clock is read nondeterministically.
 */
module LogBuffer {
  import opened Octets

  const DEFAULT_CAPACITY: nat := 2000

  datatype LogLine = LogLine(seqNo: nat, time: int, msg: Text)

  // ---------------------------------------------------------------- the history and what is kept of it

  ghost predicate NumberedFrom(lines: seq<LogLine>, first: nat) {
    forall i | 0 <= i < |lines| :: lines[i].seqNo == first + i
  }

  /** The whole history of a buffer: the line with number s is the s-th ever appended, from 1 on. */
  ghost predicate Numbered(history: seq<LogLine>) {
    NumberedFrom(history, 1)
  }

  /** The last min(capacity, total) lines. */
  function Retained(history: seq<LogLine>, capacity: nat): seq<LogLine> {
    if |history| <= capacity then history else history[|history| - capacity..]
  }

  /** Those of the first k lines that are numbered above since, in order. */
  function Above(lines: seq<LogLine>, since: nat, k: nat): seq<LogLine>
    requires k <= |lines|
  {
    if k == 0 then []
    else Above(lines, since, k - 1) + if lines[k - 1].seqNo > since then [lines[k - 1]] else []
  }

  function Max(a: int, b: int): int {
    if a > b then a else b
  }

  function Messages(lines: seq<LogLine>): seq<Text> {
    seq(|lines|, i requires 0 <= i < |lines| => lines[i].msg)
  }

  /** The buffer's answer to a poll. */
  function Reply(history: seq<LogLine>, capacity: nat, since: nat): seq<LogLine> {
    Above(Retained(history, capacity), since, |Retained(history, capacity)|)
  }

  /** Filtering consecutively numbered lines is dropping a prefix. */
  lemma {:induction false} AboveIsSuffix(lines: seq<LogLine>, first: nat, since: nat, k: nat)
    requires k <= |lines| && NumberedFrom(lines, first)
    ensures since < first ==> Above(lines, since, k) == lines[..k]
    ensures first <= since < first + k ==> Above(lines, since, k) == lines[since - first + 1..k]
    ensures first + k <= since ==> Above(lines, since, k) == []
  {
    if k > 0 {
      AboveIsSuffix(lines, first, since, k - 1);
      assert lines[k - 1].seqNo == first + k - 1;
    }
  }

  /** A reply in terms of the history: everything after the cursor, less what has been evicted. */
  lemma ReplyIsHistorySuffix(history: seq<LogLine>, capacity: nat, since: nat)
    requires Numbered(history)
    ensures Reply(history, capacity, since)
         == if since < |history| then history[Max(since, |history| - capacity)..] else []
  {
    var evicted := Max(0, |history| - capacity);
    var kept := Retained(history, capacity);
    assert kept == history[evicted..];
    AboveIsSuffix(kept, evicted + 1, since, |kept|);
    assert kept[..|kept|] == kept;
    if evicted < since < |history| {
      assert kept[since - evicted..|kept|] == history[since..];
    }
  }

  lemma RetainedNumbered(history: seq<LogLine>, capacity: nat)
    requires Numbered(history)
    ensures NumberedFrom(Retained(history, capacity), Max(0, |history| - capacity) + 1)
  {
  }

  /** Where a scan of numbered lines for the first one above since stops, the lines above it begin. */
  lemma ScanFindsAbove(lines: seq<LogLine>, first: nat, since: nat, start: nat)
    requires NumberedFrom(lines, first) && start <= |lines|
    requires start > 0 ==> lines[start - 1].seqNo <= since
    requires start < |lines| ==> lines[start].seqNo > since
    ensures lines[start..] == Above(lines, since, |lines|)
  {
    AboveIsSuffix(lines, first, since, |lines|);
    assert lines[..|lines|] == lines;
    assert start > 0 ==> lines[start - 1].seqNo == first + start - 1;
    assert start < |lines| ==> lines[start].seqNo == first + start;
  }

  /** One more line: the oldest one retained gives way if the buffer is full. */
  lemma RetainedAfter(history: seq<LogLine>, capacity: nat, line: LogLine)
    requires capacity > 0
    ensures var kept := Retained(history, capacity);
      Retained(history + [line], capacity) == (if |kept| >= capacity then kept[1..] else kept) + [line]
  {
  }

  // ---------------------------------------------------------------- the line splitter

  /** Go's bytes.Split on a newline: the pieces between newlines, always at least one. */
  function Split(p: Text): (pieces: seq<Text>)
    ensures |pieces| > 0
  {
    if p == [] then [[]] else Extended(Split(p[..|p| - 1]), p[|p| - 1])
  }

  /** The pieces with one more byte of text read. */
  function Extended(pieces: seq<Text>, c: Byte): (r: seq<Text>)
    requires |pieces| > 0
    ensures |r| > 0
  {
    if c == NEWLINE then pieces + [[]] else pieces[|pieces| - 1 := pieces[|pieces| - 1] + [c]]
  }

  /** The first k pieces with newlines between them. */
  function JoinTo(pieces: seq<Text>, k: nat): Text
    requires 0 < k <= |pieces|
  {
    if k == 1 then pieces[0] else JoinTo(pieces, k - 1) + [NEWLINE] + pieces[k - 1]
  }

  function Join(pieces: seq<Text>): Text
    requires |pieces| > 0
  {
    JoinTo(pieces, |pieces|)
  }

  lemma {:induction false} JoinToAgrees(a: seq<Text>, b: seq<Text>, k: nat)
    requires 0 < k <= |a| && k <= |b| && forall i | 0 <= i < k :: a[i] == b[i]
    ensures JoinTo(a, k) == JoinTo(b, k)
  {
    if k > 1 {
      JoinToAgrees(a, b, k - 1);
    }
  }

  lemma JoinExtended(pieces: seq<Text>, c: Byte)
    requires |pieces| > 0
    ensures Join(Extended(pieces, c)) == Join(pieces) + [c]
  {
    var n, extended := |pieces|, Extended(pieces, c);
    if c == NEWLINE {
      JoinToAgrees(pieces, extended, n);
      assert JoinTo(extended, n + 1) == JoinTo(extended, n) + [NEWLINE] + [];
    } else if n > 1 {
      JoinToAgrees(pieces, extended, n - 1);
      var before := JoinTo(pieces, n - 1) + [NEWLINE];
      assert before + (pieces[n - 1] + [c]) == before + pieces[n - 1] + [c];
    }
  }

  /** Splitting loses nothing: joining the pieces gives the text back. */
  lemma {:induction false} JoinSplit(p: Text)
    ensures Join(Split(p)) == p
  {
    if p != [] {
      var r, c := p[..|p| - 1], p[|p| - 1];
      assert r + [c] == p;
      JoinSplit(r);
      SplitOneMore(r, c);
      JoinExtended(Split(r), c);
    }
  }

  lemma ExtendedConcat(a: seq<Text>, b: seq<Text>, c: Byte)
    requires |b| > 0
    ensures Extended(a + b, c) == a + Extended(b, c)
  {
  }

  function TrimRight(p: Text, c: Byte): Text {
    if p != [] && p[|p| - 1] == c then TrimRight(p[..|p| - 1], c) else p
  }

  /** The lines that a list of pieces stands for: carriage returns trimmed, empty ones dropped. */
  function Lines(pieces: seq<Text>): seq<Text> {
    if pieces == [] then []
    else
      var line := TrimRight(pieces[|pieces| - 1], RETURN);
      Lines(pieces[..|pieces| - 1]) + if line == [] then [] else [line]
  }

  /** The lines Write stores for p. */
  function Written(p: Text): seq<Text> {
    Lines(Split(TrimRight(p, NEWLINE)))
  }

  lemma {:induction false} LinesConcat(a: seq<Text>, b: seq<Text>)
    ensures Lines(a + b) == Lines(a) + Lines(b)
  {
    if b == [] {
      assert a + b == a;
    } else {
      var c := b[..|b| - 1];
      assert (a + b)[..|a + b| - 1] == a + c;
      LinesConcat(a, c);
    }
  }

  lemma SplitOneMore(p: Text, c: Byte)
    ensures Split(p + [c]) == Extended(Split(p), c)
  {
    assert (p + [c])[..|p + [c]| - 1] == p;
  }

  lemma {:induction false} SplitAtNewline(p: Text, q: Text)
    ensures Split(p + [NEWLINE] + q) == Split(p) + Split(q)
  {
    if q == [] {
      assert p + [NEWLINE] + q == p + [NEWLINE];
      SplitOneMore(p, NEWLINE);
    } else {
      var r, c := q[..|q| - 1], q[|q| - 1];
      SplitAtNewline(p, r);
      SplitOneMore(p + [NEWLINE] + r, c);
      SplitOneMore(r, c);
      assert p + [NEWLINE] + q == p + [NEWLINE] + r + [c] && q == r + [c];
      ExtendedConcat(Split(p), Split(r), c);
    }
  }

  /** Trimming the trailing newlines makes no difference to the lines stored. */
  lemma {:induction false} TrimIsImmaterial(p: Text)
    ensures Written(p) == Lines(Split(p))
  {
    if p != [] && p[|p| - 1] == NEWLINE {
      var r := p[..|p| - 1];
      TrimIsImmaterial(r);
      assert p == r + [NEWLINE] + [];
      SplitAtNewline(r, []);
      LinesConcat(Split(r), [[]]);
      assert Lines([[]]) == [];
    }
  }

  /** Writing p, a newline and q in one call stores the lines of writing p and then q. */
  lemma WriteSplits(p: Text, q: Text)
    ensures Written(p + [NEWLINE] + q) == Written(p) + Written(q)
  {
    TrimIsImmaterial(p + [NEWLINE] + q);
    TrimIsImmaterial(p);
    TrimIsImmaterial(q);
    SplitAtNewline(p, q);
    LinesConcat(Split(p), Split(q));
  }

  /** No stored line is empty, holds a newline or ends in a carriage return. */
  lemma {:induction false} StoredLinesAreClean(p: Text, line: Text)
    requires line in Written(p)
    ensures line != [] && NEWLINE !in line && line[|line| - 1] != RETURN
  {
    PiecesHoldNoNewline(TrimRight(p, NEWLINE));
    LinesAreTrimmed(Split(TrimRight(p, NEWLINE)), line);
  }

  function Returns(n: nat): Text {
    seq(n, _ => RETURN)
  }

  lemma {:induction false} TrimReturns(line: Text, n: nat)
    requires line == [] || line[|line| - 1] != RETURN
    ensures TrimRight(line + Returns(n), RETURN) == line
  {
    if n == 0 {
      assert line + Returns(0) == line;
    } else {
      var p := line + Returns(n);
      assert p[..|p| - 1] == line + Returns(n - 1);
      TrimReturns(line, n - 1);
    }
  }

  lemma {:induction false} SplitOne(p: Text)
    requires NEWLINE !in p
    ensures Split(p) == [p]
  {
    if p != [] {
      var r, c := p[..|p| - 1], p[|p| - 1];
      assert r + [c] == p;
      SplitOne(r);
      SplitOneMore(r, c);
    }
  }

  /** One line is stored as it is, less the carriage returns at its end; an empty one is not stored. With
      WriteSplits this says what is stored for every text. */
  lemma WrittenLine(line: Text, n: nat)
    requires NEWLINE !in line && (line == [] || line[|line| - 1] != RETURN)
    ensures Written(line + Returns(n)) == if line == [] then [] else [line]
  {
    var p := line + Returns(n);
    TrimIsImmaterial(p);
    SplitOne(p);
    TrimReturns(line, n);
    assert Lines([]) == [] && [p][..0] == [];
  }

  lemma {:induction false} PiecesHoldNoNewline(p: Text)
    ensures forall i | 0 <= i < |Split(p)| :: NEWLINE !in Split(p)[i]
  {
    if p != [] {
      PiecesHoldNoNewline(p[..|p| - 1]);
    }
  }

  lemma {:induction false} LinesAreTrimmed(pieces: seq<Text>, line: Text)
    requires forall i | 0 <= i < |pieces| :: NEWLINE !in pieces[i]
    requires line in Lines(pieces)
    ensures line != [] && NEWLINE !in line && line[|line| - 1] != RETURN
  {
    var k := |pieces| - 1;
    var last := TrimRight(pieces[k], RETURN);
    TrimmedIsPrefix(pieces[k], RETURN);
    if line != last || last == [] {
      LinesAreTrimmed(pieces[..k], line);
    }
  }

  lemma {:induction false} TrimmedIsPrefix(p: Text, c: Byte)
    ensures TrimRight(p, c) <= p
    ensures TrimRight(p, c) != [] ==> TrimRight(p, c)[|TrimRight(p, c)| - 1] != c
    ensures forall i | |TrimRight(p, c)| <= i < |p| :: p[i] == c
  {
    if p != [] && p[|p| - 1] == c {
      TrimmedIsPrefix(p[..|p| - 1], c);
    }
  }

  // ---------------------------------------------------------------- the buffer

  class LogBuffer {
    const capacity: nat
    const lines: array<LogLine>
    var length: nat
    var nextSeq: nat
    var overflow: nat
    ghost var history: seq<LogLine>   // every line ever appended

    ghost predicate Valid()
      reads this, lines
    {
      && 0 < capacity == lines.Length && length <= capacity
      && Numbered(history)
      && lines[..length] == Retained(history, capacity)
      && nextSeq == |history| + 1
      && overflow + length == |history|
    }

    constructor (requested: int)
      ensures Valid() && fresh(lines) && history == []
      ensures capacity == if requested <= 0 then 2000 else requested
    {
      capacity := if requested <= 0 then DEFAULT_CAPACITY else requested;
      lines := new LogLine[if requested <= 0 then DEFAULT_CAPACITY else requested](_ => LogLine(0, 0, []));
      length, nextSeq, overflow, history := 0, 1, 0, [];
    }

    /** Go's copy of lines[1:n] over lines[0:n-1]. */
    static method ShiftDown(lines: array<LogLine>, n: nat)
      requires 0 < n <= lines.Length
      modifies lines
      ensures lines[..n - 1] == old(lines[1..n])
    {
      for i := 0 to n - 1
        invariant forall j | 0 <= j < i :: lines[j] == old(lines[j + 1])
        invariant forall j | i <= j < n :: lines[j] == old(lines[j])
      {
        lines[i] := lines[i + 1];
      }
    }

    method Append(msg: Text) returns (line: LogLine)
      requires Valid()
      modifies this, lines
      ensures Valid()
      ensures history == old(history) + [line]
      ensures line.msg == msg && line.seqNo == old(nextSeq) == |history|
    {
      var now: int := *;
      line := LogLine(nextSeq, now, msg);
      nextSeq := nextSeq + 1;
      RetainedAfter(history, capacity, line);
      if length >= capacity {
        EvictOldest();
      }
      ghost var left := lines[..length];
      lines[length] := line;
      assert lines[..length + 1] == left + [line];
      length := length + 1;
      history := history + [line];
    }

    method EvictOldest()
      requires 0 < length <= lines.Length
      modifies this`length, this`overflow, lines
      ensures length == old(length) - 1 && overflow == old(overflow) + 1
      ensures lines[..length] == old(lines[..length])[1..]
    {
      ShiftDown(lines, length);
      length := length - 1;
      overflow := overflow + 1;
    }

    /** Stores the lines of p, one entry each, and reports all of p as written. */
    method Write(p: Text) returns (n: nat)
      requires Valid()
      modifies this, lines
      ensures Valid() && n == |p|
      ensures old(history) <= history
      ensures Messages(history[|old(history)|..]) == Written(p)
    {
      var pieces := Split(TrimRight(p, NEWLINE));
      for k := 0 to |pieces|
        invariant Valid() && old(history) <= history
        invariant Messages(history[|old(history)|..]) == Lines(pieces[..k])
      {
        assert pieces[..k + 1][..k] == pieces[..k];
        var line := TrimRight(pieces[k], RETURN);
        if line == [] {
          continue;
        }
        ghost var before := history;
        var stored := Append(line);
        assert history[|old(history)|..] == before[|old(history)|..] + [stored];
      }
      assert pieces[..|pieces|] == pieces;
      return |p|;
    }

    /** The retained lines numbered above since, oldest first. */
    method Since(since: nat) returns (reply: seq<LogLine>)
      requires Valid()
      ensures reply == Reply(history, capacity, since)
    {
      ghost var kept := lines[..length];
      var start := 0;
      while start < length && lines[start].seqNo <= since
        invariant 0 <= start <= length
        invariant start > 0 ==> kept[start - 1].seqNo <= since
      {
        assert lines[start] == kept[start];
        start := start + 1;
      }
      assert start < length ==> lines[start] == kept[start];
      RetainedNumbered(history, capacity);
      ScanFindsAbove(kept, Max(0, |history| - capacity) + 1, since, start);
      reply := lines[start..length];
      assert reply == kept[start..];
    }
  }
}
