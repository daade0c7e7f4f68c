/**
 Newline framing on the control channel (control/proto.go): reading a line through a buffered
 reader whatever the chunks the transport delivers, and reading back a list of written messages.
 Marshalling is left to two functions: an encoder that emits no raw newline (section 7 of RFC 8259
 makes strings escape it) and a decoder.
 */
module Framing {
  import opened Wrappers
  import opened Octets

  /** The length of the first line of s from position k on, newline included; 0 if there is none. */
  function LineLength(s: Text, k: nat): (n: nat)
    requires k <= |s|
    ensures n == 0 || k < n <= |s|
    decreases |s| - k
  {
    if k == |s| then 0 else if s[k] == NEWLINE then k + 1 else LineLength(s, k + 1)
  }

  /** The first newline is where LineLength says. */
  lemma {:induction false} LineLengthFinds(s: Text, k: nat, n: nat)
    requires k < n <= |s| && NEWLINE !in s[k..n - 1] && s[n - 1] == NEWLINE
    ensures LineLength(s, k) == n
    decreases n - k
  {
    if k + 1 < n {
      assert s[k] == s[k..n - 1][0];
      assert s[k + 1..n - 1] == s[k..n - 1][1..];
      LineLengthFinds(s, k + 1, n);
    }
  }

  lemma {:induction false} NoLine(s: Text, k: nat)
    requires k <= |s| && NEWLINE !in s[k..]
    ensures LineLength(s, k) == 0
    decreases |s| - k
  {
    if k < |s| {
      assert s[k] == s[k..][0];
      assert s[k + 1..] == s[k..][1..];
      NoLine(s, k + 1);
    }
  }

  /** The chunks from number i on, joined. */
  function Joined(chunks: seq<Text>, i: nat): Text
    requires i <= |chunks|
    decreases |chunks| - i
  {
    if i == |chunks| then [] else chunks[i] + Joined(chunks, i + 1)
  }

  /** A buffered reader over a transport that delivers its input in chunks. */
  class BufferedReader {
    const chunks: seq<Text>
    var delivered: nat
    var buffer: Text

    ghost predicate Valid()
      reads this
    {
      delivered <= |chunks|
    }

    /** Everything still to be read. */
    ghost function Stream(): Text
      requires Valid()
      reads this
    {
      buffer + Joined(chunks, delivered)
    }

    constructor (chunks: seq<Text>)
      ensures Valid() && Stream() == Joined(chunks, 0)
    {
      this.chunks, delivered, buffer := chunks, 0, [];
      new;
      assert [] + Joined(chunks, 0) == Joined(chunks, 0);
    }

    /** ReadBytes('\n'): the next line if the stream still has one, whatever the chunks; otherwise the
        rest of the stream is consumed and the end of input reported. */
    method ReadLine() returns (line: Option<Text>)
      requires Valid()
      modifies this
      ensures Valid()
      ensures var n := LineLength(old(Stream()), 0);
        if n > 0 then line == Some(old(Stream())[..n]) && Stream() == old(Stream())[n..]
        else line == None && Stream() == []
    {
      ghost var stream := Stream();
      var scanned := 0;
      while true
        invariant Valid() && Stream() == stream
        invariant scanned <= |buffer| && NEWLINE !in buffer[..scanned]
        decreases |chunks| - delivered, |buffer| - scanned
      {
        if scanned < |buffer| {
          if buffer[scanned] == NEWLINE {
            var n := scanned + 1;
            line := Some(buffer[..n]);
            assert stream[..n] == buffer[..n] && stream[0..n - 1] == buffer[..scanned];
            LineLengthFinds(stream, 0, n);
            assert stream[n..] == buffer[n..] + Joined(chunks, delivered);
            buffer := buffer[n..];
            return;
          }
          assert buffer[..scanned + 1] == buffer[..scanned] + [buffer[scanned]];
          scanned := scanned + 1;
        } else if delivered == |chunks| {
          assert stream[0..] == stream == buffer == buffer[..scanned];
          NoLine(stream, 0);
          buffer := [];
          return None;
        } else {
          assert buffer + (chunks[delivered] + Joined(chunks, delivered + 1))
              == buffer + chunks[delivered] + Joined(chunks, delivered + 1);
          assert (buffer + chunks[delivered])[..scanned] == buffer[..scanned];
          buffer := buffer + chunks[delivered];
          delivered := delivered + 1;
        }
      }
    }
  }

  // ---------------------------------------------------------------- messages

  /** writeMessage: one message and its newline. */
  function Frame<M>(encode: M -> Text, m: M): Text {
    encode(m) + [NEWLINE]
  }

  /** A list of messages as written, from number i on. */
  function Frames<M>(encode: M -> Text, messages: seq<M>, i: nat): Text
    requires i <= |messages|
    decreases |messages| - i
  {
    if i == |messages| then [] else Frame(encode, messages[i]) + Frames(encode, messages, i + 1)
  }

  /** The first n messages of a list as written, one after the other. */
  function FramesTo<M>(encode: M -> Text, messages: seq<M>, n: nat): Text
    requires n <= |messages|
  {
    if n == 0 then [] else FramesTo(encode, messages, n - 1) + Frame(encode, messages[n - 1])
  }

  lemma {:induction false} FramesJoin<M>(encode: M -> Text, messages: seq<M>, n: nat)
    requires n <= |messages|
    ensures FramesTo(encode, messages, n) + Frames(encode, messages, n) == Frames(encode, messages, 0)
  {
    if n > 0 {
      FramesJoin(encode, messages, n - 1);
      assert FramesTo(encode, messages, n) + Frames(encode, messages, n)
          == FramesTo(encode, messages, n - 1) + (Frame(encode, messages[n - 1]) + Frames(encode, messages, n));
    }
  }

  /** The messages read back from a stream until its end or the first malformed line. */
  function Decoded<M>(decode: Text -> Option<M>, s: Text): seq<M>
    decreases |s|
  {
    var n := LineLength(s, 0);
    if n == 0 then []
    else match decode(s[..n])
         case None => []
         case Some(m) => [m] + Decoded(decode, s[n..])
  }

  /** m is encoded without a raw newline and comes back when its line is decoded. */
  ghost predicate Survives<M>(encode: M -> Text, decode: Text -> Option<M>, m: M) {
    NEWLINE !in encode(m) && decode(Frame(encode, m)) == Some(m)
  }

  ghost predicate Inverts<M>(encode: M -> Text, decode: Text -> Option<M>, messages: seq<M>) {
    forall k | 0 <= k < |messages| :: Survives(encode, decode, messages[k])
  }

  lemma FirstFrame(frame: Text, rest: Text)
    requires frame != [] && frame[|frame| - 1] == NEWLINE && NEWLINE !in frame[..|frame| - 1]
    ensures LineLength(frame + rest, 0) == |frame|
    ensures (frame + rest)[..|frame|] == frame && (frame + rest)[|frame|..] == rest
  {
    var s := frame + rest;
    assert s[0..|frame| - 1] == frame[..|frame| - 1];
    LineLengthFinds(s, 0, |frame|);
  }

  /** Reading back any list of written messages, followed by an incomplete or malformed line, returns
      that list. */
  lemma {:induction false} ReadBack<M>(
      encode: M -> Text, decode: Text -> Option<M>, messages: seq<M>, i: nat, tail: Text)
    requires Inverts(encode, decode, messages) && i <= |messages|
    requires LineLength(tail, 0) == 0 || decode(tail[..LineLength(tail, 0)]) == None
    ensures Decoded(decode, Frames(encode, messages, i) + tail) == messages[i..]
    decreases |messages| - i
  {
    if i == |messages| {
      assert Frames(encode, messages, i) + tail == tail;
    } else {
      assert Survives(encode, decode, messages[i]);
      var frame := Frame(encode, messages[i]);
      var rest := Frames(encode, messages, i + 1) + tail;
      assert Frames(encode, messages, i) + tail == frame + rest;
      assert frame[..|frame| - 1] == encode(messages[i]);
      FirstFrame(frame, rest);
      ReadBack(encode, decode, messages, i + 1, tail);
    }
  }

  // ---------------------------------------------------------------- reading and writing one message

  /** The next message, or none at the end of the stream or at a malformed line. */
  method ReadMessage<M>(decode: Text -> Option<M>, reader: BufferedReader) returns (m: Option<M>)
    requires reader.Valid()
    modifies reader
    ensures reader.Valid()
    ensures m.None? ==> Decoded(decode, old(reader.Stream())) == []
    ensures m.Some? ==> Decoded(decode, old(reader.Stream())) == [m.value] + Decoded(decode, reader.Stream())
    ensures m.Some? ==> |reader.Stream()| < |old(reader.Stream())|
  {
    var line := reader.ReadLine();
    if line.None? {
      return None;
    }
    m := decode(line.value);
  }

  /** Where messages go. A write may fail, and have got through in part. */
  class Writer {
    var written: Text
    ghost var failed: bool

    constructor ()
      ensures written == [] && !failed
    {
      written, failed := [], false;
    }

    method Write(p: Text) returns (ok: bool)
      modifies this
      ensures failed == (old(failed) || !ok)
      ensures if ok then written == old(written) + p else old(written) <= written <= old(written) + p
    {
      var refused: bool := *;
      if refused {
        failed := true;
        var n :| 0 <= n <= |p|;
        written := written + p[..n];
        return false;
      }
      written := written + p;
      return true;
    }
  }

  method WriteMessage<M>(encode: M -> Text, m: M, writer: Writer) returns (ok: bool)
    modifies writer
    ensures writer.failed == (old(writer.failed) || !ok)
    ensures ok ==> writer.written == old(writer.written) + Frame(encode, m)
    ensures !ok ==> old(writer.written) <= writer.written <= old(writer.written) + Frame(encode, m)
  {
    ok := writer.Write(encode(m) + [NEWLINE]);
  }
}
