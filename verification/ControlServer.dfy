/**
 The request loop of the control channel and its dispatch (control/server.go). The tunnel behind
 it is a handler: functions on a state of its own.
 */
module ControlServer {
  import opened Wrappers
  import opened Octets
  import opened LogBuffer
  import opened Framing

  const CMD_STATUS := "status"
  const CMD_CONNECT := "connect"
  const CMD_DISCONNECT := "disconnect"
  const CMD_LOGS := "logs"
  const CMD_PARSE_CONFIG := "parseConfig"
  const CMD_SERIALIZE_CONFIG := "serializeConfig"

  const COMMANDS: set<string> :=
    {CMD_STATUS, CMD_CONNECT, CMD_DISCONNECT, CMD_LOGS, CMD_PARSE_CONFIG, CMD_SERIALIZE_CONFIG}

  /** C stands for the structured form of a configuration. */
  datatype Request<C> = Request(cmd: string, config: string, name: string, since: nat, parsed: Option<C>)

  /** T stands for a tunnel status; an absent error, list or text is the empty one, as on the wire. */
  datatype Response<C, T> = Response(
    ok: bool, error: string, status: Option<T>, logs: seq<LogLine>, parsed: Option<C>, config: string)

  datatype Handler<!S, !C, !T> = Handler(
    connect: (S, string, string) -> (S, Option<string>),
    disconnect: S -> (S, Option<string>),
    status: S -> T,
    logs: (S, nat) -> seq<LogLine>,
    parse: string -> Result<C, string>,
    serialize: C -> Result<string, string>)

  function Failed<C, T>(error: string): Response<C, T> {
    Response(false, error, None, [], None, "")
  }

  function WithStatus<C, T>(status: T): Response<C, T> {
    Response(true, "", Some(status), [], None, "")
  }

  function Dispatch<S, C, T>(h: Handler<S, C, T>, s: S, req: Request<C>): (S, Response<C, T>) {
    if req.cmd == CMD_STATUS then (s, WithStatus(h.status(s)))
    else if req.cmd == CMD_CONNECT then
      var (t, error) := h.connect(s, req.config, req.name);
      (t, if error.Some? then Failed(error.value) else WithStatus(h.status(t)))
    else if req.cmd == CMD_DISCONNECT then
      var (t, error) := h.disconnect(s);
      (t, if error.Some? then Failed(error.value) else WithStatus(h.status(t)))
    else if req.cmd == CMD_LOGS then (s, WithStatus<C, T>(h.status(s)).(logs := h.logs(s, req.since)))
    else if req.cmd == CMD_PARSE_CONFIG then
      (s, match h.parse(req.config)
          case Failure(error) => Failed(error)
          case Success(parsed) => Response(true, "", None, [], Some(parsed), ""))
    else if req.cmd == CMD_SERIALIZE_CONFIG then
      (s, if req.parsed.None? then Failed("serializeConfig: missing parsedConfig")
          else match h.serialize(req.parsed.value)
               case Failure(error) => Failed(error)
               case Success(text) => Response(true, "", None, [], None, text))
    else (s, Failed("unknown command: " + req.cmd))
  }

  /** The protocol says that every successful reply carries the status. That holds just for the four
      commands about the tunnel: the two that convert configurations succeed without one. The status a
      reply carries is that of the tunnel after the command. */
  lemma StatusOnSuccess<S, C, T>(h: Handler<S, C, T>, s: S, req: Request<C>)
    ensures var (t, reply) := Dispatch(h, s, req);
      && (reply.ok ==> req.cmd in COMMANDS && reply.error == "")
      && (reply.ok ==> (reply.status.Some? <==> req.cmd !in {CMD_PARSE_CONFIG, CMD_SERIALIZE_CONFIG}))
      && (reply.status.Some? ==> reply.ok && reply.status == Some(h.status(t)))
      && (!reply.ok ==> reply == Failed(reply.error))
      && (t != s ==> req.cmd in {CMD_CONNECT, CMD_DISCONNECT})
  {
  }

  /** What is asked of the handler, with what, and what its answer becomes. */
  lemma HandlerIsAsked<S, C, T>(h: Handler<S, C, T>, s: S, req: Request<C>)
    ensures var (t, reply) := Dispatch(h, s, req);
      && (req.cmd == "status" ==> t == s && reply.ok && reply.status == Some(h.status(s)) && reply.logs == [])
      && (req.cmd == "connect" ==>
            t == h.connect(s, req.config, req.name).0 && AnswersWith(h, t, h.connect(s, req.config, req.name).1, reply))
      && (req.cmd == "disconnect" ==> t == h.disconnect(s).0 && AnswersWith(h, t, h.disconnect(s).1, reply))
      && (req.cmd == "logs" ==>
            t == s && reply.ok && reply.logs == h.logs(s, req.since) && reply.status == Some(h.status(s)))
  {
  }

  /** The two commands that convert configurations, and any other text in place of a command. */
  lemma ConversionIsAsked<S, C, T>(h: Handler<S, C, T>, s: S, req: Request<C>)
    ensures var (t, reply) := Dispatch(h, s, req);
      && (req.cmd == "parseConfig" ==>
            t == s && match h.parse(req.config)
                      case Success(parsed) => reply.ok && reply.parsed == Some(parsed) && reply.config == ""
                      case Failure(error) => !reply.ok && reply.error == error && reply.parsed == None)
      && (req.cmd == "serializeConfig" && req.parsed.Some? ==>
            t == s && match h.serialize(req.parsed.value)
                      case Success(text) => reply.ok && reply.config == text && reply.parsed == None
                      case Failure(error) => !reply.ok && reply.error == error && reply.config == "")
      && (req.cmd == "serializeConfig" && req.parsed.None? ==>
            t == s && !reply.ok && reply.error == "serializeConfig: missing parsedConfig")
      && (req.cmd !in {"status", "connect", "disconnect", "logs", "parseConfig", "serializeConfig"} ==>
            t == s && !reply.ok && reply.error == "unknown command: " + req.cmd)
  {
  }

  /** The handler's error, if any, is the reply's; without one the reply has the new status. */
  ghost predicate AnswersWith<S, C, T>(
      h: Handler<S, C, T>, t: S, error: Option<string>, reply: Response<C, T>) {
    && reply.ok == error.None? && reply.logs == [] && reply.parsed == None && reply.config == ""
    && if error.Some? then reply.error == error.value && reply.status == None
       else reply.error == "" && reply.status == Some(h.status(t))
  }

  // ---------------------------------------------------------------- the loop

  /** The replies to the requests from number i on, the handler starting in state s. */
  function Replies<S, C, T>(h: Handler<S, C, T>, s: S, requests: seq<Request<C>>, i: nat)
    : (replies: seq<Response<C, T>>)
    requires i <= |requests|
    ensures |replies| == |requests| - i
    decreases |requests| - i
  {
    if i == |requests| then []
    else
      var (t, reply) := Dispatch(h, s, requests[i]);
      [reply] + Replies(h, t, requests, i + 1)
  }

  /** The handler's state once the first n requests have been dispatched. */
  function StateAfter<S, C, T>(h: Handler<S, C, T>, initial: S, requests: seq<Request<C>>, n: nat): S
    requires n <= |requests|
  {
    if n == 0 then initial else Dispatch(h, StateAfter(h, initial, requests, n - 1), requests[n - 1]).0
  }

  /** Reply number k is the answer to request number k, in the state the first k requests have left. */
  lemma {:induction false} ReplyIsDispatched<S, C, T>(
      h: Handler<S, C, T>, initial: S, requests: seq<Request<C>>, i: nat, k: nat)
    requires i <= k < |requests|
    ensures Replies(h, StateAfter(h, initial, requests, i), requests, i)[k - i]
         == Dispatch(h, StateAfter(h, initial, requests, k), requests[k]).1
    decreases k - i
  {
    var s := StateAfter(h, initial, requests, i);
    var (t, reply) := Dispatch(h, s, requests[i]);
    assert Replies(h, s, requests, i) == [reply] + Replies(h, t, requests, i + 1);
    if i < k {
      ReplyIsDispatched(h, initial, requests, i + 1, k);
    }
  }

  lemma NextOf<X>(list: seq<X>, k: nat, x: X, rest: seq<X>)
    requires k <= |list| && list[k..] == [x] + rest
    ensures k < |list| && list[k] == x && list[k + 1..] == rest
  {
    assert |list[k..]| == 1 + |rest|;
    assert list[k] == list[k..][0];
    assert list[k + 1..] == list[k..][1..];
  }

  /** What has been written once the first answered requests have been, after what was there before. */
  function Output<S, C, T>(h: Handler<S, C, T>, initial: S, encode: Response<C, T> -> Text,
                           requests: seq<Request<C>>, answered: nat, before: Text): Text
    requires answered <= |requests|
  {
    before + FramesTo(encode, Replies(h, initial, requests, 0), answered)
  }

  /** That is how far the loop has come, and rest is what it has still to read. */
  ghost predicate Served<S, C, T>(
      h: Handler<S, C, T>, initial: S, encode: Response<C, T> -> Text, requests: seq<Request<C>>, before: Text,
      answered: nat, state: S, out: Text, rest: seq<Request<C>>)
  {
    && answered <= |requests| && requests[answered..] == rest
    && state == StateAfter(h, initial, requests, answered)
    && out == Output(h, initial, encode, requests, answered, before)
  }

  lemma ServedOneMore<S, C, T>(
      h: Handler<S, C, T>, initial: S, encode: Response<C, T> -> Text, requests: seq<Request<C>>, before: Text,
      answered: nat, state: S, out: Text, request: Request<C>, rest: seq<Request<C>>)
    requires Served(h, initial, encode, requests, before, answered, state, out, [request] + rest)
    ensures var (next, reply) := Dispatch(h, state, request);
      && answered < |requests| && next == StateAfter(h, initial, requests, answered + 1)
      && Served(h, initial, encode, requests, before, answered + 1, next, out + Frame(encode, reply), rest)
  {
    NextOf(requests, answered, request, rest);
    ReplyIsDispatched(h, initial, requests, 0, answered);
    var replies := Replies(h, initial, requests, 0);
    assert before + FramesTo(encode, replies, answered) + Frame(encode, replies[answered])
        == before + (FramesTo(encode, replies, answered) + Frame(encode, replies[answered]));
  }

  /** How one turn of the loop ends. */
  datatype Turn = NoRequest | Answered | WriteFailed

  /** The body of the loop: the next request, if there is one, its dispatch and its reply. */
  method ServeOne<S, C, T>(h: Handler<S, C, T>, state: S, decode: Text -> Option<Request<C>>,
                           encode: Response<C, T> -> Text, reader: BufferedReader, writer: Writer)
    returns (turn: Turn, next: S)
    requires reader.Valid()
    modifies reader, writer
    ensures reader.Valid() && writer.failed == (old(writer.failed) || turn.WriteFailed?)
    ensures turn.NoRequest? ==>
      Decoded(decode, old(reader.Stream())) == [] && next == state && writer.written == old(writer.written)
    ensures !turn.NoRequest? ==>
      && |Decoded(decode, old(reader.Stream()))| > 0
      && var request := Decoded(decode, old(reader.Stream()))[0];
         && Decoded(decode, old(reader.Stream())) == [request] + Decoded(decode, reader.Stream())
         && |reader.Stream()| < |old(reader.Stream())|
         && next == Dispatch(h, state, request).0
         && old(writer.written) <= writer.written
         && (turn.Answered? ==> writer.written == old(writer.written) + Frame(encode, Dispatch(h, state, request).1))
  {
    var request := ReadMessage(decode, reader);
    if request.None? {
      return NoRequest, state;
    }
    var (t, reply) := Dispatch(h, state, request.value);
    var ok := WriteMessage(encode, reply, writer);
    return if ok then Answered else WriteFailed, t;
  }

  /** Runs the loop over whatever chunks the reader delivers. The requests are the newline-terminated
      lines of the stream before the first malformed one; each is dispatched and answered once, in order,
      until the writer fails, which leaves one request dispatched and not answered. */
  method ServeIO<S, C, T>(h: Handler<S, C, T>, initial: S, decode: Text -> Option<Request<C>>,
                          encode: Response<C, T> -> Text, reader: BufferedReader, writer: Writer)
    returns (answered: nat, final: S)
    requires reader.Valid() && !writer.failed
    modifies reader, writer
    ensures answered <= |Decoded(decode, old(reader.Stream()))|
    ensures writer.failed <==> answered < |Decoded(decode, old(reader.Stream()))|
    ensures var requests := Decoded(decode, old(reader.Stream()));
      var output := Output(h, initial, encode, requests, answered, old(writer.written));
      if writer.failed then output <= writer.written else writer.written == output
    ensures final == StateAfter(h, initial, Decoded(decode, old(reader.Stream())),
                                if writer.failed then answered + 1 else answered)
  {
    ghost var requests, before := Decoded(decode, reader.Stream()), writer.written;
    answered, final := 0, initial;
    while true
      invariant reader.Valid() && !writer.failed
      invariant Served(h, initial, encode, requests, before, answered, final, writer.written,
                       Decoded(decode, reader.Stream()))
      decreases |reader.Stream()|
    {
      ghost var state, out, rest := final, writer.written, Decoded(decode, reader.Stream());
      var turn;
      turn, final := ServeOne(h, final, decode, encode, reader, writer);
      if turn.NoRequest? {
        return;
      }
      ServedOneMore(h, initial, encode, requests, before, answered, state, out, rest[0],
                    Decoded(decode, reader.Stream()));
      if turn.WriteFailed? {
        return;
      }
      answered := answered + 1;
    }
  }

  /** End to end: a peer that writes a list of requests and closes, through any chunking, and a writer
      that does not fail: the stream out decodes to exactly the replies to those requests, in order. The
      codecs need only invert the messages in question. */
  lemma ServedEndToEnd<S, C, T>(
      h: Handler<S, C, T>, initial: S, encodeRequest: Request<C> -> Text, decodeRequest: Text -> Option<Request<C>>,
      encode: Response<C, T> -> Text, decode: Text -> Option<Response<C, T>>, requests: seq<Request<C>>)
    requires Inverts(encodeRequest, decodeRequest, requests)
    requires Inverts(encode, decode, Replies(h, initial, requests, 0))
    ensures Decoded(decodeRequest, Frames(encodeRequest, requests, 0)) == requests
    ensures var replies := Replies(h, initial, requests, 0);
      |replies| == |requests| && Decoded(decode, FramesTo(encode, replies, |replies|)) == replies
  {
    ReadBack(encodeRequest, decodeRequest, requests, 0, []);
    assert Frames(encodeRequest, requests, 0) + [] == Frames(encodeRequest, requests, 0);
    var replies := Replies(h, initial, requests, 0);
    ReadBack(encode, decode, replies, 0, []);
    FramesJoin(encode, replies, |replies|);
    assert Frames(encode, replies, 0) + [] == Frames(encode, replies, 0);
    assert FramesTo(encode, replies, |replies|) + [] == FramesTo(encode, replies, |replies|);
  }
}
