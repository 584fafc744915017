/** The loop that runs inside the sandbox's interpreter: it reads one JSON
    record per line from standard input and prints one JSON record per
    request. The execution of user code (`exec` with output capture) is an
    oracle `run` over an abstract namespace `N`; `json.loads` is an oracle
    `loads`. An exception outside `run` ends the loop and the interpreter
    with it. */
module Resident {
  import opened Wrappers
  import Text
  import Json
  import Executor
  import Seqs

  /** What `run(code)` comes to: the namespace after the code and the reply
      record's fields, or an exit of the interpreter (`SystemExit` or another
      exception `run` does not catch). */
  datatype RunResult<N> = Finished(ns: N, ok: bool, stdout: string, stderr: string) | Exited

  /** How the loop ends: input exhausted, a stop request, an exception, or an
      exit from user code. */
  datatype End = Exhausted | Stopped | Crashed(exc: Exc) | Exited

  /** The records printed, how the loop ended, and the final namespace. */
  datatype Transcript<N> = Transcript(replies: seq<Json.Value>, end: End, ns: N)

  /** The reply record `{"ok": ok, "stdout": out, "stderr": err}`. */
  function Payload(ok: bool, out: string, err: string): Json.Value {
    Json.Obj([("ok", Json.Bool(ok)), ("stdout", Json.Str(out)), ("stderr", Json.Str(err))])
  }

  predicate Blank(line: string) {
    Text.Strip(line) == []
  }

  /** The lines that are requests. */
  function Requests(lines: seq<string>): seq<string> {
    if lines == [] then []
    else if Blank(lines[0]) then Requests(lines[1..])
    else [lines[0]] + Requests(lines[1..])
  }

  /** What the loop does with one request line, short of running code:
      parse it, and look for the stop flag and the code. */
  datatype Parse = ParseFailed(exc: Exc) | StopRequest | CodeRequest(code: Json.Value)

  function ParseRequest(text: string, loads: string -> Json.Parsed): Parse {
    match loads(text)
    case Invalid(m) => ParseFailed(Error("JSONDecodeError", m))
    case Parsed(msg) =>
      if !msg.Obj? then
        ParseFailed(Error("AttributeError", "'" + Json.TypeName(msg) + Executor.NO_GET))
      else if Json.Truthy(Json.GetOr(msg.fields, "_terminate", Json.Null)) then StopRequest
      else CodeRequest(Json.GetOr(msg.fields, "code", Json.Str("")))
  }

  /** The loop over the remaining input lines from namespace `ns`. */
  function Session<N>(lines: seq<string>, ns: N, loads: string -> Json.Parsed, run: (N, Json.Value) -> RunResult<N>): Transcript<N>
    decreases |lines|
  {
    if lines == [] then Transcript([], Exhausted, ns)
    else
      var text := Text.Strip(lines[0]);
      if text == [] then Session(lines[1..], ns, loads, run)
      else
        match ParseRequest(text, loads)
        case ParseFailed(e) => Transcript([], Crashed(e), ns)
        case StopRequest => Transcript([Executor.EMPTY_REPLY], Stopped, ns)
        case CodeRequest(code) =>
          match run(ns, code)
          case Exited => Transcript([], End.Exited, ns)
          case Finished(ns', ok, out, err) =>
            var rest := Session(lines[1..], ns', loads, run);
            rest.(replies := [Payload(ok, out, err)] + rest.replies)
  }

  /** Blank lines make no difference to the loop. */
  lemma {:induction false} BlanksIgnored<N>(lines: seq<string>, ns: N, loads: string -> Json.Parsed, run: (N, Json.Value) -> RunResult<N>)
    ensures Session(lines, ns, loads, run) == Session(Requests(lines), ns, loads, run)
    decreases |lines|
  {
    if lines != [] {
      if Blank(lines[0]) {
        BlanksIgnored(lines[1..], ns, loads, run);
      } else {
        var r := Requests(lines);
        assert r == [lines[0]] + Requests(lines[1..]);
        Seqs.ConsTail(lines[0], Requests(lines[1..]));
        SessionHead(lines, ns, loads, run);
        SessionHead(r, ns, loads, run);
        var text := Text.Strip(lines[0]);
        match ParseRequest(text, loads)
        case ParseFailed(_) =>
        case StopRequest =>
        case CodeRequest(code) =>
          match run(ns, code)
          case Exited =>
          case Finished(ns', _, _, _) =>
            BlanksIgnored(lines[1..], ns', loads, run);
      }
    }
  }

  /** At most one reply per request; exactly one per request when the input
      runs out; a stop request is answered with the ok record and nothing
      after it is read. */
  lemma OneReplyPerRequest<N>(lines: seq<string>, ns: N, loads: string -> Json.Parsed, run: (N, Json.Value) -> RunResult<N>)
    ensures var t := Session(lines, ns, loads, run);
      |t.replies| <= |Requests(lines)|
      && (t.end.Exhausted? ==> |t.replies| == |Requests(lines)|)
      && (t.end.Stopped? ==> t.replies != [] && t.replies[|t.replies| - 1] == Executor.EMPTY_REPLY)
  {
    RepliesCounted(lines, ns, loads, run);
    StopAnsweredLast(lines, ns, loads, run);
  }

  /** The replies number at most the requests, and all of them when the
      input runs out. */
  lemma {:induction false} RepliesCounted<N>(lines: seq<string>, ns: N, loads: string -> Json.Parsed, run: (N, Json.Value) -> RunResult<N>)
    ensures var t := Session(lines, ns, loads, run);
      |t.replies| <= |Requests(lines)| && (t.end.Exhausted? ==> |t.replies| == |Requests(lines)|)
    decreases |lines|
  {
    if lines != [] {
      var text := Text.Strip(lines[0]);
      SessionHead(lines, ns, loads, run);
      if text == [] {
        RepliesCounted(lines[1..], ns, loads, run);
      } else {
        assert |Requests(lines)| == 1 + |Requests(lines[1..])|;
        match ParseRequest(text, loads)
        case ParseFailed(_) =>
        case StopRequest =>
        case CodeRequest(code) =>
          match run(ns, code)
          case Exited =>
          case Finished(ns', _, _, _) =>
            RepliesCounted(lines[1..], ns', loads, run);
      }
    }
  }

  /** A loop that ended on a stop request printed the ok record last. */
  predicate StopAnswered<N>(t: Transcript<N>) {
    t.end.Stopped? ==> t.replies != [] && t.replies[|t.replies| - 1] == Executor.EMPTY_REPLY
  }

  /** A loop that ends on a stop request has printed the ok record last. */
  lemma {:induction false} StopAnsweredLast<N>(lines: seq<string>, ns: N, loads: string -> Json.Parsed, run: (N, Json.Value) -> RunResult<N>)
    ensures StopAnswered(Session(lines, ns, loads, run))
    decreases |lines|
  {
    if lines != [] {
      var text := Text.Strip(lines[0]);
      var s := Session(lines, ns, loads, run);
      SessionHead(lines, ns, loads, run);
      if text == [] {
        StopAnsweredLast(lines[1..], ns, loads, run);
        assert s == Session(lines[1..], ns, loads, run);
      } else {
        match ParseRequest(text, loads)
        case ParseFailed(e) =>
          assert s.end == Crashed(e);
        case StopRequest =>
          assert s == Transcript([Executor.EMPTY_REPLY], Stopped, ns);
        case CodeRequest(code) =>
          match run(ns, code)
          case Exited =>
            assert s.end == End.Exited;
          case Finished(ns', ok, out, err) =>
            StopAnsweredLast(lines[1..], ns', loads, run);
            var rest := Session(lines[1..], ns', loads, run);
            assert s == rest.(replies := [Payload(ok, out, err)] + rest.replies);
            if rest.end.Stopped? {
              Seqs.LastIndex([Payload(ok, out, err)], rest.replies, |rest.replies| - 1);
            }
      }
    }
  }

  /** A stop request ends the loop at once, whatever follows it. */
  lemma StopEndsSession<N>(line: string, rest: seq<string>, ns: N, loads: string -> Json.Parsed, run: (N, Json.Value) -> RunResult<N>)
    requires !Blank(line) && ParseRequest(Text.Strip(line), loads) == StopRequest
    ensures Session([line] + rest, ns, loads, run) == Transcript([Executor.EMPTY_REPLY], Stopped, ns)
  {
    assert ([line] + rest)[0] == line;
  }

  /** Each request runs in the namespace the previous request left, and its
      reply is the first record printed. */
  lemma CodeThreadsNamespace<N>(line: string, rest: seq<string>, ns: N, loads: string -> Json.Parsed, run: (N, Json.Value) -> RunResult<N>)
    requires !Blank(line) && ParseRequest(Text.Strip(line), loads).CodeRequest?
    requires run(ns, ParseRequest(Text.Strip(line), loads).code).Finished?
    ensures var f := run(ns, ParseRequest(Text.Strip(line), loads).code);
      var t := Session([line] + rest, ns, loads, run);
      var u := Session(rest, f.ns, loads, run);
      t.replies == [Payload(f.ok, f.stdout, f.stderr)] + u.replies && t.end == u.end && t.ns == u.ns
  {
    assert ([line] + rest)[0] == line && ([line] + rest)[1..] == rest;
  }

  /** The first line of the input decides the loop's next step. */
  lemma SessionHead<N>(input: seq<string>, ns: N, loads: string -> Json.Parsed, run: (N, Json.Value) -> RunResult<N>)
    requires input != []
    ensures var text := Text.Strip(input[0]);
      var s := Session(input, ns, loads, run);
      var rest := input[1..];
      (text == [] ==> s == Session(rest, ns, loads, run))
      && (text != [] ==>
          match ParseRequest(text, loads)
          case ParseFailed(e) => s == Transcript([], Crashed(e), ns)
          case StopRequest => s == Transcript([Executor.EMPTY_REPLY], Stopped, ns)
          case CodeRequest(code) =>
            match run(ns, code)
            case Exited => s == Transcript([], End.Exited, ns)
            case Finished(ns', ok, out, err) =>
              var t := Session(rest, ns', loads, run);
              s == Transcript([Payload(ok, out, err)] + t.replies, t.end, t.ns))
  {
  }

  /** The replies printed so far followed by what the rest of the loop
      does. */
  function Prepend<N>(replies: seq<Json.Value>, t: Transcript<N>): Transcript<N> {
    Transcript(replies + t.replies, t.end, t.ns)
  }

  lemma PrependNothing<N>(replies: seq<Json.Value>, end: End, ns: N)
    ensures Prepend(replies, Transcript([], end, ns)) == Transcript(replies, end, ns)
  {
    assert replies + [] == replies;
  }

  lemma PrependReply<N>(replies: seq<Json.Value>, reply: Json.Value, t: Transcript<N>)
    ensures Prepend(replies, Transcript([reply] + t.replies, t.end, t.ns)) == Prepend(replies + [reply], t)
  {
    assert replies + ([reply] + t.replies) == (replies + [reply]) + t.replies;
  }

  /** The loop `for line in sys.stdin`. */
  method Loop<N>(lines: seq<string>, ns0: N, loads: string -> Json.Parsed, run: (N, Json.Value) -> RunResult<N>)
    returns (replies: seq<Json.Value>, end: End, ns: N)
    ensures Transcript(replies, end, ns) == Session(lines, ns0, loads, run)
  {
    replies, ns := [], ns0;
    var input := lines;
    assert [] + Session(lines, ns0, loads, run).replies == Session(lines, ns0, loads, run).replies;
    while input != []
      invariant Session(lines, ns0, loads, run) == Prepend(replies, Session(input, ns, loads, run))
      decreases |input|
    {
      var text := Text.Strip(input[0]);
      SessionHead(input, ns, loads, run);
      input := input[1..];
      if text != [] {
        var request := ParseRequest(text, loads);
        match request
        case ParseFailed(e) =>
          PrependNothing(replies, Crashed(e), ns);
          return replies, Crashed(e), ns;
        case StopRequest =>
          return replies + [Executor.EMPTY_REPLY], Stopped, ns;
        case CodeRequest(code) =>
          var result := run(ns, code);
          match result
          case Exited =>
            PrependNothing(replies, End.Exited, ns);
            return replies, End.Exited, ns;
          case Finished(ns', ok, out, err) =>
            PrependReply(replies, Payload(ok, out, err), Session(input, ns', loads, run));
            replies := replies + [Payload(ok, out, err)];
            ns := ns';
      }
    }
    PrependNothing(replies, Exhausted, ns);
    end := Exhausted;
  }
}
