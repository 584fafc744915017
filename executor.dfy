/** The sandbox session layer: one long-lived Python interpreter per sandbox,
    driven over its standard streams one JSON record per line, with a retry
    policy around each execution, and one-off bash commands.

    The remote platform (process spawning, stream reads and writes, waiting,
    sandbox termination) is a `Platform` object whose every call is answered
    by an oracle function of the calls made so far; `json.dumps` and
    `json.loads` are oracles too. Each session operation is specified by a
    pure function from the old `World` (platform history and process handle)
    to its outcome and new `World`; the `Sandbox` methods are proved to
    compute exactly that, and the properties of the retry policy and the
    process lifetime are proved about the functions. */
module Executor {
  import opened Wrappers
  import Text
  import Json
  import Utf8

  /** Seconds allowed per command when the caller gives none. */
  const DEFAULT_TIMEOUT: int := 120

  /** Seconds the shutdown waits for the interpreter's goodbye record. */
  const STOP_GRACE: int := 5

  // The texts of the errors raised here.
  const TERMINATED: string := "Python session terminated unexpectedly"
  const NOT_INITIALIZED: string := "Python session is not initialized"
  const NO_STREAMS: string := "Python session streams are unavailable"
  const SESSION_FAILED: string := "Python session failed"
  const NO_GET: string := "' object has no attribute 'get'"

  /** The outcome of running code or a command. The two outputs are kept
      as the values the interpreter's reply carried, since `execute_python`
      stores them without converting them; a bash command's are texts. */
  datatype ExecutionResult = ExecutionResult(success: bool, stdout: Json.Value, stderr: Json.Value, error: Option<string>)

  function Failure(error: string): ExecutionResult {
    ExecutionResult(false, Json.Str(""), Json.Str(""), Some(error))
  }

  function TimeoutText(timeout: int): string {
    "Timeout after " + Text.IntToString(timeout) + "s"
  }

  /** `str(exc)`. A bare `TimeoutError` prints as the empty string. */
  function Message(e: Exc): string {
    match e
    case Timeout => ""
    case Error(_, m) => m
  }

  function RuntimeError(message: string): Exc {
    Error("RuntimeError", message)
  }

  /** What a stream read hands back: nothing, raw bytes, or text. */
  datatype StreamData = NoData | Bytes(bytes: seq<Utf8.Byte>) | Text(text: string)

  /** `not data`. */
  predicate Falsy(d: StreamData) {
    match d
    case NoData => true
    case Bytes(b) => b == []
    case Text(t) => t == []
  }

  /** `_decode_stream`: nothing is the empty text, bytes are decoded as UTF-8
      dropping what is ill-formed, text is returned as it is. */
  function DecodeStream(d: StreamData): (r: string)
    ensures d.Bytes? ==> r == Utf8.Decode(d.bytes)
    ensures d.Text? ==> r == d.text
    ensures d.NoData? ==> r == ""
  {
    match d
    case NoData => ""
    case Bytes(b) => Utf8.Decode(b)
    case Text(t) => t
  }

  /** A process started on the platform, and which of its standard streams
      are attached. */
  datatype Proc = Proc(id: nat, hasStdin: bool, hasStdout: bool, hasStderr: bool)

  /** `python3 -u -c <resident loop>` or `bash -c <command>`, with the time
      limit passed to the platform. */
  datatype Command = PythonSession(limit: int) | Bash(command: string, limit: int)

  datatype Channel = Stdout | Stderr

  /** One platform call and its answer. */
  datatype Event =
    | Spawned(cmd: Command, spawned: Outcome<Proc>)
    | Wrote(proc: Proc, data: seq<Utf8.Byte>, written: Outcome<Unit>)
    | LineRead(proc: Proc, limit: int, line: Outcome<StreamData>)
    | StreamRead(proc: Proc, channel: Channel, contents: Outcome<StreamData>)
    | Waited(proc: Proc, returncode: Outcome<Option<int>>)
    | Terminated(done: Outcome<Unit>)

  /** The answers of the platform and of the JSON codec. Each platform call
      is answered from the calls made before it, so the same sequence of
      calls always meets the same answers. A `Raise(Timeout)` from
      `readline` is the read running past its time limit. A `None` return
      code is a process object without a `returncode` attribute. */
  datatype Oracle = Oracle(
    exec: (seq<Event>, Command) -> Outcome<Proc>,
    write: (seq<Event>, Proc, seq<Utf8.Byte>) -> Outcome<Unit>,
    readline: (seq<Event>, Proc, int) -> Outcome<StreamData>,
    read: (seq<Event>, Proc, Channel) -> Outcome<StreamData>,
    wait: (seq<Event>, Proc) -> Outcome<Option<int>>,
    terminate: seq<Event> -> Outcome<Unit>,
    dumps: Json.Value -> string,
    loads: string -> Json.Parsed)

  /** The platform side of one sandbox: it records every call. */
  class Platform {
    const oracle: Oracle
    var history: seq<Event>

    constructor (oracle: Oracle)
      ensures this.oracle == oracle && history == []
    {
      this.oracle := oracle;
      history := [];
    }

    method Exec(cmd: Command) returns (r: Outcome<Proc>)
      modifies this
      ensures r == oracle.exec(old(history), cmd)
      ensures history == old(history) + [Spawned(cmd, r)]
    {
      r := oracle.exec(history, cmd);
      history := history + [Spawned(cmd, r)];
    }

    /** `stdin.write(data)` followed by `stdin.drain`. */
    method Write(p: Proc, data: seq<Utf8.Byte>) returns (r: Outcome<Unit>)
      modifies this
      ensures r == oracle.write(old(history), p, data)
      ensures history == old(history) + [Wrote(p, data, r)]
    {
      r := oracle.write(history, p, data);
      history := history + [Wrote(p, data, r)];
    }

    /** One line of `stdout`, waited for at most `limit` seconds. */
    method ReadLine(p: Proc, limit: int) returns (r: Outcome<StreamData>)
      modifies this
      ensures r == oracle.readline(old(history), p, limit)
      ensures history == old(history) + [LineRead(p, limit, r)]
    {
      r := oracle.readline(history, p, limit);
      history := history + [LineRead(p, limit, r)];
    }

    /** Everything left on one output stream. */
    method Read(p: Proc, channel: Channel) returns (r: Outcome<StreamData>)
      modifies this
      ensures r == oracle.read(old(history), p, channel)
      ensures history == old(history) + [StreamRead(p, channel, r)]
    {
      r := oracle.read(history, p, channel);
      history := history + [StreamRead(p, channel, r)];
    }

    method Wait(p: Proc) returns (r: Outcome<Option<int>>)
      modifies this
      ensures r == oracle.wait(old(history), p)
      ensures history == old(history) + [Waited(p, r)]
    {
      r := oracle.wait(history, p);
      history := history + [Waited(p, r)];
    }

    method Terminate() returns (r: Outcome<Unit>)
      modifies this
      ensures r == oracle.terminate(old(history))
      ensures history == old(history) + [Terminated(r)]
    {
      r := oracle.terminate(history);
      history := history + [Terminated(r)];
    }
  }

  /** The record that asks the interpreter to stop. */
  const TERMINATE_TEXT: string := "{\"_terminate\": true}"

  /** Its bytes on the wire. */
  const TERMINATE_FRAME: seq<Utf8.Byte> := Utf8.AsciiBytes(TERMINATE_TEXT) + [Utf8.NEWLINE]

  /** The stop bytes are the stop record framed like any request. */
  lemma TerminateFrameIsFrame()
    ensures TERMINATE_FRAME == Utf8.Frame(TERMINATE_TEXT)
  {
    Utf8.EncodeAscii(TERMINATE_TEXT);
  }

  /** The code run when an interpreter starts: the data libraries and the
      mounted server modules become importable. */
  const INIT_CODE: string :=
    "\nimport numpy as np\nimport pandas as pd\nimport json\nimport sys\nsys.path.insert(0, '/mnt/servers')\n"

  function CodeRequest(code: string): Json.Value {
    Json.Obj([("code", Json.Str(code))])
  }

  /** The answer assumed for a line that holds only white space. */
  const EMPTY_REPLY: Json.Value :=
    Json.Obj([("ok", Json.Bool(true)), ("stdout", Json.Str("")), ("stderr", Json.Str(""))])

  /** What the session layer knows: the platform calls made so far and the
      handle of the resident interpreter, if any. */
  datatype World = World(history: seq<Event>, proc: Option<Proc>)

  datatype Step<+T> = Step(out: Outcome<T>, world: World)

  function Handles(proc: Option<Proc>): set<Proc> {
    if proc.Some? then {proc.value} else {}
  }

  /** How one platform call changes the set of running interpreters: a
      spawn adds one, and only a wait that returns shows that it ended. A
      wait that raises leaves it running, as far as anyone knows. */
  function AfterEvent(live: set<Proc>, e: Event): set<Proc> {
    match e
    case Spawned(PythonSession(_), Ok(p)) => live + {p}
    case Waited(p, Ok(_)) => live - {p}
    case _ => live
  }

  /** The platform's `wait` always returns: every wait sees the process
      end. */
  ghost predicate WaitsReturn(o: Oracle) {
    forall h, p :: o.wait(h, p).Ok?
  }

  /** The interpreters started and not yet seen to end. */
  function LiveSessions(h: seq<Event>): set<Proc>
    decreases |h|
  {
    if h == [] then {} else AfterEvent(LiveSessions(h[..|h| - 1]), h[|h| - 1])
  }

  lemma LiveStep(h: seq<Event>, e: Event)
    ensures LiveSessions(h + [e]) == AfterEvent(LiveSessions(h), e)
  {
    assert (h + [e])[..|h|] == h;
  }

  /** At most one interpreter is alive, and it is the one the handle holds:
      none is ever lost track of. */
  predicate Accounted(w: World) {
    LiveSessions(w.history) <= Handles(w.proc)
  }

  /** `_stop_python_session`. */
  function StopSpec(o: Oracle, w: World): World {
    match w.proc
    case None => w
    case Some(p) =>
      var wr := o.write(w.history, p, TERMINATE_FRAME);
      var h1 := if p.hasStdin then w.history + [Wrote(p, TERMINATE_FRAME, wr)] else w.history;
      var h2 := if p.hasStdout && (!p.hasStdin || wr.Ok?)
        then h1 + [LineRead(p, STOP_GRACE, o.readline(h1, p, STOP_GRACE))] else h1;
      World(h2 + [Waited(p, o.wait(h2, p))], None)
  }

  /** What `_communicate_with_python` makes of its read: a failed read
      raises on, an empty read means the interpreter is gone, a line of
      white space is an empty successful reply, and any other line is
      parsed as JSON. */
  function Reply(o: Oracle, rl: Outcome<StreamData>): Outcome<Json.Value> {
    match rl
    case Raise(e) => Raise(e)
    case Ok(line) =>
      if Falsy(line) then Raise(RuntimeError(TERMINATED))
      else
        var decoded := Text.Strip(DecodeStream(line));
        if decoded == [] then Ok(EMPTY_REPLY)
        else
          match o.loads(decoded)
          case Parsed(v) => Ok(v)
          case Invalid(m) => Raise(Error("JSONDecodeError", m))
  }

  /** `_communicate_with_python(payload, timeout)`. */
  function CommunicateSpec(o: Oracle, w: World, payload: Json.Value, timeout: int): Step<Json.Value> {
    match w.proc
    case None => Step(Raise(RuntimeError(NOT_INITIALIZED)), w)
    case Some(p) =>
      if !p.hasStdin || !p.hasStdout then
        Step(Raise(RuntimeError(NO_STREAMS)), w)
      else
        var data := Utf8.Frame(o.dumps(payload));
        var wr := o.write(w.history, p, data);
        var h1 := w.history + [Wrote(p, data, wr)];
        if wr.Raise? then Step(Raise(wr.exc), World(h1, w.proc))
        else
          var rl := o.readline(h1, p, timeout);
          Step(Reply(o, rl), World(h1 + [LineRead(p, timeout, rl)], w.proc))
  }

  /** `_start_python_session(timeout)`: the handle is replaced only when the
      spawn succeeds, and it stays set when the initialisation fails. */
  function StartSpec(o: Oracle, w: World, timeout: int): Step<Unit> {
    var sp := o.exec(w.history, PythonSession(timeout));
    var h1 := w.history + [Spawned(PythonSession(timeout), sp)];
    match sp
    case Raise(e) => Step(Raise(e), World(h1, w.proc))
    case Ok(p) =>
      var c := CommunicateSpec(o, World(h1, Some(p)), CodeRequest(INIT_CODE), timeout);
      Step(if c.out.Ok? then Ok(Unit) else Raise(c.out.exc), c.world)
  }

  /** `_ensure_python_session(timeout)`. */
  function EnsureSpec(o: Oracle, w: World, timeout: int): Step<Unit> {
    if w.proc.Some? then Step(Ok(Unit), w) else StartSpec(o, w, timeout)
  }

  /** `_restart_python_session(timeout)`. */
  function RestartSpec(o: Oracle, w: World, timeout: int): Step<Unit> {
    StartSpec(o, StopSpec(o, w), timeout)
  }

  /** Reading an `ExecutionResult` out of a response: a response that is
      not a dict has no `get` and raises `AttributeError`. */
  function ResultOf(response: Json.Value): (r: Outcome<ExecutionResult>)
    ensures r.Raise? <==> !response.Obj?
    ensures r.Ok? ==> (r.value.error.None?
      && r.value.success == Json.Truthy(Json.GetOr(response.fields, "ok", Json.Bool(false)))
      && r.value.stdout == Json.GetOr(response.fields, "stdout", Json.Str(""))
      && r.value.stderr == Json.GetOr(response.fields, "stderr", Json.Str("")))
  {
    match response
    case Obj(f) =>
      Ok(ExecutionResult(
        Json.Truthy(Json.GetOr(f, "ok", Json.Bool(false))),
        Json.GetOr(f, "stdout", Json.Str("")),
        Json.GetOr(f, "stderr", Json.Str("")),
        None))
    case _ =>
      Raise(Error("AttributeError", "'" + Json.TypeName(response) + NO_GET))
  }

  /** The body of one attempt: make sure a session runs, send the code, read
      the result. */
  function AttemptSpec(o: Oracle, w: World, code: string, timeout: int): Step<ExecutionResult> {
    var e := EnsureSpec(o, w, timeout);
    if e.out.Raise? then Step(Raise(e.out.exc), e.world)
    else
      var c := CommunicateSpec(o, e.world, CodeRequest(code), timeout);
      match c.out
      case Raise(x) => Step(Raise(x), c.world)
      case Ok(response) => Step(ResultOf(response), c.world)
  }

  /** An execution: its outcome, the world after it, and how many attempts
      and restarts it made. */
  datatype Execution = Execution(out: Outcome<ExecutionResult>, world: World, attempts: nat, restarts: nat)

  /** The loop of `execute_python` from attempt `attempt` on, with the last
      exception seen so far. */
  function ExecuteFrom(o: Oracle, w: World, code: string, timeout: int, attempt: nat, lastError: Option<Exc>): Execution
    requires attempt <= 2
    decreases 2 - attempt
  {
    if attempt == 2 then
      Execution(Ok(Failure(if lastError.Some? then Message(lastError.value) else SESSION_FAILED)), w, 2, 0)
    else
      var a := AttemptSpec(o, w, code, timeout);
      match a.out
      case Ok(r) => Execution(Ok(r), a.world, attempt + 1, 0)
      case Raise(Timeout) => Execution(Ok(Failure(TimeoutText(timeout))), a.world, attempt + 1, 0)
      case Raise(e) =>
        var re := RestartSpec(o, a.world, timeout);
        if re.out.Raise? then Execution(Raise(re.out.exc), re.world, attempt + 1, 1)
        else
          var rest := ExecuteFrom(o, re.world, code, timeout, attempt + 1, Some(e));
          rest.(restarts := rest.restarts + 1)
  }

  /** `execute_python(code, timeout)`. */
  function ExecutePythonSpec(o: Oracle, w: World, code: string, timeout: int): Execution {
    ExecuteFrom(o, w, code, timeout, 0, None)
  }

  /** The retry policy written out attempt by attempt: an answer or a timeout
      ends the execution at once, any other failure is followed by a restart
      (also after the second attempt), a failing restart propagates, and
      after two failures the last failure's text is the error. */
  function RetryPolicy(o: Oracle, w: World, code: string, timeout: int): Execution {
    var a1 := AttemptSpec(o, w, code, timeout);
    if a1.out.Ok? then Execution(a1.out, a1.world, 1, 0)
    else if a1.out.exc.Timeout? then Execution(Ok(Failure(TimeoutText(timeout))), a1.world, 1, 0)
    else
      var r1 := RestartSpec(o, a1.world, timeout);
      if r1.out.Raise? then Execution(Raise(r1.out.exc), r1.world, 1, 1)
      else
        var a2 := AttemptSpec(o, r1.world, code, timeout);
        if a2.out.Ok? then Execution(a2.out, a2.world, 2, 1)
        else if a2.out.exc.Timeout? then Execution(Ok(Failure(TimeoutText(timeout))), a2.world, 2, 1)
        else
          var r2 := RestartSpec(o, a2.world, timeout);
          if r2.out.Raise? then Execution(Raise(r2.out.exc), r2.world, 2, 2)
          else Execution(Ok(Failure(Message(a2.out.exc))), r2.world, 2, 2)
  }

  /** `terminate()`: stop the interpreter, then the sandbox. */
  function TerminateSpec(o: Oracle, w: World): Step<Unit> {
    var s := StopSpec(o, w);
    var t := o.terminate(s.history);
    Step(t, World(s.history + [Terminated(t)], s.proc))
  }

  /** `_read_stream(stream)`: a missing stream reads as empty bytes without a
      platform call. */
  function ReadSpec(o: Oracle, h: seq<Event>, p: Proc, channel: Channel): (Outcome<StreamData>, seq<Event>) {
    if (if channel == Stdout then p.hasStdout else p.hasStderr) then
      var r := o.read(h, p, channel);
      (r, h + [StreamRead(p, channel, r)])
    else (Ok(Bytes([])), h)
  }

  /** The error result for an exception caught by `execute_bash`. */
  function CaughtResult(e: Exc, timeout: int): ExecutionResult {
    if e.Timeout? then Failure(TimeoutText(timeout)) else Failure(Message(e))
  }

  /** `execute_bash(command, timeout)`: never raises. */
  function ExecuteBashSpec(o: Oracle, h: seq<Event>, command: string, timeout: int): (ExecutionResult, seq<Event>) {
    var cmd := Bash(command, timeout);
    var sp := o.exec(h, cmd);
    var h1 := h + [Spawned(cmd, sp)];
    match sp
    case Raise(e) => (CaughtResult(e, timeout), h1)
    case Ok(p) =>
      var (out, h2) := ReadSpec(o, h1, p, Stdout);
      if out.Raise? then (CaughtResult(out.exc, timeout), h2)
      else
        var (err, h3) := ReadSpec(o, h2, p, Stderr);
        if err.Raise? then (CaughtResult(err.exc, timeout), h3)
        else
          var rc := o.wait(h3, p);
          var h4 := h3 + [Waited(p, rc)];
          match rc
          case Raise(e) => (CaughtResult(e, timeout), h4)
          case Ok(code) =>
            (ExecutionResult(code.GetOr(0) == 0, Json.Str(DecodeStream(out.value)), Json.Str(DecodeStream(err.value)), None), h4)
  }

  // Properties of the session operations.

  /** Stopping always ends without a handle, is a no-op without one, and
      otherwise always waits for the process last, after sending the stop
      record when there is a stdin. */
  lemma StopProps(o: Oracle, w: World)
    ensures var r := StopSpec(o, w);
      r.proc == None
      && (w.proc.None? ==> r == w)
      && (w.proc.Some? ==>
            |r.history| > |w.history| && r.history[..|w.history|] == w.history
            && r.history[|r.history| - 1].Waited? && r.history[|r.history| - 1].proc == w.proc.value
            && (w.proc.value.hasStdin ==> r.history[|w.history|].Wrote? && r.history[|w.history|].data == TERMINATE_FRAME))
  {
    if w.proc.Some? {
      var p := w.proc.value;
      var r := StopSpec(o, w);
      var wr := o.write(w.history, p, TERMINATE_FRAME);
      var h1 := if p.hasStdin then w.history + [Wrote(p, TERMINATE_FRAME, wr)] else w.history;
      var h2 := if p.hasStdout && (!p.hasStdin || wr.Ok?)
        then h1 + [LineRead(p, STOP_GRACE, o.readline(h1, p, STOP_GRACE))] else h1;
      assert r.history == h2 + [Waited(p, o.wait(h2, p))];
      assert h2[..|w.history|] == w.history;
      if p.hasStdin {
        assert h2[|w.history|] == Wrote(p, TERMINATE_FRAME, wr);
      }
    }
  }

  /** The stop's write and grace read leave the running interpreters as
      they were; the stop ends with the wait after them. */
  lemma StopPrefix(o: Oracle, w: World) returns (h2: seq<Event>)
    requires w.proc.Some?
    ensures LiveSessions(h2) == LiveSessions(w.history)
    ensures StopSpec(o, w) == World(h2 + [Waited(w.proc.value, o.wait(h2, w.proc.value))], None)
  {
    var p := w.proc.value;
    var h1 := w.history;
    var wr := o.write(w.history, p, TERMINATE_FRAME);
    if p.hasStdin {
      h1 := w.history + [Wrote(p, TERMINATE_FRAME, wr)];
      LiveStep(w.history, Wrote(p, TERMINATE_FRAME, wr));
    }
    h2 := h1;
    if p.hasStdout && (!p.hasStdin || wr.Ok?) {
      h2 := h1 + [LineRead(p, STOP_GRACE, o.readline(h1, p, STOP_GRACE))];
      LiveStep(h1, LineRead(p, STOP_GRACE, o.readline(h1, p, STOP_GRACE)));
    }
  }

  /** Stopping leaves no interpreter running that the sandbox knows of,
      when the platform's waits return. */
  lemma StopAccounted(o: Oracle, w: World)
    requires Accounted(w) && WaitsReturn(o)
    ensures LiveSessions(StopSpec(o, w).history) == {} && Accounted(StopSpec(o, w))
  {
    if w.proc.Some? {
      var p := w.proc.value;
      var h2 := StopPrefix(o, w);
      LiveStep(h2, Waited(p, o.wait(h2, p)));
    }
  }

  /** When the platform's wait for the interpreter raises, `_stop_python_session`
      suppresses the error and forgets the handle all the same: the
      interpreter is still running and the sandbox no longer knows of it. */
  lemma StopFailedWaitLeaks(o: Oracle, w: World)
    requires w.proc.Some? && w.proc.value in LiveSessions(w.history)
    requires forall h :: o.wait(h, w.proc.value).Raise?
    ensures var s := StopSpec(o, w);
      s.proc == None && LiveSessions(s.history) == LiveSessions(w.history) && !Accounted(s)
  {
    var p := w.proc.value;
    var h2 := StopPrefix(o, w);
    LiveStep(h2, Waited(p, o.wait(h2, p)));
  }

  /** A restart after such a wait starts a second interpreter beside the
      first: both run and only the new one has a handle. */
  lemma RestartFailedWaitLeaks(o: Oracle, w: World, timeout: int, q: Proc)
    requires w.proc.Some? && w.proc.value in LiveSessions(w.history)
    requires forall h :: o.wait(h, w.proc.value).Raise?
    requires o.exec(StopSpec(o, w).history, PythonSession(timeout)) == Ok(q) && q != w.proc.value
    ensures var r := RestartSpec(o, w, timeout).world;
      r.proc == Some(q) && {w.proc.value, q} <= LiveSessions(r.history) && !Accounted(r)
  {
    var s := StopSpec(o, w);
    StopFailedWaitLeaks(o, w);
    var h1 := s.history + [Spawned(PythonSession(timeout), Ok(q))];
    LiveStep(s.history, Spawned(PythonSession(timeout), Ok(q)));
    CommunicateKeeps(o, World(h1, Some(q)), CodeRequest(INIT_CODE), timeout);
  }

  /** Talking to the interpreter never changes the handle nor the running
      interpreters. */
  lemma CommunicateKeeps(o: Oracle, w: World, payload: Json.Value, timeout: int)
    ensures var c := CommunicateSpec(o, w, payload, timeout);
      c.world.proc == w.proc && LiveSessions(c.world.history) == LiveSessions(w.history)
  {
    if w.proc.Some? && w.proc.value.hasStdin && w.proc.value.hasStdout {
      var p := w.proc.value;
      var data := Utf8.Frame(o.dumps(payload));
      var wr := o.write(w.history, p, data);
      var h1 := w.history + [Wrote(p, data, wr)];
      LiveStep(w.history, Wrote(p, data, wr));
      LiveStep(h1, LineRead(p, timeout, o.readline(h1, p, timeout)));
    }
  }

  /** The error cases of `_communicate_with_python`, and its framing: the
      request goes out as its JSON text and one newline, and is the first
      platform call made. */
  lemma CommunicateProps(o: Oracle, w: World, payload: Json.Value, timeout: int)
    ensures var c := CommunicateSpec(o, w, payload, timeout);
      (w.proc.None? ==> c == Step(Raise(RuntimeError(NOT_INITIALIZED)), w))
      && (w.proc.Some? && (!w.proc.value.hasStdin || !w.proc.value.hasStdout) ==>
            c == Step(Raise(RuntimeError(NO_STREAMS)), w))
      && (w.proc.Some? && w.proc.value.hasStdin && w.proc.value.hasStdout ==>
            |c.world.history| > |w.history| && c.world.history[..|w.history|] == w.history
            && c.world.history[|w.history|] == Wrote(w.proc.value, Utf8.Frame(o.dumps(payload)),
                 o.write(w.history, w.proc.value, Utf8.Frame(o.dumps(payload)))))
  {
  }

  /** A line made only of white space, in whatever encoding it arrived,
      is taken as an empty successful reply without parsing it. */
  lemma BlankLineReply(o: Oracle, line: StreamData)
    requires !Falsy(line)
    requires forall i :: 0 <= i < |DecodeStream(line)| ==> Text.IsSpace(DecodeStream(line)[i])
    ensures Reply(o, Ok(line)) == Ok(EMPTY_REPLY)
  {
  }

  /** A bare newline byte, as a stalled interpreter might send, is such a
      line. */
  lemma NewlineReply(o: Oracle)
    ensures Reply(o, Ok(Bytes([Utf8.NEWLINE]))) == Ok(EMPTY_REPLY)
  {
    assert Utf8.Decode([Utf8.NEWLINE]) == "\n" by {
      assert Utf8.Decode([Utf8.NEWLINE][1..]) == [];
    }
    BlankLineReply(o, Bytes([Utf8.NEWLINE]));
  }

  /** A line with text in it is whatever `json.loads` makes of the stripped
      text, a parse failure being raised as `JSONDecodeError`. */
  lemma TextLineReply(o: Oracle, line: StreamData)
    requires !Falsy(line) && Text.Strip(DecodeStream(line)) != []
    ensures var parsed := o.loads(Text.Strip(DecodeStream(line)));
      (parsed.Parsed? ==> Reply(o, Ok(line)) == Ok(parsed.value))
      && (parsed.Invalid? ==> Reply(o, Ok(line)) == Raise(Error("JSONDecodeError", parsed.message)))
  {
  }

  /** A failed spawn leaves the handle as it was; a successful one replaces
      it, whether or not the initialisation then succeeds. */
  lemma StartProps(o: Oracle, w: World, timeout: int)
    ensures var s := StartSpec(o, w, timeout);
      var sp := o.exec(w.history, PythonSession(timeout));
      |s.world.history| > |w.history| && s.world.history[|w.history|] == Spawned(PythonSession(timeout), sp)
      && (sp.Raise? ==> s.out == Raise(sp.exc) && s.world.proc == w.proc)
      && (sp.Ok? ==> s.world.proc == Some(sp.value))
  {
    var sp := o.exec(w.history, PythonSession(timeout));
    var h1 := w.history + [Spawned(PythonSession(timeout), sp)];
    if sp.Ok? {
      var c := CommunicateSpec(o, World(h1, Some(sp.value)), CodeRequest(INIT_CODE), timeout);
      CommunicateKeeps(o, World(h1, Some(sp.value)), CodeRequest(INIT_CODE), timeout);
      CommunicatePrefix(o, World(h1, Some(sp.value)), CodeRequest(INIT_CODE), timeout);
      assert c.world.history[|w.history|] == h1[|w.history|];
    }
  }

  lemma CommunicatePrefix(o: Oracle, w: World, payload: Json.Value, timeout: int)
    ensures var c := CommunicateSpec(o, w, payload, timeout);
      |c.world.history| >= |w.history| && c.world.history[..|w.history|] == w.history
  {
  }

  lemma StartAccounted(o: Oracle, w: World, timeout: int)
    requires Accounted(w) && w.proc.None?
    ensures Accounted(StartSpec(o, w, timeout).world)
  {
    var sp := o.exec(w.history, PythonSession(timeout));
    var h1 := w.history + [Spawned(PythonSession(timeout), sp)];
    LiveStep(w.history, Spawned(PythonSession(timeout), sp));
    if sp.Ok? {
      CommunicateKeeps(o, World(h1, Some(sp.value)), CodeRequest(INIT_CODE), timeout);
    }
  }

  /** A running session is reused as it is; without one, exactly one start
      is made. */
  lemma EnsureProps(o: Oracle, w: World, timeout: int)
    ensures w.proc.Some? ==> EnsureSpec(o, w, timeout) == Step(Ok(Unit), w)
    ensures w.proc.None? ==> EnsureSpec(o, w, timeout) == StartSpec(o, w, timeout)
    ensures EnsureSpec(o, w, timeout).out.Ok? ==> EnsureSpec(o, w, timeout).world.proc.Some?
  {
    if w.proc.None? {
      StartProps(o, w, timeout);
      var sp := o.exec(w.history, PythonSession(timeout));
      if sp.Ok? {
        var h1 := w.history + [Spawned(PythonSession(timeout), sp)];
        CommunicateKeeps(o, World(h1, Some(sp.value)), CodeRequest(INIT_CODE), timeout);
      }
    }
  }

  lemma EnsureAccounted(o: Oracle, w: World, timeout: int)
    requires Accounted(w)
    ensures Accounted(EnsureSpec(o, w, timeout).world)
  {
    if w.proc.None? {
      StartAccounted(o, w, timeout);
    }
  }

  /** A restart always stops the old interpreter before starting a new one,
      so it never leaves two running. */
  lemma RestartAccounted(o: Oracle, w: World, timeout: int)
    requires Accounted(w) && WaitsReturn(o)
    ensures Accounted(RestartSpec(o, w, timeout).world)
  {
    StopAccounted(o, w);
    StopProps(o, w);
    StartAccounted(o, StopSpec(o, w), timeout);
  }

  lemma AttemptAccounted(o: Oracle, w: World, code: string, timeout: int)
    requires Accounted(w)
    ensures Accounted(AttemptSpec(o, w, code, timeout).world)
  {
    EnsureAccounted(o, w, timeout);
    var e := EnsureSpec(o, w, timeout);
    CommunicateKeeps(o, e.world, CodeRequest(code), timeout);
  }

  /** The world one attempt of the loop leaves, step by step. */
  lemma ExecuteFromWorld(o: Oracle, w: World, code: string, timeout: int, attempt: nat, lastError: Option<Exc>)
    requires attempt < 2
    ensures var a := AttemptSpec(o, w, code, timeout);
      var re := RestartSpec(o, a.world, timeout);
      ExecuteFrom(o, w, code, timeout, attempt, lastError).world
        == if a.out.Ok? || a.out.exc.Timeout? then a.world
           else if re.out.Raise? then re.world
           else ExecuteFrom(o, re.world, code, timeout, attempt + 1, Some(a.out.exc)).world
  {
  }

  lemma {:induction false} ExecuteFromAccounted(o: Oracle, w: World, code: string, timeout: int, attempt: nat, lastError: Option<Exc>)
    requires attempt <= 2 && Accounted(w) && WaitsReturn(o)
    ensures Accounted(ExecuteFrom(o, w, code, timeout, attempt, lastError).world)
    decreases 2 - attempt
  {
    if attempt < 2 {
      ExecuteFromWorld(o, w, code, timeout, attempt, lastError);
      var a := AttemptSpec(o, w, code, timeout);
      AttemptAccounted(o, w, code, timeout);
      if a.out.Raise? && !a.out.exc.Timeout? {
        var re := RestartSpec(o, a.world, timeout);
        RestartAccounted(o, a.world, timeout);
        if re.out.Ok? {
          ExecuteFromAccounted(o, re.world, code, timeout, attempt + 1, Some(a.out.exc));
        }
      }
    }
  }

  /** `execute_python` never leaves an interpreter running that the handle
      does not hold. */
  lemma ExecuteKeepsAccounted(o: Oracle, w: World, code: string, timeout: int)
    requires Accounted(w) && WaitsReturn(o)
    ensures Accounted(ExecutePythonSpec(o, w, code, timeout).world)
  {
    ExecuteFromAccounted(o, w, code, timeout, 0, None);
  }

  /** `execute_python` follows the retry policy: the loop with its
      `last_error` is the policy written out attempt by attempt, and its
      "Python session failed" fallback is never reached. */
  lemma ExecutePolicy(o: Oracle, w: World, code: string, timeout: int)
    ensures ExecutePythonSpec(o, w, code, timeout) == RetryPolicy(o, w, code, timeout)
  {
    var a1 := AttemptSpec(o, w, code, timeout);
    if a1.out.Raise? && !a1.out.exc.Timeout? {
      var r1 := RestartSpec(o, a1.world, timeout);
      if r1.out.Ok? {
        var a2 := AttemptSpec(o, r1.world, code, timeout);
        assert ExecuteFrom(o, w, code, timeout, 0, None)
          == ExecuteFrom(o, r1.world, code, timeout, 1, Some(a1.out.exc)).(restarts := ExecuteFrom(o, r1.world, code, timeout, 1, Some(a1.out.exc)).restarts + 1);
        if a2.out.Raise? && !a2.out.exc.Timeout? {
          var r2 := RestartSpec(o, a2.world, timeout);
          if r2.out.Ok? {
            assert ExecuteFrom(o, r1.world, code, timeout, 1, Some(a1.out.exc))
              == Execution(Ok(Failure(Message(a2.out.exc))), r2.world, 2, 1);
          }
        }
      }
    }
  }

  /** At most two attempts, and a restart after every attempt that failed
      other than by a timeout. */
  lemma ExecuteBounds(o: Oracle, w: World, code: string, timeout: int)
    ensures var x := ExecutePythonSpec(o, w, code, timeout);
      1 <= x.attempts <= 2 && x.attempts - 1 <= x.restarts <= x.attempts
      && (x.out.Raise? ==> x.restarts == x.attempts)
  {
    ExecutePolicy(o, w, code, timeout);
    RetryBounds(o, w, code, timeout);
  }

  /** The bounds of `ExecuteBounds`, read off the policy branch by branch. */
  lemma RetryBounds(o: Oracle, w: World, code: string, timeout: int)
    ensures var x := RetryPolicy(o, w, code, timeout);
      1 <= x.attempts <= 2 && x.attempts - 1 <= x.restarts <= x.attempts
      && (x.out.Raise? ==> x.restarts == x.attempts)
  {
    var a1 := AttemptSpec(o, w, code, timeout);
    if a1.out.Raise? && !a1.out.exc.Timeout? {
      var r1 := RestartSpec(o, a1.world, timeout);
      if r1.out.Ok? {
        var a2 := AttemptSpec(o, r1.world, code, timeout);
        if a2.out.Raise? && !a2.out.exc.Timeout? {
          var r2 := RestartSpec(o, a2.world, timeout);
          assert RetryPolicy(o, w, code, timeout).attempts == 2;
        }
      }
    }
  }

  /** A timeout ends the execution with the timeout text and no restart
      after it; an answer ends it with that answer. */
  lemma ExecuteStopsEarly(o: Oracle, w: World, code: string, timeout: int)
    ensures var a1 := AttemptSpec(o, w, code, timeout);
      var x := ExecutePythonSpec(o, w, code, timeout);
      (a1.out == Raise(Timeout) ==> x == Execution(Ok(Failure(TimeoutText(timeout))), a1.world, 1, 0))
      && (a1.out.Ok? ==> x == Execution(a1.out, a1.world, 1, 0))
  {
    ExecutePolicy(o, w, code, timeout);
  }

  /** After two failed attempts whose restarts succeed, the error is the
      text of the second failure and the session was restarted twice. */
  lemma ExecuteBothFail(o: Oracle, w: World, code: string, timeout: int)
    requires var a1 := AttemptSpec(o, w, code, timeout);
      a1.out.Raise? && !a1.out.exc.Timeout? && RestartSpec(o, a1.world, timeout).out.Ok?
    requires var a1 := AttemptSpec(o, w, code, timeout);
      var a2 := AttemptSpec(o, RestartSpec(o, a1.world, timeout).world, code, timeout);
      a2.out.Raise? && !a2.out.exc.Timeout? && RestartSpec(o, a2.world, timeout).out.Ok?
    ensures var a1 := AttemptSpec(o, w, code, timeout);
      var a2 := AttemptSpec(o, RestartSpec(o, a1.world, timeout).world, code, timeout);
      var x := ExecutePythonSpec(o, w, code, timeout);
      x.out == Ok(Failure(Message(a2.out.exc))) && x.attempts == 2 && x.restarts == 2
      && x.world == RestartSpec(o, a2.world, timeout).world
  {
    ExecutePolicy(o, w, code, timeout);
  }

  /** A dict response maps to `success = bool(ok)` with no error, and its
      `stdout` and `stderr` are taken as they are, "" when missing. */
  lemma ResponseMapping(fields: Json.Dicts.Dict<Json.Value>)
    ensures var r := ResultOf(Json.Obj(fields));
      r.Ok? && r.value.error == None
      && r.value.success == Json.Truthy(Json.GetOr(fields, "ok", Json.Bool(false)))
      && (Json.Dicts.Get(fields, "stdout").None? ==> r.value.stdout == Json.Str(""))
      && (Json.Dicts.Get(fields, "stderr").None? ==> r.value.stderr == Json.Str(""))
      && (Json.Dicts.Get(fields, "stdout").Some? ==> r.value.stdout == Json.Dicts.Get(fields, "stdout").value)
      && (Json.Dicts.Get(fields, "stderr").Some? ==> r.value.stderr == Json.Dicts.Get(fields, "stderr").value)
  {
  }

  /** A bash command that ran to its end succeeds exactly when its return
      code (0 when there is none) is 0; any exception on the way becomes
      the error of the result, the timeout text for a timeout. */
  lemma BashProps(o: Oracle, h: seq<Event>, command: string, timeout: int)
    ensures var (r, h') := ExecuteBashSpec(o, h, command, timeout);
      |h'| > |h| && h'[..|h|] == h
      && (r.error.None? <==> h'[|h'| - 1].Waited? && h'[|h'| - 1].returncode.Ok?)
      && (r.error.None? ==> r.success == (h'[|h'| - 1].returncode.value.GetOr(0) == 0))
      && r.stdout.Str? && r.stderr.Str?
      && (r.error.Some? ==> !r.success && r.stdout == Json.Str("") && r.stderr == Json.Str(""))
      && (o.exec(h, Bash(command, timeout)) == Raise(Timeout) ==> r == Failure(TimeoutText(timeout)))
  {
  }

  lemma BashKeepsAccounted(o: Oracle, w: World, command: string, timeout: int)
    requires Accounted(w)
    ensures Accounted(World(ExecuteBashSpec(o, w.history, command, timeout).1, w.proc))
  {
    var h := w.history;
    var cmd := Bash(command, timeout);
    var sp := o.exec(h, cmd);
    var h1 := h + [Spawned(cmd, sp)];
    var after := ExecuteBashSpec(o, h, command, timeout).1;
    LiveStep(h, Spawned(cmd, sp));
    if sp.Raise? {
      assert after == h1;
    } else {
      var p := sp.value;
      var (out, h2) := ReadSpec(o, h1, p, Stdout);
      if p.hasStdout {
        LiveStep(h1, StreamRead(p, Stdout, out));
      }
      if out.Raise? {
        assert after == h2;
      } else {
        var (err, h3) := ReadSpec(o, h2, p, Stderr);
        if p.hasStderr {
          LiveStep(h2, StreamRead(p, Stderr, err));
        }
        if err.Raise? {
          assert after == h3;
        } else {
          LiveStep(h3, Waited(p, o.wait(h3, p)));
          assert after == h3 + [Waited(p, o.wait(h3, p))];
        }
      }
    }
  }

  /** Terminating stops the interpreter first: afterwards there is no
      handle and no interpreter running, whatever the platform answers. */
  lemma TerminateProps(o: Oracle, w: World)
    requires Accounted(w) && WaitsReturn(o)
    ensures var t := TerminateSpec(o, w);
      t.world.proc == None && LiveSessions(t.world.history) == {}
      && t.out == o.terminate(StopSpec(o, w).history)
  {
    StopAccounted(o, w);
    StopProps(o, w);
    var s := StopSpec(o, w);
    LiveStep(s.history, Terminated(o.terminate(s.history)));
  }

  /** A sandbox of one model session. */
  class Sandbox {
    const sessionId: string
    const platform: Platform
    var pythonProc: Option<Proc>

    function State(): World
      reads this, platform
    {
      World(platform.history, pythonProc)
    }

    predicate Valid()
      reads this, platform
    {
      Accounted(State())
    }

    constructor (sessionId: string, platform: Platform)
      requires LiveSessions(platform.history) == {}
      ensures this.sessionId == sessionId && this.platform == platform
      ensures pythonProc == None && Valid()
    {
      this.sessionId := sessionId;
      this.platform := platform;
      pythonProc := None;
    }

    method StopPythonSession()
      modifies this, platform
      ensures State() == StopSpec(platform.oracle, old(State()))
    {
      if pythonProc.None? {
        return;
      }
      var p := pythonProc.value;
      var wrote := true;
      if p.hasStdin {
        var w := platform.Write(p, TERMINATE_FRAME);
        wrote := w.Ok?;
      }
      if p.hasStdout && wrote {
        var ignored := platform.ReadLine(p, STOP_GRACE);
      }
      var ignored := platform.Wait(p);
      pythonProc := None;
    }

    method CommunicateWithPython(payload: Json.Value, timeout: int) returns (r: Outcome<Json.Value>)
      modifies platform
      ensures Step(r, State()) == CommunicateSpec(platform.oracle, old(State()), payload, timeout)
    {
      if pythonProc.None? {
        return Raise(RuntimeError(NOT_INITIALIZED));
      }
      var p := pythonProc.value;
      if !p.hasStdin || !p.hasStdout {
        return Raise(RuntimeError(NO_STREAMS));
      }
      var w := platform.Write(p, Utf8.Frame(platform.oracle.dumps(payload)));
      if w.Raise? {
        return Raise(w.exc);
      }
      var line := platform.ReadLine(p, timeout);
      if line.Raise? {
        return Raise(line.exc);
      }
      if Falsy(line.value) {
        return Raise(RuntimeError(TERMINATED));
      }
      var decoded := Text.Strip(DecodeStream(line.value));
      if decoded == [] {
        return Ok(EMPTY_REPLY);
      }
      match platform.oracle.loads(decoded)
      case Parsed(v) =>
        r := Ok(v);
      case Invalid(m) =>
        r := Raise(Error("JSONDecodeError", m));
    }

    method StartPythonSession(timeout: int) returns (r: Outcome<Unit>)
      modifies this, platform
      ensures Step(r, State()) == StartSpec(platform.oracle, old(State()), timeout)
    {
      var sp := platform.Exec(PythonSession(timeout));
      if sp.Raise? {
        return Raise(sp.exc);
      }
      pythonProc := Some(sp.value);
      var c := CommunicateWithPython(CodeRequest(INIT_CODE), timeout);
      r := if c.Ok? then Ok(Unit) else Raise(c.exc);
    }

    method EnsurePythonSession(timeout: int) returns (r: Outcome<Unit>)
      modifies this, platform
      ensures Step(r, State()) == EnsureSpec(platform.oracle, old(State()), timeout)
    {
      if pythonProc.Some? {
        return Ok(Unit);
      }
      r := StartPythonSession(timeout);
    }

    method RestartPythonSession(timeout: int) returns (r: Outcome<Unit>)
      modifies this, platform
      ensures Step(r, State()) == RestartSpec(platform.oracle, old(State()), timeout)
    {
      StopPythonSession();
      r := StartPythonSession(timeout);
    }

    method Attempt(code: string, timeout: int) returns (r: Outcome<ExecutionResult>)
      modifies this, platform
      ensures Step(r, State()) == AttemptSpec(platform.oracle, old(State()), code, timeout)
    {
      var e := EnsurePythonSession(timeout);
      if e.Raise? {
        return Raise(e.exc);
      }
      var c := CommunicateWithPython(CodeRequest(code), timeout);
      if c.Raise? {
        return Raise(c.exc);
      }
      r := ResultOf(c.value);
    }

    /** `execute_python(code, timeout)`: at most two attempts; the outcome is
        a `Raise` only when a restart fails. */
    method ExecutePython(code: string, timeout: int) returns (r: Outcome<ExecutionResult>, ghost attempts: nat, ghost restarts: nat)
      modifies this, platform
      ensures Execution(r, State(), attempts, restarts) == ExecutePythonSpec(platform.oracle, old(State()), code, timeout)
      ensures old(Valid()) && WaitsReturn(platform.oracle) ==> Valid()
    {
      ghost var w0 := State();
      ghost var o := platform.oracle;
      var lastError: Option<Exc> := None;
      restarts := 0;
      for attempt := 0 to 2
        invariant platform.oracle == o
        invariant var rest := ExecuteFrom(o, State(), code, timeout, attempt, lastError);
          ExecuteFrom(o, w0, code, timeout, 0, None) == rest.(restarts := rest.restarts + restarts)
      {
        var a := Attempt(code, timeout);
        if a.Ok? {
          r, attempts := a, attempt + 1;
          if Accounted(w0) && WaitsReturn(o) { ExecuteKeepsAccounted(o, w0, code, timeout); }
          return;
        }
        if a.exc.Timeout? {
          r, attempts := Ok(Failure(TimeoutText(timeout))), attempt + 1;
          if Accounted(w0) && WaitsReturn(o) { ExecuteKeepsAccounted(o, w0, code, timeout); }
          return;
        }
        lastError := Some(a.exc);
        var re := RestartPythonSession(timeout);
        restarts := restarts + 1;
        if re.Raise? {
          r, attempts := Raise(re.exc), attempt + 1;
          if Accounted(w0) && WaitsReturn(o) { ExecuteKeepsAccounted(o, w0, code, timeout); }
          return;
        }
      }
      var message := if lastError.Some? then Message(lastError.value) else SESSION_FAILED;
      r, attempts := Ok(Failure(message)), 2;
      if Accounted(w0) && WaitsReturn(o) { ExecuteKeepsAccounted(o, w0, code, timeout); }
    }

    /** `execute_bash(command, timeout)`. */
    method ExecuteBash(command: string, timeout: int) returns (r: ExecutionResult)
      modifies platform
      ensures (r, platform.history) == ExecuteBashSpec(platform.oracle, old(platform.history), command, timeout)
      ensures old(Valid()) ==> Valid()
    {
      var sp := platform.Exec(Bash(command, timeout));
      if sp.Raise? {
        r := CaughtResult(sp.exc, timeout);
        if old(Valid()) { BashKeepsAccounted(platform.oracle, old(State()), command, timeout); }
        return;
      }
      var p := sp.value;
      var out: Outcome<StreamData> := Ok(Bytes([]));
      if p.hasStdout {
        out := platform.Read(p, Stdout);
      }
      if out.Raise? {
        r := CaughtResult(out.exc, timeout);
        if old(Valid()) { BashKeepsAccounted(platform.oracle, old(State()), command, timeout); }
        return;
      }
      var err: Outcome<StreamData> := Ok(Bytes([]));
      if p.hasStderr {
        err := platform.Read(p, Stderr);
      }
      if err.Raise? {
        r := CaughtResult(err.exc, timeout);
        if old(Valid()) { BashKeepsAccounted(platform.oracle, old(State()), command, timeout); }
        return;
      }
      var rc := platform.Wait(p);
      if rc.Raise? {
        r := CaughtResult(rc.exc, timeout);
      } else {
        r := ExecutionResult(rc.value.GetOr(0) == 0, Json.Str(DecodeStream(out.value)), Json.Str(DecodeStream(err.value)), None);
      }
      if old(Valid()) { BashKeepsAccounted(platform.oracle, old(State()), command, timeout); }
    }

    /** `terminate()`. */
    method Terminate() returns (r: Outcome<Unit>)
      modifies this, platform
      ensures Step(r, State()) == TerminateSpec(platform.oracle, old(State()))
    {
      StopPythonSession();
      r := platform.Terminate();
    }
  }
}
