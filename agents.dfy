/** The agent side of the sandbox: a registry from model-session id to its
    sandbox, and the two tools `execute_python` and `execute_bash`, which run
    in the session's sandbox and turn its `ExecutionResult` into the text the
    model reads and an error flag. `Sandbox.create` talks to the platform and
    is a parameter here: `created` is what it would hand back. */
module Agents {
  import opened Wrappers
  import Json
  import Dicts
  import Executor

  /** The tool reply: its one text block and `is_error`. The text is the
      value the formatting ends with: a string, or whatever non-string
      `stdout` the interpreter's reply carried. */
  datatype ToolOutput = ToolOutput(text: Json.Value, isError: bool)

  const NO_OUTPUT := "(no output)"

  /** `bool(result.error)`. */
  predicate HasError(result: Executor.ExecutionResult) {
    result.error.Some? && result.error.value != []
  }

  /** The text appended for a non-empty standard error,
      `f"\n[stderr]: {result.stderr}"`. */
  function StderrNote(stderr: Json.Value): string {
    "\n[stderr]: " + Json.PyStr(stderr)
  }

  /** The text of a standard output that is a string, "" for one that is
      not. */
  function StdoutText(stdout: Json.Value): string {
    if stdout.Str? then stdout.s else ""
  }

  /** The formatting in both tool bodies: `output = result.stdout or ""`,
      then `output += ...` with the standard error when it is truthy, then
      an error replaces all of it, and a falsy text becomes "(no output)".
      `+=` raises `TypeError` on an output that is neither a string nor a
      list; a list grows by the characters of the note. */
  function FormatToolOutput(result: Executor.ExecutionResult): (r: Outcome<ToolOutput>)
    ensures r.Raise? <==>
      Json.Truthy(result.stdout) && Json.Truthy(result.stderr) && !result.stdout.Str? && !result.stdout.Arr?
    ensures r.Raise? ==> r.exc == Error("TypeError",
      "unsupported operand type(s) for +=: '" + Json.TypeName(result.stdout) + "' and 'str'")
    ensures r.Ok? ==> Json.Truthy(r.value.text) && (r.value.isError <==> HasError(result))
    ensures r.Ok? && HasError(result) ==> r.value.text == Json.Str("Error: " + result.error.value)
    ensures !HasError(result) && !Json.Truthy(result.stderr) ==>
      r == Ok(ToolOutput(if Json.Truthy(result.stdout) then result.stdout else Json.Str(NO_OUTPUT), false))
    ensures !HasError(result) && Json.Truthy(result.stderr) && (result.stdout.Str? || !Json.Truthy(result.stdout)) ==>
      r == Ok(ToolOutput(Json.Str(StdoutText(result.stdout) + StderrNote(result.stderr)), false))
    ensures !HasError(result) && Json.Truthy(result.stderr) && result.stdout.Arr? && Json.Truthy(result.stdout) ==>
      r == Ok(ToolOutput(Json.Arr(result.stdout.items + Json.Chars(StderrNote(result.stderr))), false))
  {
    var output := if Json.Truthy(result.stdout) then result.stdout else Json.Str("");
    var added := if Json.Truthy(result.stderr) then Json.AddText(output, StderrNote(result.stderr)) else Ok(output);
    match added
    case Raise(e) => Raise(e)
    case Ok(output) =>
      var output := if HasError(result) then Json.Str("Error: " + result.error.value) else output;
      Ok(ToolOutput(if Json.Truthy(output) then output else Json.Str(NO_OUTPUT), HasError(result)))
  }

  /** The tool's answer for an execution outcome: an exception that escapes
      `execute_python` or the formatting escapes the tool too. */
  function ToolResult(x: Outcome<Executor.ExecutionResult>): Outcome<ToolOutput> {
    match x
    case Ok(result) => FormatToolOutput(result)
    case Raise(e) => Raise(e)
  }

  /** An answer from the interpreter is never flagged as an error, even when
      the code failed (`ok` false) and only standard error has text: the
      model reads the error text but `is_error` stays false. */
  lemma AnswerNotFlagged(fields: Dicts.Dict<Json.Value>)
    ensures var r := ToolResult(Executor.ResultOf(Json.Obj(fields)));
      var stdout := Json.GetOr(fields, "stdout", Json.Str(""));
      var stderr := Json.GetOr(fields, "stderr", Json.Str(""));
      (r.Ok? ==> !r.value.isError)
      && (stdout.Str? && Json.Truthy(stderr) ==> r == Ok(ToolOutput(Json.Str(stdout.s + StderrNote(stderr)), false)))
  {
    Executor.ResponseMapping(fields);
  }

  /** A reply `{"ok": true, "stdout": null, "stderr": ""}` reaches the model
      as "(no output)": `None or ""` is "". */
  lemma NullStdoutNoOutput()
    ensures ToolResult(Executor.ResultOf(Json.Obj([("ok", Json.Bool(true)), ("stdout", Json.Null), ("stderr", Json.Str(""))])))
      == Ok(ToolOutput(Json.Str(NO_OUTPUT), false))
  {
    Executor.ResponseMapping([("ok", Json.Bool(true)), ("stdout", Json.Null), ("stderr", Json.Str(""))]);
  }

  /** A reply whose `stdout` is the number 5 and whose `stderr` is "x" makes
      the tool raise `TypeError`: an int has no `+=` with a string. */
  lemma IntStdoutRaises()
    ensures ToolResult(Executor.ResultOf(Json.Obj([("ok", Json.Bool(true)), ("stdout", Json.Int(5)), ("stderr", Json.Str("x"))])))
      == Raise(Error("TypeError", "unsupported operand type(s) for +=: 'int' and 'str'"))
  {
    Executor.ResponseMapping([("ok", Json.Bool(true)), ("stdout", Json.Int(5)), ("stderr", Json.Str("x"))]);
  }

  /** A timeout on the first attempt reaches the model as the flagged error
      text "Error: Timeout after <t>s". */
  lemma TimeoutReported(o: Executor.Oracle, w: Executor.World, code: string, timeout: int)
    requires Executor.AttemptSpec(o, w, code, timeout).out == Raise(Timeout)
    ensures ToolResult(Executor.ExecutePythonSpec(o, w, code, timeout).out)
      == Ok(ToolOutput(Json.Str("Error: " + Executor.TimeoutText(timeout)), true))
  {
    Executor.ExecuteStopsEarly(o, w, code, timeout);
  }

  /** A failure whose exception has an empty message, such as a bare
      `RuntimeError()` raised by the platform, is not flagged: `bool("")`
      is false, so the model reads "(no output)". */
  lemma EmptyErrorNotFlagged()
    ensures ToolResult(Ok(Executor.Failure(Executor.Message(Error("RuntimeError", "")))))
      == Ok(ToolOutput(Json.Str(NO_OUTPUT), false))
  {
  }

  /** The module-level `_sandboxes` dict. */
  class Registry {
    var sandboxes: map<string, Executor.Sandbox>

    /** Each sandbox is registered under the session id it was created for. */
    ghost predicate Valid()
      reads this
    {
      forall id :: id in sandboxes ==> sandboxes[id].sessionId == id
    }

    constructor ()
      ensures sandboxes == map[] && Valid()
    {
      sandboxes := map[];
    }

    /** The objects a tool call on `sessionId` may change: the registered
        sandbox, or the one that would be created, and its platform. */
    function Target(sessionId: string, created: Outcome<Executor.Sandbox>): set<object>
      reads this
    {
      if sessionId in sandboxes then {sandboxes[sessionId], sandboxes[sessionId].platform}
      else if created.Ok? then {created.value, created.value.platform}
      else {}
    }

    /** `_get_sandbox(session_id)`: creates a sandbox only when the id has
        none; a creation that raises registers nothing. */
    method GetSandbox(sessionId: string, created: Outcome<Executor.Sandbox>) returns (r: Outcome<Executor.Sandbox>)
      requires Valid()
      requires created.Ok? ==> created.value.sessionId == sessionId
      modifies this
      ensures Valid()
      ensures sessionId in old(sandboxes) ==> r == Ok(old(sandboxes)[sessionId]) && sandboxes == old(sandboxes)
      ensures sessionId !in old(sandboxes) ==>
        (r == created && sandboxes == (if created.Ok? then old(sandboxes)[sessionId := created.value] else old(sandboxes)))
    {
      if sessionId !in sandboxes {
        if created.Raise? {
          return Raise(created.exc);
        }
        sandboxes := sandboxes[sessionId := created.value];
      }
      r := Ok(sandboxes[sessionId]);
    }

    /** `cleanup_sandbox(session_id)`: terminates and forgets the id's
        sandbox; an unknown id is left alone, so a second cleanup does
        nothing; a termination that raises leaves the entry in place. */
    method CleanupSandbox(sessionId: string) returns (r: Outcome<Unit>)
      requires Valid()
      modifies this, Target(sessionId, Raise(Timeout))
      ensures Valid()
      ensures sessionId !in old(sandboxes) ==> r == Ok(Unit) && sandboxes == old(sandboxes)
      ensures sessionId in old(sandboxes) ==>
        var sb := old(sandboxes)[sessionId];
        Executor.Step(r, sb.State()) == Executor.TerminateSpec(sb.platform.oracle, old(sb.State()))
        && sandboxes == (if r.Ok? then old(sandboxes) - {sessionId} else old(sandboxes))
    {
      if sessionId !in sandboxes {
        return Ok(Unit);
      }
      var sb := sandboxes[sessionId];
      r := sb.Terminate();
      if r.Ok? {
        sandboxes := map id | id in sandboxes && id != sessionId :: sandboxes[id];
      }
    }

    /** The `execute_python` tool of session `sessionId`, with the default
        timeout. */
    method ExecutePythonTool(sessionId: string, created: Outcome<Executor.Sandbox>, code: string)
      returns (r: Outcome<ToolOutput>)
      requires Valid()
      requires created.Ok? ==> created.value.sessionId == sessionId
      modifies this, Target(sessionId, created)
      ensures Valid()
      ensures sessionId !in old(sandboxes) && created.Raise? ==> r == Raise(created.exc) && sandboxes == old(sandboxes)
      ensures sessionId in old(sandboxes) || created.Ok? ==>
        var sb := if sessionId in old(sandboxes) then old(sandboxes)[sessionId] else created.value;
        var x := Executor.ExecutePythonSpec(sb.platform.oracle, old(sb.State()), code, Executor.DEFAULT_TIMEOUT);
        r == ToolResult(x.out) && sb.State() == x.world
        && sandboxes == old(sandboxes)[sessionId := sb]
    {
      var g := GetSandbox(sessionId, created);
      if g.Raise? {
        return Raise(g.exc);
      }
      var x: Outcome<Executor.ExecutionResult>;
      ghost var attempts: nat, restarts: nat;
      x, attempts, restarts := g.value.ExecutePython(code, Executor.DEFAULT_TIMEOUT);
      r := ToolResult(x);
    }

    /** The `execute_bash` tool of session `sessionId`, with the default
        timeout; only the creation of a sandbox can raise, since a command's
        outputs are texts. */
    method ExecuteBashTool(sessionId: string, created: Outcome<Executor.Sandbox>, command: string)
      returns (r: Outcome<ToolOutput>)
      requires Valid()
      requires created.Ok? ==> created.value.sessionId == sessionId
      modifies this, Target(sessionId, created)
      ensures Valid()
      ensures sessionId !in old(sandboxes) && created.Raise? ==> r == Raise(created.exc) && sandboxes == old(sandboxes)
      ensures sessionId in old(sandboxes) || created.Ok? ==>
        var sb := if sessionId in old(sandboxes) then old(sandboxes)[sessionId] else created.value;
        var x := Executor.ExecuteBashSpec(sb.platform.oracle, old(sb.platform.history), command, Executor.DEFAULT_TIMEOUT);
        r.Ok? && r == FormatToolOutput(x.0)
        && sb.platform.history == x.1 && sb.pythonProc == old(sb.pythonProc)
        && sandboxes == old(sandboxes)[sessionId := sb]
    {
      var g := GetSandbox(sessionId, created);
      if g.Raise? {
        return Raise(g.exc);
      }
      ghost var h := g.value.platform.history;
      var x := g.value.ExecuteBash(command, Executor.DEFAULT_TIMEOUT);
      Executor.BashProps(g.value.platform.oracle, h, command, Executor.DEFAULT_TIMEOUT);
      r := FormatToolOutput(x);
    }
  }
}
