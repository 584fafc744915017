# Sandboxed tool execution and MCP code mode, modelled in Dafny

The system gives each chat model a sandbox on a remote platform. The
sandbox has two tools:

- `execute_python` runs code in one resident Python interpreter, so state
  persists between calls. It makes at most two attempts and restarts the
  interpreter after a failure.
- `execute_bash` runs a shell command.

Around the sandbox sit the pieces that let code in it call MCP servers:

- Generated server packages with their manifests (`search_tools` over
  `TOOLS`).
- A runtime helper that resolves a provider's connection settings from
  environment variables and static defaults, and caches one server per
  provider.
- A "code mode" helper that searches tools and renders JSON Schemas as
  Python `TypedDict`s and example calls.
- The generator that writes those packages and the `.env.local` secrets
  file.

The model in this project covers:

- The interpreter session of `Sandbox` as a class. Its `pythonProc` field
  is the one optional handle. The remote platform is a `Platform` object:
  its answers are an oracle over the log of calls.
- The line loop that runs inside the interpreter.
- The agent-side registry of sandboxes and its tool replies.
- The runtime's argument coercion, settings precedence, mapping and
  sequence parsers, and its two caches.
- Tool search and rendering in the code-mode helper.
- The generator's text transforms, key ordering, `KEY=VALUE` parsing,
  `.env.local` merge, `TypedDict` rendering and package `__init__.py`.
- The manifests' `search_tools`.

Python values that JSON can carry are one datatype, `Json.Value`. A dict is
an insertion-ordered list of entries. `str.split`, `str.strip`, `re.sub`
over a character class, `sorted`, `str.replace` and UTF-8 decoding with
`errors="ignore"` are written out in `Text`, `Naming`, `Sorting` and `Utf8`.
So are `str()`, `repr()` with its choice of quote and its escapes, truth
testing, `list()` and `+=` with a string on these values, in `Json`.

Modules:

- `Executor`: `Sandbox` and `Platform`, with each operation both as a
  method and as a specification function over a `World`. A `World` is the
  call log plus the handle.
- `Resident`: the interpreter's stdin loop.
- `Agents`: the tool registry and output formatting.
- `Runtime`: `servers/_runtime.py`.
- `CodeMode`: `servers/_code_mode.py`.
- `Generator`: `src/utils/mcp_to_py.py`.
- `Manifest`: the manifests' `search_tools`.
- `Schema`: the Python operations both schema renderers apply to a schema
  value (`in`, `.get`, `[]`, hashing).
- `Json`, `Text`, `Naming`, `Sorting`, `Utf8`, `Dicts`, `Seqs`, `Wrappers`:
  shared value types and helpers.

## Model

| member | source | states |
|---|---|---|
| Executor.DecodeStream | src/sandbox/executor.py:335-343 | no data decodes to ""; bytes are decoded as UTF-8 with ill-formed parts dropped; text is returned unchanged |
| Utf8.DecodeEncode | src/sandbox/executor.py:342 | decoding the UTF-8 bytes of any text gives the text back, so nothing well-formed is dropped |
| Utf8.EncodeChar | src/sandbox/executor.py:250 | a character takes 1-4 bytes, one byte exactly for ASCII; continuation bytes follow a lead byte of at least 0xC2 |
| Utf8.DecodeEncodeChar | src/sandbox/executor.py:342 | decoding one character's bytes followed by any bytes gives that character, then the decoding of the rest |
| Utf8.EncodeNewlines | src/sandbox/executor.py:250 | byte 0x0A appears in the encoding of a text exactly when the text contains a newline |
| Utf8.FrameOneLine | src/sandbox/executor.py:250 | a request frame of a newline-free text holds one newline byte, its last, and decodes to the text plus "\n" |
| Utf8.EncodeAscii | src/sandbox/executor.py:323 | ASCII text is encoded one byte per character |
| Executor.TerminateFrameIsFrame | src/sandbox/executor.py:323 | the literal stop bytes are the stop record framed like any request |
| Executor.LiveStep | src/sandbox/executor.py:220-226 | the set of running interpreters changes only by a successful spawn (added) and a wait (removed) |
| Executor.ResultOf | src/sandbox/executor.py:162-166 | reading a response raises exactly when it is not a dict; otherwise there is no error, `success` is the truth of `ok` (default False), and `stdout`/`stderr` are the reply's values as they are (default "") |
| Executor.ResponseMapping | src/sandbox/executor.py:162-166 | a dict response gives `success = bool(ok)`, `error` None, and `stdout`/`stderr` equal to the reply's fields unconverted, "" when missing |
| Executor.StopProps | src/sandbox/executor.py:313-333 | stopping with no handle changes nothing; otherwise the handle ends as None, the stop record is written when there is a stdin, and the process is always waited for last |
| Executor.StopAccounted | src/sandbox/executor.py:313-333 | when the platform's waits return, after a stop no interpreter the sandbox started is still running |
| Executor.StopPrefix | src/sandbox/executor.py:313-333 | the stop's terminate write and grace read leave the running interpreters as they were, and the stop ends with the wait |
| Executor.StopFailedWaitLeaks | src/sandbox/executor.py:330-333 | a wait that raises is suppressed and the handle is cleared anyway: the interpreter still runs, the handle is None, and the sandbox no longer accounts for it |
| Executor.RestartFailedWaitLeaks | src/sandbox/executor.py:229-233 | a restart after such a wait that starts a new interpreter leaves both running, with only the new one held |
| Executor.CommunicateProps | src/sandbox/executor.py:242-252 | no process raises "not initialized" and no streams raises "streams are unavailable", both without a platform call; otherwise the first call writes the payload framed as text plus newline |
| Executor.CommunicateKeeps | src/sandbox/executor.py:235-266 | talking to the interpreter never changes the handle or the set of running interpreters |
| Executor.BlankLineReply | src/sandbox/executor.py:262-264 | a non-empty line that decodes to white space is taken as `{"ok": True, "stdout": "", "stderr": ""}` without parsing |
| Executor.NewlineReply | src/sandbox/executor.py:259-264 | a bare newline byte is such a line |
| Executor.TextLineReply | src/sandbox/executor.py:262-266 | a line with text is what `json.loads` makes of the stripped text; a parse failure raises `JSONDecodeError` |
| Executor.StartProps | src/sandbox/executor.py:217-227 | a failed spawn keeps the old handle; a successful one replaces it, even when the initialisation request then fails |
| Executor.StartAccounted | src/sandbox/executor.py:217-227 | starting from no handle leaves at most the new interpreter running, and it is the handle |
| Executor.EnsureProps | src/sandbox/executor.py:210-215 | a running session is reused untouched; with no handle, exactly one start is made; success leaves a handle |
| Executor.EnsureAccounted | src/sandbox/executor.py:210-215 | ensuring a session never leaves an interpreter running that the handle does not hold |
| Executor.RestartAccounted | src/sandbox/executor.py:229-233 | when the platform's waits return, a restart stops the old interpreter before starting one, so it never leaves two running |
| Executor.AttemptAccounted | src/sandbox/executor.py:159-166 | one attempt keeps every running interpreter held by the handle |
| Executor.ExecuteFromAccounted | src/sandbox/executor.py:157-174 | when the platform's waits return, the retry loop from any attempt on keeps every running interpreter held by the handle |
| Executor.ExecuteFromWorld | src/sandbox/executor.py:157-174 | one attempt of the loop ends in the attempt's world on success or timeout, in the restart's world when the restart raises, and otherwise in the world of the remaining attempts |
| Executor.ExecuteKeepsAccounted | src/sandbox/executor.py:150-174 | when the platform's waits return, `execute_python` never leaves an interpreter running that the handle does not hold |
| Executor.ExecutePolicy | src/sandbox/executor.py:157-174 | the loop equals the two-attempt policy written out branch by branch, in which the "Python session failed" fallback never occurs |
| Executor.RetryBounds | src/sandbox/executor.py:158-171 | the written-out policy makes 1-2 attempts and a restart after every non-timeout failure, and an exception escapes only right after a restart |
| Executor.ExecuteBounds | src/sandbox/executor.py:158-171 | at most two attempts; one restart fewer than attempts, or as many; an exception escapes only after as many restarts as attempts |
| Executor.ExecuteStopsEarly | src/sandbox/executor.py:162-168 | a first-attempt timeout returns "Timeout after {t}s" at once with no restart; a first-attempt answer is returned as it is |
| Executor.ExecuteBothFail | src/sandbox/executor.py:169-174 | when both attempts fail other than by timeout and both restarts succeed, the error is the second exception's text, after two restarts |
| Executor.BashProps | src/sandbox/executor.py:176-208 | `execute_bash` never raises; both outputs are texts; it leaves no error exactly when the wait succeeded; success then is return code 0 (missing means 0); any failure has empty outputs; a spawn timeout gives the timeout text |
| Executor.BashKeepsAccounted | src/sandbox/executor.py:176-208 | a bash command never starts or loses track of an interpreter |
| Executor.TerminateProps | src/sandbox/executor.py:345-348 | terminate stops the interpreter first; the handle ends as None, with nothing running when the platform's waits return; the result is the platform's answer |
| Executor.Platform.Exec | src/sandbox/executor.py:184-189 | the spawn's answer is the oracle's for the call log, and the call is logged |
| Executor.Platform.Write | src/sandbox/executor.py:251-252 | a write's answer is the oracle's for the call log, and the call is logged |
| Executor.Platform.ReadLine | src/sandbox/executor.py:255 | a line read within a time limit is the oracle's answer, and the call is logged |
| Executor.Platform.Read | src/sandbox/executor.py:190-191 | a whole-stream read is the oracle's answer, and the call is logged |
| Executor.Platform.Wait | src/sandbox/executor.py:192 | a wait's answer is the oracle's, and the call is logged |
| Executor.Platform.Terminate | src/sandbox/executor.py:348 | the sandbox's termination answer is the oracle's, and the call is logged |
| Executor.Sandbox.constructor | src/sandbox/executor.py:112-115 | a new sandbox has no interpreter handle |
| Executor.Sandbox.StopPythonSession | src/sandbox/executor.py:313-333 | the new state is `StopSpec` of the old one |
| Executor.Sandbox.CommunicateWithPython | src/sandbox/executor.py:235-266 | the reply and new state are `CommunicateSpec` of the old state |
| Executor.Sandbox.StartPythonSession | src/sandbox/executor.py:217-227 | the outcome and new state are `StartSpec` of the old state |
| Executor.Sandbox.EnsurePythonSession | src/sandbox/executor.py:210-215 | the outcome and new state are `EnsureSpec` of the old state |
| Executor.Sandbox.RestartPythonSession | src/sandbox/executor.py:229-233 | the outcome and new state are `RestartSpec` of the old state |
| Executor.Sandbox.Attempt | src/sandbox/executor.py:159-166 | the outcome and new state are those of one attempt's specification |
| Executor.Sandbox.ExecutePython | src/sandbox/executor.py:150-174 | the loop `for attempt in range(2)` gives the result, final state, attempts and restarts of `ExecutePythonSpec`, and keeps the sandbox valid when the platform's waits return |
| Executor.Sandbox.ExecuteBash | src/sandbox/executor.py:176-208 | the result and call log are `ExecuteBashSpec`'s; the handle is untouched |
| Executor.Sandbox.Terminate | src/sandbox/executor.py:345-348 | the outcome and new state are `TerminateSpec` of the old state |
| Resident.Loop | src/sandbox/executor.py:56-65 | the `for line in sys.stdin` loop prints exactly the replies of `Session`, ends the same way and leaves the same namespace |
| Resident.BlanksIgnored | src/sandbox/executor.py:57-59 | blank lines make no difference to the loop |
| Resident.OneReplyPerRequest | src/sandbox/executor.py:56-65 | at most one reply per non-blank request, exactly one each when the input runs out, and a stop leaves the ok record last |
| Resident.RepliesCounted | src/sandbox/executor.py:56-65 | replies number at most the requests, and equal them when the input runs out |
| Resident.StopAnsweredLast | src/sandbox/executor.py:61-63 | a loop ended by a stop request printed the ok record last |
| Resident.StopEndsSession | src/sandbox/executor.py:61-63 | a `_terminate` request prints the ok record and ends the loop, whatever follows |
| Resident.CodeThreadsNamespace | src/sandbox/executor.py:64-65 | a code request runs in the namespace the previous request left, and its reply comes before all later ones |
| Resident.SessionHead | src/sandbox/executor.py:56-65 | the first input line decides the next step: skip, crash on a bad record, stop, exit, or reply and go on |
| Agents.FormatToolOutput | src/agents/base.py:68-76 | `stdout or ""`, then `+= "\n[stderr]: " + str(stderr)` when stderr is truthy: a string grows, a list grows by characters, any other stdout raises `TypeError`; a non-empty error replaces the text with "Error: " + error; a falsy text becomes "(no output)"; `is_error` is `bool(error)` |
| Agents.AnswerNotFlagged | src/agents/base.py:66-76 | an interpreter answer, even `ok` false with only stderr, is never flagged as an error, and with a text stdout its stderr is shown after it |
| Agents.NullStdoutNoOutput | src/agents/base.py:68-76 | a reply with `stdout` null and `stderr` "" reaches the model as "(no output)" |
| Agents.IntStdoutRaises | src/agents/base.py:68-70 | a reply with `stdout` 5 and `stderr` "x" makes the tool raise `TypeError` |
| Agents.TimeoutReported | src/sandbox/executor.py:167-168 | a first-attempt timeout reaches the model as the flagged text "Error: Timeout after {t}s" |
| Agents.EmptyErrorNotFlagged | src/agents/base.py:71-76 | a failure whose exception has an empty message, such as a bare `RuntimeError()`, is not flagged, and the model reads "(no output)" |
| Agents.Registry.constructor | src/agents/base.py:32 | the registry starts empty |
| Agents.Registry.GetSandbox | src/agents/base.py:35-39 | a registered id returns its sandbox and changes nothing; an absent id registers the created sandbox under that id alone; a failed creation registers nothing |
| Agents.Registry.CleanupSandbox | src/agents/base.py:42-46 | an unknown id is a no-op, so a second cleanup is harmless; a known id is terminated and only that id is removed |
| Agents.Registry.ExecutePythonTool | src/agents/base.py:64-79 | the reply is the formatting of `execute_python` on the session's sandbox, the sandbox's new state is `execute_python`'s, and it stays registered under the id |
| Agents.Registry.ExecuteBashTool | src/agents/base.py:86-101 | the reply is the formatting of `execute_bash` on the session's sandbox and never raises once the sandbox exists; the call log is `execute_bash`'s and the interpreter handle is untouched |
| Runtime.CoerceArguments | servers/_runtime.py:47-57 | both kinds of arguments raise `ValueError`; no positionals give a copy of the keywords; more than one positional, or a non-dict one, raises `TypeError`; a single dict is copied |
| Runtime.GetEnvPrecedence | servers/_runtime.py:175-180 | the scoped variable wins when the key is non-empty and the value non-empty; otherwise the global `MCP_SERVER_<suffix>` is read as it is |
| Runtime.AsFloat | servers/_runtime.py:183-185 | a missing value gives the default |
| Runtime.EntryOfProps | servers/_runtime.py:202-209 | an entry is skipped exactly when blank and malformed exactly when non-blank without "=" |
| Runtime.Entries | servers/_runtime.py:201-210 | each comma-separated part gives one entry |
| Runtime.CollectCommaItems | servers/_runtime.py:200-211 | the loop over the parts gives what the entry-by-entry reading gives |
| Runtime.CommaItemsAt | servers/_runtime.py:201-210 | one step of that reading: skip a blank entry, stop at a malformed one, otherwise store the stripped key and value |
| Runtime.CommaItemsStop | servers/_runtime.py:206-209 | the reading stops short exactly when some entry is malformed |
| Runtime.CommaItemsGet | servers/_runtime.py:210 | a key reads as the value of its last entry, or its earlier value when no entry has the key |
| Runtime.CommaItemsEmpty | servers/_runtime.py:211 | the dict ends empty exactly when it started empty and every entry is blank |
| Runtime.CommaMappingProps | servers/_runtime.py:199-211 | the comma path raises exactly when an entry is malformed, gives None exactly when every entry is blank, and otherwise maps each key to its last value |
| Runtime.ParseMapping | servers/_runtime.py:192-214 | the method with its loop gives `ParseMappingSpec` |
| Runtime.ParseMappingPaths | servers/_runtime.py:192-214 | an empty value gives None; non-JSON or JSON `null` takes the comma path; a JSON dict gives its `str()`-ed entries; any other JSON raises |
| Runtime.StripNoSpace | servers/_runtime.py:230 | a word without white space strips to itself |
| Runtime.StrippedWords | servers/_runtime.py:230 | the comprehension keeps every word `str.split()` gives |
| Runtime.ReplaceCommas | servers/_runtime.py:230 | replacing commas by spaces leaves no comma |
| Runtime.WordsWithoutCommas | servers/_runtime.py:230 | the split words hold no comma |
| Runtime.ParseSequenceText | servers/_runtime.py:217-231 | for non-JSON text or JSON `null`, the items are the non-empty pieces between commas and white space, none holding either |
| Runtime.ScalarSequenceRaises | servers/_runtime.py:228-229 | a JSON scalar such as a bare number raises |
| Runtime.StaticConfigOf | servers/_runtime.py:159-165 | a missing module, a missing `SERVER_CONFIG` or an empty one gives {}; any other import error raises; otherwise the module's config |
| Runtime.ConfigWith | servers/_runtime.py:92-93 | an import error escapes `_load_provider_config`; a loaded static config is resolved by `ProviderConfig` |
| Runtime.TransportPrecedence | servers/_runtime.py:103-108 | the transport is the scoped variable, else the global one, else the static config, else "http", lower-cased |
| Runtime.HttpFields | servers/_runtime.py:119-125 | the HTTP config dict names transport "http" and holds the URL |
| Runtime.StdioFields | servers/_runtime.py:140-148 | the stdio config dict names transport "stdio" and holds the command |
| Runtime.HttpConfigShape | servers/_runtime.py:110-125 | a resolved HTTP config names its transport and has a truthy URL |
| Runtime.StdioConfigShape | servers/_runtime.py:127-148 | a resolved stdio config names its transport and has a truthy command |
| Runtime.ProviderConfigShape | servers/_runtime.py:92-152 | any resolved config is an HTTP config with a URL or a stdio config with a command |
| Runtime.ProviderConfigErrors | servers/_runtime.py:110-152 | with readable timeouts, HTTP without a URL, stdio without a command, and any other transport each raise their `RuntimeError` naming the provider |
| Runtime.FingerprintCanonical | servers/_runtime.py:62-64 | two configs with ordered keys have the same fingerprint exactly when they are equal |
| Runtime.Runtime.constructor | servers/_runtime.py:33-34 | both caches start empty |
| Runtime.Runtime.LoadStaticConfig | servers/_runtime.py:155-167 | a cached provider returns its cached config and changes nothing; otherwise the module's config is cached under that provider alone and returned, and an import error other than a missing module escapes and caches nothing; the server cache is untouched |
| Runtime.Runtime.LoadProviderConfig | servers/_runtime.py:92-93 | the config is `ProviderConfig` of the static config the cache gives, which is cached; an import error escapes |
| Runtime.Runtime.ServerStepProps | servers/_runtime.py:60-68 | a config that raises leaves the cache alone; a matching fingerprint returns the cached server; any other config builds a server that replaces that provider's entry alone |
| Runtime.Runtime.GetServer | servers/_runtime.py:60-68 | the cached server is returned only when its fingerprint equals the sorted-key form of the new config; otherwise a built server overwrites that provider's entry alone; a failing config changes no server |
| Naming.SlugifyIsSlug | servers/_code_mode.py:298-300 | `_slugify` gives a non-empty identifier of `[0-9a-z_]` with no leading, trailing or doubled "_" |
| Naming.SlugifyIdempotent | servers/_code_mode.py:298-300 | slugifying twice is slugifying once |
| Naming.SlugFixed | src/utils/mcp_to_py.py:1200-1202 | a slug is its own slug |
| Naming.DefaultIsSlug | servers/_code_mode.py:300 | the fallback "tool" is a slug |
| Naming.SubRunsShaped | servers/_code_mode.py:300 | replacing each run outside the class by one "_" leaves class characters and single, separated "_" |
| Naming.ShapedCons | servers/_code_mode.py:300 | a class character, or a "_" not before another, keeps a run-shaped text run-shaped |
| Naming.SubRunsFixed | servers/_code_mode.py:300 | a text already of that shape is unchanged by the substitution |
| Naming.RunShapedSlice | servers/_code_mode.py:300 | every slice of a run-shaped text is run-shaped |
| Naming.StripUnderscoresSlice | servers/_code_mode.py:300 | `strip("_")` gives a piece of the text that neither starts nor ends with "_" |
| Naming.StripShaped | servers/_code_mode.py:300 | stripping a run-shaped text keeps its shape and removes end underscores |
| Naming.LowerShaped | servers/_code_mode.py:300 | lower-casing maps `[0-9a-zA-Z_]` onto `[0-9a-z_]` position by position |
| Naming.LowerSlug | servers/_code_mode.py:300 | lower-casing a stripped, non-empty, run-shaped text gives a slug |
| Naming.NormalizeProviderShape | servers/_runtime.py:170-172 | the provider key holds only `[0-9A-Z_]`, with no leading, trailing or doubled "_" |
| Naming.ShapedIsProviderKey | servers/_runtime.py:171 | a stripped run-shaped upper-case text is a provider key |
| Naming.UpperFixed | servers/_runtime.py:171 | upper-casing a text with no lower-case letter changes nothing |
| Naming.StripUnderscoresFixed | servers/_runtime.py:171 | a text without end underscores is its own `strip("_")` |
| Naming.NormalizeProviderIdempotent | servers/_runtime.py:170-172 | normalising a normalised key changes nothing |
| Naming.ToClassNameAlnum | servers/_code_mode.py:303-306 | the class name holds only `[0-9a-zA-Z]` |
| Naming.ConcatAlnum | servers/_code_mode.py:306 | joining alphanumeric parts gives an alphanumeric text |
| Naming.AllSatSlice | servers/_code_mode.py:305 | a property of every character holds on any slice |
| Naming.SplitSat | servers/_code_mode.py:305 | every word of `split()` is made of characters of the text |
| Naming.CapitalizeAlnum | servers/_code_mode.py:306 | capitalising an alphanumeric word keeps it alphanumeric |
| Naming.WordAlnum | servers/_code_mode.py:305 | a space-free word of alphanumerics and spaces is alphanumeric |
| CodeMode.Truncate | servers/_code_mode.py:309-312 | white space is collapsed; a text within `max_len` is returned whole; a longer one is cut to `max_len - 3` characters plus "...", of length `max_len`; the result never exceeds `max_len` when `max_len >= 3` |
| CodeMode.MatchesQuery | servers/_code_mode.py:47-53 | true exactly when every query word occurs in the lower-cased text; vacuously true for no words |
| CodeMode.QueryWords | servers/_code_mode.py:79 | word i is the lower-cased word i of the stripped query |
| CodeMode.TypeListRaises | servers/_code_mode.py:265-269 | as written, a schema whose type is a list raises "unhashable type: 'list'" |
| CodeMode.StringOrNullRaises | servers/_code_mode.py:268 | `{"type": ["string", "null"]}` raises as written |
| CodeMode.StringOrNullFixed | servers/_code_mode.py:275-276 | with the list test first, the same schema renders as `str \| None` |
| CodeMode.FixAgrees | servers/_code_mode.py:256-278 | wherever the written renderer gives a type, the corrected one gives the same |
| CodeMode.WellFormedRenders | servers/_code_mode.py:256-278 | the corrected renderer never raises on a well-formed schema |
| CodeMode.FieldLinesStep | servers/_code_mode.py:241-251 | one property's lines extend the lines collected so far |
| CodeMode.GenerateTypedDict | servers/_code_mode.py:231-253 | the method with its loop gives `TypedDictSpec`: a `pass` body without properties, else the header then each property's lines |
| CodeMode.CollectFieldLines | servers/_code_mode.py:240-253 | the loop gives the header followed by every property's lines, or the first exception |
| CodeMode.PropertyLinesShape | servers/_code_mode.py:244-251 | a property's lines end with its field, bare exactly when required and `Optional[...]` otherwise, after at most one comment |
| CodeMode.FieldLinesOrder | servers/_code_mode.py:241-251 | every property contributes its lines, in property order |
| CodeMode.ExampleValue | servers/_code_mode.py:189-203 | a non-empty list enum gives its first item in quotes; otherwise the type (default "string") maps to `"example"`, 1, 1.0, True, [] or {}, any other hashable type gives None, and an unhashable one raises |
| CodeMode.ExamplesTable | servers/_code_mode.py:195-202 | the placeholder table holds the six JSON types and no other key |
| CodeMode.RequiredProps | servers/_code_mode.py:171-176 | the required properties, and only they, in property order |
| CodeMode.ExampleArgsRequired | servers/_code_mode.py:173-177 | the example lists exactly the required properties, in order, each set to its example value |
| CodeMode.ExampleArgsStep | servers/_code_mode.py:174-177 | one property extends the argument lines only when it is required |
| CodeMode.GenerateExample | servers/_code_mode.py:168-186 | the method with its loop gives `ExampleSpec` |
| CodeMode.LeadingDicts | servers/_code_mode.py:92-94 | the tools searched are no more than the manifest's |
| CodeMode.LeadingDictsShape | servers/_code_mode.py:92-110 | the tools searched are the leading dicts of `TOOLS`, up to the first item without `get` |
| CodeMode.LeadingDictsNext | servers/_code_mode.py:92-94 | a dict right after those seen is the next one searched |
| CodeMode.LeadingDictsStop | servers/_code_mode.py:109-110 | an item that is not a dict ends that provider's search |
| CodeMode.Hits | servers/_code_mode.py:92-106 | a provider gives at most one hit per tool, and one for every tool when the query has no words |
| CodeMode.ToolHits | servers/_code_mode.py:98-106 | a tool gives at most one hit, and one when the query is empty |
| CodeMode.CutBound | servers/_code_mode.py:107-108 | the cut holds at most `limit` hits when `limit >= 1` |
| CodeMode.HitsAppend | servers/_code_mode.py:92 | the hits of two tool lists are the hits of each, in order |
| CodeMode.AllHitsAppend | servers/_code_mode.py:82 | the hits of two entry lists are the hits of each, in order |
| CodeMode.HitsSnoc | servers/_code_mode.py:92 | a further tool's hit comes after those of the earlier tools |
| CodeMode.AllHitsSnoc | servers/_code_mode.py:82 | a further provider's hits come after those of the earlier providers |
| CodeMode.PrefixOfAll | servers/_code_mode.py:82-108 | the hits found so far begin the hits of all providers |
| CodeMode.HitsStep | servers/_code_mode.py:92-106 | one pass over a tool grows the found hits by its hit, if any |
| CodeMode.ProviderSearch | servers/_code_mode.py:90-110 | the loop over a provider's tools collects its hits until `limit` is reached or a non-dict ends it |
| CodeMode.VisitTool | servers/_code_mode.py:93-106 | a tool is appended exactly when it matches |
| CodeMode.FullCut | servers/_code_mode.py:107-108 | reaching the limit returns the cut of all hits |
| CodeMode.VisitProvider | servers/_code_mode.py:82-110 | a non-directory, a `_` name, no manifest or non-iterable `TOOLS` adds nothing; otherwise that provider's tools are searched |
| CodeMode.CollectHits | servers/_code_mode.py:82-112 | the loop over the providers in name order gives the first `limit` hits (at least one) of all of them |
| CodeMode.SearchTools | servers/_code_mode.py:56-112 | `search_tools` gives `SearchSpec`, and never more than `limit` results when `limit >= 1` |
| CodeMode.HitsMeaning | servers/_code_mode.py:82-106 | every hit names a provider directory and is the hit of one of its tools that matches every query word; its function name is a slug and its description at most 150 characters |
| CodeMode.AllHitsComplete | servers/_code_mode.py:82-106 | every matching tool of every provider directory gives a hit: no matching tool is missed |
| CodeMode.HitsComplete | servers/_code_mode.py:92-106 | every matching tool of a provider's list gives a hit among its hits |
| CodeMode.ToolHitShape | servers/_code_mode.py:99-106 | a hit names its provider, a slug and a short description |
| CodeMode.ToolHitsMeaning | servers/_code_mode.py:92-106 | every hit of a provider is well-shaped and is the hit of one of its matching tools |
| CodeMode.HitsShaped | servers/_code_mode.py:92-106 | every hit of a provider is well-shaped |
| CodeMode.HitsFromTools | servers/_code_mode.py:92-106 | every hit of a provider comes from a matching tool |
| CodeMode.HitFromTool | servers/_code_mode.py:92-106 | a hit of the first tool, or of a later one, is a hit of the list |
| CodeMode.HitsProvider | servers/_code_mode.py:101 | the hits of a provider all name that provider |
| CodeMode.FirstProvider | servers/_code_mode.py:101 | the hits of an entry all name the entry |
| CodeMode.HitsAbove | servers/_code_mode.py:82 | hits of providers named at least `lo` all name a provider at least `lo` |
| CodeMode.HitsInProviderOrder | servers/_code_mode.py:82 | the hits come provider by provider in name order |
| CodeMode.SearchInProviderOrder | servers/_code_mode.py:82-108 | `search_tools`' results come in provider-name order |
| CodeMode.CutInProviderOrder | servers/_code_mode.py:82-108 | for any query words, the cut hits of the entries in name order come in provider-name order |
| CodeMode.EmptyQueryListsAll | servers/_code_mode.py:97-98 | a query without words gives one hit per tool of every provider directory |
| Schema.In | servers/_code_mode.py:261 | `key in v` tests the keys of a dict and raises for a value that is not a container |
| Schema.Get | servers/_code_mode.py:266 | `.get` only works on a dict, giving the default for a missing key |
| Schema.Index | servers/_code_mode.py:262 | `v[key]` of a present key is its value |
| Schema.Primitive | servers/_code_mode.py:265-269 | the table lookup raises exactly for an unhashable type, and finds one of str, float, int, bool, None only for a text |
| Schema.PrimitivesUnique | src/utils/mcp_to_py.py:875-881 | the table names each type once |
| Schema.PrimitiveEntry | src/utils/mcp_to_py.py:875-884 | each table entry is what a lookup of its name finds |
| Schema.PrimitiveNames | servers/_code_mode.py:265 | string, number, integer, boolean and null map to str, float, int, bool and None; array and object have no entry |
| Schema.ObjectNotPrimitive | src/utils/mcp_to_py.py:883-884 | "object" has no table entry |
| Schema.ArrayNotPrimitive | src/utils/mcp_to_py.py:883-884 | "array" has no table entry |
| Schema.StringAndNullNames | src/utils/mcp_to_py.py:875-881 | "string" and "null" map to str and None |
| Schema.FirstUnhashable | servers/_code_mode.py:235 | finds an item that cannot go into a set exactly when some item cannot |
| Schema.Required | servers/_code_mode.py:235 | a schema without `required` requires nothing |
| Schema.Literal | servers/_code_mode.py:261-263 | a list enum renders as `Literal[...]` over its quoted items |
| Schema.AllOk | servers/_code_mode.py:276 | the renderings succeed exactly when every item's does, and are then those items, in order |
| Schema.StringOrNullUnion | servers/_code_mode.py:276 | `["string", "null"]` renders as `str \| None` |
| Schema.TypeNamesOk | servers/_code_mode.py:276 | a list of type names always renders |
| Generator.DefaultPrefixKey | src/utils/mcp_to_py.py:1214 | "DEFAULT" is a provider key and normalises to itself |
| Generator.ProviderEnvPrefix | src/utils/mcp_to_py.py:1212-1214 | the prefix is non-empty and a provider key: the normalised name, or "DEFAULT" when that is empty |
| Generator.ProviderEnvPrefixIdempotent | src/utils/mcp_to_py.py:1212-1214 | a prefix is its own prefix |
| Generator.EscapedHead | src/utils/mcp_to_py.py:1209 | the escaped description never begins with three quotes |
| Generator.EscapeRoundTrip | src/utils/mcp_to_py.py:1209 | reading each escaped triple quote back gives the text |
| Generator.CollapseDescription | src/utils/mcp_to_py.py:1205-1209 | an empty or None value gives ""; a truthy value other than text raises |
| Generator.CollapseDescriptionText | src/utils/mcp_to_py.py:1205-1209 | a text's description is empty exactly when the text has no word, and unescaped it has single spaces between words |
| Generator.JoinFirst | src/utils/mcp_to_py.py:1208 | joining keeps at least the first part |
| Generator.ReplaceCharIs | src/utils/mcp_to_py.py:1218 | `str.replace` with a one-character pattern replaces each occurrence |
| Generator.ReplaceCharAppend | src/utils/mcp_to_py.py:1218 | the replacement distributes over concatenation |
| Generator.EscapesEach | src/utils/mcp_to_py.py:1218 | backslashes first, then quotes, escapes each character on its own |
| Generator.QuoteIsReplace | src/utils/mcp_to_py.py:1217-1219 | the quoted value is the two replacements, in that order, inside double quotes |
| Generator.UnescapeEscaped | src/utils/mcp_to_py.py:1218 | unescaping the escaped text gives it back |
| Generator.QuoteRoundTrip | src/utils/mcp_to_py.py:1217-1219 | a dotenv reader takes a quoted value back as the value |
| Generator.FormatIgnoresOrder | src/utils/mcp_to_py.py:947-949 | formatting ignores key order, and data already in key order is written as its plain `repr` |
| Json.SortKeys | src/utils/mcp_to_py.py:1222-1227 | every dict ends with sorted keys at any depth; lists keep length and order with items ordered; dicts keep their keys; scalars are unchanged |
| Json.SortFieldsProps | src/utils/mcp_to_py.py:1224 | the sorted entries are the dict's entries, in key order, with the same keys |
| Json.SortKeysCanonical | src/utils/mcp_to_py.py:1222-1227 | data already in key order is unchanged |
| Json.SortKeysIdempotent | src/utils/mcp_to_py.py:1222-1227 | ordering twice is ordering once |
| Json.StrRepr | src/utils/mcp_to_py.py:947-949 | `repr` of a text starts and ends with the quote `repr` picks |
| Json.QuoteFor | src/utils/mcp_to_py.py:947-949 | the quote is `"` exactly when the text holds `'` and no `"`, else `'` |
| Json.ReprChar | src/utils/mcp_to_py.py:947-949 | a character starts with a backslash exactly when it is the quote, a backslash, or one of the characters written as a hex escape |
| Json.StrReprRoundTrip | src/utils/mcp_to_py.py:947-949 | reading the string literal `repr` writes gives the text back |
| Json.ReadReprChars | src/utils/mcp_to_py.py:947-949 | the escaped characters of a text read back as the text |
| Json.ReadReprChar | src/utils/mcp_to_py.py:947-949 | the reader takes exactly one escaped character off the front |
| Json.HexDigit | src/utils/mcp_to_py.py:947-949 | the hex digit of a value below 16 reads back as that value |
| Json.AddText | src/agents/base.py:69-70 | `v += s` grows a string by `s` and a list by the characters of `s`, and raises `TypeError` on any other type |
| Json.Chars | src/agents/base.py:69-70 | one one-character string per character, in order |
| Sorting.SortByProps | servers/_code_mode.py:82 | `sorted` returns a permutation of its input, ordered by key |
| Sorting.SortBySorted | servers/_code_mode.py:82 | sorting an ordered sequence changes nothing |
| Sorting.InsertProps | servers/_code_mode.py:82 | inserting into an ordered sequence keeps it ordered and adds exactly the element |
| Sorting.LexLeTotal | servers/_code_mode.py:82 | Python's string order is total |
| Sorting.LexLeTrans | servers/_code_mode.py:82 | Python's string order is transitive |
| Sorting.LexLeAntisym | servers/_code_mode.py:82 | Python's string order is antisymmetric |
| Generator.TypeListRaises | src/utils/mcp_to_py.py:882-883 | as written, a schema without enum whose type is a list raises "unhashable type: 'list'" |
| Generator.StringOrNullRaises | src/utils/mcp_to_py.py:883 | `{"type": ["string", "null"]}` raises as written |
| Generator.StringOrNullFixed | src/utils/mcp_to_py.py:898-900 | with the list test first, it renders as `str \| None` |
| Generator.AdditionalTrueRaises | src/utils/mcp_to_py.py:891-894 | as written, `{"type": "object", "additionalProperties": true}` raises "'bool' object has no attribute 'get'" |
| Generator.AdditionalTrueFixed | src/utils/mcp_to_py.py:891-896 | with the correction, it renders as `dict[str, Any]` |
| Generator.FixAgrees | src/utils/mcp_to_py.py:864-902 | wherever the written renderer gives a type, the corrected one gives the same |
| Generator.WellFormedRenders | src/utils/mcp_to_py.py:864-902 | the corrected renderer never raises on a well-formed schema |
| Generator.FieldLinesStep | src/utils/mcp_to_py.py:848-859 | one property's lines extend the lines collected so far |
| Generator.JsonSchemaToTypedDict | src/utils/mcp_to_py.py:830-861 | the method with its loop gives `TypedDictSpec` |
| Generator.PropertyLinesShape | src/utils/mcp_to_py.py:849-859 | a property gives one or two lines: a comment exactly when it has a description, then its field, bare exactly when required |
| Generator.FieldLinesOrder | src/utils/mcp_to_py.py:848-859 | every property contributes its lines, in order, between one and two lines each |
| Generator.NoPropertiesPass | src/utils/mcp_to_py.py:844-846 | a schema without properties renders as a class whose body is `pass` |
| Generator.KeyValuesOk | src/utils/mcp_to_py.py:1230-1237 | the options parse exactly when each holds an "=" |
| Generator.KeyValuesError | src/utils/mcp_to_py.py:1233-1234 | the error names the first option without "=" |
| Generator.HasKeySnoc | src/utils/mcp_to_py.py:1235-1236 | a further option adds its key to the keys |
| Generator.KeyValuesKeys | src/utils/mcp_to_py.py:1231-1237 | the result has each key once, and exactly the options' keys |
| Generator.RaiseSticks | src/utils/mcp_to_py.py:1233-1234 | once a prefix of the options raises, the whole list raises the same |
| Generator.LastWins | src/utils/mcp_to_py.py:1235-1236 | an option whose key no later option repeats gives its value after the first "=", so a later duplicate overrides an earlier one |
| Generator.ParseKeyValues | src/utils/mcp_to_py.py:1230-1237 | the loop gives `KeyValues` |
| Generator.MergedLines | src/utils/mcp_to_py.py:645-659 | the existing lines are written back one for one |
| Generator.MergedLinesEach | src/utils/mcp_to_py.py:645-659 | line i is rewritten only when it assigns a key with a secret, and kept verbatim otherwise |
| Generator.SeenMeaning | src/utils/mcp_to_py.py:655-657 | a key is seen exactly when it has a secret and some existing line assigns it |
| Generator.AppendedHas | src/utils/mcp_to_py.py:660-662 | every secret not seen gets its line appended |
| Generator.AppendedOnlyUnseen | src/utils/mcp_to_py.py:660-662 | every appended line is the line of a secret not seen |
| Generator.MergedText | src/utils/mcp_to_py.py:633-663 | no secrets means nothing is written; otherwise the text ends with exactly one newline |
| Generator.MergedTextBody | src/utils/mcp_to_py.py:663 | the text is the joined lines with only trailing white space dropped |
| Generator.ExistingLinesKept | src/utils/mcp_to_py.py:645-659 | each existing line keeps its place after the header, rewritten only when it assigns a key with a secret |
| Generator.NewFileHeader | src/utils/mcp_to_py.py:641-643 | a new file begins with the header |
| Generator.EverySecretWritten | src/utils/mcp_to_py.py:645-662 | every secret is written with its own value |
| Generator.AppendedOnlyNew | src/utils/mcp_to_py.py:660-662 | an appended line belongs to a secret that no existing line assigns |
| Generator.AssignedKeyChecks | src/utils/mcp_to_py.py:646-654 | blank and comment lines and lines without "=" assign nothing; otherwise the stripped text before the first "=" |
| Generator.MergedLinesSnoc | src/utils/mcp_to_py.py:645 | a further line adds its written-back form |
| Generator.AppendedSnoc | src/utils/mcp_to_py.py:660 | a further secret adds at most its own line |
| Generator.WriteEnvLocal | src/utils/mcp_to_py.py:633-663 | the merge with its two loops gives `MergedText` |
| Generator.RewriteLines | src/utils/mcp_to_py.py:645-659 | the first loop gives the written-back lines and the seen keys |
| Generator.RewriteLine | src/utils/mcp_to_py.py:646-659 | one pass writes the line back and records its key when rewritten |
| Generator.AppendUnseen | src/utils/mcp_to_py.py:660-662 | the second loop appends the lines of unseen secrets in the secrets' order |
| Generator.DocLines | src/utils/mcp_to_py.py:737-751 | the twelve lines of docstring and future import |
| Generator.AllNames | src/utils/mcp_to_py.py:770-773 | `__all__` has the modules then `manifest` and `SERVER_CONFIG` |
| Generator.TailLines | src/utils/mcp_to_py.py:763-774 | seven lines follow the re-exports |
| Generator.RenderProviderInit | src/utils/mcp_to_py.py:724-776 | the method with its loops gives the joined `InitLines` |
| Generator.ModulesExported | src/utils/mcp_to_py.py:754-773 | each module is imported under its alias, re-exported, and named in `__all__` |
| Generator.InitShape | src/utils/mcp_to_py.py:724-776 | the file has 21 + 2n lines, states the formatted transport config, and ignores that config's key order |
| Manifest.NormalizeShape | servers/yfinance/manifest.py:17 | the normalised query is lower-case and stripped, and empty exactly when the query is missing or blank |
| Manifest.NormalizeIdempotent | servers/yfinance/manifest.py:17 | normalising twice is normalising once |
| Manifest.NormalFormFixed | servers/yfinance/manifest.py:17 | a lower-case stripped text is its own normal form |
| Manifest.Kept | servers/yfinance/manifest.py:24-25 | a tool is kept, alone, exactly when it matches |
| Manifest.Matching | servers/yfinance/manifest.py:20-26 | the matches number no more than the tools |
| Manifest.MatchingStep | servers/weather/manifest.py:21-25 | one more tool extends the matches by itself when it matches |
| Manifest.SearchTools | servers/yfinance/manifest.py:14-26 | a blank query returns every tool; otherwise the loop's matches |
| Manifest.CollectMatches | servers/weather/manifest.py:20-26 | the loop gives the matching tools in list order |
| Manifest.MatchingMembers | servers/weather/manifest.py:21-25 | a tool is returned exactly when it is listed and its name or description holds the query |
| Manifest.MatchingCounts | servers/weather/manifest.py:21-25 | each matching tool keeps all its copies and every other tool is dropped |
| Manifest.MatchingInOrder | servers/weather/manifest.py:20-26 | the matches are a subsequence of `TOOLS` |
| Manifest.BlankQueryListsAll | servers/weather/manifest.py:17-19 | a missing or blank query gives all of `TOOLS` |
| Manifest.QueryAnswer | servers/yfinance/manifest.py:17-26 | a non-blank query gives exactly the matching tools, with their copies, in `TOOLS` order |
| Manifest.SearchNormalized | servers/yfinance/manifest.py:17 | searching with the normalised query gives the same answer |
| Text.StripEnds | src/sandbox/executor.py:262 | a strip neither starts nor ends with white space |
| Text.StripBlank | src/sandbox/executor.py:262-264 | a strip is empty exactly when the text is all white space |
| Text.StripFixed | servers/yfinance/manifest.py:17 | a text without end white space is its own strip |
| Text.SplitWords | servers/_code_mode.py:79 | the words of `split()` are non-empty and free of white space |
| Text.CollapseSpacing | servers/_code_mode.py:311 | `" ".join(s.split())` leaves single spaces between words and nothing else |
| Text.ContainsAt | servers/_code_mode.py:53 | `sub in s` holds exactly when `sub` occurs at some position |
| Text.SplitOnShape | servers/_runtime.py:201 | `split(",")` gives at least one part, none holding a comma, which re-join to the text |
| Text.PartitionShape | servers/_runtime.py:205 | `partition("=")` keeps the separator out of the head and puts the text back together |
| Text.IndexOf | servers/_runtime.py:205 | the first occurrence of a character, or the length when there is none |
| Text.LowerFixed | servers/yfinance/manifest.py:17 | lower-casing a text without capitals changes nothing |
| Text.NatToString | src/sandbox/executor.py:168 | the timeout's digits are non-empty decimal digits |

## Left out

- The remote platform (`modal.App.lookup`, `Sandbox.create`, `exec`, stream writes and reads, waits, `terminate`, volumes): an oracle of the call log. `Agents` takes the sandbox `Sandbox.create` would return as the parameter `created`.
- asyncio: a timeout is an oracle answer (`Raise(Timeout)`), not elapsed time; the 5-second grace read in `_stop_python_session` is a read with limit 5.
- Stream shape sniffing in `_readline` and `_read_stream` (`__anext__`, `__aiter__`, `readline`, awaitables): a stream is present or absent, and a present one is read by the oracle.
- `json.dumps` and `json.loads`: oracles (`dumps` is a text, `loads` a parse result). Request and reply records are `Json.Value`s.
- `exec`/`compile` of user code and output capture in `run`: an oracle over an abstract namespace.
- Executor.Sandbox.ExecutePython: an exception raised by the restart inside the `except` escapes `execute_python` (an `Outcome` `Raise`). The code never catches it, although the system's documentation says tool calls never raise. The model follows the code.
- Executor.StopAccounted: stated for a platform whose waits return (`WaitsReturn`). A wait that raises is suppressed and the handle is still cleared, so the interpreter keeps running unaccounted; `Executor.StopFailedWaitLeaks` states that case.
- Executor.RestartAccounted: stated for a platform whose waits return; after a failed wait a restart leaves two interpreters running, as `Executor.RestartFailedWaitLeaks` states.
- Executor.ExecuteFromAccounted: stated for a platform whose waits return, for the same reason.
- Executor.ExecuteKeepsAccounted: stated for a platform whose waits return, for the same reason.
- Executor.TerminateProps: that nothing is left running is stated for a platform whose waits return; the handle ends as None either way.
- Executor.Sandbox.ExecutePython: keeps `Valid()` for a platform whose waits return; with a failing wait the sandbox can lose track of an interpreter.
- The "Python session failed" fallback of `execute_python` is unreachable. `Executor.ExecutePolicy` shows that two failed attempts always leave an exception.
- The handlers' `args["code"]` / `args["command"]` lookup: the tools take the code or command text itself. The `print(out)` in each handler is left out.
- `str.lower`/`upper`/`capitalize` map ASCII letters only; non-ASCII case mapping is left out.
- Json.StrRepr: of the non-ASCII characters, only those from U+0080 to U+00A0 and U+00AD are escaped. Python also escapes the other code points its Unicode database calls unprintable, as `\uXXXX` or `\UXXXXXXXX`; that database is not part of this model.
- Json.ReadStrLiteral reads back only the escapes `repr` writes. The literal of a list or a dict is not read back; only its strings are.
- Floats: `float(value)` in `_as_float` is the oracle `toFloat`, and a float is carried as its `repr` text.
- Runtime.AsFloat: only the `None` branch is stated; the parsing branch is the oracle's answer.
- `_build_server` and the pydantic-ai server classes: the parameter `build` of `Runtime.Runtime`.
- `importlib.import_module` in `_load_static_config`: the parameter `modules`, a lookup from provider to module outcome (no module, another import error, or a module with or without `SERVER_CONFIG`).
- `_load_static_config` returns copies of the cached dict (`dict(...)`). Values cannot be aliased here, so the copy is the dict itself.
- Dicts in JSON input are assumed to have distinct keys, as `json.loads` guarantees. Where a proof needs this, it takes `Dicts.UniqueKeys` as a precondition.
- `_write_env_local`'s file I/O: `Generator.MergedText` takes the file's lines (`None` when there is no file) and returns the text to write (`None` for no write). `splitlines` and the console message are left out.
- `_sync_modal_secret`, `sync_to_disk`, `maybe_upload_to_modal`, `_write_*`, `_render_code_mode_helper` (a literal copy of `servers/_code_mode.py`, modelled once), `_render_tool_module`, `_render_interfaces`, `_render_manifest`, `_render_runtime_module`, `_print_next_steps`, `parse_args`, `fetch_tools` and `main`: file writing, CLI wiring and literal text.
- `list_providers`, `get_tool_interface`, `get_all_interfaces` and `discover` in the code-mode helper: thin wrappers around the modelled pieces and `json.dumps`.
- CodeMode.SearchTools: the servers directory is a parameter, a sequence of entries (name, is a directory, has a manifest, the manifest's `TOOLS` value). Directory sort order is the entries sorted by name. A manifest that fails to load has `TOOLS` of `[]`, as `_load_manifest_tools` returns.
- CodeMode.GenerateTypedDict and Generator.JsonSchemaToTypedDict render property types with the corrected renderers (`TypeFixed`), as listed under Findings.
- Manifest.SearchTools: `TOOLS` is a parameter rather than the generated literal.
- Generator.UnquoteEnvValue is the reference reader used to state the round trip. The dotenv library that reads `.env.local` is not part of this model.
- The weather table, statistics and HTTP fetching of the MCP data servers, the Gradio application and the LLM configuration are outside the modelled core.

## Findings

| source | as written | input that shows it | evidently intended | confidence | as-written member | corrected member |
|---|---|---|---|---|---|---|
| servers/_code_mode.py:268 | `schema_type in type_map` hashes the type before the list test at line 275, so a list of types raises `TypeError: unhashable type: 'list'` | `{"type": ["string", "null"]}` | the union `str \| None` that the branch at lines 275-276 builds | high, not executed | CodeMode.StringOrNullRaises | CodeMode.StringOrNullFixed |
| src/utils/mcp_to_py.py:883 | the same lookup before the list test at line 898 raises `TypeError` for a list of types | `{"type": ["string", "null"]}` | `str \| None`, by the branch at lines 898-900 | high, not executed | Generator.StringOrNullRaises | Generator.StringOrNullFixed |
| src/utils/mcp_to_py.py:892-894 | a truthy `additionalProperties` is rendered as a schema, so `true` raises `AttributeError: 'bool' object has no attribute 'get'` | `{"type": "object", "additionalProperties": true}` | `dict[str, Any]`, since `true` allows any value | medium, not executed | Generator.AdditionalTrueRaises | Generator.AdditionalTrueFixed |
