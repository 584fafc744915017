/** The runtime that generated tool wrappers call into: argument coercion,
    the resolution of a provider's connection settings from environment
    variables and a static per-provider config, the parsers for mapping and
    sequence settings, and the two caches (static configs, built servers).
    The process environment is a `map`; `json.loads`, `float(text)`, the
    import of a provider's config module and the construction of an MCP
    server object are oracles. */
module Runtime {
  import opened Wrappers
  import Text
  import Dicts
  import Json
  import Naming

  const CONFIG_PREFIX: string := "MCP_SERVER"

  // The texts of the errors raised here.
  const BOTH_GIVEN: string := "Pass arguments either positionally (single dict) or via kwargs, not both."
  const NOT_SINGLE_DICT: string := "Pass a single dictionary positional argument or use keyword arguments."
  const NOT_A_DICT: string := "Positional tool arguments must be provided as a dict"
  const MAPPING_MESSAGE: string := "Mapping values must be JSON objects or comma-separated KEY=VALUE entries"
  const SEQUENCE_MESSAGE: string := "Sequence values must be JSON arrays, strings, or comma/space separated text"
  const INVALID_FLOAT: string := "Invalid float value '"
  const NO_LOWER: string := "' object has no attribute 'lower'"
  const MISSING_URL: string := "Missing MCP server URL for provider '"
  const SET_URL: string := "'. Set MCP_SERVER_<PROVIDER>_URL or MCP_SERVER_URL."
  const MISSING_COMMAND: string := "Missing MCP server command for provider '"
  const SET_COMMAND: string := "'. Set MCP_SERVER_<PROVIDER>_COMMAND."
  const UNSUPPORTED: string := "Unsupported MCP transport '"
  const FOR_PROVIDER: string := "' for provider '"
  const USE_TRANSPORT: string := "'. Use 'http' or 'stdio'."

  // ---------------------------------------------------------------------
  // Arguments

  /** `_coerce_arguments(args, kwargs)`: either one positional dict or
      keyword arguments, never both. */
  function CoerceArguments(args: seq<Json.Value>, kwargs: Dicts.Dict<Json.Value>): (r: Outcome<Dicts.Dict<Json.Value>>)
    ensures r.Ok? <==> args == [] || (|args| == 1 && kwargs == [] && args[0].Obj?)
    ensures args == [] ==> r == Ok(kwargs)
    ensures args != [] && r.Ok? ==> r.value == args[0].fields
    ensures args != [] && kwargs != [] ==> r.Raise? && r.exc.Error? && r.exc.kind == "ValueError"
    ensures kwargs == [] && args != [] && r.Raise? ==> r.exc.Error? && r.exc.kind == "TypeError"
  {
    if args != [] && kwargs != [] then
      Raise(Error("ValueError", BOTH_GIVEN))
    else if args == [] then Ok(kwargs)
    else if |args| != 1 then
      Raise(Error("TypeError", NOT_SINGLE_DICT))
    else if !args[0].Obj? then
      Raise(Error("TypeError", NOT_A_DICT))
    else Ok(args[0].fields)
  }

  // ---------------------------------------------------------------------
  // Environment variables

  /** `os.getenv(name)`. */
  function Getenv(env: map<string, string>, name: string): Option<string> {
    if name in env then Some(env[name]) else None
  }

  function ScopedName(providerKey: string, suffix: string): string {
    CONFIG_PREFIX + "_" + providerKey + "_" + suffix
  }

  function GlobalName(suffix: string): string {
    CONFIG_PREFIX + "_" + suffix
  }

  /** `_get_env(provider_key, suffix)`. */
  function GetEnv(env: map<string, string>, providerKey: string, suffix: string): Option<string> {
    if providerKey != [] && Truthy(Getenv(env, ScopedName(providerKey, suffix))) then
      Getenv(env, ScopedName(providerKey, suffix))
    else Getenv(env, GlobalName(suffix))
  }

  /** The provider's own variable wins when the key is non-empty and the
      variable is set to a non-empty text; otherwise the global variable is
      read, whatever it holds. */
  lemma GetEnvPrecedence(env: map<string, string>, providerKey: string, suffix: string)
    ensures var scoped := ScopedName(providerKey, suffix);
      (providerKey != [] && scoped in env && env[scoped] != []) ==> GetEnv(env, providerKey, suffix) == Some(env[scoped])
    ensures var scoped := ScopedName(providerKey, suffix);
      !(providerKey != [] && scoped in env && env[scoped] != []) ==>
        GetEnv(env, providerKey, suffix) == (if GlobalName(suffix) in env then Some(env[GlobalName(suffix)]) else None)
  {
  }

  /** The truth value of a `str | None`. */
  predicate Truthy(v: Option<string>) {
    v.Some? && v.value != []
  }

  /** `a or b` on two `str | None`. */
  function EnvOr(a: Option<string>, b: Option<string>): Option<string> {
    if Truthy(a) then a else b
  }

  /** A `str | None` as a Python value. */
  function EnvValue(v: Option<string>): Json.Value {
    if v.Some? then Json.Str(v.value) else Json.Null
  }

  /** Python's `a or b`: the first operand when it is truthy, else the
      second. */
  function Or(a: Json.Value, b: Json.Value): Json.Value {
    if Json.Truthy(a) then a else b
  }

  /** `_get_env(key, suffix) or _get_env("", suffix)`, the pattern every
      setting reads its variables with. */
  function Setting(env: map<string, string>, providerKey: string, suffix: string): Option<string> {
    EnvOr(GetEnv(env, providerKey, suffix), GetEnv(env, "", suffix))
  }

  /** `setting or static_config.get(field)`: the variables first, then the
      static config entry. */
  function SettingOr(env: map<string, string>, providerKey: string, suffix: string,
                     staticConfig: Dicts.Dict<Json.Value>, field: string): Json.Value {
    Or(EnvValue(Setting(env, providerKey, suffix)), Json.GetOr(staticConfig, field, Json.Null))
  }

  /** `_as_float(value, default)`: `float(value)` is the oracle `toFloat`,
      which gives the float's `repr` or nothing when the text is not a
      float. */
  function AsFloat(value: Option<string>, default: Json.Value, toFloat: string -> Option<string>): (r: Outcome<Json.Value>)
    ensures value.None? ==> r == Ok(default)
  {
    match value
    case None => Ok(default)
    case Some(text) =>
      match toFloat(text)
      case Some(repr) => Ok(Json.Num(repr))
      case None => Raise(Error("ValueError", INVALID_FLOAT + text + "'"))
  }

  // ---------------------------------------------------------------------
  // Mapping and sequence settings

  function MappingError(): Exc {
    Error("ValueError", MAPPING_MESSAGE)
  }

  predicate Blank(part: string) {
    Text.Strip(part) == []
  }

  /** What one comma-separated entry is: blank, without `=`, or a key and
      a value, split at the first `=` and both stripped. */
  datatype Entry = Skip | Malformed | Pair(key: string, val: string)

  function EntryOf(part: string): Entry {
    var p := Text.Strip(part);
    if p == [] then Skip
    else
      var kv := Text.Partition(p, '=');
      if !kv.found then Malformed else Pair(Text.Strip(kv.before), Text.Strip(kv.after))
  }

  /** An entry is skipped exactly when it is blank, and malformed exactly
      when it is not blank and has no `=`. */
  lemma EntryOfProps(part: string)
    ensures EntryOf(part).Skip? <==> Blank(part)
    ensures EntryOf(part).Malformed? <==> !Blank(part) && '=' !in Text.Strip(part)
  {
  }

  function Entries(parts: seq<string>): (r: seq<Entry>)
    ensures |r| == |parts|
  {
    seq(|parts|, i requires 0 <= i < |parts| => EntryOf(parts[i]))
  }

  /** The loop of `_parse_mapping` over the comma-separated entries from
      `items` on: blank entries are skipped, a malformed one stops the loop
      (nothing here; the caller raises), and a later key overrides an
      earlier one. */
  function CommaItems(entries: seq<Entry>, items: Dicts.Dict<string>): Option<Dicts.Dict<string>>
    decreases |entries|
  {
    if entries == [] then Some(items)
    else
      match entries[0]
      case Skip => CommaItems(entries[1..], items)
      case Malformed => None
      case Pair(k, v) => CommaItems(entries[1..], Dicts.Put(items, k, v))
  }

  /** An independent reading of the entries: the value of the last
      well-formed entry with key `k`. */
  function LastValue(entries: seq<Entry>, k: string): Option<string>
    decreases |entries|
  {
    if entries == [] then None
    else
      var later := LastValue(entries[1..], k);
      if later.Some? then later
      else if entries[0].Pair? && entries[0].key == k then Some(entries[0].val)
      else None
  }

  /** `{str(key): str(val) for key, val in parsed.items()}`. */
  function StrValues(fields: Dicts.Dict<Json.Value>): Dicts.Dict<string> {
    seq(|fields|, i requires 0 <= i < |fields| => (fields[i].0, Json.PyStr(fields[i].1)))
  }

  /** The comma path of `_parse_mapping`: `items or None`. */
  function CommaMapping(entries: seq<Entry>): Outcome<Option<Dicts.Dict<string>>> {
    match CommaItems(entries, [])
    case None => Raise(MappingError())
    case Some(items) => Ok(if items == [] then None else Some(items))
  }

  /** `_parse_mapping(value)`: nothing for an empty value; a JSON dict as a
      dict of texts; text that is not JSON, or JSON `null`, as
      comma-separated `KEY=VALUE` entries, nothing when there are none; any
      other JSON value raises. */
  function ParseMappingSpec(value: Option<string>, loads: string -> Json.Parsed): Outcome<Option<Dicts.Dict<string>>> {
    if !Truthy(value) then Ok(None)
    else
      var parsed := loads(value.value);
      if parsed.Invalid? || parsed.value.Null? then
        CommaMapping(Entries(Text.SplitOn(value.value, ',')))
      else if !parsed.value.Obj? then Raise(MappingError())
      else Ok(Some(StrValues(parsed.value.fields)))
  }

  /** `_parse_mapping(value)`, with its loop over the entries. */
  method ParseMapping(value: Option<string>, loads: string -> Json.Parsed) returns (r: Outcome<Option<Dicts.Dict<string>>>)
    ensures r == ParseMappingSpec(value, loads)
  {
    if !Truthy(value) {
      return Ok(None);
    }
    var text := value.value;
    var parsed := loads(text);
    if parsed.Invalid? || parsed.value.Null? {
      var items := CollectCommaItems(Text.SplitOn(text, ','));
      if items.None? {
        return Raise(MappingError());
      }
      return Ok(if items.value == [] then None else Some(items.value));
    }
    if !parsed.value.Obj? {
      return Raise(MappingError());
    }
    r := Ok(Some(StrValues(parsed.value.fields)));
  }

  /** The loop of `_parse_mapping` over the comma-separated parts. */
  method CollectCommaItems(parts: seq<string>) returns (r: Option<Dicts.Dict<string>>)
    ensures r == CommaItems(Entries(parts), [])
  {
    var items: Dicts.Dict<string> := [];
    ghost var entries := Entries(parts);
    for i := 0 to |parts|
      invariant CommaItems(entries, []) == CommaItems(entries[i..], items)
    {
      CommaItemsAt(entries, i, items);
      ghost var e := EntryOf(parts[i]);
      assert entries[i] == e;
      var part := Text.Strip(parts[i]);
      if part == [] {
        assert e == Skip;
        continue;
      }
      var kv := Text.Partition(part, '=');
      if !kv.found {
        assert e == Malformed;
        return None;
      }
      assert e == Pair(Text.Strip(kv.before), Text.Strip(kv.after));
      items := Dicts.Put(items, Text.Strip(kv.before), Text.Strip(kv.after));
    }
    assert entries[|parts|..] == [];
    r := Some(items);
  }

  /** The loop from entry `i` on, unfolded once. */
  lemma CommaItemsAt(entries: seq<Entry>, i: nat, items: Dicts.Dict<string>)
    requires i < |entries|
    ensures CommaItems(entries[i..], items) == match entries[i]
      case Skip => CommaItems(entries[i + 1..], items)
      case Malformed => None
      case Pair(k, v) => CommaItems(entries[i + 1..], Dicts.Put(items, k, v))
  {
    var rest := entries[i..];
    assert rest != [] && rest[0] == entries[i];
    assert rest[1..] == entries[i + 1..];
    match entries[i]
    case Skip =>
    case Malformed =>
    case Pair(k, v) =>
  }

  /** The loop stops short exactly when one of the entries is malformed. */
  lemma {:induction false} CommaItemsStop(entries: seq<Entry>, items: Dicts.Dict<string>)
    ensures CommaItems(entries, items).None? <==> exists i :: 0 <= i < |entries| && entries[i].Malformed?
    decreases |entries|
  {
    if entries != [] {
      var e := entries[0];
      var next := if e.Pair? then Dicts.Put(items, e.key, e.val) else items;
      CommaItemsStop(entries[1..], next);
      if exists i :: 1 <= i < |entries| && entries[i].Malformed? {
        var i :| 1 <= i < |entries| && entries[i].Malformed?;
        assert entries[1..][i - 1].Malformed?;
      }
      if exists i :: 0 <= i < |entries[1..]| && entries[1..][i].Malformed? {
        var i :| 0 <= i < |entries[1..]| && entries[1..][i].Malformed?;
        assert entries[i + 1].Malformed?;
      }
    }
  }

  /** Reading key `k` from the parsed entries gives the value of its last
      entry, or what `items` held before when no entry has that key. */
  lemma {:induction false} CommaItemsGet(entries: seq<Entry>, items: Dicts.Dict<string>, k: string)
    requires CommaItems(entries, items).Some?
    ensures Dicts.Get(CommaItems(entries, items).value, k)
      == if LastValue(entries, k).Some? then LastValue(entries, k) else Dicts.Get(items, k)
    decreases |entries|
  {
    if entries != [] {
      var e := entries[0];
      if e.Skip? {
        CommaItemsGet(entries[1..], items, k);
      } else {
        CommaItemsGet(entries[1..], Dicts.Put(items, e.key, e.val), k);
        Dicts.PutProps(items, e.key, e.val);
      }
    }
  }

  /** The entries leave the dict empty exactly when it was empty and every
      entry is blank. */
  lemma {:induction false} CommaItemsEmpty(entries: seq<Entry>, items: Dicts.Dict<string>)
    requires CommaItems(entries, items).Some?
    ensures CommaItems(entries, items).value == [] <==> items == [] && forall i :: 0 <= i < |entries| ==> entries[i].Skip?
    decreases |entries|
  {
    if entries != [] {
      var e := entries[0];
      if e.Skip? {
        CommaItemsEmpty(entries[1..], items);
        assert forall i :: 1 <= i < |entries| ==> entries[i] == entries[1..][i - 1];
      } else {
        var items' := Dicts.Put(items, e.key, e.val);
        Dicts.PutProps(items, e.key, e.val);
        assert Dicts.Get(items', e.key).Some?;
        CommaItemsEmpty(entries[1..], items');
      }
    }
  }

  /** What the comma path promises: it raises exactly when an entry is
      malformed, gives nothing exactly when every entry is blank, and
      otherwise gives for each key the value of its last entry. */
  lemma CommaMappingProps(entries: seq<Entry>)
    ensures var r := CommaMapping(entries);
      (r.Raise? <==> exists i :: 0 <= i < |entries| && entries[i].Malformed?)
      && (r == Ok(None) <==> forall i :: 0 <= i < |entries| ==> entries[i].Skip?)
      && (forall k :: r.Ok? && r.value.Some? ==> Dicts.Get(r.value.value, k) == LastValue(entries, k))
  {
    CommaItemsStop(entries, []);
    if CommaItems(entries, []).Some? {
      CommaItemsEmpty(entries, []);
      forall k {
        CommaItemsGet(entries, [], k);
      }
    }
  }

  /** `_parse_mapping` gives nothing for an empty value, reads text that is
      not JSON (or is JSON `null`) as comma-separated entries, and raises
      for JSON that is neither a dict nor `null`. */
  lemma ParseMappingPaths(value: Option<string>, loads: string -> Json.Parsed)
    ensures !Truthy(value) ==> ParseMappingSpec(value, loads) == Ok(None)
    ensures Truthy(value) && (loads(value.value).Invalid? || loads(value.value).value.Null?) ==>
      ParseMappingSpec(value, loads) == CommaMapping(Entries(Text.SplitOn(value.value, ',')))
    ensures Truthy(value) && loads(value.value).Parsed? && !loads(value.value).value.Null? && !loads(value.value).value.Obj?
      ==> ParseMappingSpec(value, loads) == Raise(MappingError())
    ensures Truthy(value) && loads(value.value).Parsed? && loads(value.value).value.Obj? ==>
      ParseMappingSpec(value, loads) == Ok(Some(StrValues(loads(value.value).value.fields)))
  {
  }

  /** `_parse_sequence(value)`: nothing for an empty value; a JSON list as
      the `str()` of its items; a JSON string alone; text that is not JSON,
      or JSON `null`, split on commas and white space; any other JSON value
      raises. */
  function ParseSequence(value: Option<string>, loads: string -> Json.Parsed): Outcome<seq<string>> {
    if !Truthy(value) then Ok([])
    else
      var parsed := loads(value.value);
      if parsed.Parsed? && parsed.value.Arr? then
        var items := parsed.value.items;
        Ok(seq(|items|, i requires 0 <= i < |items| => Json.PyStr(items[i])))
      else if parsed.Parsed? && parsed.value.Str? then Ok([parsed.value.s])
      else if parsed.Parsed? && !parsed.value.Null? then
        Raise(Error("ValueError", SEQUENCE_MESSAGE))
      else Ok(StrippedNonBlank(CommaWords(value.value)))
  }

  /** `value.replace(",", " ").split()`. */
  function CommaWords(value: string): seq<string> {
    Text.Split(Text.Replace(value, ",", " "))
  }

  /** `[s.strip() for s in segments if s.strip()]`. */
  function StrippedNonBlank(segments: seq<string>): seq<string> {
    if segments == [] then []
    else
      var s := Text.Strip(segments[0]);
      (if s == [] then [] else [s]) + StrippedNonBlank(segments[1..])
  }

  lemma StripNoSpace(s: string)
    requires Text.NoSpace(s)
    ensures Text.Strip(s) == s
  {
    assert Text.TrimLeft(s, Text.IsSpace) == s;
  }

  /** Over words of `str.split()` the comprehension keeps every word. */
  lemma {:induction false} StrippedWords(segments: seq<string>)
    requires forall i :: 0 <= i < |segments| ==> segments[i] != [] && Text.NoSpace(segments[i])
    ensures StrippedNonBlank(segments) == segments
  {
    if segments != [] {
      StripNoSpace(segments[0]);
      StrippedWords(segments[1..]);
    }
  }

  predicate NotComma(c: char) { c != ',' }

  lemma {:induction false} ReplaceCommas(s: string)
    ensures Naming.AllSat(Text.Replace(s, ",", " "), NotComma)
    decreases |s|
  {
    if |s| >= 1 {
      ReplaceCommas(s[1..]);
    }
  }

  /** The words of the text with its commas made spaces hold no comma. */
  lemma WordsWithoutCommas(value: string)
    ensures forall i :: 0 <= i < |CommaWords(value)| ==> ',' !in CommaWords(value)[i]
  {
    var spaced := Text.Replace(value, ",", " ");
    var words := Text.Split(spaced);
    ReplaceCommas(value);
    Naming.SplitSat(spaced, NotComma);
    forall i | 0 <= i < |words| ensures ',' !in words[i] {
      assert words[i] in words;
      assert Naming.AllSat(words[i], NotComma);
    }
  }

  /** The text path gives the non-empty pieces between commas and white
      space: each item is non-empty and holds neither. */
  lemma ParseSequenceText(value: string, loads: string -> Json.Parsed)
    requires value != [] && (loads(value).Invalid? || loads(value).value.Null?)
    ensures ParseSequence(Some(value), loads) == Ok(CommaWords(value))
    ensures Text.AllWords(CommaWords(value))
    ensures forall i :: 0 <= i < |CommaWords(value)| ==> ',' !in CommaWords(value)[i]
  {
    var words := CommaWords(value);
    assert ParseSequence(Some(value), loads) == Ok(StrippedNonBlank(words));
    Text.SplitWords(Text.Replace(value, ",", " "));
    StrippedWords(words);
    WordsWithoutCommas(value);
  }

  /** A JSON scalar such as a bare number is neither a list nor a string nor
      text to split: `MCP_SERVER_X_ARGS=8080` raises. */
  lemma ScalarSequenceRaises(value: string, loads: string -> Json.Parsed, n: int)
    requires value != [] && loads(value) == Json.Parsed(Json.Int(n))
    ensures ParseSequence(Some(value), loads).Raise?
  {
  }

  // ---------------------------------------------------------------------
  // Connection settings of a provider

  /** What importing a provider module comes to: no such module, an import
      that raises anything else (an error in the module's own code, say),
      or a module with or without `SERVER_CONFIG`. */
  datatype ModuleLookup =
    | NotFound
    | Failed(exc: Exc)
    | Found(serverConfig: Option<Dicts.Dict<Json.Value>>)

  /** The config `_load_static_config` takes from a lookup: `{}` when the
      module is missing, or its config is missing or empty; only a
      `ModuleNotFoundError` is caught, so any other import error escapes. */
  function StaticConfigOf(m: ModuleLookup): (r: Outcome<Dicts.Dict<Json.Value>>)
    ensures r.Raise? <==> m.Failed?
    ensures m.Failed? ==> r == Raise(m.exc)
    ensures m.Found? && m.serverConfig.Some? ==> r == Ok(m.serverConfig.value)
    ensures m.NotFound? || m == Found(None) ==> r == Ok([])
  {
    match m
    case NotFound => Ok([])
    case Failed(e) => Raise(e)
    case Found(None) => Ok([])
    case Found(Some(c)) => Ok(c)
  }

  /** `_load_provider_config` once its static config is loaded: an import
      error escapes, any other static config is resolved. */
  function ConfigWith(loaded: Outcome<Dicts.Dict<Json.Value>>, provider: string, env: map<string, string>,
                      loads: string -> Json.Parsed, toFloat: string -> Option<string>): (r: Outcome<Json.Value>)
    ensures loaded.Raise? ==> r == Raise(loaded.exc)
    ensures loaded.Ok? ==> r == ProviderConfig(provider, loaded.value, env, loads, toFloat)
  {
    match loaded
    case Raise(e) => Raise(e)
    case Ok(c) => ProviderConfig(provider, c, env, loads, toFloat)
  }

  /** `(_get_env(key, "TRANSPORT") or _get_env("", "TRANSPORT") or
      static_config.get("transport") or "http").lower()`; a non-text value
      from the staticConfig config has no `lower`. */
  function ResolveTransport(env: map<string, string>, providerKey: string, staticConfig: Dicts.Dict<Json.Value>): Outcome<string> {
    var t := Or(Or(EnvValue(Setting(env, providerKey, "TRANSPORT")), Json.GetOr(staticConfig, "transport", Json.Null)), Json.Str("http"));
    if t.Str? then Ok(Text.Lower(t.s))
    else Raise(Error("AttributeError", "'" + Json.TypeName(t) + NO_LOWER))
  }

  /** The transport comes from the provider's variable, else the global
      variable, else the staticConfig config, else "http", and is lower-cased. */
  lemma TransportPrecedence(env: map<string, string>, providerKey: string, staticConfig: Dicts.Dict<Json.Value>)
    ensures var scoped := ScopedName(providerKey, "TRANSPORT");
      var global := GlobalName("TRANSPORT");
      var r := ResolveTransport(env, providerKey, staticConfig);
      var fromStatic := Json.GetOr(staticConfig, "transport", Json.Null);
      (providerKey != [] && scoped in env && env[scoped] != [] ==> r == Ok(Text.Lower(env[scoped])))
      && (!(providerKey != [] && scoped in env && env[scoped] != []) && global in env && env[global] != []
          ==> r == Ok(Text.Lower(env[global])))
      && (!(providerKey != [] && scoped in env && env[scoped] != []) && !(global in env && env[global] != [])
          ==> (fromStatic.Str? && fromStatic.s != [] ==> r == Ok(Text.Lower(fromStatic.s)))
              && (!Json.Truthy(fromStatic) ==> r == Ok("http")))
  {
    GetEnvPrecedence(env, providerKey, "TRANSPORT");
    GetEnvPrecedence(env, "", "TRANSPORT");
    Text.LowerFixed("http");
  }

  /** A texts dict as a Python value. */
  function MappingValue(d: Dicts.Dict<string>): Json.Value {
    Json.Obj(seq(|d|, i requires 0 <= i < |d| => (d[i].0, Json.Str(d[i].1))))
  }

  /** `_parse_mapping(...)`, falling back to the staticConfig entry when it gives
      nothing. */
  function MappingSetting(env: map<string, string>, providerKey: string, suffix: string, staticConfig: Dicts.Dict<Json.Value>,
                          key: string, loads: string -> Json.Parsed): Outcome<Json.Value> {
    match ParseMappingSpec(Setting(env, providerKey, suffix), loads)
    case Raise(e) => Raise(e)
    case Ok(None) => Ok(Json.GetOr(staticConfig, key, Json.Null))
    case Ok(Some(d)) => Ok(MappingValue(d))
  }

  function MissingUrl(provider: string): Exc {
    Error("RuntimeError", MISSING_URL + provider
      + SET_URL)
  }

  function MissingCommand(provider: string): Exc {
    Error("RuntimeError", MISSING_COMMAND + provider + SET_COMMAND)
  }

  function Unsupported(transport: string, provider: string): Exc {
    Error("RuntimeError", UNSUPPORTED + transport + FOR_PROVIDER + provider
      + USE_TRANSPORT)
  }

  /** The dict an HTTP server is described by. */
  function HttpFields(url: Json.Value, headers: Json.Value, timeout: Json.Value, readTimeout: Json.Value): (f: Dicts.Dict<Json.Value>)
    ensures Json.GetOr(f, "transport", Json.Null) == Json.Str("http")
    ensures Json.GetOr(f, "url", Json.Null) == url
  {
    var f := [("transport", Json.Str("http")), ("url", url), ("headers", headers),
              ("timeout", timeout), ("read_timeout", readTimeout)];
    assert "transport" != "url" by { assert "transport"[0] != "url"[0]; }
    HeadThenSecond(f, "transport", "url");
    f
  }

  /** The dict a server run as a local command is described by. */
  function StdioFields(command: Json.Value, args: seq<Json.Value>, childEnv: Json.Value, cwd: Json.Value,
                       timeout: Json.Value, readTimeout: Json.Value): (f: Dicts.Dict<Json.Value>)
    ensures Json.GetOr(f, "transport", Json.Null) == Json.Str("stdio")
    ensures Json.GetOr(f, "command", Json.Null) == command
  {
    var f := [("transport", Json.Str("stdio")), ("command", command), ("args", Json.Arr(args)),
              ("env", childEnv), ("cwd", cwd), ("timeout", timeout), ("read_timeout", readTimeout)];
    assert "transport" != "command" by { assert "transport"[0] != "command"[0]; }
    HeadThenSecond(f, "transport", "command");
    f
  }

  /** In a dict whose first two keys differ, `get` finds the first two
      values under their keys. */
  lemma HeadThenSecond(f: Dicts.Dict<Json.Value>, first: string, second: string)
    requires |f| >= 2 && f[0].0 == first && f[1].0 == second && first != second
    ensures Json.GetOr(f, first, Json.Null) == f[0].1
    ensures Json.GetOr(f, second, Json.Null) == f[1].1
  {
    assert Dicts.Get(f, second) == Dicts.Get(f[1..], second);
    assert f[1..][0] == f[1];
  }

  /** The settings of an HTTP server. */
  function HttpConfig(provider: string, env: map<string, string>, key: string, staticConfig: Dicts.Dict<Json.Value>,
                      loads: string -> Json.Parsed, timeout: Json.Value, readTimeout: Json.Value): Outcome<Json.Value> {
    var url := SettingOr(env, key, "URL", staticConfig, "url");
    if !Json.Truthy(url) then Raise(MissingUrl(provider))
    else
      match MappingSetting(env, key, "HEADERS", staticConfig, "headers", loads)
      case Raise(e) => Raise(e)
      case Ok(headers) =>
        Ok(Json.Obj(HttpFields(url, headers, timeout, readTimeout)))
  }

  /** The settings of a server run as a local command. */
  function StdioConfig(provider: string, env: map<string, string>, key: string, staticConfig: Dicts.Dict<Json.Value>,
                       loads: string -> Json.Parsed, timeout: Json.Value, readTimeout: Json.Value): Outcome<Json.Value> {
    var command := SettingOr(env, key, "COMMAND", staticConfig, "command");
    if !Json.Truthy(command) then Raise(MissingCommand(provider))
    else
      match ParseSequence(Setting(env, key, "ARGS"), loads)
      case Raise(e) => Raise(e)
      case Ok(parsedArgs) =>
        var args :=
          if parsedArgs != [] then Ok(seq(|parsedArgs|, i requires 0 <= i < |parsedArgs| => Json.Str(parsedArgs[i])))
          else Json.Iterate(Or(Json.GetOr(staticConfig, "args", Json.Null), Json.Arr([])));
        if args.Raise? then Raise(args.exc)
        else
          match MappingSetting(env, key, "ENV", staticConfig, "env", loads)
          case Raise(e) => Raise(e)
          case Ok(childEnv) =>
            var cwd := SettingOr(env, key, "CWD", staticConfig, "cwd");
            Ok(Json.Obj(StdioFields(command, args.value, childEnv, cwd, timeout, readTimeout)))
  }

  /** The two timeouts: the provider's variable, else the global variable,
      else the staticConfig entry, else the default. The global variable is
      converted first, so a bad global value raises even when the
      provider's own is set. */
  function Seconds(env: map<string, string>, key: string, staticConfig: Dicts.Dict<Json.Value>, suffix: string,
                   field: string, default: string, toFloat: string -> Option<string>): Outcome<Json.Value> {
    var global := AsFloat(GetEnv(env, "", suffix), Json.GetOr(staticConfig, field, Json.Num(default)), toFloat);
    if global.Raise? then global
    else AsFloat(GetEnv(env, key, suffix), global.value, toFloat)
  }

  /** The connect timeout, 30 seconds by default. */
  function Timeout(env: map<string, string>, key: string, staticConfig: Dicts.Dict<Json.Value>,
                   toFloat: string -> Option<string>): Outcome<Json.Value> {
    Seconds(env, key, staticConfig, "TIMEOUT", "timeout", "30.0", toFloat)
  }

  /** The read timeout, 300 seconds by default. */
  function ReadTimeout(env: map<string, string>, key: string, staticConfig: Dicts.Dict<Json.Value>,
                       toFloat: string -> Option<string>): Outcome<Json.Value> {
    Seconds(env, key, staticConfig, "READ_TIMEOUT", "read_timeout", "300.0", toFloat)
  }

  /** `_load_provider_config(provider)` once the staticConfig config is known. */
  function ProviderConfig(provider: string, staticConfig: Dicts.Dict<Json.Value>, env: map<string, string>,
                          loads: string -> Json.Parsed, toFloat: string -> Option<string>): Outcome<Json.Value> {
    var key := Naming.NormalizeProvider(provider);
    var timeout := Timeout(env, key, staticConfig, toFloat);
    if timeout.Raise? then timeout
    else
      var readTimeout := ReadTimeout(env, key, staticConfig, toFloat);
      if readTimeout.Raise? then readTimeout
      else
        match ResolveTransport(env, key, staticConfig)
        case Raise(e) => Raise(e)
        case Ok(transport) =>
          if transport == "http" then HttpConfig(provider, env, key, staticConfig, loads, timeout.value, readTimeout.value)
          else if transport == "stdio" then StdioConfig(provider, env, key, staticConfig, loads, timeout.value, readTimeout.value)
          else Raise(Unsupported(transport, provider))
  }

  /** A config dict with `transport` "http" and a truthy `url`. */
  predicate IsHttpConfig(v: Json.Value) {
    v.Obj? && Json.GetOr(v.fields, "transport", Json.Null) == Json.Str("http")
    && Json.Truthy(Json.GetOr(v.fields, "url", Json.Null))
  }

  /** A config dict with `transport` "stdio" and a truthy `command`. */
  predicate IsStdioConfig(v: Json.Value) {
    v.Obj? && Json.GetOr(v.fields, "transport", Json.Null) == Json.Str("stdio")
    && Json.Truthy(Json.GetOr(v.fields, "command", Json.Null))
  }

  /** An HTTP config names its transport and has a truthy URL. */
  lemma HttpConfigShape(provider: string, env: map<string, string>, key: string, staticConfig: Dicts.Dict<Json.Value>,
                        loads: string -> Json.Parsed, timeout: Json.Value, readTimeout: Json.Value)
    ensures var r := HttpConfig(provider, env, key, staticConfig, loads, timeout, readTimeout);
      r.Ok? ==> IsHttpConfig(r.value)
  {
    var url := SettingOr(env, key, "URL", staticConfig, "url");
    var headers := MappingSetting(env, key, "HEADERS", staticConfig, "headers", loads);
    var r := HttpConfig(provider, env, key, staticConfig, loads, timeout, readTimeout);
    if Json.Truthy(url) && headers.Ok? {
      assert r == Ok(Json.Obj(HttpFields(url, headers.value, timeout, readTimeout)));
    }
  }

  /** A stdio config names its transport and has a truthy command. */
  lemma StdioConfigShape(provider: string, env: map<string, string>, key: string, staticConfig: Dicts.Dict<Json.Value>,
                         loads: string -> Json.Parsed, timeout: Json.Value, readTimeout: Json.Value)
    ensures var r := StdioConfig(provider, env, key, staticConfig, loads, timeout, readTimeout);
      r.Ok? ==> IsStdioConfig(r.value)
  {
    var command := SettingOr(env, key, "COMMAND", staticConfig, "command");
    var parsedArgs := ParseSequence(Setting(env, key, "ARGS"), loads);
    var childEnv := MappingSetting(env, key, "ENV", staticConfig, "env", loads);
    var r := StdioConfig(provider, env, key, staticConfig, loads, timeout, readTimeout);
    if Json.Truthy(command) && parsedArgs.Ok? && childEnv.Ok? {
      var args :=
        if parsedArgs.value != [] then Ok(seq(|parsedArgs.value|, i requires 0 <= i < |parsedArgs.value| => Json.Str(parsedArgs.value[i])))
        else Json.Iterate(Or(Json.GetOr(staticConfig, "args", Json.Null), Json.Arr([])));
      if args.Ok? {
        var cwd := SettingOr(env, key, "CWD", staticConfig, "cwd");
        assert r == Ok(Json.Obj(StdioFields(command, args.value, childEnv.value, cwd, timeout, readTimeout)));
      }
    }
  }

  /** A resolved config names one of the two transports and has its
      endpoint: an HTTP config a truthy URL, a stdio config a truthy
      command. */
  lemma ProviderConfigShape(provider: string, staticConfig: Dicts.Dict<Json.Value>, env: map<string, string>,
                            loads: string -> Json.Parsed, toFloat: string -> Option<string>)
    ensures var r := ProviderConfig(provider, staticConfig, env, loads, toFloat);
      r.Ok? ==> IsHttpConfig(r.value) || IsStdioConfig(r.value)
  {
    var key := Naming.NormalizeProvider(provider);
    var timeout := Timeout(env, key, staticConfig, toFloat);
    var readTimeout := ReadTimeout(env, key, staticConfig, toFloat);
    var t := ResolveTransport(env, key, staticConfig);
    var r := ProviderConfig(provider, staticConfig, env, loads, toFloat);
    if timeout.Raise? {
      assert r == timeout;
    } else if readTimeout.Raise? {
      assert r == readTimeout;
    } else if t.Raise? {
      assert r == Raise(t.exc);
    } else if t.value == "http" {
      assert r == HttpConfig(provider, env, key, staticConfig, loads, timeout.value, readTimeout.value);
      HttpConfigShape(provider, env, key, staticConfig, loads, timeout.value, readTimeout.value);
    } else if t.value == "stdio" {
      assert r == StdioConfig(provider, env, key, staticConfig, loads, timeout.value, readTimeout.value);
      StdioConfigShape(provider, env, key, staticConfig, loads, timeout.value, readTimeout.value);
    } else {
      assert r == Raise(Unsupported(t.value, provider));
    }
  }

  /** With the timeouts readable, an HTTP provider without a URL, a stdio
      provider without a command, and any other transport raise a
      `RuntimeError` naming the provider. */
  lemma ProviderConfigErrors(provider: string, staticConfig: Dicts.Dict<Json.Value>, env: map<string, string>,
                             loads: string -> Json.Parsed, toFloat: string -> Option<string>)
    requires var key := Naming.NormalizeProvider(provider);
      Timeout(env, key, staticConfig, toFloat).Ok?
      && ReadTimeout(env, key, staticConfig, toFloat).Ok?
    ensures var key := Naming.NormalizeProvider(provider);
      var t := ResolveTransport(env, key, staticConfig);
      var r := ProviderConfig(provider, staticConfig, env, loads, toFloat);
      var url := SettingOr(env, key, "URL", staticConfig, "url");
      var command := SettingOr(env, key, "COMMAND", staticConfig, "command");
      (t == Ok("http") && !Json.Truthy(url) ==> r == Raise(MissingUrl(provider)))
      && (t == Ok("stdio") && !Json.Truthy(command) ==> r == Raise(MissingCommand(provider)))
      && (t.Ok? && t.value != "http" && t.value != "stdio" ==> r == Raise(Unsupported(t.value, provider)))
  {
    var key := Naming.NormalizeProvider(provider);
    var timeout := Timeout(env, key, staticConfig, toFloat);
    var readTimeout := ReadTimeout(env, key, staticConfig, toFloat);
    var t := ResolveTransport(env, key, staticConfig);
    var r := ProviderConfig(provider, staticConfig, env, loads, toFloat);
    if t.Ok? {
      if t.value == "http" {
        assert r == HttpConfig(provider, env, key, staticConfig, loads, timeout.value, readTimeout.value);
      } else if t.value == "stdio" {
        assert r == StdioConfig(provider, env, key, staticConfig, loads, timeout.value, readTimeout.value);
      } else {
        assert r == Raise(Unsupported(t.value, provider));
      }
    }
  }

  /** Two configs get the same fingerprint exactly when they are the same
      up to the order of dict keys; for configs whose keys are already in
      order that means equal. */
  lemma FingerprintCanonical(a: Json.Value, b: Json.Value)
    requires Json.Canonical(a) && Json.Canonical(b)
    ensures Json.SortKeys(a) == Json.SortKeys(b) <==> a == b
  {
    Json.SortKeysCanonical(a);
    Json.SortKeysCanonical(b);
  }

  /** The module state of the runtime: the static-config cache and the
      server cache. `modules` is what importing each provider's module
      finds, `build` is `_build_server`. */
  class Runtime<S> {
    const modules: string -> ModuleLookup
    const loads: string -> Json.Parsed
    const toFloat: string -> Option<string>
    const build: Json.Value -> S
    var staticConfigs: map<string, Dicts.Dict<Json.Value>>
    /** Per provider, the fingerprint of the config its server was built
        from, and the server. The fingerprint is the config with its keys
        ordered, which is what `json.dumps(config, sort_keys=True)`
        serialises. */
    var servers: map<string, (Json.Value, S)>

    constructor (modules: string -> ModuleLookup, loads: string -> Json.Parsed, toFloat: string -> Option<string>,
                 build: Json.Value -> S)
      ensures this.modules == modules && this.loads == loads && this.toFloat == toFloat && this.build == build
      ensures staticConfigs == map[] && servers == map[]
    {
      this.modules, this.loads, this.toFloat, this.build := modules, loads, toFloat, build;
      staticConfigs, servers := map[], map[];
    }

    /** The static config of `provider` given the cache `cache`: the cached
        one, else the module's. */
    function StaticFor(cache: map<string, Dicts.Dict<Json.Value>>, provider: string): Outcome<Dicts.Dict<Json.Value>> {
      if provider in cache then Ok(cache[provider]) else StaticConfigOf(modules(provider))
    }

    /** The cache after loading `provider`'s static config: a loaded config
        is stored, an import error stores nothing. */
    function CacheAfter(cache: map<string, Dicts.Dict<Json.Value>>, provider: string): map<string, Dicts.Dict<Json.Value>> {
      var s := StaticFor(cache, provider);
      if s.Ok? then cache[provider := s.value] else cache
    }

    /** `_load_static_config(provider)`: a cached config is returned as it
        is; otherwise the module's config is cached and returned, and an
        import error other than a missing module escapes and caches
        nothing. */
    method LoadStaticConfig(provider: string) returns (r: Outcome<Dicts.Dict<Json.Value>>)
      modifies this
      ensures servers == old(servers)
      ensures r == StaticFor(old(staticConfigs), provider)
      ensures staticConfigs == CacheAfter(old(staticConfigs), provider)
      ensures provider in old(staticConfigs) ==> r == Ok(old(staticConfigs)[provider]) && staticConfigs == old(staticConfigs)
      ensures provider !in old(staticConfigs) ==>
        r == StaticConfigOf(modules(provider))
        && staticConfigs == (if r.Ok? then old(staticConfigs)[provider := r.value] else old(staticConfigs))
    {
      if provider in staticConfigs {
        r := Ok(staticConfigs[provider]);
        assert staticConfigs == staticConfigs[provider := r.value] by {
          assert forall k :: k in staticConfigs ==> staticConfigs[k] == staticConfigs[provider := r.value][k];
        }
        return;
      }
      r := StaticConfigOf(modules(provider));
      if r.Ok? {
        staticConfigs := staticConfigs[provider := r.value];
      }
    }

    /** `_load_provider_config(provider)` with the environment `env`. */
    method LoadProviderConfig(provider: string, env: map<string, string>) returns (r: Outcome<Json.Value>)
      modifies this
      ensures servers == old(servers)
      ensures staticConfigs == CacheAfter(old(staticConfigs), provider)
      ensures r == ConfigWith(StaticFor(old(staticConfigs), provider), provider, env, loads, toFloat)
    {
      var staticConfig := LoadStaticConfig(provider);
      if staticConfig.Raise? {
        return Raise(staticConfig.exc);
      }
      r := ProviderConfig(provider, staticConfig.value, env, loads, toFloat);
    }

    /** `_get_server(provider)`: the cached server when its fingerprint
        matches the new config's; otherwise a new server replaces that
        provider's entry alone. */
    method GetServer(provider: string, env: map<string, string>) returns (r: Outcome<S>)
      modifies this
      ensures staticConfigs == CacheAfter(old(staticConfigs), provider)
      ensures var config := ConfigWith(StaticFor(old(staticConfigs), provider), provider, env, loads, toFloat);
        (config.Raise? ==> r == Raise(config.exc) && servers == old(servers))
        && (config.Ok? && provider in old(servers) && old(servers)[provider].0 == Json.SortKeys(config.value)
            ==> r == Ok(old(servers)[provider].1) && servers == old(servers))
        && (config.Ok? && !(provider in old(servers) && old(servers)[provider].0 == Json.SortKeys(config.value))
            ==> r == Ok(build(config.value)) && servers == old(servers)[provider := (Json.SortKeys(config.value), build(config.value))])
    {
      var config := LoadProviderConfig(provider, env);
      ServerStepProps(old(servers), provider, config);
      if config.Raise? {
        return Raise(config.exc);
      }
      var fingerprint := Json.SortKeys(config.value);
      if provider in servers && servers[provider].0 == fingerprint {
        return Ok(servers[provider].1);
      }
      var server := build(config.value);
      servers := servers[provider := (fingerprint, server)];
      r := Ok(server);
      assert (r, servers) == ServerStep(old(servers), provider, config);
    }

    /** The answer of `_get_server` and its new server cache, once the config
        `config` is resolved. */
    function ServerStep(cache: map<string, (Json.Value, S)>, provider: string, config: Outcome<Json.Value>)
      : (Outcome<S>, map<string, (Json.Value, S)>)
    {
      if config.Raise? then (Raise(config.exc), cache)
      else
        var fingerprint := Json.SortKeys(config.value);
        if provider in cache && cache[provider].0 == fingerprint then (Ok(cache[provider].1), cache)
        else
          var server := build(config.value);
          (Ok(server), cache[provider := (fingerprint, server)])
    }

    /** A config that raises leaves the cache alone, a config with the cached
        fingerprint gives the cached server, and any other config builds a
        server that replaces that provider's entry alone. */
    lemma ServerStepProps(cache: map<string, (Json.Value, S)>, provider: string, config: Outcome<Json.Value>)
      ensures var (r, after) := ServerStep(cache, provider, config);
        (config.Raise? ==> r == Raise(config.exc) && after == cache)
        && (config.Ok? && provider in cache && cache[provider].0 == Json.SortKeys(config.value)
            ==> r == Ok(cache[provider].1) && after == cache)
        && (config.Ok? && !(provider in cache && cache[provider].0 == Json.SortKeys(config.value))
            ==> r == Ok(build(config.value)) && after == cache[provider := (Json.SortKeys(config.value), build(config.value))])
    {
    }
  }
}
