/** The pure helpers of the generator that turns an MCP server's tool list
    into a Python package: the names it derives (function slugs, class names,
    the provider's environment prefix), the escaping of descriptions and of
    `.env.local` values, the canonical key order of the data it embeds, the
    `KEY=VALUE` options, the merge of secrets into `.env.local`, and the text
    of the `TypedDict` and `__init__.py` it writes. Files are read and written
    elsewhere: the merge takes the old file's lines and returns the new text. */
module Generator {
  import opened Wrappers
  import Text
  import Dicts
  import Json
  import Naming
  import Schema
  import opened Seqs

  // ---------------------------------------------------------------------
  // Names

  /** The prefix used when a provider name has no letter or digit. */
  const DEFAULT_PREFIX: string := "DEFAULT"

  lemma DefaultPrefixKey()
    ensures Naming.IsProviderKey(DEFAULT_PREFIX)
    ensures Naming.NormalizeProvider(DEFAULT_PREFIX) == DEFAULT_PREFIX
  {
    var d := DEFAULT_PREFIX;
    assert forall i :: 0 <= i < |d| ==> Text.IsUpperOrDigit(d[i]);
    Naming.UpperFixed(d);
    Naming.SubRunsFixed(d, Text.IsUpperOrDigit, '_');
    Naming.StripUnderscoresFixed(d);
  }

  /** `_provider_env_prefix(provider)`: the provider key, or `DEFAULT` when
      the name has no letter or digit. */
  function ProviderEnvPrefix(provider: string): (r: string)
    ensures r != [] && Naming.IsProviderKey(r)
    ensures Naming.NormalizeProvider(provider) != [] ==> r == Naming.NormalizeProvider(provider)
    ensures Naming.NormalizeProvider(provider) == [] ==> r == DEFAULT_PREFIX
  {
    Naming.NormalizeProviderShape(provider);
    DefaultPrefixKey();
    var key := Naming.NormalizeProvider(provider);
    if key == [] then DEFAULT_PREFIX else key
  }

  /** A prefix is its own prefix: a generated name can be fed back in. */
  lemma ProviderEnvPrefixIdempotent(provider: string)
    ensures ProviderEnvPrefix(ProviderEnvPrefix(provider)) == ProviderEnvPrefix(provider)
  {
    DefaultPrefixKey();
    Naming.NormalizeProviderIdempotent(provider);
  }

  // ---------------------------------------------------------------------
  // Descriptions

  const TRIPLE: string := "\"\"\""
  const ESCAPED_TRIPLE: string := "\\\"\"\""

  /** `text.replace('"""', '\\"""')`. */
  function EscapeTriple(s: string): string {
    Text.Replace(s, TRIPLE, ESCAPED_TRIPLE)
  }

  /** The replacement read backwards. */
  function UnescapeTriple(s: string): string {
    Text.Replace(s, ESCAPED_TRIPLE, TRIPLE)
  }

  /** `s` begins with `k` double quotes. */
  predicate QuoteRun(s: string, k: nat) {
    k <= |s| && forall i :: 0 <= i < k ==> s[i] == '"'
  }

  /** The escaped text begins with one or two quotes only where the text
      does, and never with three: an escaped run starts with a backslash. */
  lemma {:induction false} EscapedHead(s: string)
    ensures QuoteRun(EscapeTriple(s), 1) ==> QuoteRun(s, 1)
    ensures QuoteRun(EscapeTriple(s), 2) ==> QuoteRun(s, 2)
    ensures !QuoteRun(EscapeTriple(s), 3)
    decreases |s|
  {
    if |s| < 3 {
      assert EscapeTriple(s) == s;
    } else if s[..3] == TRIPLE {
      assert EscapeTriple(s) == ESCAPED_TRIPLE + EscapeTriple(s[3..]);
      assert EscapeTriple(s)[0] == '\\';
    } else {
      var t := EscapeTriple(s[1..]);
      assert EscapeTriple(s) == [s[0]] + t;
      EscapedHead(s[1..]);
      assert |EscapeTriple(s)| == |t| + 1;
      assert EscapeTriple(s)[0] == s[0];
      assert forall i :: 0 <= i < |t| ==> EscapeTriple(s)[i + 1] == t[i];
      assert forall i :: 0 < i < |s| ==> s[i] == s[1..][i - 1];
      assert s[..3] == [s[0], s[1], s[2]];
    }
  }

  /** Escaping loses nothing: reading `\"""` back as `"""` gives the text. */
  lemma {:induction false} EscapeRoundTrip(s: string)
    ensures UnescapeTriple(EscapeTriple(s)) == s
    decreases |s|
  {
    if |s| < 3 {
      assert EscapeTriple(s) == s;
    } else if s[..3] == TRIPLE {
      var x := EscapeTriple(s[3..]);
      assert EscapeTriple(s) == ESCAPED_TRIPLE + x;
      assert (ESCAPED_TRIPLE + x)[..4] == ESCAPED_TRIPLE && (ESCAPED_TRIPLE + x)[4..] == x;
      EscapeRoundTrip(s[3..]);
      assert s == TRIPLE + s[3..];
    } else {
      var x := EscapeTriple(s[1..]);
      assert EscapeTriple(s) == [s[0]] + x;
      EscapeRoundTrip(s[1..]);
      EscapedHead(s[1..]);
      var t := [s[0]] + x;
      if |t| < 4 {
        assert UnescapeTriple(x) == x;
      } else {
        assert x[0] == t[1] && x[1] == t[2] && x[2] == t[3];
        assert !QuoteRun(x, 3);
        assert t[..4] != ESCAPED_TRIPLE;
        assert t[1..] == x;
      }
      assert s == [s[0]] + s[1..];
    }
  }

  /** `_collapse_description` on a text. */
  function CollapseText(s: string): string {
    EscapeTriple(Text.Collapse(s))
  }

  /** `_collapse_description(value)`: nothing for a value that is not
      truthy; otherwise the words of the text joined by single spaces, with
      each `"""` escaped. Only a text has `split`. */
  function CollapseDescription(v: Json.Value): (r: Outcome<string>)
    ensures r.Raise? <==> Json.Truthy(v) && !v.Str?
    ensures !Json.Truthy(v) ==> r == Ok("")
  {
    if !Json.Truthy(v) then Ok("")
    else if !v.Str? then Raise(Schema.NoAttribute(v, "split"))
    else Ok(CollapseText(v.s))
  }

  /** A text's description is empty exactly when the text has no word, and
      reading its escapes back gives the text with normalised spacing. */
  lemma CollapseDescriptionText(s: string)
    ensures CollapseDescription(Json.Str(s)).Ok?
    ensures var r := CollapseDescription(Json.Str(s)).value;
      UnescapeTriple(r) == Text.Collapse(s) && Text.NormalSpacing(UnescapeTriple(r))
      && (r == [] <==> Text.Split(s) == [])
  {
    var c := Text.Collapse(s);
    EscapeRoundTrip(c);
    Text.CollapseSpacing(s);
    var words := Text.Split(s);
    if words != [] {
      assert |c| >= |words[0]| > 0 by {
        JoinFirst(words);
      }
      if |c| >= 3 {
        assert |EscapeTriple(c)| > 0;
      } else {
        assert EscapeTriple(c) == c;
      }
    }
  }

  lemma {:induction false} JoinFirst(parts: seq<string>)
    requires parts != []
    ensures |Text.Join(" ", parts)| >= |parts[0]|
  {
  }

  // ---------------------------------------------------------------------
  // `.env.local` values

  /** One character of `value.replace("\\", "\\\\").replace('"', '\\"')`. */
  function EscapeChar(c: char): string {
    if c == '\\' then "\\\\" else if c == '"' then "\\\"" else [c]
  }

  function EscapeAll(s: string): string
    decreases |s|
  {
    if s == [] then [] else EscapeChar(s[0]) + EscapeAll(s[1..])
  }

  /** `_quote_env_value(value)`: the value in double quotes, each backslash
      and double quote escaped by a backslash (`QuoteIsReplace` shows this is
      the two `str.replace` calls). */
  function QuoteEnvValue(value: string): string {
    "\"" + EscapeAll(value) + "\""
  }

  /** Every occurrence of the character `c` replaced by `rep`, one
      character at a time. */
  function ReplaceChar(s: string, c: char, rep: string): string
    decreases |s|
  {
    if s == [] then [] else (if s[0] == c then rep else [s[0]]) + ReplaceChar(s[1..], c, rep)
  }

  /** For a one-character pattern, `str.replace` is `ReplaceChar`. */
  lemma {:induction false} ReplaceCharIs(s: string, c: char, rep: string)
    ensures Text.Replace(s, [c], rep) == ReplaceChar(s, c, rep)
    decreases |s|
  {
    if s != [] {
      assert s[..1] == [s[0]];
      ReplaceCharIs(s[1..], c, rep);
    }
  }

  lemma {:induction false} ReplaceCharAppend(a: string, b: string, c: char, rep: string)
    ensures ReplaceChar(a + b, c, rep) == ReplaceChar(a, c, rep) + ReplaceChar(b, c, rep)
    decreases |a|
  {
    if a == [] {
      assert a + b == b;
    } else {
      assert (a + b)[0] == a[0] && (a + b)[1..] == a[1..] + b;
      ReplaceCharAppend(a[1..], b, c, rep);
    }
  }

  /** The two replacements, backslashes first, escape each character on its
      own. */
  lemma {:induction false} EscapesEach(s: string)
    ensures ReplaceChar(ReplaceChar(s, '\\', "\\\\"), '"', "\\\"") == EscapeAll(s)
    decreases |s|
  {
    if s != [] {
      var head := if s[0] == '\\' then "\\\\" else [s[0]];
      var rest := ReplaceChar(s[1..], '\\', "\\\\");
      assert ReplaceChar(s, '\\', "\\\\") == head + rest;
      ReplaceCharAppend(head, rest, '"', "\\\"");
      EscapesEach(s[1..]);
      assert ReplaceChar(head, '"', "\\\"") == EscapeChar(s[0]) by {
        if s[0] == '\\' {
          assert head[1..] == ['\\'] && head[1..][1..] == [];
        } else {
          assert head[1..] == [];
        }
      }
    }
  }

  /** `_quote_env_value` as written: backslashes doubled first, then quotes
      escaped. */
  lemma QuoteIsReplace(s: string)
    ensures QuoteEnvValue(s) == "\"" + Text.Replace(Text.Replace(s, "\\", "\\\\"), "\"", "\\\"") + "\""
  {
    ReplaceCharIs(s, '\\', "\\\\");
    ReplaceCharIs(ReplaceChar(s, '\\', "\\\\"), '"', "\\\"");
    EscapesEach(s);
  }

  /** How a dotenv reader takes an escaped text back: a backslash keeps the
      next character; a bare quote or a trailing backslash is malformed. */
  function UnescapeAll(s: string): Option<string>
    decreases |s|
  {
    if s == [] then Some([])
    else if s[0] == '\\' then
      if |s| < 2 then None
      else
        match UnescapeAll(s[2..])
        case None => None
        case Some(rest) => Some([s[1]] + rest)
    else if s[0] == '"' then None
    else
      match UnescapeAll(s[1..])
      case None => None
      case Some(rest) => Some([s[0]] + rest)
  }

  /** Reading a double-quoted value. */
  function UnquoteEnvValue(s: string): Option<string> {
    if |s| >= 2 && s[0] == '"' && s[|s| - 1] == '"' then UnescapeAll(s[1..|s| - 1]) else None
  }

  lemma {:induction false} UnescapeEscaped(s: string)
    ensures UnescapeAll(EscapeAll(s)) == Some(s)
    decreases |s|
  {
    if s != [] {
      UnescapeEscaped(s[1..]);
      var e := EscapeChar(s[0]);
      var t := e + EscapeAll(s[1..]);
      if s[0] == '\\' || s[0] == '"' {
        assert t[0] == '\\' && t[1] == s[0] && t[2..] == EscapeAll(s[1..]);
      } else {
        assert t[0] == s[0] && t[1..] == EscapeAll(s[1..]);
      }
      assert s == [s[0]] + s[1..];
    }
  }

  /** A quoted value reads back as the value. */
  lemma QuoteRoundTrip(value: string)
    ensures UnquoteEnvValue(QuoteEnvValue(value)) == Some(value)
  {
    UnescapeEscaped(value);
    var q := QuoteEnvValue(value);
    assert q[1..|q| - 1] == EscapeAll(value);
  }

  // ---------------------------------------------------------------------
  // Embedded data

  /** `_format_tool_definition(tool_data)`: `repr` of the data with every
      dict's keys sorted. */
  function FormatToolDefinition(data: Json.Value): string {
    Json.Repr(Json.SortKeys(data))
  }

  /** The text does not depend on the order the keys came in: formatting
      already ordered data gives the same text, and data whose dicts are all
      ordered is written as it is. */
  lemma FormatIgnoresOrder(data: Json.Value)
    ensures FormatToolDefinition(Json.SortKeys(data)) == FormatToolDefinition(data)
    ensures Json.Canonical(data) ==> FormatToolDefinition(data) == Json.Repr(data)
  {
    Json.SortKeysIdempotent(data);
    if Json.Canonical(data) {
      Json.SortKeysCanonical(data);
    }
  }

  // ---------------------------------------------------------------------
  // JSON Schema to a Python type annotation

  /** `_json_type_to_python(schema)` as written. `schema.get("type")` comes
      first, so any truthy value that is not a dict raises; the table lookup
      `schema_type in type_mapping` hashes a list of types and raises
      `TypeError`, so the union branch after it is never reached and is not
      part of this definition; a truthy `additionalProperties` is rendered
      as a schema, so `true` raises. A missing `items` is the empty schema,
      `Any`. */
  function TypeAsWritten(schema: Json.Value): Outcome<string>
    decreases schema
  {
    if !Json.Truthy(schema) then Ok("Any")
    else if !schema.Obj? then Raise(Schema.NoAttribute(schema, "get"))
    else
      var fields := schema.fields;
      var t := Json.GetOr(fields, "type", Json.Null);
      if "enum" in Dicts.Keys(fields) then Schema.Literal(Json.GetOr(fields, "enum", Json.Null))
      else
        match Schema.Primitive(t)
        case Raise(e) => Raise(e)
        case Ok(Some(p)) => Ok(p)
        case Ok(None) =>
          if t == Json.Str("array") then
            Dicts.GetIn(fields, "items");
            match Dicts.Get(fields, "items")
            case None => Ok("List[Any]")
            case Some(items) =>
              (match TypeAsWritten(items)
               case Raise(e) => Raise(e)
               case Ok(item) => Ok("List[" + item + "]"))
          else if t == Json.Str("object") then
            Dicts.GetIn(fields, "additionalProperties");
            match Dicts.Get(fields, "additionalProperties")
            case Some(additional) =>
              if Json.Truthy(additional) then
                (match TypeAsWritten(additional)
                 case Raise(e) => Raise(e)
                 case Ok(value) => Ok("dict[str, " + value + "]"))
              else Ok("dict[str, Any]")
            case None => Ok("dict[str, Any]")
          else Ok("Any")
  }

  /** `_json_type_to_python(schema)` corrected: the list test comes before
      the table lookup, so a list of types renders as the union of its
      members, and only a dict `additionalProperties` is rendered as a
      schema, any other truthy value (`true`) giving `dict[str, Any]`. */
  function TypeFixed(schema: Json.Value): Outcome<string>
    decreases schema
  {
    if !Json.Truthy(schema) then Ok("Any")
    else if !schema.Obj? then Raise(Schema.NoAttribute(schema, "get"))
    else
      var fields := schema.fields;
      var t := Json.GetOr(fields, "type", Json.Null);
      if "enum" in Dicts.Keys(fields) then Schema.Literal(Json.GetOr(fields, "enum", Json.Null))
      else if t.Arr? then Schema.TypeOnly(t)
      else
        match Schema.Primitive(t)
        case Raise(e) => Raise(e)
        case Ok(Some(p)) => Ok(p)
        case Ok(None) =>
          if t == Json.Str("array") then
            Dicts.GetIn(fields, "items");
            match Dicts.Get(fields, "items")
            case None => Ok("List[Any]")
            case Some(items) =>
              (match TypeFixed(items)
               case Raise(e) => Raise(e)
               case Ok(item) => Ok("List[" + item + "]"))
          else if t == Json.Str("object") then
            Dicts.GetIn(fields, "additionalProperties");
            match Dicts.Get(fields, "additionalProperties")
            case Some(additional) =>
              if Json.Truthy(additional) && additional.Obj? then
                (match TypeFixed(additional)
                 case Raise(e) => Raise(e)
                 case Ok(value) => Ok("dict[str, " + value + "]"))
              else Ok("dict[str, Any]")
            case None => Ok("dict[str, Any]")
          else Ok("Any")
  }

  /** As written, a schema without `enum` whose type is a list raises
      "unhashable type: 'list'" instead of giving the union. */
  lemma TypeListRaises(schema: Json.Value)
    requires schema.Obj? && "enum" !in Dicts.Keys(schema.fields)
    requires Json.GetOr(schema.fields, "type", Json.Null).Arr?
    ensures TypeAsWritten(schema) == Raise(Error("TypeError", "unhashable type: 'list'"))
  {
    Dicts.GetSome(schema.fields, "type");
    assert Json.Truthy(schema);
    var t := Json.GetOr(schema.fields, "type", Json.Null);
    assert Json.TypeName(t) == "list";
    assert Schema.Primitive(t) == Raise(Schema.Unhashable(t));
    assert Schema.Unhashable(t) == Error("TypeError", "unhashable type: 'list'");
  }

  /** The input that shows it: `{"type": ["string", "null"]}`. */
  lemma StringOrNullRaises()
    ensures TypeAsWritten(Json.Obj([("type", Json.Arr([Json.Str("string"), Json.Str("null")]))]))
      == Raise(Error("TypeError", "unhashable type: 'list'"))
  {
    var schema := Json.Obj([("type", Json.Arr([Json.Str("string"), Json.Str("null")]))]);
    assert Dicts.Keys(schema.fields) == ["type"];
    TypeListRaises(schema);
  }

  /** With the correction, the same schema renders as `str | None`. */
  lemma StringOrNullFixed()
    ensures TypeFixed(Json.Obj([("type", Json.Arr([Json.Str("string"), Json.Str("null")]))])) == Ok("str | None")
  {
    var t := Json.Arr([Json.Str("string"), Json.Str("null")]);
    var schema := Json.Obj([("type", t)]);
    Schema.StringOrNullUnion();
    assert Json.GetOr(schema.fields, "type", Json.Null) == t;
    assert Dicts.Keys(schema.fields) == ["type"];
  }

  /** `{"type": "object", "additionalProperties": true}`. */
  const OPEN_OBJECT: Json.Value := Json.Obj([("type", Json.Str("object")), ("additionalProperties", Json.Bool(true))])

  /** As written, a dict schema that allows any extra property raises:
      `True.get` does not exist, so the error is the `AttributeError`
      "'bool' object has no attribute 'get'". */
  lemma AdditionalTrueRaises()
    ensures TypeAsWritten(OPEN_OBJECT) == Raise(Schema.NoAttribute(Json.Bool(true), "get"))
  {
    var fields := OPEN_OBJECT.fields;
    assert Dicts.Keys(fields) == ["type", "additionalProperties"];
    assert Json.GetOr(fields, "type", Json.Null) == Json.Str("object");
    Schema.ObjectNotPrimitive();
    assert "enum" !in Dicts.Keys(fields);
    assert Dicts.Get(fields, "additionalProperties") == Some(Json.Bool(true));
    assert TypeAsWritten(Json.Bool(true)) == Raise(Schema.NoAttribute(Json.Bool(true), "get"));
  }

  /** With the correction, such a schema is a dict of anything. */
  lemma AdditionalTrueFixed()
    ensures TypeFixed(OPEN_OBJECT) == Ok("dict[str, Any]")
  {
    var fields := OPEN_OBJECT.fields;
    assert Dicts.Keys(fields) == ["type", "additionalProperties"];
    assert Json.GetOr(fields, "type", Json.Null) == Json.Str("object");
    Schema.ObjectNotPrimitive();
    assert "enum" !in Dicts.Keys(fields);
    assert Dicts.Get(fields, "additionalProperties") == Some(Json.Bool(true));
  }

  /** The corrections change nothing that worked before: wherever the
      written function gives a type, the corrected one gives the same. */
  lemma {:induction false} FixAgrees(schema: Json.Value)
    requires TypeAsWritten(schema).Ok?
    ensures TypeFixed(schema) == TypeAsWritten(schema)
    decreases schema
  {
    if Json.Truthy(schema) && schema.Obj? && "enum" !in Dicts.Keys(schema.fields) {
      var fields := schema.fields;
      var t := Json.GetOr(fields, "type", Json.Null);
      if t.Arr? {
        assert false;
      } else if Schema.Primitive(t) == Ok(None) {
        Dicts.GetIn(fields, "items");
        Dicts.GetIn(fields, "additionalProperties");
        if t == Json.Str("array") {
          match Dicts.Get(fields, "items")
          case None =>
          case Some(items) =>
            FixAgrees(items);
        } else if t == Json.Str("object") {
          match Dicts.Get(fields, "additionalProperties")
          case None =>
          case Some(additional) =>
            if Json.Truthy(additional) {
              FixAgrees(additional);
            }
        }
      }
    }
  }

  /** A well-formed schema: a dict, with a list for `enum`, a type name or a
      list of type names for `type`, a well-formed `items`, and for
      `additionalProperties` a flag or a well-formed schema. */
  predicate WellFormed(schema: Json.Value)
    decreases schema
  {
    schema.Obj?
    && (Json.GetOr(schema.fields, "enum", Json.Arr([]))).Arr?
    && (var t := Json.GetOr(schema.fields, "type", Json.Null);
        t.Null? || t.Str? || (t.Arr? && forall i :: 0 <= i < |t.items| ==> t.items[i].Str?))
    && (Dicts.GetIn(schema.fields, "items");
        match Dicts.Get(schema.fields, "items")
        case None => true
        case Some(items) => WellFormed(items))
    && (Dicts.GetIn(schema.fields, "additionalProperties");
        match Dicts.Get(schema.fields, "additionalProperties")
        case None => true
        case Some(additional) => additional.Bool? || WellFormed(additional))
  }

  /** The corrected renderer never raises on a well-formed schema. */
  lemma {:induction false} WellFormedRenders(schema: Json.Value)
    requires WellFormed(schema)
    ensures TypeFixed(schema).Ok?
    decreases schema
  {
    var fields := schema.fields;
    Dicts.GetSome(fields, "enum");
    Dicts.GetIn(fields, "items");
    Dicts.GetIn(fields, "additionalProperties");
    var t := Json.GetOr(fields, "type", Json.Null);
    if t.Arr? {
      Schema.TypeNamesOk(t);
    }
    if Dicts.Get(fields, "items").Some? {
      WellFormedRenders(Dicts.Get(fields, "items").value);
    }
    var additional := Dicts.Get(fields, "additionalProperties");
    if additional.Some? && !additional.value.Bool? {
      WellFormedRenders(additional.value);
    }
  }

  // ---------------------------------------------------------------------
  // The TypedDict of a tool's input

  /** The lines `_json_schema_to_typed_dict` adds for one property: a
      comment with the first 80 characters of the collapsed description when
      there is one, then the field, bare when required and `Optional[...]`
      otherwise. */
  function PropertyLines(name: string, propSchema: Json.Value, required: seq<Json.Value>): Outcome<seq<string>> {
    match TypeFixed(propSchema)
    case Raise(e) => Raise(e)
    case Ok(t) =>
      match Schema.Get(propSchema, "description", Json.Str(""))
      case Raise(e) => Raise(e)
      case Ok(desc) =>
        var field := if Json.Str(name) in required then "    " + name + ": " + t else "    " + name + ": Optional[" + t + "]";
        if !Json.Truthy(desc) then Ok([field])
        else
          match CollapseDescription(desc)
          case Raise(e) => Raise(e)
          case Ok(c) => Ok(["    # " + c[..if |c| <= 80 then |c| else 80], field])
  }

  /** The lines of all properties, in property order, or the first
      exception. */
  function FieldLines(props: Dicts.Dict<Json.Value>, required: seq<Json.Value>): Outcome<seq<string>> {
    if props == [] then Ok([])
    else
      match PropertyLines(props[0].0, props[0].1, required)
      case Raise(e) => Raise(e)
      case Ok(first) =>
        match FieldLines(props[1..], required)
        case Raise(e) => Raise(e)
        case Ok(rest) => Ok(first + rest)
  }

  lemma FieldLinesStep(props: Dicts.Dict<Json.Value>, i: nat, required: seq<Json.Value>, lines: seq<string>, block: seq<string>)
    requires i < |props| && PropertyLines(props[i].0, props[i].1, required) == Ok(block)
    ensures After(lines, FieldLines(props[i..], required)) == After(lines + block, FieldLines(props[i + 1..], required))
  {
    assert props[i..][1..] == props[i + 1..];
    match FieldLines(props[i + 1..], required)
    case Raise(_) =>
    case Ok(rest) =>
      Assoc(lines, block, rest);
  }

  /** The comment over the class: the collapsed description, when given. */
  function ClassHeader(className: string, description: string): seq<string> {
    (if description != [] then ["# " + CollapseText(description)] else []) + ["class " + className + "(TypedDict):"]
  }

  /** What `_json_schema_to_typed_dict(class_name, schema, description)`
      returns. */
  function TypedDictSpec(className: string, schema: Json.Value, description: string): Outcome<string> {
    match Schema.Get(schema, "properties", Json.Obj([]))
    case Raise(e) => Raise(e)
    case Ok(props) =>
      match Schema.Required(schema)
      case Raise(e) => Raise(e)
      case Ok(required) =>
        var header := ClassHeader(className, description);
        if !Json.Truthy(props) then Ok(Text.Join("\n", header + ["    pass  # No parameters required"]))
        else if !props.Obj? then Raise(Schema.NoAttribute(props, "items"))
        else
          match FieldLines(props.fields, required)
          case Raise(e) => Raise(e)
          case Ok(lines) => Ok(Text.Join("\n", header + lines))
  }

  /** `_json_schema_to_typed_dict(class_name, schema, description)`. */
  method JsonSchemaToTypedDict(className: string, schema: Json.Value, description: string) returns (r: Outcome<string>)
    ensures r == TypedDictSpec(className, schema, description)
  {
    var got := Schema.Get(schema, "properties", Json.Obj([]));
    if got.Raise? {
      return Raise(got.exc);
    }
    var props := got.value;
    var req := Schema.Required(schema);
    if req.Raise? {
      return Raise(req.exc);
    }
    var lines: seq<string> := [];
    if description != [] {
      lines := lines + ["# " + CollapseText(description)];
    }
    lines := lines + ["class " + className + "(TypedDict):"];
    ghost var header := lines;
    assert header == ClassHeader(className, description);
    if !Json.Truthy(props) {
      lines := lines + ["    pass  # No parameters required"];
      return Ok(Text.Join("\n", lines));
    }
    if !props.Obj? {
      return Raise(Schema.NoAttribute(props, "items"));
    }
    var i := 0;
    while i < |props.fields|
      invariant 0 <= i <= |props.fields|
      invariant After(header, FieldLines(props.fields, req.value)) == After(lines, FieldLines(props.fields[i..], req.value))
    {
      var block := PropertyLines(props.fields[i].0, props.fields[i].1, req.value);
      if block.Raise? {
        assert FieldLines(props.fields[i..], req.value) == Raise(block.exc);
        return Raise(block.exc);
      }
      FieldLinesStep(props.fields, i, req.value, lines, block.value);
      lines := lines + block.value;
      i := i + 1;
    }
    assert props.fields[i..] == [];
    assert header + FieldLines(props.fields, req.value).value == lines;
    r := Ok(Text.Join("\n", lines));
  }

  /** A property's lines end with its field line, bare exactly when the
      property is required; before it there is a comment exactly when the
      description is truthy, and the comment carries at most 80 characters
      of it. */
  lemma PropertyLinesShape(name: string, propSchema: Json.Value, required: seq<Json.Value>)
    requires PropertyLines(name, propSchema, required).Ok?
    ensures 1 <= |PropertyLines(name, propSchema, required).value| <= 2
    ensures PropertyLines(name, propSchema, required).value[|PropertyLines(name, propSchema, required).value| - 1]
      == if Json.Str(name) in required then "    " + name + ": " + TypeFixed(propSchema).value
         else "    " + name + ": Optional[" + TypeFixed(propSchema).value + "]"
    ensures |PropertyLines(name, propSchema, required).value| == 2 <==>
      Json.Truthy(Json.GetOr(propSchema.fields, "description", Json.Str("")))
    ensures |PropertyLines(name, propSchema, required).value| == 2 ==>
      |PropertyLines(name, propSchema, required).value[0]| <= 6 + 80
  {
  }

  /** Every property contributes its lines, in property order. */
  lemma {:induction false} FieldLinesOrder(props: Dicts.Dict<Json.Value>, required: seq<Json.Value>)
    requires FieldLines(props, required).Ok?
    ensures props != [] ==> PropertyLines(props[0].0, props[0].1, required).Ok?
    ensures props != [] ==>
      FieldLines(props, required).value == PropertyLines(props[0].0, props[0].1, required).value + FieldLines(props[1..], required).value
    ensures |props| <= |FieldLines(props, required).value| <= 2 * |props|
  {
    if props != [] {
      FieldLinesOrder(props[1..], required);
      PropertyLinesShape(props[0].0, props[0].1, required);
    }
  }

  /** A schema without properties renders as an empty class. */
  lemma NoPropertiesPass(className: string, schema: Json.Value, description: string)
    requires schema.Obj? && "properties" !in Dicts.Keys(schema.fields) && "required" !in Dicts.Keys(schema.fields)
    ensures TypedDictSpec(className, schema, description)
      == Ok(Text.Join("\n", ClassHeader(className, description) + ["    pass  # No parameters required"]))
  {
  }

  // ---------------------------------------------------------------------
  // `KEY=VALUE` options

  const MUST_USE_KEY_VALUE: string := " values must use KEY=VALUE format (got '"

  /** The `ValueError` for an option without `=`. */
  function KeyValueError(flagName: string, entry: string): Exc {
    Error("ValueError", flagName + MUST_USE_KEY_VALUE + entry + "')")
  }

  /** The key of an option: the text before its first `=`. */
  function KeyOf(entry: string): string {
    Text.Partition(entry, '=').before
  }

  /** The value of an option: the text after its first `=`. */
  function ValueOf(entry: string): string {
    Text.Partition(entry, '=').after
  }

  /** `_parse_key_values(entries, flag_name)`: each entry split at its first
      `=`, a later key overwriting an earlier one in place; the first entry
      without `=` raises. */
  function KeyValues(entries: seq<string>, flagName: string): Outcome<Dicts.Dict<string>>
    decreases |entries|
  {
    if entries == [] then Ok([])
    else
      var n := |entries| - 1;
      match KeyValues(entries[..n], flagName)
      case Raise(e) => Raise(e)
      case Ok(parsed) =>
        if '=' !in entries[n] then Raise(KeyValueError(flagName, entries[n]))
        else Ok(Dicts.Put(parsed, KeyOf(entries[n]), ValueOf(entries[n])))
  }

  /** The options parse exactly when each of them holds an `=`. */
  lemma {:induction false} KeyValuesOk(entries: seq<string>, flagName: string)
    ensures KeyValues(entries, flagName).Ok? <==> forall i :: 0 <= i < |entries| ==> '=' in entries[i]
    decreases |entries|
  {
    if entries != [] {
      var n := |entries| - 1;
      KeyValuesOk(entries[..n], flagName);
      assert forall i :: 0 <= i < n ==> entries[..n][i] == entries[i];
    }
  }

  /** Entry `i` is the first option without `=`. */
  predicate FirstWithoutEquals(entries: seq<string>, i: int) {
    0 <= i < |entries| && '=' !in entries[i] && forall j :: 0 <= j < i ==> '=' in entries[j]
  }

  /** The error names the first option without `=`. */
  lemma {:induction false} KeyValuesError(entries: seq<string>, flagName: string)
    requires KeyValues(entries, flagName).Raise?
    ensures exists i :: FirstWithoutEquals(entries, i) && KeyValues(entries, flagName).exc == KeyValueError(flagName, entries[i])
    decreases |entries|
  {
    var n := |entries| - 1;
    var prefix := entries[..n];
    assert forall i :: 0 <= i < n ==> prefix[i] == entries[i];
    if KeyValues(prefix, flagName).Raise? {
      KeyValuesError(prefix, flagName);
      var i :| FirstWithoutEquals(prefix, i) && KeyValues(prefix, flagName).exc == KeyValueError(flagName, prefix[i]);
      assert FirstWithoutEquals(entries, i);
    } else {
      KeyValuesOk(prefix, flagName);
      assert FirstWithoutEquals(entries, n);
    }
  }

  /** Some option has key `k`. */
  predicate HasKey(entries: seq<string>, k: string) {
    exists i :: 0 <= i < |entries| && KeyOf(entries[i]) == k
  }

  lemma HasKeySnoc(entries: seq<string>, k: string)
    requires entries != []
    ensures HasKey(entries, k) <==> HasKey(entries[..|entries| - 1], k) || KeyOf(entries[|entries| - 1]) == k
  {
    var n := |entries| - 1;
    var prefix := entries[..n];
    if HasKey(entries, k) && KeyOf(entries[n]) != k {
      var i :| 0 <= i < |entries| && KeyOf(entries[i]) == k;
      assert KeyOf(prefix[i]) == k;
    }
    if HasKey(prefix, k) {
      var i :| 0 <= i < n && KeyOf(prefix[i]) == k;
      assert KeyOf(entries[i]) == k;
    }
  }

  /** The result is a dict: each key once, and exactly the keys of the
      options. */
  lemma {:induction false} KeyValuesKeys(entries: seq<string>, flagName: string)
    requires KeyValues(entries, flagName).Ok?
    ensures Dicts.UniqueKeys(KeyValues(entries, flagName).value)
    ensures forall k :: k in Dicts.Keys(KeyValues(entries, flagName).value) <==> HasKey(entries, k)
    decreases |entries|
  {
    if entries != [] {
      var n := |entries| - 1;
      var prefix := entries[..n];
      KeyValuesKeys(prefix, flagName);
      var parsed := KeyValues(prefix, flagName).value;
      var r := KeyValues(entries, flagName).value;
      Dicts.PutProps(parsed, KeyOf(entries[n]), ValueOf(entries[n]));
      assert r == Dicts.Put(parsed, KeyOf(entries[n]), ValueOf(entries[n]));
      forall k
        ensures k in Dicts.Keys(r) <==> HasKey(entries, k)
      {
        HasKeySnoc(entries, k);
      }
    }
  }

  /** Once a prefix of the options raises, the whole list raises the same. */
  lemma {:induction false} RaiseSticks(entries: seq<string>, flagName: string, n: nat)
    requires n <= |entries|
    requires KeyValues(entries[..n], flagName).Raise?
    ensures KeyValues(entries, flagName) == KeyValues(entries[..n], flagName)
    decreases |entries| - n
  {
    if n < |entries| {
      var m := |entries| - 1;
      assert entries[..m][..n] == entries[..n];
      RaiseSticks(entries[..m], flagName, n);
    } else {
      assert entries[..n] == entries;
    }
  }

  /** An option whose key no later option repeats gives its value. */
  lemma {:induction false} LastWins(entries: seq<string>, flagName: string, i: nat)
    requires i < |entries| && KeyValues(entries, flagName).Ok?
    requires forall j :: i < j < |entries| ==> KeyOf(entries[j]) != KeyOf(entries[i])
    ensures Dicts.Get(KeyValues(entries, flagName).value, KeyOf(entries[i])) == Some(ValueOf(entries[i]))
    decreases |entries|
  {
    var n := |entries| - 1;
    var prefix := entries[..n];
    var parsed := KeyValues(prefix, flagName).value;
    var last := entries[n];
    var r := Dicts.Put(parsed, KeyOf(last), ValueOf(last));
    assert KeyValues(entries, flagName) == Ok(r);
    var key := KeyOf(entries[i]);
    if i < n {
      assert prefix[i] == entries[i];
      forall j | i < j < n ensures KeyOf(prefix[j]) != KeyOf(prefix[i]) {
        assert prefix[j] == entries[j];
      }
      LastWins(prefix, flagName, i);
      assert Dicts.Get(parsed, key) == Some(ValueOf(entries[i]));
      assert KeyOf(last) != key;
      Dicts.PutOther(parsed, KeyOf(last), ValueOf(last), key);
      assert Dicts.Get(r, key) == Dicts.Get(parsed, key);
    } else {
      Dicts.PutGet(parsed, KeyOf(last), ValueOf(last));
      assert Dicts.Get(r, key) == Some(ValueOf(last));
    }
  }

  /** The loop of `_parse_key_values`. */
  method ParseKeyValues(entries: seq<string>, flagName: string) returns (r: Outcome<Dicts.Dict<string>>)
    ensures r == KeyValues(entries, flagName)
  {
    var parsed: Dicts.Dict<string> := [];
    assert entries[..0] == [];
    for i := 0 to |entries|
      invariant KeyValues(entries[..i], flagName) == Ok(parsed)
    {
      var entry := entries[i];
      assert entries[..i + 1][..i] == entries[..i];
      if '=' !in entry {
        r := Raise(KeyValueError(flagName, entry));
        RaiseSticks(entries, flagName, i + 1);
        return;
      }
      parsed := Dicts.Put(parsed, KeyOf(entry), ValueOf(entry));
    }
    assert entries[..|entries|] == entries;
    r := Ok(parsed);
  }

  // ---------------------------------------------------------------------
  // `.env.local`

  /** The first lines of a new `.env.local`. */
  const ENV_HEADER: seq<string> := ["# Local MCP secrets managed by mcp_tools CLI", ""]

  /** The key a line of an existing file assigns: none for a blank line, a
      comment or a line without `=`; otherwise the stripped text before the
      first `=`. */
  function AssignedKey(line: string): Option<string> {
    var stripped := Text.Strip(line);
    if stripped == [] || stripped[0] == '#' then None
    else if '=' !in line then None
    else Some(Text.Strip(KeyOf(line)))
  }

  /** `f"{key}={_quote_env_value(value)}"`. */
  function SecretLine(key: string, value: string): string {
    key + "=" + QuoteEnvValue(value)
  }

  /** The line assigns a key that has a secret. */
  predicate Replaces(secrets: Dicts.Dict<string>, line: string) {
    AssignedKey(line).Some? && Dicts.Get(secrets, AssignedKey(line).value).Some?
  }

  /** An existing line as it is written back. */
  function MergedLine(secrets: Dicts.Dict<string>, line: string): string {
    if Replaces(secrets, line) then
      SecretLine(AssignedKey(line).value, Dicts.Get(secrets, AssignedKey(line).value).value)
    else line
  }

  /** The existing lines as they are written back, one for one. */
  function MergedLines(secrets: Dicts.Dict<string>, lines: seq<string>): (r: seq<string>)
    ensures |r| == |lines|
    decreases |lines|
  {
    if lines == [] then []
    else
      var n := |lines| - 1;
      MergedLines(secrets, lines[..n]) + [MergedLine(secrets, lines[n])]
  }

  /** Line `i` is written back as `MergedLine` says. */
  lemma {:induction false} MergedLinesEach(secrets: Dicts.Dict<string>, lines: seq<string>, i: nat)
    requires i < |lines|
    ensures MergedLines(secrets, lines)[i] == MergedLine(secrets, lines[i])
    decreases |lines|
  {
    var n := |lines| - 1;
    var init := MergedLines(secrets, lines[..n]);
    assert MergedLines(secrets, lines) == init + [MergedLine(secrets, lines[n])];
    if i < n {
      MergedLinesEach(secrets, lines[..n], i);
      assert lines[..n][i] == lines[i];
      AppendIndex(init, [MergedLine(secrets, lines[n])], i);
    }
  }

  /** The keys whose existing line was rewritten. */
  function Seen(secrets: Dicts.Dict<string>, lines: seq<string>): set<string>
    decreases |lines|
  {
    if lines == [] then {}
    else
      var n := |lines| - 1;
      Seen(secrets, lines[..n]) + (if Replaces(secrets, lines[n]) then {AssignedKey(lines[n]).value} else {})
  }

  /** A key is seen exactly when it has a secret and some existing line
      assigns it. */
  lemma {:induction false} SeenMeaning(secrets: Dicts.Dict<string>, lines: seq<string>, k: string)
    ensures k in Seen(secrets, lines) <==> k in Dicts.Keys(secrets) && Exists(lines, AssignedKey, Some(k))
    decreases |lines|
  {
    Dicts.GetSome(secrets, k);
    if lines != [] {
      SeenMeaning(secrets, lines[..|lines| - 1], k);
      ExistsSnoc(lines, AssignedKey, Some(k));
    }
  }

  /** The lines for the secrets no existing line assigned, in the secrets'
      order. */
  function Appended(secrets: Dicts.Dict<string>, seen: set<string>): seq<string>
    decreases |secrets|
  {
    if secrets == [] then []
    else
      var n := |secrets| - 1;
      Appended(secrets[..n], seen)
        + (if secrets[n].0 in seen then [] else [SecretLine(secrets[n].0, secrets[n].1)])
  }

  /** Every secret whose key was not seen gets its line. */
  lemma {:induction false} AppendedHas(secrets: Dicts.Dict<string>, seen: set<string>, j: nat)
    requires j < |secrets| && secrets[j].0 !in seen
    ensures SecretLine(secrets[j].0, secrets[j].1) in Appended(secrets, seen)
    decreases |secrets|
  {
    var n := |secrets| - 1;
    if j < n {
      assert secrets[..n][j] == secrets[j];
      AppendedHas(secrets[..n], seen, j);
    }
  }

  /** Every appended line is the line of a secret whose key was not seen. */
  lemma {:induction false} AppendedOnlyUnseen(secrets: Dicts.Dict<string>, seen: set<string>, line: string)
    requires line in Appended(secrets, seen)
    ensures exists j :: 0 <= j < |secrets| && secrets[j].0 !in seen && line == SecretLine(secrets[j].0, secrets[j].1)
    decreases |secrets|
  {
    var n := |secrets| - 1;
    var prefix := secrets[..n];
    if line in Appended(prefix, seen) {
      AppendedOnlyUnseen(prefix, seen, line);
      var j :| 0 <= j < n && prefix[j].0 !in seen && line == SecretLine(prefix[j].0, prefix[j].1);
      assert secrets[j] == prefix[j];
    }
  }

  /** The lines of the new file: the header when there was no file, the
      existing lines with assigned secrets rewritten, then the other
      secrets. */
  function EnvLines(existing: Option<seq<string>>, secrets: Dicts.Dict<string>): seq<string> {
    var lines := existing.GetOr([]);
    (if existing.None? then ENV_HEADER else [])
      + MergedLines(secrets, lines) + Appended(secrets, Seen(secrets, lines))
  }

  /** `_write_env_local(provider, secret_env)` on the file's lines (`None`
      when there is no file): nothing is written without secrets; otherwise
      the new lines joined by newlines, trailing white space replaced by
      one newline. */
  function MergedText(existing: Option<seq<string>>, secrets: Dicts.Dict<string>): (r: Option<string>)
    ensures r.None? <==> secrets == []
    ensures r.Some? ==> |r.value| >= 1 && r.value[|r.value| - 1] == '\n'
    ensures r.Some? && |r.value| >= 2 ==> !Text.IsSpace(r.value[|r.value| - 2])
  {
    if secrets == [] then None
    else Some(Text.TrimRight(Text.Join("\n", EnvLines(existing, secrets)), Text.IsSpace) + "\n")
  }

  /** The text is the joined lines up to trailing white space. */
  lemma MergedTextBody(existing: Option<seq<string>>, secrets: Dicts.Dict<string>)
    requires secrets != []
    ensures Text.IsPrefix(MergedText(existing, secrets).value[..|MergedText(existing, secrets).value| - 1],
      Text.Join("\n", EnvLines(existing, secrets)))
    ensures forall i :: |MergedText(existing, secrets).value| - 1 <= i < |Text.Join("\n", EnvLines(existing, secrets))| ==>
      Text.IsSpace(Text.Join("\n", EnvLines(existing, secrets))[i])
  {
    var body := Text.TrimRight(Text.Join("\n", EnvLines(existing, secrets)), Text.IsSpace);
    Text.TrimRightDrops(Text.Join("\n", EnvLines(existing, secrets)), Text.IsSpace);
    assert MergedText(existing, secrets).value[..|MergedText(existing, secrets).value| - 1] == body;
  }

  /** The offset of the existing lines in the new file. */
  function HeaderSize(existing: Option<seq<string>>): nat {
    if existing.None? then |ENV_HEADER| else 0
  }

  /** Each existing line stays in its place, after the header of a new
      file, and is written as `MergedLine` says: as it was, unless it
      assigns a key that has a secret. */
  lemma ExistingLinesKept(existing: Option<seq<string>>, secrets: Dicts.Dict<string>, i: nat)
    requires i < |existing.GetOr([])|
    ensures EnvLines(existing, secrets)[HeaderSize(existing) + i] == MergedLine(secrets, existing.GetOr([])[i])
  {
    var lines := existing.GetOr([]);
    var header: seq<string> := if existing.None? then ENV_HEADER else [];
    var merged := MergedLines(secrets, lines);
    var appended := Appended(secrets, Seen(secrets, lines));
    assert EnvLines(existing, secrets) == header + merged + appended;
    MiddleIndex(header, merged, appended, i);
    MergedLinesEach(secrets, lines, i);
  }

  lemma NewFileHeader(secrets: Dicts.Dict<string>)
    ensures EnvLines(None, secrets)[..|ENV_HEADER|] == ENV_HEADER
  {
    var merged := MergedLines(secrets, []);
    var appended := Appended(secrets, Seen(secrets, []));
    PrefixOf(ENV_HEADER, merged + appended);
    Assoc(ENV_HEADER, merged, appended);
  }

  /** Every secret is written with its own value: on the existing lines
      that assign its key, or appended when none does. */
  lemma EverySecretWritten(existing: Option<seq<string>>, secrets: Dicts.Dict<string>, j: nat)
    requires Dicts.UniqueKeys(secrets) && j < |secrets|
    ensures SecretLine(secrets[j].0, secrets[j].1) in EnvLines(existing, secrets)
  {
    var lines := existing.GetOr([]);
    var k := secrets[j].0;
    var line := SecretLine(k, secrets[j].1);
    var seen := Seen(secrets, lines);
    var header: seq<string> := if existing.None? then ENV_HEADER else [];
    var merged := MergedLines(secrets, lines);
    var appended := Appended(secrets, seen);
    Dicts.GetUnique(secrets, j);
    SeenMeaning(secrets, lines, k);
    if k in seen {
      var i :| 0 <= i < |lines| && AssignedKey(lines[i]) == Some(k);
      ExistingLinesKept(existing, secrets, i);
      assert MergedLine(secrets, lines[i]) == line;
    } else {
      AppendedHas(secrets, seen, j);
      var m :| 0 <= m < |appended| && appended[m] == line;
      assert EnvLines(existing, secrets) == (header + merged) + appended;
      LastIndex(header + merged, appended, m);
    }
  }

  /** `line` is the line of secret `j`, whose key no existing line assigns. */
  predicate NewSecretLine(existing: Option<seq<string>>, secrets: Dicts.Dict<string>, j: int, line: string) {
    0 <= j < |secrets| && line == SecretLine(secrets[j].0, secrets[j].1)
    && !Exists(existing.GetOr([]), AssignedKey, Some(secrets[j].0))
  }

  /** An appended line belongs to a secret that no existing line assigns. */
  lemma AppendedOnlyNew(existing: Option<seq<string>>, secrets: Dicts.Dict<string>, line: string)
    requires line in Appended(secrets, Seen(secrets, existing.GetOr([])))
    ensures exists j :: NewSecretLine(existing, secrets, j, line)
  {
    var lines := existing.GetOr([]);
    AppendedOnlyUnseen(secrets, Seen(secrets, lines), line);
    var j :| 0 <= j < |secrets| && secrets[j].0 !in Seen(secrets, lines) && line == SecretLine(secrets[j].0, secrets[j].1);
    SeenMeaning(secrets, lines, secrets[j].0);
    assert secrets[j].0 in Dicts.Keys(secrets) by {
      assert Dicts.Keys(secrets)[j] == secrets[j].0;
    }
    assert NewSecretLine(existing, secrets, j, line);
  }

  /** The checks the loop makes on a line, in its order. */
  lemma AssignedKeyChecks(line: string, stripped: string)
    requires stripped == Text.Strip(line)
    ensures stripped == [] || stripped[0] == '#' ==> AssignedKey(line) == None
    ensures stripped != [] && stripped[0] != '#' && '=' !in line ==> AssignedKey(line) == None
    ensures stripped != [] && stripped[0] != '#' && '=' in line ==> AssignedKey(line) == Some(Text.Strip(KeyOf(line)))
  {
  }

  lemma MergedLinesSnoc(secrets: Dicts.Dict<string>, lines: seq<string>, i: nat)
    requires i < |lines|
    ensures MergedLines(secrets, lines[..i + 1]) == MergedLines(secrets, lines[..i]) + [MergedLine(secrets, lines[i])]
    ensures Seen(secrets, lines[..i + 1]) == Seen(secrets, lines[..i])
      + (if Replaces(secrets, lines[i]) then {AssignedKey(lines[i]).value} else {})
  {
    assert lines[..i + 1][..i] == lines[..i];
  }

  lemma AppendedSnoc(secrets: Dicts.Dict<string>, seen: set<string>, i: nat)
    requires i < |secrets|
    ensures Appended(secrets[..i + 1], seen) == Appended(secrets[..i], seen)
      + (if secrets[i].0 in seen then [] else [SecretLine(secrets[i].0, secrets[i].1)])
  {
    assert secrets[..i + 1][..i] == secrets[..i];
  }

  /** The line-by-line merge of `_write_env_local`: rewrite the existing
      lines, then append the unseen secrets. */
  method WriteEnvLocal(existing: Option<seq<string>>, secrets: Dicts.Dict<string>) returns (text: Option<string>)
    ensures text == MergedText(existing, secrets)
  {
    if secrets == [] {
      return None;
    }
    var lines: seq<string>;
    var header: seq<string>;
    if existing.Some? {
      lines := existing.value;
      header := [];
    } else {
      lines := [];
      header := ENV_HEADER;
    }
    var merged, seen := RewriteLines(secrets, lines);
    var appended := AppendUnseen(secrets, seen);
    var newLines := header + merged + appended;
    assert newLines == EnvLines(existing, secrets);
    text := Some(Text.TrimRight(Text.Join("\n", newLines), Text.IsSpace) + "\n");
  }

  /** The first loop of `_write_env_local`: each existing line that assigns
      a key with a secret is replaced by the secret's line, and its key is
      recorded as seen. */
  method RewriteLines(secrets: Dicts.Dict<string>, lines: seq<string>) returns (merged: seq<string>, seen: set<string>)
    ensures merged == MergedLines(secrets, lines)
    ensures seen == Seen(secrets, lines)
  {
    merged, seen := [], {};
    assert lines[..0] == [];
    for i := 0 to |lines|
      invariant merged == MergedLines(secrets, lines[..i])
      invariant seen == Seen(secrets, lines[..i])
    {
      var written, replaced := RewriteLine(secrets, lines[i]);
      if replaced.Some? {
        seen := seen + {replaced.value};
      }
      MergedLinesSnoc(secrets, lines, i);
      merged := merged + [written];
    }
    assert lines[..|lines|] == lines;
  }

  /** One pass of the first loop: a line assigning a key that has a secret
      is rewritten with the secret and its key is reported back; every other
      line is kept as it is. */
  method RewriteLine(secrets: Dicts.Dict<string>, line: string) returns (written: string, replaced: Option<string>)
    ensures written == MergedLine(secrets, line)
    ensures replaced == if Replaces(secrets, line) then AssignedKey(line) else None
  {
    var stripped := Text.Strip(line);
    AssignedKeyChecks(line, stripped);
    written, replaced := line, None;
    if stripped == [] || stripped[0] == '#' {
    } else if '=' !in line {
    } else {
      var key := Text.Strip(KeyOf(line));
      var got := Dicts.Get(secrets, key);
      if got.Some? {
        written, replaced := SecretLine(key, got.value), Some(key);
      }
    }
  }

  /** The second loop of `_write_env_local`: the line of each secret not
      seen in the existing lines, in the secrets' order. */
  method AppendUnseen(secrets: Dicts.Dict<string>, seen: set<string>) returns (appended: seq<string>)
    ensures appended == Appended(secrets, seen)
  {
    appended := [];
    assert secrets[..0] == [];
    for i := 0 to |secrets|
      invariant appended == Appended(secrets[..i], seen)
    {
      var (key, value) := secrets[i];
      AppendedSnoc(secrets, seen, i);
      if key !in seen {
        appended := appended + [SecretLine(key, value)];
      }
    }
    assert secrets[..|secrets|] == secrets;
  }

  // ---------------------------------------------------------------------
  // The provider's `__init__.py`

  // The fixed texts of the package's `__init__.py`.
  const DOC_OPEN: string := "\"\"\"Auto-generated tool package for "
  const FROM_SERVERS: string := "    from servers."
  const IMPORT_TOOL: string := " import <tool_function>"
  const AWAIT_RESULT: string := "    result = await "
  const CALL_EXAMPLE: string := "(param=value)"
  const FUTURE_IMPORT: string := "from __future__ import annotations"
  const IMPORT_MANIFEST: string := "from . import manifest"
  const DEFAULTS_COMMENT: string := "# Non-sensitive defaults for this provider."
  const CONFIG_ASSIGN: string := "SERVER_CONFIG = "
  const ALL_OPEN: string := "__all__ = ("
  const MANIFEST_NAME: string := "\"manifest\""
  const CONFIG_NAME: string := "\"SERVER_CONFIG\""

  /** The docstring and the first import of `_render_provider_init`; its
      example uses the first module, or `tool_name` when there is none. */
  function DocLines(provider: string, title: string, modules: seq<string>): (r: seq<string>)
    ensures |r| == 12
  {
    var moduleTitle := if title == [] then provider else title;
    var example := if modules == [] then "tool_name" else modules[0];
    [DOC_OPEN + moduleTitle + ".",
     "",
     "Usage:",
     FROM_SERVERS + provider + IMPORT_TOOL,
     "",
     "Example:",
     FROM_SERVERS + provider + " import " + example,
     AWAIT_RESULT + example + CALL_EXAMPLE,
     "\"\"\"",
     "",
     FUTURE_IMPORT,
     ""]
  }

  /** The import of a module under its private alias. */
  function ImportLine(name: string): string {
    "from . import " + name + " as _" + name + "_module"
  }

  /** The re-export of a module's function. */
  function ReexportLine(name: string): string {
    "from ." + name + " import " + name
  }

  /** A name of `__all__`. */
  function QuoteName(name: string): string {
    "\"" + name + "\""
  }

  const REEXPORT_HEADER: seq<string> := ["", "# Re-export tool functions for convenient imports"]

  /** `__all__`: the modules' functions, then `manifest` and
      `SERVER_CONFIG`. */
  function AllNames(modules: seq<string>): (r: seq<string>)
    ensures |r| == |modules| + 2
  {
    Map(modules, QuoteName) + [MANIFEST_NAME, CONFIG_NAME]
  }

  /** The lines after the re-exports: the manifest import, the formatted
      transport configuration and `__all__`. */
  function TailLines(modules: seq<string>, config: Json.Value): (r: seq<string>)
    ensures |r| == 7
  {
    [IMPORT_MANIFEST,
     "",
     DEFAULTS_COMMENT,
     CONFIG_ASSIGN + FormatToolDefinition(config),
     "",
     ALL_OPEN + Text.Join(", ", AllNames(modules)) + ",)",
     ""]
  }

  /** The lines of the provider's `__init__.py`. */
  function InitLines(provider: string, title: string, modules: seq<string>, config: Json.Value): seq<string> {
    DocLines(provider, title, modules) + Map(modules, ImportLine) + REEXPORT_HEADER
      + Map(modules, ReexportLine) + TailLines(modules, config)
  }

  /** `_render_provider_init(provider, provider_title, modules,
      transport_config)`. */
  method RenderProviderInit(provider: string, title: string, modules: seq<string>, config: Json.Value)
    returns (text: string)
    ensures text == Text.Join("\n", InitLines(provider, title, modules, config))
  {
    var lines := DocLines(provider, title, modules);
    ghost var doc := lines;
    assert modules[..0] == [];
    for i := 0 to |modules|
      invariant lines == doc + Map(modules[..i], ImportLine)
    {
      MapSnoc(modules, ImportLine, i);
      Assoc(doc, Map(modules[..i], ImportLine), [ImportLine(modules[i])]);
      lines := lines + [ImportLine(modules[i])];
    }
    assert modules[..|modules|] == modules;
    lines := lines + REEXPORT_HEADER;
    ghost var imports := lines;
    for i := 0 to |modules|
      invariant lines == imports + Map(modules[..i], ReexportLine)
    {
      MapSnoc(modules, ReexportLine, i);
      Assoc(imports, Map(modules[..i], ReexportLine), [ReexportLine(modules[i])]);
      lines := lines + [ReexportLine(modules[i])];
    }
    lines := lines + TailLines(modules, config);
    text := Text.Join("\n", lines);
  }

  /** Each module is imported under its alias and re-exported, in the
      modules' order, at fixed places after the twelve lines of the
      docstring, and is named in `__all__`. */
  lemma ModulesExported(provider: string, title: string, modules: seq<string>, config: Json.Value, i: nat)
    requires i < |modules|
    ensures InitLines(provider, title, modules, config)[12 + i] == ImportLine(modules[i])
    ensures InitLines(provider, title, modules, config)[14 + |modules| + i] == ReexportLine(modules[i])
    ensures QuoteName(modules[i]) in AllNames(modules)
  {
    var doc := DocLines(provider, title, modules);
    var imports := Map(modules, ImportLine);
    var reexports := Map(modules, ReexportLine);
    var tail := TailLines(modules, config);
    assert InitLines(provider, title, modules, config) == (doc + imports + REEXPORT_HEADER) + reexports + tail;
    MiddleIndex(doc, imports, REEXPORT_HEADER + reexports + tail, i);
    Assoc(doc + imports, REEXPORT_HEADER, reexports + tail);
    Assoc(doc, imports, REEXPORT_HEADER + (reexports + tail));
    Assoc(REEXPORT_HEADER, reexports, tail);
    assert doc + imports + REEXPORT_HEADER + reexports + tail == doc + (imports + (REEXPORT_HEADER + reexports + tail));
    MiddleIndex(doc + imports + REEXPORT_HEADER, reexports, tail, i);
    assert Map(modules, QuoteName)[i] == AllNames(modules)[i];
  }

  /** The file has the docstring, two lines per module, the re-export
      comment and the seven closing lines; the configuration line holds the
      formatted data, whatever order its keys came in. */
  lemma InitShape(provider: string, title: string, modules: seq<string>, config: Json.Value)
    ensures |InitLines(provider, title, modules, config)| == 21 + 2 * |modules|
    ensures InitLines(provider, title, modules, config)[17 + 2 * |modules|] == CONFIG_ASSIGN + FormatToolDefinition(config)
    ensures InitLines(provider, title, modules, Json.SortKeys(config)) == InitLines(provider, title, modules, config)
  {
    var head := DocLines(provider, title, modules) + Map(modules, ImportLine) + REEXPORT_HEADER + Map(modules, ReexportLine);
    var tail := TailLines(modules, config);
    assert |head| == 14 + 2 * |modules|;
    LastIndex(head, tail, 3);
    FormatIgnoresOrder(config);
  }
}
