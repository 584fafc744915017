/** The tool-discovery helpers that run inside the sandbox: word search over
    the providers' tool manifests, text truncation, and the rendering of a
    tool's JSON Schema as a Python `TypedDict` and as a call example. The
    servers directory is a parameter: its entries in any order, each with
    whether it is a directory, whether it has a manifest, and the `TOOLS`
    value that loading the manifest gives (`[]` when loading fails). */
module CodeMode {
  import opened Wrappers
  import Text
  import Sorting
  import Dicts
  import Json
  import Naming
  import Schema
  import opened Seqs

  // ---------------------------------------------------------------------
  // Text helpers

  function Min(a: int, b: int): int { if a <= b then a else b }
  function Max(a: int, b: int): int { if a <= b then b else a }

  /** Python's `s[:n]`: a negative `n` counts from the end. */
  function PrefixTo(s: string, n: int): string {
    if n >= 0 then s[..Min(n, |s|)] else s[..Max(0, |s| + n)]
  }

  /** `_truncate(text, max_len)`: white space collapsed; a text longer than
      `max_len` is cut to `max_len - 3` characters and marked with "...". */
  function Truncate(text: string, maxLen: int): (r: string)
    ensures var t := Text.Collapse(text);
      (|t| <= maxLen ==> r == t)
      && (3 <= maxLen < |t| ==> r == t[..maxLen - 3] + "..." && |r| == maxLen)
      && (maxLen >= 3 ==> |r| <= maxLen)
  {
    var t := Text.Collapse(text);
    if |t| <= maxLen then t else PrefixTo(t, maxLen - 3) + "..."
  }

  /** `_matches_query(query_words, text)`: `all(word in text.lower() ...)`,
      checked word by word. */
  function MatchesQuery(words: seq<string>, text: string): (b: bool)
    ensures b <==> forall i :: 0 <= i < |words| ==> Text.Contains(Text.Lower(text), words[i])
  {
    words == [] || (Text.Contains(Text.Lower(text), words[0]) && MatchesQuery(words[1..], text))
  }

  /** `[w.lower() for w in query.strip().split() if w]`. */
  function QueryWords(query: string): (r: seq<string>)
    ensures var words := Text.Split(Text.Strip(query));
      |r| == |words| && forall i :: 0 <= i < |r| ==> r[i] == Text.Lower(words[i])
  {
    LowerAll(Text.Split(Text.Strip(query)))
  }

  function LowerAll(words: seq<string>): (r: seq<string>)
    ensures |r| == |words| && forall i :: 0 <= i < |r| ==> r[i] == Text.Lower(words[i])
  {
    seq(|words|, i requires 0 <= i < |words| => Text.Lower(words[i]))
  }

  // ---------------------------------------------------------------------
  // JSON Schema to a Python type annotation

  /** `_json_to_python_type(schema)` as written: the table lookup
      `schema_type in type_map` comes before the list test, so a list of
      types is hashed and raises `TypeError`; the union branch after it can
      never be reached and is not part of this definition. */
  function TypeAsWritten(schema: Json.Value): Outcome<string>
    decreases schema
  {
    if !Json.Truthy(schema) then Ok("Any")
    else
      match Schema.In("enum", schema)
      case Raise(e) => Raise(e)
      case Ok(true) =>
        (match Schema.Index(schema, "enum")
         case Raise(e) => Raise(e)
         case Ok(enum) => Schema.Literal(enum))
      case Ok(false) =>
        if !schema.Obj? then Raise(Schema.NoAttribute(schema, "get"))
        else
          var t := Json.GetOr(schema.fields, "type", Json.Null);
          match Schema.Primitive(t)
          case Raise(e) => Raise(e)
          case Ok(Some(p)) => Ok(p)
          case Ok(None) =>
            if t == Json.Str("array") then
              Dicts.GetIn(schema.fields, "items");
              match Dicts.Get(schema.fields, "items")
              case None => Ok("List[Any]")
              case Some(items) =>
                (match TypeAsWritten(items)
                 case Raise(e) => Raise(e)
                 case Ok(item) => Ok("List[" + item + "]"))
            else if t == Json.Str("object") then Ok("dict[str, Any]")
            else Ok("Any")
  }

  /** `_json_to_python_type(schema)` with the list test moved before the
      table lookup, so that a list of types renders as the union of its
      members. */
  function TypeFixed(schema: Json.Value): Outcome<string>
    decreases schema
  {
    if !Json.Truthy(schema) then Ok("Any")
    else
      match Schema.In("enum", schema)
      case Raise(e) => Raise(e)
      case Ok(true) =>
        (match Schema.Index(schema, "enum")
         case Raise(e) => Raise(e)
         case Ok(enum) => Schema.Literal(enum))
      case Ok(false) =>
        if !schema.Obj? then Raise(Schema.NoAttribute(schema, "get"))
        else
          var t := Json.GetOr(schema.fields, "type", Json.Null);
          if t.Arr? then Schema.TypeOnly(t)
          else
            match Schema.Primitive(t)
            case Raise(e) => Raise(e)
            case Ok(Some(p)) => Ok(p)
            case Ok(None) =>
              if t == Json.Str("array") then
                Dicts.GetIn(schema.fields, "items");
                match Dicts.Get(schema.fields, "items")
                case None => Ok("List[Any]")
                case Some(items) =>
                  (match TypeFixed(items)
                   case Raise(e) => Raise(e)
                   case Ok(item) => Ok("List[" + item + "]"))
              else if t == Json.Str("object") then Ok("dict[str, Any]")
              else Ok("Any")
  }

  /** A schema without an `enum` whose type is a list. */
  predicate TypeListSchema(schema: Json.Value) {
    schema.Obj? && "enum" !in Dicts.Keys(schema.fields)
    && Json.GetOr(schema.fields, "type", Json.Null).Arr?
  }

  /** As written, a list of types raises "unhashable type: 'list'" instead
      of giving the union. */
  lemma TypeListRaises(schema: Json.Value)
    requires TypeListSchema(schema)
    ensures TypeAsWritten(schema) == Raise(Error("TypeError", "unhashable type: 'list'"))
  {
    Dicts.GetSome(schema.fields, "type");
    assert Dicts.Get(schema.fields, "type").Some?;
    assert Json.Truthy(schema);
    assert Schema.In("enum", schema) == Ok(false);
    var t := Json.GetOr(schema.fields, "type", Json.Null);
    assert Json.TypeName(t) == "list";
    assert Schema.Primitive(t) == Raise(Schema.Unhashable(t));
    assert Schema.Unhashable(t) == Error("TypeError", "unhashable type: 'list'");
  }

  /** The input that shows it: `{"type": ["string", "null"]}`. */
  lemma StringOrNullRaises()
    ensures TypeAsWritten(Json.Obj([("type", Json.Arr([Json.Str("string"), Json.Str("null")]))]))
      == Raise(Error("TypeError", "unhashable type: 'list'"))
  {
    TypeListRaises(Json.Obj([("type", Json.Arr([Json.Str("string"), Json.Str("null")]))]));
  }

  /** With the correction, the same schema renders as `str | None`. */
  lemma StringOrNullFixed()
    ensures TypeFixed(Json.Obj([("type", Json.Arr([Json.Str("string"), Json.Str("null")]))])) == Ok("str | None")
  {
    var t := Json.Arr([Json.Str("string"), Json.Str("null")]);
    var schema := Json.Obj([("type", t)]);
    Schema.StringOrNullUnion();
    assert Json.GetOr(schema.fields, "type", Json.Null) == t;
    assert Schema.In("enum", schema) == Ok(false) by {
      assert Dicts.Keys(schema.fields) == ["type"];
      assert "enum" != "type";
    }
  }

  /** The correction changes nothing that worked before: wherever the
      written function gives a type, the corrected one gives the same. */
  lemma {:induction false} FixAgrees(schema: Json.Value)
    requires TypeAsWritten(schema).Ok?
    ensures TypeFixed(schema) == TypeAsWritten(schema)
    decreases schema
  {
    if Json.Truthy(schema) && Schema.In("enum", schema) == Ok(false) && schema.Obj? {
      var t := Json.GetOr(schema.fields, "type", Json.Null);
      if Schema.Primitive(t) == Ok(None) && t == Json.Str("array") {
        Dicts.GetIn(schema.fields, "items");
        match Dicts.Get(schema.fields, "items")
        case None =>
        case Some(items) =>
          FixAgrees(items);
      }
    }
  }

  /** A well-formed schema: a dict, with a list for `enum`, a type name or a
      list of type names for `type`, and a well-formed `items`. */
  predicate WellFormed(schema: Json.Value)
    decreases schema
  {
    schema.Obj?
    && (Json.GetOr(schema.fields, "enum", Json.Arr([]))).Arr?
    && (var t := Json.GetOr(schema.fields, "type", Json.Null);
        t.Null? || t.Str? || (t.Arr? && forall i :: 0 <= i < |t.items| ==> t.items[i].Str?))
    && (Dicts.GetIn(schema.fields, "items");
        match Dicts.Get(schema.fields, "items")
        case None => true
        case Some(items) => WellFormed(items))
  }

  /** The corrected renderer never raises on a well-formed schema. */
  lemma {:induction false} WellFormedRenders(schema: Json.Value)
    requires WellFormed(schema)
    ensures TypeFixed(schema).Ok?
    decreases schema
  {
    var fields := schema.fields;
    Dicts.GetSome(fields, "enum");
    Dicts.GetSome(fields, "items");
    Dicts.GetIn(fields, "items");
    var t := Json.GetOr(fields, "type", Json.Null);
    if t.Arr? {
      Schema.TypeNamesOk(t);
    }
    match Dicts.Get(fields, "items")
    case None =>
    case Some(items) =>
      WellFormedRenders(items);
  }

  // ---------------------------------------------------------------------
  // The TypedDict of a tool's input

  /** The lines `_generate_typed_dict` adds for one property: a comment with
      the truncated description when there is one, then the field, bare when
      required and `Optional[...]` otherwise. */
  function PropertyLines(name: string, propSchema: Json.Value, required: seq<Json.Value>): Outcome<seq<string>> {
    match TypeFixed(propSchema)
    case Raise(e) => Raise(e)
    case Ok(t) =>
      match Schema.Get(propSchema, "description", Json.Str(""))
      case Raise(e) => Raise(e)
      case Ok(desc) =>
        var comment := if Json.Truthy(desc) then ["    # " + Truncate(Json.PyStr(desc), 80)] else [];
        var field := if Json.Str(name) in required then "    " + name + ": " + t else "    " + name + ": Optional[" + t + "]";
        Ok(comment + [field])
  }

  /** The lines of all properties, in property order, or the first
      exception. */
  function FieldLines(props: Dicts.Dict<Json.Value>, required: seq<Json.Value>): Outcome<seq<string>> {
    if props == [] then Ok([])
    else
      match PropertyLines(props[0].0, props[0].1, required)
      case Raise(e) => Raise(e)
      case Ok(first) =>
        match FieldLines(props[1..], required)
        case Raise(e) => Raise(e)
        case Ok(rest) => Ok(first + rest)
  }

  lemma FieldLinesStep(props: Dicts.Dict<Json.Value>, i: nat, required: seq<Json.Value>, lines: seq<string>, block: seq<string>)
    requires i < |props| && PropertyLines(props[i].0, props[i].1, required) == Ok(block)
    ensures After(lines, FieldLines(props[i..], required)) == After(lines + block, FieldLines(props[i + 1..], required))
  {
    assert props[i..][1..] == props[i + 1..];
    match FieldLines(props[i + 1..], required)
    case Raise(_) =>
    case Ok(rest) =>
      assert (lines + block) + rest == lines + (block + rest);
  }

  function ClassName(provider: string, toolName: string): string {
    Naming.ToClassName(provider + "_" + toolName + "_Input")
  }

  /** What `_generate_typed_dict` returns. */
  function TypedDictSpec(provider: string, toolName: string, schema: Json.Value): Outcome<string> {
    var header := "class " + ClassName(provider, toolName) + "(TypedDict):";
    match Schema.Get(schema, "properties", Json.Obj([]))
    case Raise(e) => Raise(e)
    case Ok(props) =>
      match Schema.Required(schema)
      case Raise(e) => Raise(e)
      case Ok(required) =>
        if !Json.Truthy(props) then Ok(header + "\n    pass")
        else if !props.Obj? then Raise(Schema.NoAttribute(props, "items"))
        else
          match FieldLines(props.fields, required)
          case Raise(e) => Raise(e)
          case Ok(lines) => Ok(Text.Join("\n", [header] + lines))
  }

  /** `_generate_typed_dict(provider, tool_name, input_schema)`. */
  method GenerateTypedDict(provider: string, toolName: string, schema: Json.Value) returns (r: Outcome<string>)
    ensures r == TypedDictSpec(provider, toolName, schema)
  {
    var header := "class " + ClassName(provider, toolName) + "(TypedDict):";
    var got := Schema.Get(schema, "properties", Json.Obj([]));
    if got.Raise? {
      return Raise(got.exc);
    }
    var props := got.value;
    var req := Schema.Required(schema);
    if req.Raise? {
      return Raise(req.exc);
    }
    if !Json.Truthy(props) {
      return Ok(header + "\n    pass");
    }
    if !props.Obj? {
      return Raise(Schema.NoAttribute(props, "items"));
    }
    var lines := CollectFieldLines(header, props.fields, req.value);
    if lines.Raise? {
      return Raise(lines.exc);
    }
    r := Ok(Text.Join("\n", lines.value));
  }

  /** The loop of `_generate_typed_dict`: the header, then the lines of each
      property in turn; the first exception ends it. */
  method CollectFieldLines(header: string, props: Dicts.Dict<Json.Value>, required: seq<Json.Value>)
    returns (r: Outcome<seq<string>>)
    ensures r == After([header], FieldLines(props, required))
  {
    var lines := [header];
    var i := 0;
    while i < |props|
      invariant 0 <= i <= |props|
      invariant After([header], FieldLines(props, required)) == After(lines, FieldLines(props[i..], required))
    {
      var block := PropertyLines(props[i].0, props[i].1, required);
      if block.Raise? {
        assert FieldLines(props[i..], required) == Raise(block.exc);
        return Raise(block.exc);
      }
      FieldLinesStep(props, i, required, lines, block.value);
      lines := lines + block.value;
      i := i + 1;
    }
    assert props[i..] == [];
    assert FieldLines(props[i..], required) == Ok([]);
    assert lines + [] == lines;
    r := Ok(lines);
  }

  /** A property's lines end with its field line, bare exactly when the
      property is required, and hold at most one comment before it. */
  lemma PropertyLinesShape(name: string, propSchema: Json.Value, required: seq<Json.Value>)
    requires PropertyLines(name, propSchema, required).Ok?
    ensures var lines := PropertyLines(name, propSchema, required).value;
      var t := TypeFixed(propSchema).value;
      1 <= |lines| <= 2
      && lines[|lines| - 1] == (if Json.Str(name) in required then "    " + name + ": " + t
                                else "    " + name + ": Optional[" + t + "]")
      && (|lines| == 2 <==> Json.Truthy(Json.GetOr(propSchema.fields, "description", Json.Str(""))))
  {
  }

  /** Every property contributes its lines, in property order. */
  lemma {:induction false} FieldLinesOrder(props: Dicts.Dict<Json.Value>, required: seq<Json.Value>)
    requires FieldLines(props, required).Ok?
    ensures props != [] ==> (PropertyLines(props[0].0, props[0].1, required).Ok?
      && FieldLines(props, required).value
         == PropertyLines(props[0].0, props[0].1, required).value + FieldLines(props[1..], required).value)
    ensures |FieldLines(props, required).value| >= |props|
  {
    if props != [] {
      FieldLinesOrder(props[1..], required);
      PropertyLinesShape(props[0].0, props[0].1, required);
    }
  }

  // ---------------------------------------------------------------------
  // The call example of a tool

  /** The placeholder value of each JSON type. */
  const EXAMPLES: Dicts.Dict<string> :=
    [("string", "\"example\""), ("integer", "1"), ("number", "1.0"), ("boolean", "True"), ("array", "[]"), ("object", "{}")]

  /** The placeholders of the six JSON types, and no others. */
  lemma ExamplesTable()
    ensures Dicts.Get(EXAMPLES, "string") == Some("\"example\"") && Dicts.Get(EXAMPLES, "integer") == Some("1")
      && Dicts.Get(EXAMPLES, "number") == Some("1.0") && Dicts.Get(EXAMPLES, "boolean") == Some("True")
      && Dicts.Get(EXAMPLES, "array") == Some("[]") && Dicts.Get(EXAMPLES, "object") == Some("{}")
    ensures forall k :: k !in ["string", "integer", "number", "boolean", "array", "object"] ==> Dicts.Get(EXAMPLES, k) == None
  {
    forall k | k !in ["string", "integer", "number", "boolean", "array", "object"]
      ensures Dicts.Get(EXAMPLES, k) == None
    {
      Dicts.GetSome(EXAMPLES, k);
      assert Dicts.Keys(EXAMPLES) == ["string", "integer", "number", "boolean", "array", "object"];
    }
  }

  /** `value[0]` on an enum value. */
  function First(v: Json.Value): Outcome<string> {
    match v
    case Arr(items) => if items == [] then Raise(Error("IndexError", "list index out of range")) else Ok(Json.PyStr(items[0]))
    case Str(s) => if s == [] then Raise(Error("IndexError", "string index out of range")) else Ok([s[0]])
    case Obj(_) => Raise(Error("KeyError", "0"))
    case _ => Raise(Error("TypeError", "'" + Json.TypeName(v) + "' object is not subscriptable"))
  }

  /** `_get_example_value(schema)`: the first enum value in quotes, else
      the placeholder of the schema's type (default "string"), else
      "None". */
  function ExampleValue(schema: Json.Value): (r: Outcome<string>)
    ensures schema.Obj? && Json.GetOr(schema.fields, "enum", Json.Null).Arr?
      && Json.GetOr(schema.fields, "enum", Json.Null).items != []
      ==> r == Ok("\"" + Json.PyStr(Json.GetOr(schema.fields, "enum", Json.Null).items[0]) + "\"")
    ensures schema.Obj? && "enum" !in Dicts.Keys(schema.fields) && "type" !in Dicts.Keys(schema.fields)
      ==> r == Ok("\"example\"")
    ensures schema.Obj? && "enum" !in Dicts.Keys(schema.fields) ==>
      var t := Json.GetOr(schema.fields, "type", Json.Str("string"));
      (t == Json.Str("string") ==> r == Ok("\"example\""))
      && (t == Json.Str("integer") ==> r == Ok("1"))
      && (t == Json.Str("number") ==> r == Ok("1.0"))
      && (t == Json.Str("boolean") ==> r == Ok("True"))
      && (t == Json.Str("array") ==> r == Ok("[]"))
      && (t == Json.Str("object") ==> r == Ok("{}"))
      && (t.Str? && t.s !in ["string", "integer", "number", "boolean", "array", "object"] ==> r == Ok("None"))
      && (!t.Str? && Schema.Hashable(t) ==> r == Ok("None"))
      && (!Schema.Hashable(t) ==> r == Raise(Schema.Unhashable(t)))
  {
    Dicts.GetSome(if schema.Obj? then schema.fields else [], "enum");
    match Schema.In("enum", schema)
    case Raise(e) => Raise(e)
    case Ok(true) =>
      (match Schema.Index(schema, "enum")
       case Raise(e) => Raise(e)
       case Ok(enum) =>
         match First(enum)
         case Raise(e) => Raise(e)
         case Ok(v) => Ok("\"" + v + "\""))
    case Ok(false) =>
      match Schema.Get(schema, "type", Json.Str("string"))
      case Raise(e) => Raise(e)
      case Ok(t) =>
        ExamplesTable();
        if !Schema.Hashable(t) then Raise(Schema.Unhashable(t))
        else if t.Str? && Dicts.Get(EXAMPLES, t.s).Some? then Ok(Dicts.Get(EXAMPLES, t.s).value)
        else Ok("None")
  }

  /** The required properties, in property order. */
  function RequiredProps(props: Dicts.Dict<Json.Value>, required: seq<Json.Value>): (r: Dicts.Dict<Json.Value>)
    ensures forall i :: 0 <= i < |r| ==> r[i] in props && Json.Str(r[i].0) in required
    ensures forall i :: 0 <= i < |props| && Json.Str(props[i].0) in required ==> props[i] in r
  {
    if props == [] then []
    else if Json.Str(props[0].0) in required then [props[0]] + RequiredProps(props[1..], required)
    else RequiredProps(props[1..], required)
  }

  /** The argument lines `_generate_example` collects. */
  function ExampleArgs(props: Dicts.Dict<Json.Value>, required: seq<Json.Value>): Outcome<seq<string>> {
    if props == [] then Ok([])
    else if Json.Str(props[0].0) !in required then ExampleArgs(props[1..], required)
    else
      match ExampleValue(props[0].1)
      case Raise(e) => Raise(e)
      case Ok(v) =>
        match ExampleArgs(props[1..], required)
        case Raise(e) => Raise(e)
        case Ok(rest) => Ok(["    " + props[0].0 + "=" + v + ","] + rest)
  }

  /** The example lists exactly the required properties, in property order,
      each set to its example value. */
  lemma {:induction false} ExampleArgsRequired(props: Dicts.Dict<Json.Value>, required: seq<Json.Value>)
    requires ExampleArgs(props, required).Ok?
    ensures var args := ExampleArgs(props, required).value;
      var req := RequiredProps(props, required);
      |args| == |req|
      && forall i :: 0 <= i < |req| ==>
           ExampleValue(req[i].1).Ok? && args[i] == "    " + req[i].0 + "=" + ExampleValue(req[i].1).value + ","
  {
    if props != [] {
      ExampleArgsRequired(props[1..], required);
      if Json.Str(props[0].0) in required {
        var v := ExampleValue(props[0].1);
        var rest := ExampleArgs(props[1..], required).value;
        var args := ExampleArgs(props, required).value;
        var later := RequiredProps(props[1..], required);
        var req := RequiredProps(props, required);
        assert args == ["    " + props[0].0 + "=" + v.value + ","] + rest;
        assert req == [props[0]] + later;
        forall i | 0 <= i < |req|
          ensures ExampleValue(req[i].1).Ok? && args[i] == "    " + req[i].0 + "=" + ExampleValue(req[i].1).value + ","
        {
          if i > 0 {
            assert req[i] == later[i - 1] && args[i] == rest[i - 1];
          }
        }
      }
    }
  }

  /** The generated code, around its argument lines. */
  function ExampleText(provider: string, funcName: string, args: seq<string>): string {
    var argsText := if args != [] then Text.Join("\n", args) else "    # No required parameters";
    "from servers." + provider + " import " + funcName + "\n\nresult = await " + funcName + "(\n"
      + argsText + "\n)\nprint(result)"
  }

  /** What `_generate_example` returns. */
  function ExampleSpec(provider: string, funcName: string, schema: Json.Value): Outcome<string> {
    match Schema.Get(schema, "properties", Json.Obj([]))
    case Raise(e) => Raise(e)
    case Ok(props) =>
      match Schema.Required(schema)
      case Raise(e) => Raise(e)
      case Ok(required) =>
        if !props.Obj? then Raise(Schema.NoAttribute(props, "items"))
        else
          match ExampleArgs(props.fields, required)
          case Raise(e) => Raise(e)
          case Ok(args) => Ok(ExampleText(provider, funcName, args))
  }

  lemma ExampleArgsStep(props: Dicts.Dict<Json.Value>, i: nat, required: seq<Json.Value>, args: seq<string>)
    requires i < |props|
    ensures Json.Str(props[i].0) !in required ==>
      After(args, ExampleArgs(props[i..], required)) == After(args, ExampleArgs(props[i + 1..], required))
    ensures Json.Str(props[i].0) in required && ExampleValue(props[i].1).Ok? ==>
      After(args, ExampleArgs(props[i..], required))
      == After(args + ["    " + props[i].0 + "=" + ExampleValue(props[i].1).value + ","], ExampleArgs(props[i + 1..], required))
  {
    assert props[i..][1..] == props[i + 1..];
    if Json.Str(props[i].0) in required && ExampleValue(props[i].1).Ok? {
      var line := "    " + props[i].0 + "=" + ExampleValue(props[i].1).value + ",";
      match ExampleArgs(props[i + 1..], required)
      case Raise(_) =>
      case Ok(rest) =>
        assert (args + [line]) + rest == args + ([line] + rest);
    }
  }

  /** `_generate_example(provider, func_name, schema)`. */
  method GenerateExample(provider: string, funcName: string, schema: Json.Value) returns (r: Outcome<string>)
    ensures r == ExampleSpec(provider, funcName, schema)
  {
    var got := Schema.Get(schema, "properties", Json.Obj([]));
    if got.Raise? {
      return Raise(got.exc);
    }
    var props := got.value;
    var req := Schema.Required(schema);
    if req.Raise? {
      return Raise(req.exc);
    }
    if !props.Obj? {
      return Raise(Schema.NoAttribute(props, "items"));
    }
    var args: seq<string> := [];
    var i := 0;
    AfterEmpty(ExampleArgs(props.fields, req.value));
    while i < |props.fields|
      invariant 0 <= i <= |props.fields|
      invariant ExampleArgs(props.fields, req.value) == After(args, ExampleArgs(props.fields[i..], req.value))
    {
      var (prop, propSchema) := props.fields[i];
      ExampleArgsStep(props.fields, i, req.value, args);
      if Json.Str(prop) in req.value {
        var v := ExampleValue(propSchema);
        if v.Raise? {
          assert ExampleArgs(props.fields[i..], req.value) == Raise(v.exc);
          return Raise(v.exc);
        }
        args := args + ["    " + prop + "=" + v.value + ","];
      }
      i := i + 1;
    }
    assert props.fields[i..] == [];
    assert args + [] == args;
    r := Ok(ExampleText(provider, funcName, args));
  }

  // ---------------------------------------------------------------------
  // Tool search

  /** An entry of the servers directory. */
  datatype Entry = Entry(name: string, isDir: bool, hasManifest: bool, tools: Json.Value)

  /** A `ToolSearchResult`. */
  datatype Hit = Hit(provider: string, name: string, description: string, functionName: string)

  function EntryName(e: Entry): string { e.name }

  /** A provider directory: a directory not named with a leading `_` that
      holds a manifest. */
  predicate Listed(e: Entry) {
    e.isDir && !(e.name != [] && e.name[0] == '_') && e.hasManifest
  }

  /** The tools a provider's loop goes through before `tool.get` raises: the
      leading dicts of `TOOLS`; nothing when `TOOLS` cannot be iterated. */
  function LeadingDicts(tools: seq<Json.Value>): (r: seq<Dicts.Dict<Json.Value>>)
    ensures |r| <= |tools|
  {
    if tools == [] || !tools[0].Obj? then [] else [tools[0].fields] + LeadingDicts(tools[1..])
  }

  function EntryTools(e: Entry): seq<Dicts.Dict<Json.Value>> {
    match Json.Iterate(e.tools)
    case Raise(_) => []
    case Ok(items) => LeadingDicts(items)
  }

  function ToolName(tool: Dicts.Dict<Json.Value>): string { Json.PyStr(Json.GetOr(tool, "name", Json.Str(""))) }
  function ToolDescription(tool: Dicts.Dict<Json.Value>): string { Json.PyStr(Json.GetOr(tool, "description", Json.Str(""))) }

  /** `not query_words or _matches_query(query_words, f"{name} {description}")`. */
  predicate ToolMatches(words: seq<string>, tool: Dicts.Dict<Json.Value>) {
    words == [] || MatchesQuery(words, ToolName(tool) + " " + ToolDescription(tool))
  }

  function ToolHit(provider: string, tool: Dicts.Dict<Json.Value>): Hit {
    Hit(provider, ToolName(tool), Truncate(ToolDescription(tool), 150), Naming.Slugify(ToolName(tool)))
  }

  /** The hits among a provider's tools, in manifest order. */
  function Hits(provider: string, tools: seq<Dicts.Dict<Json.Value>>, words: seq<string>): (r: seq<Hit>)
    ensures |r| <= |tools|
    ensures words == [] ==> |r| == |tools|
  {
    if tools == [] then []
    else ToolHits(provider, tools[0], words) + Hits(provider, tools[1..], words)
  }

  /** The hit of one tool, if it matches. */
  function ToolHits(provider: string, tool: Dicts.Dict<Json.Value>, words: seq<string>): (r: seq<Hit>)
    ensures |r| <= 1
    ensures words == [] ==> |r| == 1
  {
    if ToolMatches(words, tool) then [ToolHit(provider, tool)] else []
  }

  function EntryHits(e: Entry, words: seq<string>): seq<Hit> {
    if Listed(e) then Hits(e.name, EntryTools(e), words) else []
  }

  /** The hits of all entries, entry after entry. */
  function AllHits(entries: seq<Entry>, words: seq<string>): seq<Hit> {
    if entries == [] then [] else EntryHits(entries[0], words) + AllHits(entries[1..], words)
  }

  /** What `search_tools(query, servers_path, limit)` returns: no servers
      directory gives nothing; otherwise the hits of the providers in name
      order, cut at `limit` (a `limit` below 1 still lets the first hit
      through, since the count is compared after the append). */
  function SearchSpec(serversExist: bool, entries: seq<Entry>, query: string, limit: int): seq<Hit> {
    if !serversExist then []
    else
      Cut(AllHits(Sorting.SortBy(entries, EntryName), QueryWords(query)), limit)
  }

  /** The first `limit` hits, and at least the first one. */
  function Cut(all: seq<Hit>, limit: int): seq<Hit> {
    all[..Min(|all|, Max(1, limit))]
  }

  /** The cut holds at most `limit` hits when `limit` is positive. */
  lemma CutBound(all: seq<Hit>, limit: int)
    ensures limit >= 1 ==> |Cut(all, limit)| <= limit
  {
  }

  lemma {:induction false} HitsAppend(provider: string, a: seq<Dicts.Dict<Json.Value>>, b: seq<Dicts.Dict<Json.Value>>, words: seq<string>)
    ensures Hits(provider, a + b, words) == Hits(provider, a, words) + Hits(provider, b, words)
  {
    if a == [] {
      assert a + b == b;
    } else {
      calc {
        Hits(provider, a + b, words);
        ToolHits(provider, (a + b)[0], words) + Hits(provider, (a + b)[1..], words);
        { assert (a + b)[0] == a[0]; assert (a + b)[1..] == a[1..] + b; }
        ToolHits(provider, a[0], words) + Hits(provider, a[1..] + b, words);
        { HitsAppend(provider, a[1..], b, words); }
        ToolHits(provider, a[0], words) + (Hits(provider, a[1..], words) + Hits(provider, b, words));
        { Assoc(ToolHits(provider, a[0], words), Hits(provider, a[1..], words), Hits(provider, b, words)); }
        Hits(provider, a, words) + Hits(provider, b, words);
      }
    }
  }

  lemma {:induction false} AllHitsAppend(a: seq<Entry>, b: seq<Entry>, words: seq<string>)
    ensures AllHits(a + b, words) == AllHits(a, words) + AllHits(b, words)
  {
    if a == [] {
      assert a + b == b;
    } else {
      calc {
        AllHits(a + b, words);
        EntryHits((a + b)[0], words) + AllHits((a + b)[1..], words);
        { assert (a + b)[0] == a[0]; assert (a + b)[1..] == a[1..] + b; }
        EntryHits(a[0], words) + AllHits(a[1..] + b, words);
        { AllHitsAppend(a[1..], b, words); }
        EntryHits(a[0], words) + (AllHits(a[1..], words) + AllHits(b, words));
        { Assoc(EntryHits(a[0], words), AllHits(a[1..], words), AllHits(b, words)); }
        AllHits(a, words) + AllHits(b, words);
      }
    }
  }

  /** One more tool: its hit, if any, comes after those of the tools before. */
  lemma HitsSnoc(provider: string, tools: seq<Dicts.Dict<Json.Value>>, j: nat, words: seq<string>)
    requires j < |tools|
    ensures Hits(provider, tools[..j + 1], words) == Hits(provider, tools[..j], words) + ToolHits(provider, tools[j], words)
  {
    Snoc(tools, j);
    HitsAppend(provider, tools[..j], [tools[j]], words);
  }

  lemma AllHitsSnoc(entries: seq<Entry>, i: nat, words: seq<string>)
    requires i < |entries|
    ensures AllHits(entries[..i + 1], words) == AllHits(entries[..i], words) + EntryHits(entries[i], words)
  {
    Snoc(entries, i);
    AllHitsAppend(entries[..i], [entries[i]], words);
  }

  /** The hits found up to tool `j` of entry `i` begin the hits of all
      entries. */
  lemma PrefixOfAll(entries: seq<Entry>, i: nat, j: nat, words: seq<string>)
    requires i < |entries| && Listed(entries[i]) && j <= |EntryTools(entries[i])|
    ensures var found := AllHits(entries[..i], words) + Hits(entries[i].name, EntryTools(entries[i])[..j], words);
      var all := AllHits(entries, words);
      |found| <= |all| && all[..|found|] == found
  {
    var e := entries[i];
    var tools := EntryTools(e);
    var a, h1, h2 := AllHits(entries[..i], words), Hits(e.name, tools[..j], words), Hits(e.name, tools[j..], words);
    var rest := AllHits(entries[i + 1..], words);
    AllHitsSnoc(entries, i, words);
    SplitAt(tools, j);
    HitsAppend(e.name, tools[..j], tools[j..], words);
    assert AllHits(entries[..i + 1], words) == a + (h1 + h2);
    SplitAt(entries, i + 1);
    AllHitsAppend(entries[..i + 1], entries[i + 1..], words);
    Assoc(a, h1, h2);
    Assoc(a + h1, h2, rest);
    PrefixOf(a + h1, h2 + rest);
  }

  /** One step of the loop over a provider's tools: the hits so far grow by
      the hit of tool `j`, if any. */
  lemma HitsStep(provider: string, tools: seq<Dicts.Dict<Json.Value>>, j: nat, words: seq<string>, found: seq<Hit>)
    requires j < |tools|
    ensures found + Hits(provider, tools[..j + 1], words)
      == (found + Hits(provider, tools[..j], words)) + ToolHits(provider, tools[j], words)
  {
    HitsSnoc(provider, tools, j, words);
    Assoc(found, Hits(provider, tools[..j], words), ToolHits(provider, tools[j], words));
  }

  /** The leading dicts are the fields of the first items of `TOOLS`, up to
      the first item that is not a dict. */
  lemma {:induction false} LeadingDictsShape(tools: seq<Json.Value>)
    ensures forall k :: 0 <= k < |LeadingDicts(tools)| ==> tools[k] == Json.Obj(LeadingDicts(tools)[k])
    ensures |LeadingDicts(tools)| < |tools| ==> !tools[|LeadingDicts(tools)|].Obj?
  {
    if tools != [] && tools[0].Obj? {
      LeadingDictsShape(tools[1..]);
      var r := LeadingDicts(tools);
      var rest := LeadingDicts(tools[1..]);
      assert r == [tools[0].fields] + rest;
      forall k | 0 <= k < |r| ensures tools[k] == Json.Obj(r[k]) {
        if k > 0 {
          TailIndex(tools, k - 1);
        }
      }
    }
  }

  /** A dict right after the leading dicts seen so far is the next one. */
  lemma LeadingDictsNext(tools: seq<Json.Value>, j: nat)
    requires j <= |LeadingDicts(tools)| && j < |tools| && tools[j].Obj?
    ensures j < |LeadingDicts(tools)| && LeadingDicts(tools)[j] == tools[j].fields
  {
    LeadingDictsShape(tools);
  }

  /** An item that is not a dict, right after the leading dicts seen so
      far, ends them. */
  lemma LeadingDictsStop(tools: seq<Json.Value>, j: nat)
    requires j <= |LeadingDicts(tools)| && j < |tools| && !tools[j].Obj?
    ensures j == |LeadingDicts(tools)|
  {
    LeadingDictsShape(tools);
  }

  /** The loop over one provider's tools: appends the hits to `found` and
      stops (`full`) as soon as there are `limit` of them; a tool that is not
      a dict ends the loop, as the exception from `tool.get` does. */
  method ProviderSearch(provider: string, tools: seq<Json.Value>, words: seq<string>, found: seq<Hit>, limit: int)
    returns (results: seq<Hit>, full: bool, ghost upTo: nat)
    requires |found| < Max(1, limit)
    ensures upTo <= |LeadingDicts(tools)|
    ensures results == found + Hits(provider, LeadingDicts(tools)[..upTo], words)
    ensures full ==> |results| == Max(1, limit)
    ensures !full ==> upTo == |LeadingDicts(tools)| && |results| < Max(1, limit)
  {
    ghost var dicts := LeadingDicts(tools);
    results := found;
    var j := 0;
    while j < |tools|
      invariant j <= |dicts|
      invariant results == found + Hits(provider, dicts[..j], words)
      invariant |results| < Max(1, limit)
    {
      if !tools[j].Obj? {
        LeadingDictsStop(tools, j);
        break;
      }
      LeadingDictsNext(tools, j);
      var tool := tools[j].fields;
      assert tool == dicts[j];
      HitsStep(provider, dicts, j, words, found);
      var matched;
      results, matched := VisitTool(provider, tool, words, results);
      if matched && |results| >= limit {
        return results, true, j + 1;
      }
      j := j + 1;
    }
    assert j == |dicts|;
    return results, false, j;
  }

  /** One pass of the loop over a provider's tools: the tool's hit is
      appended when its name and description hold every query word, and
      `matched` says whether it was. */
  method VisitTool(provider: string, tool: Dicts.Dict<Json.Value>, words: seq<string>, found: seq<Hit>)
    returns (results: seq<Hit>, matched: bool)
    ensures matched <==> ToolMatches(words, tool)
    ensures results == found + ToolHits(provider, tool, words)
  {
    var name := ToolName(tool);
    var description := ToolDescription(tool);
    matched := words == [] || MatchesQuery(words, name + " " + description);
    if matched {
      results := found + [Hit(provider, name, Truncate(description, 150), Naming.Slugify(name))];
    } else {
      results := found;
    }
  }

  /** Once the hits found up to tool `upTo` of provider `i` reach the limit,
      they are the cut of all hits that `search_tools` returns. */
  lemma FullCut(providers: seq<Entry>, i: nat, upTo: nat, words: seq<string>, results: seq<Hit>, limit: int)
    requires i < |providers| && Listed(providers[i]) && upTo <= |EntryTools(providers[i])|
    requires results == AllHits(providers[..i], words) + Hits(providers[i].name, EntryTools(providers[i])[..upTo], words)
    requires |results| == Max(1, limit)
    ensures results == Cut(AllHits(providers, words), limit)
  {
    PrefixOfAll(providers, i, upTo, words);
  }

  /** `search_tools(query, servers_path, limit)`: providers in name order,
      tools in manifest order, returning as soon as `limit` hits are
      collected. */
  method SearchTools(serversExist: bool, entries: seq<Entry>, query: string, limit: int) returns (results: seq<Hit>)
    ensures results == SearchSpec(serversExist, entries, query, limit)
    ensures limit >= 1 ==> |results| <= limit
  {
    if !serversExist {
      return [];
    }
    var words := QueryWords(query);
    var providers := Sorting.SortBy(entries, EntryName);
    results := CollectHits(providers, words, limit);
    CutBound(AllHits(providers, words), limit);
  }

  /** The loop of `search_tools` over the providers in name order. */
  method CollectHits(providers: seq<Entry>, words: seq<string>, limit: int) returns (results: seq<Hit>)
    ensures results == Cut(AllHits(providers, words), limit)
  {
    results := [];
    for i := 0 to |providers|
      invariant results == AllHits(providers[..i], words)
      invariant |results| < Max(1, limit)
    {
      AllHitsSnoc(providers, i, words);
      var full: bool;
      ghost var upTo: nat;
      results, full, upTo := VisitProvider(providers[i], words, results, limit);
      if full {
        FullCut(providers, i, upTo, words, results, limit);
        return results;
      }
    }
    assert providers[..|providers|] == providers;
    assert Cut(results, limit) == results;
  }

  /** One pass of the loop over the providers: a directory entry that is
      not a provider, or whose `TOOLS` cannot be iterated, adds nothing;
      otherwise its tools are searched, and `full` says that the limit was
      reached at tool `upTo`. */
  method VisitProvider(e: Entry, words: seq<string>, found: seq<Hit>, limit: int)
    returns (results: seq<Hit>, full: bool, ghost upTo: nat)
    requires |found| < Max(1, limit)
    ensures !full ==> results == found + EntryHits(e, words) && |results| < Max(1, limit)
    ensures full ==> Listed(e) && upTo <= |EntryTools(e)| && |results| == Max(1, limit)
    ensures full ==> results == found + Hits(e.name, EntryTools(e)[..upTo], words)
  {
    if !e.isDir || (e.name != [] && e.name[0] == '_') || !e.hasManifest {
      assert EntryHits(e, words) == [];
      return found, false, 0;
    }
    var iterated := Json.Iterate(e.tools);
    if iterated.Raise? {
      assert EntryHits(e, words) == Hits(e.name, [], words) == [];
      return found, false, 0;
    }
    results, full, upTo := ProviderSearch(e.name, iterated.value, words, found, limit);
    assert EntryTools(e) == LeadingDicts(iterated.value);
    if !full {
      assert EntryTools(e)[..upTo] == EntryTools(e);
    }
  }

  /** Every hit names a provider directory and is the hit of one of its
      tools whose text holds every query word; its function name is a slug
      and its description is at most 150 characters. */
  lemma {:induction false} HitsMeaning(entries: seq<Entry>, words: seq<string>)
    ensures forall h :: h in AllHits(entries, words) ==>
      (exists e :: e in entries && Listed(e) && e.name == h.provider && FromTool(h.provider, EntryTools(e), words, h))
      && Naming.IsSlug(h.functionName) && |h.description| <= 150
  {
    if entries != [] {
      HitsMeaning(entries[1..], words);
      var e := entries[0];
      if Listed(e) {
        ToolHitsMeaning(e.name, EntryTools(e), words);
      }
      forall h | h in AllHits(entries, words)
        ensures (exists e :: e in entries && Listed(e) && e.name == h.provider && FromTool(h.provider, EntryTools(e), words, h))
          && Naming.IsSlug(h.functionName) && |h.description| <= 150
      {
        if h in EntryHits(e, words) {
          assert e in entries;
        } else {
          assert h in AllHits(entries[1..], words);
          var e' :| e' in entries[1..] && Listed(e') && e'.name == h.provider && FromTool(h.provider, EntryTools(e'), words, h);
          assert e' in entries;
        }
      }
    }
  }

  /** Every tool of a provider directory whose text holds every query word
      gives a hit: no matching tool is missed. */
  lemma {:induction false} AllHitsComplete(entries: seq<Entry>, words: seq<string>, e: Entry, k: nat)
    requires e in entries && Listed(e) && k < |EntryTools(e)| && ToolMatches(words, EntryTools(e)[k])
    ensures ToolHit(e.name, EntryTools(e)[k]) in AllHits(entries, words)
  {
    if entries[0] == e {
      HitsComplete(e.name, EntryTools(e), words, k);
    } else {
      AllHitsComplete(entries[1..], words, e, k);
    }
  }

  /** A matching tool of a provider's list gives a hit among its hits. */
  lemma {:induction false} HitsComplete(provider: string, tools: seq<Dicts.Dict<Json.Value>>, words: seq<string>, k: nat)
    requires k < |tools| && ToolMatches(words, tools[k])
    ensures ToolHit(provider, tools[k]) in Hits(provider, tools, words)
  {
    if k > 0 {
      HitsComplete(provider, tools[1..], words, k - 1);
    }
  }

  /** A hit of `provider` whose function name is a slug and whose
      description is at most 150 characters. */
  predicate WellShaped(provider: string, h: Hit) {
    h.provider == provider && Naming.IsSlug(h.functionName) && |h.description| <= 150
  }

  /** `h` is the hit of one of `tools` that matches the query. */
  predicate FromTool(provider: string, tools: seq<Dicts.Dict<Json.Value>>, words: seq<string>, h: Hit) {
    exists k :: 0 <= k < |tools| && IsHitOf(provider, tools[k], words, h)
  }

  /** `h` is the hit of `tool`, which matches the query. */
  predicate IsHitOf(provider: string, tool: Dicts.Dict<Json.Value>, words: seq<string>, h: Hit) {
    ToolMatches(words, tool) && h == ToolHit(provider, tool)
  }

  lemma ToolHitShape(provider: string, tool: Dicts.Dict<Json.Value>)
    ensures WellShaped(provider, ToolHit(provider, tool))
  {
    Naming.SlugifyIsSlug(ToolName(tool));
  }

  lemma ToolHitsMeaning(provider: string, tools: seq<Dicts.Dict<Json.Value>>, words: seq<string>)
    ensures forall h :: h in Hits(provider, tools, words) ==> WellShaped(provider, h) && FromTool(provider, tools, words, h)
  {
    HitsShaped(provider, tools, words);
    HitsFromTools(provider, tools, words);
  }

  lemma {:induction false} HitsShaped(provider: string, tools: seq<Dicts.Dict<Json.Value>>, words: seq<string>)
    ensures forall h :: h in Hits(provider, tools, words) ==> WellShaped(provider, h)
  {
    if tools != [] {
      HitsShaped(provider, tools[1..], words);
      ToolHitShape(provider, tools[0]);
      var first := ToolHits(provider, tools[0], words);
      var rest := Hits(provider, tools[1..], words);
      assert Hits(provider, tools, words) == first + rest;
      forall h | h in first + rest ensures WellShaped(provider, h) {
        if h in first {
          assert first == [ToolHit(provider, tools[0])];
        } else {
          assert h in rest;
        }
      }
    }
  }

  lemma {:induction false} HitsFromTools(provider: string, tools: seq<Dicts.Dict<Json.Value>>, words: seq<string>)
    ensures forall h :: h in Hits(provider, tools, words) ==> FromTool(provider, tools, words, h)
  {
    if tools != [] {
      HitsFromTools(provider, tools[1..], words);
      var first := ToolHits(provider, tools[0], words);
      var rest := Hits(provider, tools[1..], words);
      assert Hits(provider, tools, words) == first + rest;
      forall h | h in first + rest ensures FromTool(provider, tools, words, h) {
        HitFromTool(provider, tools, words, h);
      }
    }
  }

  /** A hit of the first tool or of a later one is a hit of the list. */
  lemma HitFromTool(provider: string, tools: seq<Dicts.Dict<Json.Value>>, words: seq<string>, h: Hit)
    requires tools != []
    requires h in ToolHits(provider, tools[0], words) || FromTool(provider, tools[1..], words, h)
    ensures FromTool(provider, tools, words, h)
  {
    if h in ToolHits(provider, tools[0], words) {
      assert IsHitOf(provider, tools[0], words, h);
    } else {
      var k :| 0 <= k < |tools[1..]| && IsHitOf(provider, tools[1..][k], words, h);
      TailIndex(tools, k);
    }
  }

  /** The hits of one provider's tools all name that provider. */
  lemma {:induction false} HitsProvider(provider: string, tools: seq<Dicts.Dict<Json.Value>>, words: seq<string>)
    ensures forall k :: 0 <= k < |Hits(provider, tools, words)| ==> Hits(provider, tools, words)[k].provider == provider
  {
    if tools != [] {
      HitsProvider(provider, tools[1..], words);
      var first := ToolHits(provider, tools[0], words);
      var later := Hits(provider, tools[1..], words);
      var hs: seq<Hit> := first + later;
      forall k | 0 <= k < |hs| ensures hs[k].provider == provider {
        AppendIndex(first, later, k);
        if k < |first| {
          assert first == [ToolHit(provider, tools[0])];
        }
      }
    }
  }

  lemma FirstProvider(e: Entry, words: seq<string>)
    ensures forall k :: 0 <= k < |EntryHits(e, words)| ==> EntryHits(e, words)[k].provider == e.name
  {
    if Listed(e) {
      HitsProvider(e.name, EntryTools(e), words);
    }
  }

  /** Every hit of entries whose names are all at least `lo` names a
      provider at least `lo`. */
  lemma {:induction false} HitsAbove(entries: seq<Entry>, words: seq<string>, lo: string)
    requires forall k :: 0 <= k < |entries| ==> Sorting.LexLe(lo, entries[k].name)
    ensures forall k :: 0 <= k < |AllHits(entries, words)| ==> Sorting.LexLe(lo, AllHits(entries, words)[k].provider)
  {
    if entries != [] {
      var e := entries[0];
      var rest := entries[1..];
      forall k | 0 <= k < |rest| ensures Sorting.LexLe(lo, rest[k].name) {
        assert rest[k] == entries[k + 1];
      }
      HitsAbove(rest, words, lo);
      var first := EntryHits(e, words);
      var later := AllHits(rest, words);
      assert Sorting.LexLe(lo, e.name);
      FirstProvider(e, words);
      var all := first + later;
      assert all == AllHits(entries, words);
      forall k | 0 <= k < |all| ensures Sorting.LexLe(lo, all[k].provider) {
        AppendIndex(first, later, k);
      }
    }
  }

  /** The results come provider by provider in name order. */
  lemma {:induction false} HitsInProviderOrder(entries: seq<Entry>, words: seq<string>)
    requires Sorting.SortedBy(entries, EntryName)
    ensures forall i, j :: 0 <= i < j < |AllHits(entries, words)| ==>
      Sorting.LexLe(AllHits(entries, words)[i].provider, AllHits(entries, words)[j].provider)
  {
    if entries != [] {
      var e := entries[0];
      var rest := entries[1..];
      forall a, b | 0 <= a < b < |rest| ensures Sorting.LexLe(EntryName(rest[a]), EntryName(rest[b])) {
        assert rest[a] == entries[a + 1] && rest[b] == entries[b + 1];
      }
      HitsInProviderOrder(rest, words);
      forall k | 0 <= k < |rest| ensures Sorting.LexLe(e.name, rest[k].name) {
        assert EntryName(entries[0]) == e.name && EntryName(entries[k + 1]) == rest[k].name;
      }
      HitsAbove(rest, words, e.name);
      var first := EntryHits(e, words);
      var later := AllHits(rest, words);
      FirstProvider(e, words);
      var all := first + later;
      assert all == AllHits(entries, words);
      Sorting.LexLeTotal(e.name, e.name);
      forall i, j | 0 <= i < j < |all| ensures Sorting.LexLe(all[i].provider, all[j].provider) {
        AppendIndex(first, later, i);
        AppendIndex(first, later, j);
      }
    }
  }

  /** So are `search_tools`' results. */
  lemma SearchInProviderOrder(serversExist: bool, entries: seq<Entry>, query: string, limit: int)
    ensures forall i, j :: 0 <= i < j < |SearchSpec(serversExist, entries, query, limit)| ==>
      Sorting.LexLe(SearchSpec(serversExist, entries, query, limit)[i].provider, SearchSpec(serversExist, entries, query, limit)[j].provider)
  {
    if serversExist {
      var words := QueryWords(query);
      CutInProviderOrder(entries, words, limit);
      assert SearchSpec(serversExist, entries, query, limit) == Cut(AllHits(Sorting.SortBy(entries, EntryName), words), limit);
    }
  }

  /** The cut hits of the entries in name order are in provider order, for
      any query words. */
  lemma CutInProviderOrder(entries: seq<Entry>, words: seq<string>, limit: int)
    ensures var r := Cut(AllHits(Sorting.SortBy(entries, EntryName), words), limit);
      forall i, j :: 0 <= i < j < |r| ==> Sorting.LexLe(r[i].provider, r[j].provider)
  {
    var sorted := Sorting.SortBy(entries, EntryName);
    Sorting.SortByProps(entries, EntryName);
    HitsInProviderOrder(sorted, words);
    var all := AllHits(sorted, words);
    var r := Cut(all, limit);
    forall i, j | 0 <= i < j < |r| ensures Sorting.LexLe(r[i].provider, r[j].provider) {
      TakeIndex(all, Min(|all|, Max(1, limit)), i);
      TakeIndex(all, Min(|all|, Max(1, limit)), j);
    }
  }

  /** A query without words lists every tool of every provider directory, up
      to the limit. */
  lemma {:induction false} EmptyQueryListsAll(entries: seq<Entry>)
    ensures |AllHits(entries, [])| == Total(entries)
  {
    if entries != [] {
      EmptyQueryListsAll(entries[1..]);
      var e := entries[0];
      assert AllHits(entries, []) == EntryHits(e, []) + AllHits(entries[1..], []);
      if Listed(e) {
        assert |Hits(e.name, EntryTools(e), [])| == |EntryTools(e)|;
      }
    }
  }

  /** The number of tools in the provider directories among `entries`. */
  function Total(entries: seq<Entry>): nat {
    if entries == [] then 0 else (if Listed(entries[0]) then |EntryTools(entries[0])| else 0) + Total(entries[1..])
  }
}
