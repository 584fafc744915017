/** The pieces of Python that the two JSON Schema renderers share: membership
    and subscripting on an arbitrary JSON value with the exceptions Python
    raises, the table of primitive type names, `set(schema.get("required",
    []))`, and the `Literal[...]` rendering of an enum. A schema is any
    `Json.Value`; only a dict has `get` and `items`. */
module Schema {
  import opened Wrappers
  import Text
  import Json
  import Dicts

  // The texts of the errors raised here.
  const ARGUMENT_OF_TYPE: string := "argument of type '"
  const NOT_ITERABLE: string := "' is not iterable"
  const NO_ATTRIBUTE: string := "' object has no attribute '"
  const LIST_INDICES: string := "list indices must be integers or slices, not str"
  const STRING_INDICES: string := "string indices must be integers, not 'str'"
  const NOT_SUBSCRIPTABLE: string := "' object is not subscriptable"
  const UNHASHABLE: string := "unhashable type: '"

  /** `key in v` for a text `key`: a dict key, a list item, a substring;
      any other value is not a container. */
  function In(key: string, v: Json.Value): (r: Outcome<bool>)
    ensures v.Obj? ==> r == Ok(key in Dicts.Keys(v.fields))
    ensures r.Raise? <==> !(v.Obj? || v.Arr? || v.Str?)
  {
    match v
    case Obj(fields) => Ok(key in Dicts.Keys(fields))
    case Arr(items) => Ok(Json.Str(key) in items)
    case Str(s) => Ok(Text.Contains(s, key))
    case _ => Raise(Error("TypeError", ARGUMENT_OF_TYPE + Json.TypeName(v) + NOT_ITERABLE))
  }

  function NoAttribute(v: Json.Value, name: string): Exc {
    Error("AttributeError", "'" + Json.TypeName(v) + NO_ATTRIBUTE + name + "'")
  }

  /** `v.get(key, default)`: only a dict has `get`. */
  function Get(v: Json.Value, key: string, default: Json.Value): (r: Outcome<Json.Value>)
    ensures r.Ok? <==> v.Obj?
    ensures v.Obj? && key !in Dicts.Keys(v.fields) ==> r == Ok(default)
  {
    Dicts.GetSome(if v.Obj? then v.fields else [], key);
    if v.Obj? then Ok(Json.GetOr(v.fields, key, default)) else Raise(NoAttribute(v, "get"))
  }

  /** `v[key]` for a text `key`. */
  function Index(v: Json.Value, key: string): (r: Outcome<Json.Value>)
    ensures v.Obj? && key in Dicts.Keys(v.fields) ==> r == Ok(Json.GetOr(v.fields, key, Json.Null))
  {
    Dicts.GetSome(if v.Obj? then v.fields else [], key);
    match v
    case Obj(fields) =>
      (match Dicts.Get(fields, key)
       case Some(x) => Ok(x)
       case None => Raise(Error("KeyError", Json.StrRepr(key))))
    case Arr(_) => Raise(Error("TypeError", LIST_INDICES))
    case Str(_) => Raise(Error("TypeError", STRING_INDICES))
    case _ => Raise(Error("TypeError", "'" + Json.TypeName(v) + NOT_SUBSCRIPTABLE))
  }

  /** A list or a dict cannot be a dict key or a set member. */
  predicate Hashable(v: Json.Value) {
    !v.Arr? && !v.Obj?
  }

  function Unhashable(v: Json.Value): Exc {
    Error("TypeError", UNHASHABLE + Json.TypeName(v) + "'")
  }

  /** The primitive JSON Schema types and the Python types they become. */
  const PRIMITIVES: Dicts.Dict<string> :=
    [("string", "str"), ("number", "float"), ("integer", "int"), ("boolean", "bool"), ("null", "None")]

  /** `t in type_map` and then `type_map[t]`: the Python type of a primitive
      type name, nothing for any other hashable value; a list or a dict
      cannot be looked up at all. */
  function Primitive(t: Json.Value): (r: Outcome<Option<string>>)
    ensures r.Raise? <==> !Hashable(t)
    ensures r.Ok? && r.value.Some? ==> t.Str? && r.value.value in ["str", "float", "int", "bool", "None"]
  {
    if !Hashable(t) then Raise(Unhashable(t))
    else if t.Str? then
      Dicts.GetIn(PRIMITIVES, t.s);
      Ok(Dicts.Get(PRIMITIVES, t.s))
    else Ok(None)
  }

  /** The table names each primitive type once. */
  lemma PrimitivesUnique()
    ensures Dicts.UniqueKeys(PRIMITIVES)
  {
    var names := Dicts.Keys(PRIMITIVES);
    assert names == ["string", "number", "integer", "boolean", "null"];
    assert forall i, j :: 0 <= i < j < |names| ==> |names[i]| != |names[j]| || names[i][0] != names[j][0];
  }

  /** Each entry of the table is what the lookup of its name finds. */
  lemma PrimitiveEntry(j: nat)
    requires j < |PRIMITIVES|
    ensures Primitive(Json.Str(PRIMITIVES[j].0)) == Ok(Some(PRIMITIVES[j].1))
  {
    PrimitivesUnique();
    Dicts.GetUnique(PRIMITIVES, j);
  }

  /** Each primitive type name gets its own Python type. */
  lemma PrimitiveNames()
    ensures Primitive(Json.Str("string")) == Ok(Some("str"))
    ensures Primitive(Json.Str("number")) == Ok(Some("float"))
    ensures Primitive(Json.Str("integer")) == Ok(Some("int"))
    ensures Primitive(Json.Str("boolean")) == Ok(Some("bool"))
    ensures Primitive(Json.Str("null")) == Ok(Some("None"))
    ensures Primitive(Json.Str("array")) == Ok(None) && Primitive(Json.Str("object")) == Ok(None)
  {
    PrimitiveEntry(0);
    PrimitiveEntry(1);
    PrimitiveEntry(2);
    PrimitiveEntry(3);
    PrimitiveEntry(4);
    ObjectNotPrimitive();
    ArrayNotPrimitive();
  }

  /** `"object"` has no entry in the table. */
  lemma ObjectNotPrimitive()
    ensures Primitive(Json.Str("object")) == Ok(None)
  {
    var names := Dicts.Keys(PRIMITIVES);
    assert names == ["string", "number", "integer", "boolean", "null"];
    assert forall i :: 0 <= i < |names| ==> names[i][0] != 'o';
    Dicts.GetSome(PRIMITIVES, "object");
  }

  /** `"array"` has no entry in the table. */
  lemma ArrayNotPrimitive()
    ensures Primitive(Json.Str("array")) == Ok(None)
  {
    var names := Dicts.Keys(PRIMITIVES);
    assert names == ["string", "number", "integer", "boolean", "null"];
    assert forall i :: 0 <= i < |names| ==> names[i][0] != 'a';
    Dicts.GetSome(PRIMITIVES, "array");
  }

  /** `"string"` and `"null"` map to `str` and `None`. */
  lemma StringAndNullNames()
    ensures Primitive(Json.Str("string")) == Ok(Some("str"))
    ensures Primitive(Json.Str("null")) == Ok(Some("None"))
  {
    PrimitiveEntry(0);
    PrimitiveEntry(4);
  }

  /** The first item of `items` that cannot go into a set, if any. */
  function FirstUnhashable(items: seq<Json.Value>): (r: Option<Json.Value>)
    ensures r.None? <==> forall i :: 0 <= i < |items| ==> Hashable(items[i])
    ensures r.Some? ==> r.value in items && !Hashable(r.value)
  {
    if items == [] then None
    else if !Hashable(items[0]) then Some(items[0])
    else FirstUnhashable(items[1..])
  }

  /** `set(schema.get("required", []))`, kept as the items it is built from:
      only membership of a text is ever asked of it. */
  function Required(schema: Json.Value): (r: Outcome<seq<Json.Value>>)
    ensures schema.Obj? && "required" !in Dicts.Keys(schema.fields) ==> r == Ok([])
  {
    match Get(schema, "required", Json.Arr([]))
    case Raise(e) => Raise(e)
    case Ok(v) =>
      match Json.Iterate(v)
      case Raise(e) => Raise(e)
      case Ok(items) =>
        match FirstUnhashable(items)
        case Some(x) => Raise(Unhashable(x))
        case None => Ok(items)
  }

  /** `", ".join(f'"{v}"' for v in values)`. */
  function Quoted(values: seq<Json.Value>): string {
    Text.Join(", ", seq(|values|, i requires 0 <= i < |values| => "\"" + Json.PyStr(values[i]) + "\""))
  }

  /** `Literal[...]` over whatever iterating the enum gives. */
  function Literal(enum: Json.Value): (r: Outcome<string>)
    ensures enum.Arr? ==> r == Ok("Literal[" + Quoted(enum.items) + "]")
  {
    match Json.Iterate(enum)
    case Raise(e) => Raise(e)
    case Ok(values) => Ok("Literal[" + Quoted(values) + "]")
  }

  /** The items' renderings, or the first exception among them. */
  function AllOk(xs: seq<Outcome<string>>): (r: Outcome<seq<string>>)
    ensures r.Ok? <==> forall i :: 0 <= i < |xs| ==> xs[i].Ok?
    ensures r.Ok? ==> |r.value| == |xs| && forall i :: 0 <= i < |xs| ==> r.value[i] == xs[i].value
  {
    if xs == [] then Ok([])
    else if xs[0].Raise? then Raise(xs[0].exc)
    else
      match AllOk(xs[1..])
      case Raise(e) => Raise(e)
      case Ok(rest) => Ok([xs[0].value] + rest)
  }

  /** The rendering of the schema `{"type": t}` that both renderers reach for
      each member `t` of a list of types, once the list branch comes before
      the table lookup: a member that is itself a list renders as a union, a
      primitive through the table, `array` and `object` without their
      sub-schemas, and a dict cannot be looked up. */
  function TypeOnly(t: Json.Value): Outcome<string>
    decreases t
  {
    if t.Arr? then
      match AllOk(seq(|t.items|, i requires 0 <= i < |t.items| => TypeOnly(t.items[i])))
      case Raise(e) => Raise(e)
      case Ok(parts) => Ok(Text.Join(" | ", parts))
    else
      match Primitive(t)
      case Raise(e) => Raise(e)
      case Ok(Some(p)) => Ok(p)
      case Ok(None) =>
        if t == Json.Str("array") then Ok("List[Any]")
        else if t == Json.Str("object") then Ok("dict[str, Any]")
        else Ok("Any")
  }

  /** The list of types `["string", "null"]` renders as `str | None`. */
  lemma StringOrNullUnion()
    ensures TypeOnly(Json.Arr([Json.Str("string"), Json.Str("null")])) == Ok("str | None")
  {
    var t := Json.Arr([Json.Str("string"), Json.Str("null")]);
    StringAndNullNames();
    var parts := seq(|t.items|, i requires 0 <= i < |t.items| => TypeOnly(t.items[i]));
    assert parts == [Ok("str"), Ok("None")];
    var all := AllOk(parts);
    assert all.Ok? && |all.value| == 2 && all.value[0] == "str" && all.value[1] == "None";
    assert all.value == ["str", "None"];
    assert Text.Join(" | ", ["str", "None"]) == "str | None";
  }

  lemma TypeNamesOk(t: Json.Value)
    requires t.Arr? && forall i :: 0 <= i < |t.items| ==> t.items[i].Str?
    ensures TypeOnly(t).Ok?
  {
    var parts := seq(|t.items|, i requires 0 <= i < |t.items| => TypeOnly(t.items[i]));
    assert forall i :: 0 <= i < |parts| ==> parts[i].Ok?;
  }
}
