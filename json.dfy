/** The Python values that `json.loads` produces, and the Python built-ins the
    core applies to them: truth testing, `str()`, `list()`, `dict.get` and the
    recursive key ordering used for fingerprints and generated literals.
    JSON text itself is not parsed here: `json.loads` is an oracle of type
    `string -> Parsed`. A float is kept as its Python `repr` text. */
module Json {
  import opened Wrappers
  import Text
  import Sorting
  import Dicts

  datatype Value =
    | Null
    | Bool(b: bool)
    | Int(i: int)
    | Num(repr: string)
    | Str(s: string)
    | Arr(items: seq<Value>)
    | Obj(fields: Dicts.Dict<Value>)

  /** The result of `json.loads(text)`: a value, or a `JSONDecodeError`. */
  datatype Parsed = Parsed(value: Value) | Invalid(message: string)

  /** Python's truth test, `bool(v)`. */
  predicate Truthy(v: Value) {
    match v
    case Null => false
    case Bool(b) => b
    case Int(i) => i != 0
    case Num(r) => r != "0.0" && r != "-0.0"
    case Str(s) => s != []
    case Arr(items) => items != []
    case Obj(fields) => fields != []
  }

  /** `type(v).__name__`, as it appears in Python's error messages. */
  function TypeName(v: Value): string {
    match v
    case Null => "NoneType"
    case Bool(_) => "bool"
    case Int(_) => "int"
    case Num(_) => "float"
    case Str(_) => "str"
    case Arr(_) => "list"
    case Obj(_) => "dict"
  }

  /** `str(v)`: a string is itself, and the strings inside a container
      (its items, and the keys and values of a dict) are shown as their
      `repr`. */
  function PyStr(v: Value): string
    decreases v, 1
  {
    match v
    case Null => "None"
    case Bool(b) => if b then "True" else "False"
    case Int(i) => Text.IntToString(i)
    case Num(r) => r
    case Str(s) => s
    case Arr(items) =>
      "[" + Text.Join(", ", seq(|items|, i requires 0 <= i < |items| => Repr(items[i]))) + "]"
    case Obj(fields) =>
      "{" + Text.Join(", ", seq(|fields|, i requires 0 <= i < |fields| =>
        StrRepr(fields[i].0) + ": " + Repr(fields[i].1))) + "}"
  }

  /** `repr(v)`: a string as a quoted literal, anything else as its
      `str`. */
  function Repr(v: Value): string
    decreases v, 2
  {
    if v.Str? then StrRepr(v.s) else PyStr(v)
  }

  // ---------------------------------------------------------------------
  // `repr` of a string, and reading the literal back

  /** The quote `repr` puts around a text: a double quote when it holds a
      single quote and no double quote, else a single quote. */
  function QuoteFor(s: string): (q: char)
    ensures q == '"' <==> '\'' in s && '"' !in s
    ensures q == '"' || q == '\''
  {
    if '\'' in s && '"' !in s then '"' else '\''
  }

  /** The lower-case hex digit of `i`. */
  function HexDigit(i: int): (d: char)
    requires 0 <= i < 16
    ensures HexValue(d) == Some(i)
  {
    if i < 10 then ('0' as int + i) as char else ('a' as int + i - 10) as char
  }

  /** The value of a hex digit, either case. */
  function HexValue(d: char): Option<int> {
    if '0' <= d <= '9' then Some(d as int - '0' as int)
    else if 'a' <= d <= 'f' then Some(d as int - 'a' as int + 10)
    else if 'A' <= d <= 'F' then Some(d as int - 'A' as int + 10)
    else None
  }

  /** A character `repr` writes as `\xHH`: the ASCII controls, DEL, and the
      Latin-1 characters that are not printable (the C1 controls, the
      no-break space and the soft hyphen). */
  predicate HexEscaped(c: char) {
    c as int < 0x20 || c as int == 0x7f || 0x80 <= c as int <= 0xa0 || c as int == 0xad
  }

  /** One character inside a literal quoted with `q`: the quote and the
      backslash get a backslash, tab, newline and carriage return their
      letter escapes, and the other unprintable ones a hex escape. */
  function ReprChar(c: char, q: char): (r: string)
    ensures r != [] && (r[0] == '\\' <==> c == q || c == '\\' || HexEscaped(c))
  {
    if c == q || c == '\\' then ['\\', c]
    else if c == '\t' then "\\t"
    else if c == '\n' then "\\n"
    else if c == '\r' then "\\r"
    else if HexEscaped(c) then ['\\', 'x', HexDigit(c as int / 16), HexDigit(c as int % 16)]
    else [c]
  }

  function ReprChars(s: string, q: char): string {
    if s == [] then [] else ReprChar(s[0], q) + ReprChars(s[1..], q)
  }

  /** `repr(s)` for a text `s`. */
  function StrRepr(s: string): (r: string)
    ensures |r| >= 2 && r[0] == QuoteFor(s) && r[|r| - 1] == QuoteFor(s)
  {
    [QuoteFor(s)] + ReprChars(s, QuoteFor(s)) + [QuoteFor(s)]
  }

  /** Python's reading of the inside of a string literal, for the escapes
      `repr` writes: a backslash before a quote or a backslash, `\t`, `\n`,
      `\r` and `\xHH`; any other escape is refused here. */
  function ReadChars(t: string): Option<string>
    decreases |t|
  {
    if t == [] then Some([])
    else if t[0] != '\\' then Prepend(t[0], ReadChars(t[1..]))
    else if |t| >= 2 && (t[1] == '\\' || t[1] == '\'' || t[1] == '"') then Prepend(t[1], ReadChars(t[2..]))
    else if |t| >= 2 && t[1] == 't' then Prepend('\t', ReadChars(t[2..]))
    else if |t| >= 2 && t[1] == 'n' then Prepend('\n', ReadChars(t[2..]))
    else if |t| >= 2 && t[1] == 'r' then Prepend('\r', ReadChars(t[2..]))
    else if |t| >= 4 && t[1] == 'x' && HexValue(t[2]).Some? && HexValue(t[3]).Some? then
      Prepend((16 * HexValue(t[2]).value + HexValue(t[3]).value) as char, ReadChars(t[4..]))
    else None
  }

  function Prepend(c: char, rest: Option<string>): Option<string> {
    if rest.Some? then Some([c] + rest.value) else None
  }

  /** Python's reading of a one-line string literal in either quote. */
  function ReadStrLiteral(lit: string): Option<string> {
    if |lit| >= 2 && (lit[0] == '\'' || lit[0] == '"') && lit[|lit| - 1] == lit[0] then ReadChars(lit[1..|lit| - 1])
    else None
  }

  /** Reading the literal `repr` writes gives the text back. */
  lemma StrReprRoundTrip(s: string)
    ensures ReadStrLiteral(StrRepr(s)) == Some(s)
  {
    var q := QuoteFor(s);
    var r := StrRepr(s);
    assert r[1..|r| - 1] == ReprChars(s, q);
    ReadReprChars(s, q);
  }

  lemma {:induction false} ReadReprChars(s: string, q: char)
    requires q == '"' || q == '\''
    ensures ReadChars(ReprChars(s, q)) == Some(s)
  {
    if s != [] {
      ReadReprChars(s[1..], q);
      ReadReprChar(s[0], q, ReprChars(s[1..], q));
      assert [s[0]] + s[1..] == s;
    }
  }

  /** The reader takes exactly one escaped character off the front. */
  lemma ReadReprChar(c: char, q: char, rest: string)
    requires q == '"' || q == '\''
    ensures ReadChars(ReprChar(c, q) + rest) == Prepend(c, ReadChars(rest))
  {
    var t := ReprChar(c, q) + rest;
    if HexEscaped(c) && !(c == q || c == '\\') && c != '\t' && c != '\n' && c != '\r' {
      assert t[4..] == rest;
      assert 16 * (c as int / 16) + c as int % 16 == c as int;
    } else if c == q || c == '\\' || c == '\t' || c == '\n' || c == '\r' {
      assert t[2..] == rest;
    } else {
      assert t[1..] == rest;
    }
  }

  /** `d.get(key, default)` on a dict value. */
  function GetOr(fields: Dicts.Dict<Value>, key: string, default: Value): Value {
    Dicts.Get(fields, key).GetOr(default)
  }

  /** The characters of a text, each as a one-character string. */
  function Chars(s: string): (r: seq<Value>)
    ensures |r| == |s| && forall i :: 0 <= i < |s| ==> r[i] == Str([s[i]])
  {
    seq(|s|, i requires 0 <= i < |s| => Str([s[i]]))
  }

  /** `v += s` for a text `s`: a string grows by `s` and a list by its
      characters; no other type supports `+=` with a string. */
  function AddText(v: Value, s: string): (r: Outcome<Value>)
    ensures r.Ok? <==> v.Str? || v.Arr?
    ensures r.Raise? ==> r.exc == Error("TypeError",
      "unsupported operand type(s) for +=: '" + TypeName(v) + "' and 'str'")
    ensures v.Str? ==> r == Ok(Str(v.s + s))
    ensures v.Arr? ==>
      r.Ok? && r.value.Arr? && |r.value.items| == |v.items| + |s|
      && r.value.items[..|v.items|] == v.items
      && forall i :: 0 <= i < |s| ==> r.value.items[|v.items| + i] == Str([s[i]])
  {
    match v
    case Str(t) => Ok(Str(t + s))
    case Arr(items) => Ok(Arr(items + Chars(s)))
    case _ => Raise(Error("TypeError", "unsupported operand type(s) for +=: '" + TypeName(v) + "' and 'str'"))
  }

  /** `list(v)`: the items of a list, the characters of a string, the keys of
      a dict; any other value is not iterable. */
  function Iterate(v: Value): Outcome<seq<Value>> {
    match v
    case Arr(items) => Ok(items)
    case Str(s) => Ok(Chars(s))
    case Obj(fields) => Ok(seq(|fields|, i requires 0 <= i < |fields| => Str(fields[i].0)))
    case _ => Raise(Error("TypeError", "'" + TypeName(v) + "' object is not iterable"))
  }

  function FieldKey(p: (string, Value)): string { p.0 }

  /** Every dict inside `v`, at any depth, has its keys in sorted order. */
  predicate Canonical(v: Value)
    decreases v
  {
    match v
    case Obj(fields) =>
      Sorting.SortedBy(fields, FieldKey) && forall i :: 0 <= i < |fields| ==> Canonical(fields[i].1)
    case Arr(items) => forall i :: 0 <= i < |items| ==> Canonical(items[i])
    case _ => true
  }

  /** Orders every dict's keys, at every depth; lists keep their order and
      length and scalars are returned unchanged. This is what
      `json.dumps(v, sort_keys=True)` serialises and what the generator's
      `_order_data` builds. */
  function SortKeys(v: Value): (r: Value)
    ensures Canonical(r)
    ensures v.Arr? <==> r.Arr?
    ensures v.Obj? <==> r.Obj?
    ensures !v.Arr? && !v.Obj? ==> r == v
    ensures v.Arr? ==> (|r.items| == |v.items|
      && forall i :: 0 <= i < |v.items| ==> r.items[i] == SortKeys(v.items[i]))
    ensures v.Obj? ==> (|r.fields| == |v.fields|
      && forall k :: k in Dicts.Keys(r.fields) <==> k in Dicts.Keys(v.fields))
    decreases v
  {
    match v
    case Obj(fields) =>
      var sorted := Sorting.SortBy(fields, FieldKey);
      SortFieldsProps(fields, sorted);
      var r := Obj(seq(|sorted|, i requires 0 <= i < |sorted| => (sorted[i].0, SortKeys(sorted[i].1))));
      assert Dicts.Keys(r.fields) == Dicts.Keys(sorted);
      r
    case Arr(items) => Arr(seq(|items|, i requires 0 <= i < |items| => SortKeys(items[i])))
    case _ => v
  }

  /** The sorted entries are the entries of the dict, in key order; every
      value in them is a value of the dict, so smaller than it. */
  lemma SortFieldsProps(fields: Dicts.Dict<Value>, sorted: Dicts.Dict<Value>)
    requires sorted == Sorting.SortBy(fields, FieldKey)
    ensures |sorted| == |fields| && Sorting.SortedBy(sorted, FieldKey)
    ensures forall i :: 0 <= i < |sorted| ==> sorted[i] in fields
    ensures forall k :: k in Dicts.Keys(sorted) <==> k in Dicts.Keys(fields)
  {
    Sorting.SortByProps(fields, FieldKey);
    forall i | 0 <= i < |sorted| ensures sorted[i] in fields {
      assert sorted[i] in multiset(sorted);
    }
    forall k | k in Dicts.Keys(fields) ensures k in Dicts.Keys(sorted) {
      var i :| 0 <= i < |fields| && fields[i].0 == k;
      assert fields[i] in multiset(fields);
      var j :| 0 <= j < |sorted| && sorted[j] == fields[i];
      assert Dicts.Keys(sorted)[j] == k;
    }
    forall k | k in Dicts.Keys(sorted) ensures k in Dicts.Keys(fields) {
      var i :| 0 <= i < |sorted| && sorted[i].0 == k;
      var j :| 0 <= j < |fields| && fields[j] == sorted[i];
      assert Dicts.Keys(fields)[j] == k;
    }
  }

  /** A value whose dicts are already in key order is its own ordering. */
  lemma {:induction false} SortKeysCanonical(v: Value)
    requires Canonical(v)
    ensures SortKeys(v) == v
    decreases v
  {
    match v
    case Obj(fields) =>
      Sorting.SortBySorted(fields, FieldKey);
      forall i | 0 <= i < |fields| ensures SortKeys(fields[i].1) == fields[i].1 {
        SortKeysCanonical(fields[i].1);
      }
    case Arr(items) =>
      forall i | 0 <= i < |items| ensures SortKeys(items[i]) == items[i] {
        SortKeysCanonical(items[i]);
      }
    case _ =>
  }

  /** Ordering keys twice is ordering them once. */
  lemma SortKeysIdempotent(v: Value)
    ensures SortKeys(SortKeys(v)) == SortKeys(v)
  {
    SortKeysCanonical(SortKeys(v));
  }
}
