/** Python's string operations, as the core uses them: character classes,
    whitespace splitting and stripping, substring search and replacement,
    regular-expression substitution of character runs, and decimal rendering
    of integers. */
module Text {
  import Seqs


  /** The characters for which Python's `str.isspace()` holds; `str.split()`
      and `str.strip()` with no arguments use exactly this set. */
  predicate IsSpace(c: char) {
    ('\t' <= c <= '\r') || ('\U{1C}' <= c <= ' ') || c == '\U{85}' || c == '\U{A0}'
    || c == '\U{1680}' || ('\U{2000}' <= c <= '\U{200A}') || c == '\U{2028}'
    || c == '\U{2029}' || c == '\U{202F}' || c == '\U{205F}' || c == '\U{3000}'
  }

  predicate IsDigit(c: char) { '0' <= c <= '9' }
  predicate IsUpper(c: char) { 'A' <= c <= 'Z' }
  predicate IsLower(c: char) { 'a' <= c <= 'z' }

  /** The regular-expression class `[0-9a-zA-Z]`. */
  predicate IsAlnum(c: char) { IsDigit(c) || IsUpper(c) || IsLower(c) }

  /** The regular-expression class `[0-9A-Z]`. */
  predicate IsUpperOrDigit(c: char) { IsDigit(c) || IsUpper(c) }

  predicate IsUnderscore(c: char) { c == '_' }

  function LowerChar(c: char): char {
    if IsUpper(c) then (c as int + 32) as char else c
  }

  function UpperChar(c: char): char {
    if IsLower(c) then (c as int - 32) as char else c
  }

  /** `str.lower()` on the ASCII letters. */
  function Lower(s: string): string {
    seq(|s|, i requires 0 <= i < |s| => LowerChar(s[i]))
  }

  /** `str.upper()` on the ASCII letters. */
  function Upper(s: string): string {
    seq(|s|, i requires 0 <= i < |s| => UpperChar(s[i]))
  }

  /** Lower-casing leaves a text without upper-case letters as it is. */
  lemma {:induction false} LowerFixed(s: string)
    requires forall i :: 0 <= i < |s| ==> !IsUpper(s[i])
    ensures Lower(s) == s
  {
    if s != [] {
      LowerFixed(s[1..]);
    }
  }

  /** Drops the leading characters that satisfy `drop`. */
  function TrimLeft(s: string, drop: char -> bool): (r: string)
    ensures |r| <= |s| && r == s[|s| - |r|..]
    ensures r != [] ==> !drop(r[0])
    decreases |s|
  {
    if s != [] && drop(s[0]) then TrimLeft(s[1..], drop) else s
  }

  /** Every character `TrimLeft` drops satisfies `drop`. */
  lemma {:induction false} TrimLeftDrops(s: string, drop: char -> bool)
    ensures forall i :: 0 <= i < |s| - |TrimLeft(s, drop)| ==> drop(s[i])
    decreases |s|
  {
    if s != [] && drop(s[0]) {
      TrimLeftDrops(s[1..], drop);
      forall i | 0 < i < |s| - |TrimLeft(s, drop)| ensures drop(s[i]) {
        assert s[i] == s[1..][i - 1];
      }
    }
  }

  /** Drops the trailing characters that satisfy `drop`. */
  function TrimRight(s: string, drop: char -> bool): (r: string)
    ensures |r| <= |s| && r == s[..|r|]
    ensures r != [] ==> !drop(r[|r| - 1])
    decreases |s|
  {
    if s != [] && drop(s[|s| - 1]) then TrimRight(s[..|s| - 1], drop) else s
  }

  /** Every character `TrimRight` drops satisfies `drop`. */
  lemma {:induction false} TrimRightDrops(s: string, drop: char -> bool)
    ensures forall i :: |TrimRight(s, drop)| <= i < |s| ==> drop(s[i])
    decreases |s|
  {
    if s != [] && drop(s[|s| - 1]) {
      TrimRightDrops(s[..|s| - 1], drop);
      forall i | |TrimRight(s, drop)| <= i < |s| - 1 ensures drop(s[i]) {
        assert s[i] == s[..|s| - 1][i];
      }
    }
  }

  /** `str.strip()`. */
  function Strip(s: string): string {
    TrimRight(TrimLeft(s, IsSpace), IsSpace)
  }

  /** The strip of a text neither starts nor ends with white space. */
  lemma StripEnds(s: string)
    ensures Strip(s) != [] ==> !IsSpace(Strip(s)[0]) && !IsSpace(Strip(s)[|Strip(s)| - 1])
  {
    var left := TrimLeft(s, IsSpace);
    var stripped := TrimRight(left, IsSpace);
    if stripped != [] {
      assert stripped[0] == left[0];
    }
  }

  /** The strip of a text is empty exactly when the text is all white
      space. */
  lemma StripBlank(s: string)
    ensures Strip(s) == [] <==> forall i :: 0 <= i < |s| ==> IsSpace(s[i])
  {
    var left := TrimLeft(s, IsSpace);
    TrimLeftDrops(s, IsSpace);
    if Strip(s) == [] {
      TrimRightDrops(left, IsSpace);
      assert left == [];
    } else {
      assert !IsSpace(s[|s| - |left|]) by {
        assert s[|s| - |left|] == left[0];
      }
    }
  }

  /** A text that neither starts nor ends with white space is its own
      strip. */
  lemma StripFixed(s: string)
    requires s != [] ==> !IsSpace(s[0]) && !IsSpace(s[|s| - 1])
    ensures Strip(s) == s
  {
    assert TrimLeft(s, IsSpace) == s;
    assert TrimRight(s, IsSpace) == s;
  }

  /** `str.strip("_")`. */
  function StripUnderscores(s: string): string {
    TrimRight(TrimLeft(s, IsUnderscore), IsUnderscore)
  }

  /** Length of the leading run of non-space characters. */
  function TokenEnd(s: string): (k: nat)
    ensures k <= |s|
    ensures k < |s| ==> IsSpace(s[k])
  {
    if s == [] || IsSpace(s[0]) then 0 else 1 + TokenEnd(s[1..])
  }

  /** The leading run holds no white space. */
  lemma {:induction false} TokenEndNoSpace(s: string)
    ensures NoSpace(s[..TokenEnd(s)])
  {
    if s != [] && !IsSpace(s[0]) {
      TokenEndNoSpace(s[1..]);
      assert s[..TokenEnd(s)] == [s[0]] + s[1..][..TokenEnd(s[1..])];
    }
  }

  predicate NoSpace(s: string) {
    forall i :: 0 <= i < |s| ==> !IsSpace(s[i])
  }

  /** `str.split()` with no separator: the maximal runs of non-space
      characters, in order. */
  function Split(s: string): seq<string>
    decreases |s|
  {
    var t := TrimLeft(s, IsSpace);
    if t == [] then []
    else
      var k := TokenEnd(t);
      [t[..k]] + Split(t[k..])
  }

  /** Every part is a nonempty run without white space. */
  predicate AllWords(parts: seq<string>) {
    forall i :: 0 <= i < |parts| ==> parts[i] != [] && NoSpace(parts[i])
  }

  /** The words are nonempty and hold no white space. */
  lemma {:induction false} SplitWords(s: string)
    ensures AllWords(Split(s))
    decreases |s|
  {
    var t := TrimLeft(s, IsSpace);
    if t != [] {
      var k := TokenEnd(t);
      SplitWords(t[k..]);
      FirstWord(t);
      WordsCons(t[..k], Split(t[k..]));
      assert Split(s) == [t[..k]] + Split(t[k..]);
    }
  }

  /** A text that starts with a character other than white space starts
      with a nonempty word. */
  lemma FirstWord(t: string)
    requires t != [] && !IsSpace(t[0])
    ensures t[..TokenEnd(t)] != [] && NoSpace(t[..TokenEnd(t)])
  {
    TokenEndNoSpace(t);
  }

  lemma WordsCons(w: string, rest: seq<string>)
    requires w != [] && NoSpace(w) && AllWords(rest)
    ensures AllWords([w] + rest)
  {
    var r := [w] + rest;
    forall i | 0 <= i < |r| ensures r[i] != [] && NoSpace(r[i]) {
      if i > 0 {
        assert r[i] == rest[i - 1];
      }
    }
  }

  /** `sep.join(parts)`. */
  function Join(sep: string, parts: seq<string>): string {
    if parts == [] then []
    else if |parts| == 1 then parts[0]
    else parts[0] + sep + Join(sep, parts[1..])
  }

  /** `" ".join(s.split())`: whitespace runs become one space, and leading and
      trailing whitespace goes. */
  function Collapse(s: string): string {
    Join(" ", Split(s))
  }

  /** A string in which the only white space is single spaces between words. */
  predicate NormalSpacing(s: string) {
    (forall i :: 0 <= i < |s| ==> IsSpace(s[i]) ==> s[i] == ' ')
    && (s != [] ==> s[0] != ' ' && s[|s| - 1] != ' ')
    && (forall i :: 0 <= i < |s| - 1 ==> s[i] == ' ' ==> s[i + 1] != ' ')
  }

  lemma {:induction false} JoinWordsSpacing(parts: seq<string>)
    requires forall i :: 0 <= i < |parts| ==> parts[i] != [] && NoSpace(parts[i])
    ensures NormalSpacing(Join(" ", parts))
  {
    if |parts| > 1 {
      JoinWordsSpacing(parts[1..]);
      var w, rest := parts[0], Join(" ", parts[1..]);
      var j := w + " " + rest;
      assert forall i :: 0 <= i < |w| ==> j[i] == w[i];
      assert j[|w|] == ' ';
      assert forall i :: |w| < i < |j| ==> j[i] == rest[i - |w| - 1];
    }
  }

  /** `" ".join(s.split())` leaves single spaces between words and no other
      white space. */
  lemma CollapseSpacing(s: string)
    ensures NormalSpacing(Collapse(s))
  {
    SplitWords(s);
    JoinWordsSpacing(Split(s));
  }

  predicate IsPrefix(p: string, s: string) {
    |p| <= |s| && s[..|p|] == p
  }

  /** `sub` occurs in `s` starting at index `i`. */
  predicate OccursAt(s: string, sub: string, i: nat) {
    i + |sub| <= |s| && s[i..i + |sub|] == sub
  }

  /** Python's `sub in s`. */
  predicate Contains(s: string, sub: string)
    decreases |s|
  {
    IsPrefix(sub, s) || (s != [] && Contains(s[1..], sub))
  }

  /** `sub in s` holds exactly when `sub` occurs at some position of `s`. */
  lemma {:induction false} ContainsAt(s: string, sub: string)
    ensures Contains(s, sub) <==> exists i: nat :: OccursAt(s, sub, i)
    decreases |s|
  {
    if IsPrefix(sub, s) {
      assert OccursAt(s, sub, 0);
    } else if s == [] {
      assert forall i: nat :: !OccursAt(s, sub, i);
    } else {
      ContainsAt(s[1..], sub);
      forall i: nat | OccursAt(s, sub, i) ensures OccursAt(s[1..], sub, i - 1) {
        assert i != 0;
        assert s[1..][i - 1..i - 1 + |sub|] == s[i..i + |sub|];
      }
      forall i: nat | OccursAt(s[1..], sub, i) ensures OccursAt(s, sub, i + 1) {
        assert s[1..][i..i + |sub|] == s[i + 1..i + 1 + |sub|];
      }
    }
  }

  /** Python's `s.replace(pat, rep)` for a non-empty `pat`: occurrences are
      replaced left to right without overlapping. */
  function Replace(s: string, pat: string, rep: string): string
    requires pat != []
    decreases |s|
  {
    if |s| < |pat| then s
    else if s[..|pat|] == pat then rep + Replace(s[|pat|..], pat, rep)
    else [s[0]] + Replace(s[1..], pat, rep)
  }

  /** Drops the leading run of characters outside the class `keep`. */
  function DropRun(s: string, keep: char -> bool): (r: string)
    ensures |r| <= |s| && r == s[|s| - |r|..]
    ensures s != [] && !keep(s[0]) ==> |r| < |s|
    ensures r != [] ==> keep(r[0])
    decreases |s|
  {
    if s != [] && !keep(s[0]) then DropRun(s[1..], keep) else s
  }

  /** `re.sub("[^C]+", rep, s)` where `keep` is the class C: every maximal run
      of characters outside C becomes one copy of `rep`. */
  function SubRuns(s: string, keep: char -> bool, rep: string): string
    decreases |s|
  {
    if s == [] then []
    else if keep(s[0]) then [s[0]] + SubRuns(s[1..], keep, rep)
    else rep + SubRuns(DropRun(s, keep), keep, rep)
  }

  function DigitChar(d: nat): char
    requires d < 10
  {
    ('0' as int + d) as char
  }

  function NatToString(n: nat): (r: string)
    ensures r != [] && forall i :: 0 <= i < |r| ==> IsDigit(r[i])
  {
    if n < 10 then [DigitChar(n)] else NatToString(n / 10) + [DigitChar(n % 10)]
  }

  /** `str(i)` for an integer. */
  function IntToString(i: int): string {
    if i < 0 then "-" + NatToString(-i) else NatToString(i)
  }

  /** The index of the first `c` in `s`, or `|s|` when there is none. */
  function IndexOf(s: string, c: char): (k: nat)
    ensures k <= |s|
    ensures k < |s| ==> s[k] == c
    ensures c !in s[..k]
    ensures k == |s| <==> c !in s
  {
    if s == [] then 0
    else if s[0] == c then 0
    else
      var k := 1 + IndexOf(s[1..], c);
      assert s[..k] == [s[0]] + s[1..][..k - 1];
      k
  }

  /** `s.split(sep)` for a one-character separator: the pieces between the
      separators, empty ones included; joining them with `sep` gives `s`
      back. */
  function SplitOn(s: string, sep: char): seq<string>
    decreases |s|
  {
    var k := IndexOf(s, sep);
    if k == |s| then [s]
    else [s[..k]] + SplitOn(s[k + 1..], sep)
  }

  /** There is at least one part, no part holds the separator, and joining
      the parts with it gives the text back. */
  lemma {:induction false} SplitOnShape(s: string, sep: char)
    ensures |SplitOn(s, sep)| >= 1
    ensures forall i :: 0 <= i < |SplitOn(s, sep)| ==> sep !in SplitOn(s, sep)[i]
    ensures Join([sep], SplitOn(s, sep)) == s
    decreases |s|
  {
    var k := IndexOf(s, sep);
    if k < |s| {
      var rest := SplitOn(s[k + 1..], sep);
      SplitOnShape(s[k + 1..], sep);
      var r := [s[..k]] + rest;
      assert SplitOn(s, sep) == r;
      Seqs.ConsTail(s[..k], rest);
      forall i | 1 <= i < |r|
        ensures r[i] == rest[i - 1]
      {
        Seqs.AppendIndex([s[..k]], rest, i);
      }
      assert s == s[..k] + [sep] + s[k + 1..];
    }
  }

  /** `s.partition(sep)`: the text before the first `sep`, whether there is
      one, and the text after it. */
  datatype Parts = Parts(before: string, found: bool, after: string)

  function Partition(s: string, sep: char): Parts {
    var k := IndexOf(s, sep);
    if k == |s| then Parts(s, false, [])
    else Parts(s[..k], true, s[k + 1..])
  }

  /** The part before the separator does not hold it; when found, the three
      parts put back together give `s`; otherwise `s` is all before. */
  lemma PartitionShape(s: string, sep: char)
    ensures var r := Partition(s, sep);
      sep !in r.before
      && (r.found <==> sep in s)
      && (r.found ==> s == r.before + [sep] + r.after)
      && (!r.found ==> s == r.before && r.after == [])
  {
    var k := IndexOf(s, sep);
    if k < |s| {
      assert s == s[..k] + [sep] + s[k + 1..];
    }
  }
}
