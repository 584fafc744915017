/** The identifier transforms that the tool-discovery helpers, the runtime and
    the generator share: `_slugify`, `_to_class_name` and the provider-key
    normalisation. Each appears verbatim in more than one source file and is
    defined once here. */
module Naming {
  import opened Text

  /** Every character is in the class or is `c`, and no two `c` are
      adjacent. */
  predicate RunShaped(s: string, keep: char -> bool, c: char) {
    (forall i :: 0 <= i < |s| ==> keep(s[i]) || s[i] == c)
    && (forall i :: 0 <= i < |s| - 1 ==> s[i] == c ==> s[i + 1] != c)
  }

  /** Replacing each run outside the class by one `c` leaves only class
      characters and single, separated `c`s. */
  lemma {:induction false} SubRunsShaped(s: string, keep: char -> bool, c: char)
    requires !keep(c)
    ensures RunShaped(SubRuns(s, keep, [c]), keep, c)
    ensures var r := SubRuns(s, keep, [c]); s != [] && keep(s[0]) ==> r != [] && r[0] == s[0]
    decreases |s|
  {
    if s != [] {
      if keep(s[0]) {
        SubRunsShaped(s[1..], keep, c);
        var rest := SubRuns(s[1..], keep, [c]);
        assert SubRuns(s, keep, [c]) == [s[0]] + rest;
        ShapedCons(s[0], rest, keep, c);
      } else {
        var t := DropRun(s, keep);
        SubRunsShaped(t, keep, c);
        var rest := SubRuns(t, keep, [c]);
        assert SubRuns(s, keep, [c]) == [c] + rest;
        ShapedCons(c, rest, keep, c);
      }
    }
  }

  /** A class character, or a `c` in front of a text that does not start
      with `c`, keeps a run-shaped text run-shaped. */
  lemma ShapedCons(x: char, rest: string, keep: char -> bool, c: char)
    requires keep(x) || x == c
    requires RunShaped(rest, keep, c)
    requires x == c && rest != [] ==> rest[0] != c
    ensures RunShaped([x] + rest, keep, c)
  {
    var r := [x] + rest;
    forall i | 0 <= i < |r| ensures keep(r[i]) || r[i] == c {
      if i > 0 {
        assert r[i] == rest[i - 1];
      }
    }
    forall i | 0 <= i < |r| - 1 ensures r[i] == c ==> r[i + 1] != c {
      assert r[i + 1] == rest[i];
      if i > 0 {
        assert r[i] == rest[i - 1];
      }
    }
  }

  /** A string already of that shape is left as it is. */
  lemma {:induction false} SubRunsFixed(s: string, keep: char -> bool, c: char)
    requires !keep(c) && RunShaped(s, keep, c)
    ensures SubRuns(s, keep, [c]) == s
    decreases |s|
  {
    if s != [] {
      assert RunShaped(s[1..], keep, c);
      SubRunsFixed(s[1..], keep, c);
      if !keep(s[0]) {
        assert DropRun(s, keep) == s[1..];
      }
    }
  }

  lemma RunShapedSlice(s: string, keep: char -> bool, c: char, lo: nat, hi: nat)
    requires RunShaped(s, keep, c) && lo <= hi <= |s|
    ensures RunShaped(s[lo..hi], keep, c)
  {
    assert forall i :: 0 <= i < hi - lo ==> s[lo..hi][i] == s[lo + i];
  }

  /** Where `s.strip("_")` starts in `s`. */
  function StripStart(s: string): nat {
    |s| - |TrimLeft(s, IsUnderscore)|
  }

  /** `s.strip("_")` is a piece of `s` that neither starts nor ends with
      `_`. */
  lemma StripUnderscoresSlice(s: string)
    ensures var r, lo := StripUnderscores(s), StripStart(s);
      lo + |r| <= |s| && r == s[lo..lo + |r|] && (r != [] ==> r[0] != '_' && r[|r| - 1] != '_')
  {
    var l := TrimLeft(s, IsUnderscore);
    var r := TrimRight(l, IsUnderscore);
    assert r == s[StripStart(s)..StripStart(s) + |r|];
  }

  /** Leading and trailing `_` of a run-shaped string are stripped and the
      rest keeps its shape. */
  lemma StripShaped(s: string, keep: char -> bool)
    requires RunShaped(s, keep, '_')
    ensures var r := StripUnderscores(s);
      RunShaped(r, keep, '_') && (r != [] ==> r[0] != '_' && r[|r| - 1] != '_')
  {
    StripUnderscoresSlice(s);
    var r := StripUnderscores(s);
    RunShapedSlice(s, keep, '_', StripStart(s), StripStart(s) + |r|);
  }

  /** Lower-casing maps `[0-9a-zA-Z_]` onto `[0-9a-z_]` position by position
      and leaves `_` where it was. */
  lemma LowerShaped(r: string)
    requires RunShaped(r, IsAlnum, '_')
    ensures |Lower(r)| == |r|
    ensures forall i :: 0 <= i < |r| ==> IsDigit(Lower(r)[i]) || IsLower(Lower(r)[i]) || Lower(r)[i] == '_'
    ensures forall i :: 0 <= i < |r| ==> (Lower(r)[i] == '_' <==> r[i] == '_')
  {
    var t := Lower(r);
    forall i | 0 <= i < |t| ensures (IsDigit(t[i]) || IsLower(t[i]) || t[i] == '_') && (t[i] == '_' <==> r[i] == '_') {
      assert t[i] == LowerChar(r[i]);
    }
  }

  /** What `_slugify` promises: a non-empty identifier of `[0-9a-z_]` with no
      leading, trailing or doubled `_`. */
  predicate IsSlug(s: string) {
    s != []
    && (forall i :: 0 <= i < |s| ==> IsDigit(s[i]) || IsLower(s[i]) || s[i] == '_')
    && s[0] != '_' && s[|s| - 1] != '_'
    && (forall i :: 0 <= i < |s| - 1 ==> s[i] == '_' ==> s[i + 1] != '_')
  }

  /** `_slugify(value)`: runs outside `[0-9a-zA-Z]` become `_`, outer `_` are
      stripped, the result is lower-cased, and an empty result becomes
      "tool". */
  function Slugify(value: string): string {
    var t := Lower(StripUnderscores(SubRuns(value, IsAlnum, "_")));
    if t == [] then "tool" else t
  }

  lemma SlugifyIsSlug(value: string)
    ensures IsSlug(Slugify(value))
  {
    var subbed := SubRuns(value, IsAlnum, "_");
    SubRunsShaped(value, IsAlnum, '_');
    StripShaped(subbed, IsAlnum);
    var r := StripUnderscores(subbed);
    if r == [] {
      assert Slugify(value) == "tool";
      DefaultIsSlug();
    } else {
      LowerSlug(r);
      assert Slugify(value) == Lower(r);
    }
  }

  /** The fallback name is a slug. */
  lemma DefaultIsSlug()
    ensures IsSlug("tool")
  {
    var s := "tool";
    assert forall i :: 0 <= i < |s| ==> IsLower(s[i]);
  }

  /** Lower-casing a stripped, run-shaped non-empty text gives a slug. */
  lemma LowerSlug(r: string)
    requires RunShaped(r, IsAlnum, '_') && r != [] && r[0] != '_' && r[|r| - 1] != '_'
    ensures IsSlug(Lower(r))
  {
    LowerShaped(r);
    var t := Lower(r);
    forall i | 0 <= i < |t| - 1 ensures t[i] == '_' ==> t[i + 1] != '_' {
      assert r[i] == '_' ==> r[i + 1] != '_';
    }
  }

  /** A slug is its own slug. */
  lemma SlugFixed(s: string)
    requires IsSlug(s)
    ensures Slugify(s) == s
  {
    assert RunShaped(s, IsAlnum, '_');
    SubRunsFixed(s, IsAlnum, '_');
    StripUnderscoresFixed(s);
    LowerFixed(s);
    assert Lower(StripUnderscores(SubRuns(s, IsAlnum, "_"))) == s;
  }

  /** `_slugify` is idempotent. */
  lemma SlugifyIdempotent(value: string)
    ensures Slugify(Slugify(value)) == Slugify(value)
  {
    SlugifyIsSlug(value);
    SlugFixed(Slugify(value));
  }

  /** The shape of a normalised provider key: `[0-9A-Z_]` only, no leading,
      trailing or doubled `_`; it may be empty. */
  predicate IsProviderKey(s: string) {
    (forall i :: 0 <= i < |s| ==> IsUpperOrDigit(s[i]) || s[i] == '_')
    && (s != [] ==> s[0] != '_' && s[|s| - 1] != '_')
    && (forall i :: 0 <= i < |s| - 1 ==> s[i] == '_' ==> s[i + 1] != '_')
  }

  /** `re.sub(r"[^0-9A-Z]+", "_", provider.upper()).strip("_")`. */
  function NormalizeProvider(provider: string): string {
    StripUnderscores(SubRuns(Upper(provider), IsUpperOrDigit, "_"))
  }

  lemma NormalizeProviderShape(provider: string)
    ensures IsProviderKey(NormalizeProvider(provider))
  {
    var subbed := SubRuns(Upper(provider), IsUpperOrDigit, "_");
    SubRunsShaped(Upper(provider), IsUpperOrDigit, '_');
    StripShaped(subbed, IsUpperOrDigit);
    ShapedIsProviderKey(StripUnderscores(subbed));
  }

  lemma ShapedIsProviderKey(r: string)
    requires RunShaped(r, IsUpperOrDigit, '_') && (r != [] ==> r[0] != '_' && r[|r| - 1] != '_')
    ensures IsProviderKey(r)
  {
  }

  lemma UpperFixed(s: string)
    requires forall i :: 0 <= i < |s| ==> !IsLower(s[i])
    ensures Upper(s) == s
  {
  }

  /** A text that neither starts nor ends with `_` is its own
      `strip("_")`. */
  lemma StripUnderscoresFixed(s: string)
    requires s != [] ==> s[0] != '_' && s[|s| - 1] != '_'
    ensures StripUnderscores(s) == s
  {
    assert TrimLeft(s, IsUnderscore) == s;
  }

  /** Normalising a normalised key changes nothing. */
  lemma NormalizeProviderIdempotent(provider: string)
    ensures NormalizeProvider(NormalizeProvider(provider)) == NormalizeProvider(provider)
  {
    var k := NormalizeProvider(provider);
    NormalizeProviderShape(provider);
    UpperFixed(k);
    SubRunsFixed(k, IsUpperOrDigit, '_');
    StripUnderscoresFixed(k);
  }

  /** `word.capitalize()`: the first character upper-cased, the rest
      lower-cased. */
  function Capitalize(word: string): string {
    if word == [] then [] else [UpperChar(word[0])] + Lower(word[1..])
  }

  function Concat(parts: seq<string>): string {
    if parts == [] then [] else parts[0] + Concat(parts[1..])
  }

  /** `_to_class_name(value)`: the `[0-9a-zA-Z]` runs of `value`, each
      capitalised, run together. */
  function ToClassName(value: string): string {
    var words := Split(SubRuns(value, IsAlnum, " "));
    Concat(seq(|words|, i requires 0 <= i < |words| => Capitalize(words[i])))
  }

  predicate AllAlnum(s: string) {
    forall i :: 0 <= i < |s| ==> IsAlnum(s[i])
  }

  predicate IsAlnumOrSpace(c: char) { IsAlnum(c) || c == ' ' }

  predicate AllSat(s: string, p: char -> bool) {
    forall i :: 0 <= i < |s| ==> p(s[i])
  }

  lemma {:induction false} ConcatAlnum(parts: seq<string>)
    requires forall i :: 0 <= i < |parts| ==> AllAlnum(parts[i])
    ensures AllAlnum(Concat(parts))
  {
    if parts != [] {
      ConcatAlnum(parts[1..]);
    }
  }

  lemma AllSatSlice(s: string, p: char -> bool, lo: nat, hi: nat)
    requires AllSat(s, p) && lo <= hi <= |s|
    ensures AllSat(s[lo..hi], p)
  {
    assert forall i :: 0 <= i < hi - lo ==> s[lo..hi][i] == s[lo + i];
  }

  /** Every word of `s.split()` is made of characters of `s`, so a property
      of all of `s`'s characters holds of every word's characters. */
  lemma {:induction false} SplitSat(s: string, p: char -> bool)
    requires AllSat(s, p)
    ensures forall w :: w in Split(s) ==> AllSat(w, p)
    decreases |s|
  {
    var t := TrimLeft(s, IsSpace);
    AllSatSlice(s, p, |s| - |t|, |s|);
    if t != [] {
      var k := TokenEnd(t);
      AllSatSlice(t, p, 0, k);
      AllSatSlice(t, p, k, |t|);
      assert t[0..k] == t[..k] && t[k..|t|] == t[k..];
      SplitSat(t[k..], p);
    }
  }

  lemma CapitalizeAlnum(w: string)
    requires AllAlnum(w)
    ensures AllAlnum(Capitalize(w))
  {
    if w != [] {
      var c := Capitalize(w);
      forall i | 0 <= i < |c| ensures IsAlnum(c[i]) {
        if i > 0 {
          assert c[i] == LowerChar(w[i]);
        }
      }
    }
  }

  lemma WordAlnum(w: string)
    requires AllSat(w, IsAlnumOrSpace) && NoSpace(w)
    ensures AllAlnum(w)
  {
    forall i | 0 <= i < |w| ensures IsAlnum(w[i]) {
      assert IsAlnumOrSpace(w[i]) && !IsSpace(w[i]);
    }
  }

  /** The class name is made of `[0-9a-zA-Z]` only, so it is a valid Python
      identifier whenever it does not start with a digit. */
  lemma ToClassNameAlnum(value: string)
    ensures AllAlnum(ToClassName(value))
  {
    var spaced := SubRuns(value, IsAlnum, " ");
    SubRunsShaped(value, IsAlnum, ' ');
    assert AllSat(spaced, IsAlnumOrSpace);
    var words := Split(spaced);
    SplitSat(spaced, IsAlnumOrSpace);
    SplitWords(spaced);
    var caps := seq(|words|, i requires 0 <= i < |words| => Capitalize(words[i]));
    forall i | 0 <= i < |words| ensures AllAlnum(caps[i]) {
      assert words[i] in words;
      WordAlnum(words[i]);
      CapitalizeAlnum(words[i]);
    }
    ConcatAlnum(caps);
  }
}
