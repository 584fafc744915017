/** The `search_tools` function every generated server manifest carries: a
    case-insensitive substring search over the names and descriptions of the
    server's `TOOLS` list, where a blank query lists every tool. The list is
    a parameter here. */
module Manifest {
  import opened Wrappers
  import Text
  import Json
  import Dicts
  import Seqs

  /** One tool definition of `TOOLS`. */
  type Tool = Dicts.Dict<Json.Value>

  /** `(query or "").strip().lower()`. */
  function Normalize(query: Option<string>): string {
    Text.Lower(Text.Strip(query.GetOr("")))
  }

  /** A normalized query holds no upper-case letter and neither starts nor
      ends with white space; it is empty exactly when the query is missing
      or all white space. */
  lemma NormalizeShape(query: Option<string>)
    ensures forall i :: 0 <= i < |Normalize(query)| ==> !Text.IsUpper(Normalize(query)[i])
    ensures Normalize(query) != [] ==>
      !Text.IsSpace(Normalize(query)[0]) && !Text.IsSpace(Normalize(query)[|Normalize(query)| - 1])
    ensures Normalize(query) == [] <==>
      forall i :: 0 <= i < |query.GetOr("")| ==> Text.IsSpace(query.GetOr("")[i])
  {
    var s := query.GetOr("");
    var stripped := Text.Strip(s);
    assert Normalize(query) == Text.Lower(stripped);
    Text.StripEnds(s);
    Text.StripBlank(s);
  }

  /** A query already in normal form is left as it is. */
  lemma NormalizeIdempotent(query: Option<string>)
    ensures Normalize(Some(Normalize(query))) == Normalize(query)
  {
    NormalizeShape(query);
    NormalFormFixed(Normalize(query));
  }

  /** A lower-case text that neither starts nor ends with white space is
      its own normal form. */
  lemma NormalFormFixed(n: string)
    requires forall i :: 0 <= i < |n| ==> !Text.IsUpper(n[i])
    requires n != [] ==> !Text.IsSpace(n[0]) && !Text.IsSpace(n[|n| - 1])
    ensures Normalize(Some(n)) == n
  {
    calc {
      Normalize(Some(n));
      Text.Lower(Text.Strip(n));
      { Text.StripFixed(n); }
      Text.Lower(n);
      { Text.LowerFixed(n); }
      n;
    }
  }

  /** The two keys the search looks at. */
  const NAME := "name"
  const DESCRIPTION := "description"

  /** The text of `str(tool.get(key, "")).lower()`. */
  function Field(tool: Tool, key: string): string {
    Text.Lower(Json.PyStr(Json.GetOr(tool, key, Json.Str(""))))
  }

  /** The test in the loop: the normalized query occurs in the lower-cased
      name or in the lower-cased description. */
  predicate Matches(tool: Tool, normalized: string) {
    Text.Contains(Field(tool, NAME), normalized) || Text.Contains(Field(tool, DESCRIPTION), normalized)
  }

  /** The list a tool contributes to the answer: itself when it matches,
      nothing otherwise. */
  function Kept(tool: Tool, normalized: string): (r: seq<Tool>)
    ensures r == [tool] || r == []
    ensures r != [] <==> Matches(tool, normalized)
  {
    if Matches(tool, normalized) then [tool] else []
  }

  /** The matching tools, in list order. */
  function Matching(tools: seq<Tool>, normalized: string): (r: seq<Tool>)
    ensures |r| <= |tools|
  {
    if tools == [] then []
    else Matching(tools[..|tools| - 1], normalized) + Kept(tools[|tools| - 1], normalized)
  }

  /** What `search_tools(query)` returns. */
  function SearchSpec(tools: seq<Tool>, query: Option<string>): seq<Tool> {
    var normalized := Normalize(query);
    if normalized == [] then tools else Matching(tools, normalized)
  }

  /** One step of the loop: the answer for the first `i + 1` tools extends
      the answer for the first `i`. */
  lemma MatchingStep(tools: seq<Tool>, normalized: string, i: nat)
    requires i < |tools|
    ensures Matching(tools[..i + 1], normalized) == Matching(tools[..i], normalized) + Kept(tools[i], normalized)
  {
    assert tools[..i + 1][..i] == tools[..i];
  }

  /** `search_tools`: a blank query returns a copy of the whole list;
      otherwise the loop collects the matching tools. */
  method SearchTools(tools: seq<Tool>, query: Option<string>) returns (results: seq<Tool>)
    ensures results == SearchSpec(tools, query)
  {
    var normalized := Normalize(query);
    if normalized == [] {
      return tools;
    }
    results := CollectMatches(tools, normalized);
  }

  /** The loop of `search_tools`: each tool whose lower-cased name or
      description holds the normalized query is appended, in list order. */
  method CollectMatches(tools: seq<Tool>, normalized: string) returns (results: seq<Tool>)
    ensures results == Matching(tools, normalized)
  {
    results := [];
    var i := 0;
    while i < |tools|
      invariant 0 <= i <= |tools|
      invariant results == Matching(tools[..i], normalized)
    {
      var tool := tools[i];
      var name := Field(tool, NAME);
      var description := Field(tool, DESCRIPTION);
      MatchingStep(tools, normalized, i);
      if Text.Contains(name, normalized) || Text.Contains(description, normalized) {
        results := results + [tool];
      }
      i := i + 1;
    }
    assert tools[..i] == tools;
  }

  /** A tool is in the answer to a non-blank query exactly when it is one of
      the tools and it matches. */
  lemma {:induction false} MatchingMembers(tools: seq<Tool>, normalized: string, t: Tool)
    ensures t in Matching(tools, normalized) <==> t in tools && Matches(t, normalized)
  {
    if tools != [] {
      var init := tools[..|tools| - 1];
      MatchingMembers(init, normalized, t);
      assert tools == init + [tools[|tools| - 1]];
    }
  }

  /** The copies of `t` a search for `normalized` keeps: all of them when
      it matches, none otherwise. */
  function KeptCopies(tools: seq<Tool>, normalized: string, t: Tool): nat {
    if Matches(t, normalized) then multiset(tools)[t] else 0
  }

  /** Each matching tool keeps all its copies and every other tool is
      dropped. */
  lemma {:induction false} MatchingCounts(tools: seq<Tool>, normalized: string, t: Tool)
    ensures multiset(Matching(tools, normalized))[t] == KeptCopies(tools, normalized, t)
  {
    if tools != [] {
      var init := tools[..|tools| - 1];
      MatchingCounts(init, normalized, t);
      assert tools == init + [tools[|tools| - 1]];
    }
  }

  /** `r` is `s` with some items left out, the rest in their order. */
  predicate IsSubsequence(r: seq<Tool>, s: seq<Tool>)
    decreases |s|
  {
    r == [] || (s != [] &&
      ((r[|r| - 1] == s[|s| - 1] && IsSubsequence(r[..|r| - 1], s[..|s| - 1])) || IsSubsequence(r, s[..|s| - 1])))
  }

  /** The answer keeps the order of `TOOLS`. */
  lemma {:induction false} MatchingInOrder(tools: seq<Tool>, normalized: string)
    ensures IsSubsequence(Matching(tools, normalized), tools)
  {
    if tools != [] {
      var init := tools[..|tools| - 1];
      MatchingInOrder(init, normalized);
      var before := Matching(init, normalized);
      var r := Matching(tools, normalized);
      if Matches(tools[|tools| - 1], normalized) {
        assert r == before + [tools[|tools| - 1]];
        assert r[..|r| - 1] == before;
      } else {
        assert r == before;
      }
    }
  }

  /** A missing or blank query lists every tool, in order. */
  lemma BlankQueryListsAll(tools: seq<Tool>, query: Option<string>)
    requires forall i :: 0 <= i < |query.GetOr("")| ==> Text.IsSpace(query.GetOr("")[i])
    ensures SearchSpec(tools, query) == tools
  {
    NormalizeShape(query);
  }

  /** A non-blank query returns exactly the matching tools, counted with
      their copies, in the order of `TOOLS`. */
  lemma QueryAnswer(tools: seq<Tool>, query: Option<string>)
    requires exists i :: 0 <= i < |query.GetOr("")| && !Text.IsSpace(query.GetOr("")[i])
    ensures forall t :: t in SearchSpec(tools, query) <==> t in tools && Matches(t, Normalize(query))
    ensures forall t :: multiset(SearchSpec(tools, query))[t] == KeptCopies(tools, Normalize(query), t)
    ensures IsSubsequence(SearchSpec(tools, query), tools)
  {
    NormalizeShape(query);
    var n := Normalize(query);
    assert n != [];
    forall t ensures t in Matching(tools, n) <==> t in tools && Matches(t, n) {
      MatchingMembers(tools, n, t);
    }
    forall t ensures multiset(Matching(tools, n))[t] == KeptCopies(tools, n, t) {
      MatchingCounts(tools, n, t);
    }
    MatchingInOrder(tools, n);
  }

  /** Searching again with the normalized query gives the same answer. */
  lemma SearchNormalized(tools: seq<Tool>, query: Option<string>)
    ensures SearchSpec(tools, Some(Normalize(query))) == SearchSpec(tools, query)
  {
    NormalizeIdempotent(query);
  }
}
