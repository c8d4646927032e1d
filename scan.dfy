/** The building blocks of the codec's line patterns, read left to right:
    a literal, a greedy character-class run, an alternation of literals.
    Each step returns what it captured and the text after it. */
module Scan {
  import opened Wrappers
  import opened Chars

  /** `([...]*)`: the longest run of class characters and the rest. */
  function Run(s: string, k: CharClass): (r: (string, string))
    ensures r.0 + r.1 == s && AllIn(r.0, k)
    ensures r.1 == [] || !InClass(r.1[0], k)
  {
    var n := Span(s, k);
    assert s == s[..n] + s[n..];
    (s[..n], s[n..])
  }

  /** `([...]+)`: as `Run`, failing on an empty run. */
  function Run1(s: string, k: CharClass): (r: Option<(string, string)>)
    ensures r.Some? ==> r.value.0 != [] && r.value.0 + r.value.1 == s && AllIn(r.value.0, k)
    ensures r.None? ==> s == [] || !InClass(s[0], k)
  {
    var (x, rest) := Run(s, k);
    if x == [] then None else Some((x, rest))
  }

  /** `s` begins with `p`, compared without regard to ASCII case when `ci`
      holds. */
  predicate Hits(s: string, p: string, ci: bool) {
    if ci then StartsWithCI(s, p) else StartsWith(s, p)
  }

  /** The first of the literals `alts` that `s` begins with: the text
      matched and the rest. */
  function Alt(s: string, alts: seq<string>, ci: bool): (r: Option<(string, string)>)
    ensures r.Some? ==> r.value.0 + r.value.1 == s
  {
    if alts == [] then None
    else if Hits(s, alts[0], ci) then
      assert s == s[..|alts[0]|] + s[|alts[0]|..];
      Some((s[..|alts[0]|], s[|alts[0]|..]))
    else Alt(s, alts[1..], ci)
  }

  /** The alternation picks the first alternative that matches. */
  lemma {:induction false} AltAt(s: string, alts: seq<string>, ci: bool, i: nat)
    requires i < |alts| && Hits(s, alts[i], ci)
    requires forall j :: 0 <= j < i ==> !Hits(s, alts[j], ci)
    ensures Alt(s, alts, ci) == Some((s[..|alts[i]|], s[|alts[i]|..]))
  {
    if i > 0 {
      assert !Hits(s, alts[0], ci);
      AltAt(s, alts[1..], ci, i - 1);
    }
  }

  /** Without the `i` flag the text matched is one of the alternatives. */
  lemma {:induction false} AltChoice(s: string, alts: seq<string>)
    requires Alt(s, alts, false).Some?
    ensures Alt(s, alts, false).value.0 in alts
  {
    if alts != [] && !Hits(s, alts[0], false) {
      AltChoice(s, alts[1..]);
    }
  }

  /** The literal `p`, compared without regard to case when `ci` holds. */
  function Expect(s: string, p: string, ci: bool): (r: Option<string>)
    ensures r.Some? <==> Hits(s, p, ci)
    ensures r.Some? ==> |r.value| <= |s| && r.value == s[|p|..]
  {
    if ci then DropPrefixCI(s, p) else DropPrefix(s, p)
  }

  lemma RunOf(x: string, rest: string, k: CharClass)
    requires AllIn(x, k)
    requires rest == [] || !InClass(rest[0], k)
    ensures Run(x + rest, k) == (x, rest)
  {
    SpanOf(x, rest, k);
    assert (x + rest)[..|x|] == x;
    assert (x + rest)[|x|..] == rest;
  }

  lemma Run1Of(x: string, rest: string, k: CharClass)
    requires x != [] && AllIn(x, k)
    requires rest == [] || !InClass(rest[0], k)
    ensures Run1(x + rest, k) == Some((x, rest))
  {
    RunOf(x, rest, k);
  }

  lemma ExpectOf(p: string, rest: string, ci: bool)
    requires ci ==> NoUpper(p)
    ensures Expect(p + rest, p, ci) == Some(rest)
  {
    if ci { DropPrefixCIOf(p, rest); } else { DropPrefixOf(p, rest); }
  }

  /** Text whose first character differs from the literal's does not
      match it. */
  lemma ExpectMismatch(s: string, p: string, ci: bool)
    requires |p| > 0 && |s| > 0 && s[0] != p[0]
    requires ci ==> ToLower(s[0]) != p[0]
    ensures Expect(s, p, ci) == None
  {
    if ci && |p| <= |s| {
      assert LowerString(s[..|p|])[0] == ToLower(s[0]);
    }
  }
}
