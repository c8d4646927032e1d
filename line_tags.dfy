/** The name a line starts with, and the lines of a block that carry one
    name. Each attribute pattern of the SDP codec begins with `a=<name>:`,
    so it can only match a line whose text before the first colon is that
    name: a pattern searched over a block finds what it finds among the
    lines with that name. The name is compared in lower case, as the
    patterns under the `i` flag compare it. */
module LineTags {
  import opened Wrappers
  import opened Chars
  import opened Template
  import opened Lines
  import opened Seqs

  /** The text of a line before its first colon (all of it when there is
      none), in lower case. */
  function Tag(l: string): string {
    match IndexOf(l, ':')
    case Some(i) => LowerString(l[..i])
    case None => LowerString(l)
  }

  predicate NoColon(s: string) {
    forall i :: 0 <= i < |s| ==> s[i] != ':'
  }

  /** `p` followed by anything starts with `p`. */
  lemma StartsWithPrefix(l: string, p: string, q: string)
    requires StartsWith(l, p + q)
    ensures StartsWith(l, p)
  {
    assert l[..|p|] == l[..|p + q|][..|p|];
  }

  /** A line that begins with `k:`, compared without regard to case, is
      tagged `k`. */
  lemma TagOfCI(l: string, k: string)
    requires NoColon(k) && NoUpper(k)
    requires StartsWithCI(l, k + ":")
    ensures Tag(l) == k
  {
    var n := |k|;
    assert LowerString(l[..n + 1])[n] == ':';
    assert l[n] == ':';
    forall j | 0 <= j < n ensures l[j] != ':' {
      assert LowerString(l[..n + 1])[j] == k[j];
    }
    var i := IndexOf(l, ':');
    assert i == Some(n);
    assert LowerString(l[..n]) == LowerString(l[..n + 1])[..n];
  }

  lemma TagOf(l: string, k: string)
    requires NoColon(k) && NoUpper(k)
    requires StartsWith(l, k + ":")
    ensures Tag(l) == k
  {
    assert l[..|k + ":"|] == k + ":";
    LowerStringFixed(k + ":");
    TagOfCI(l, k);
  }

  /** A line that begins with a text without a colon has a tag that begins
      with that text. */
  lemma TagStarts(l: string, p: string)
    requires NoColon(p) && NoUpper(p)
    requires StartsWith(l, p)
    ensures StartsWith(Tag(l), p)
  {
    assert forall j :: 0 <= j < |p| ==> l[j] == p[j];
    LowerStringFixed(p);
    match IndexOf(l, ':')
    case Some(i) =>
      assert i >= |p|;
      assert LowerString(l[..i])[..|p|] == LowerString(p);
    case None =>
      assert LowerString(l)[..|p|] == LowerString(p);
  }

  /** A line without a colon is its own tag. */
  lemma TagWhole(l: string)
    requires NoColon(l) && NoUpper(l)
    ensures Tag(l) == l
  {
    LowerStringFixed(l);
  }

  // ---------------------------------------------------------------------
  // The lines of some tags

  /** The lines whose tag is in `ks`, in order. */
  function Keep(ls: seq<string>, ks: set<string>): (r: seq<string>)
    ensures |r| <= |ls|
  {
    if ls == [] then [] else (if Tag(ls[0]) in ks then [ls[0]] else []) + Keep(ls[1..], ks)
  }

  /** Every line is tagged `k`. */
  predicate Tagged(ls: seq<string>, k: string) {
    forall i :: 0 <= i < |ls| ==> Tag(ls[i]) == k
  }

  /** Every line's tag is in `ks`. */
  predicate TagsIn(ls: seq<string>, ks: set<string>) {
    forall i :: 0 <= i < |ls| ==> Tag(ls[i]) in ks
  }

  /** Pattern `f` matches only lines tagged in `ks` among `ls`. */
  predicate Reads<T>(ls: seq<string>, f: string -> Option<T>, ks: set<string>) {
    forall i :: 0 <= i < |ls| && f(ls[i]).Some? ==> Tag(ls[i]) in ks
  }

  lemma {:induction false} KeepAppend(a: seq<string>, b: seq<string>, ks: set<string>)
    ensures Keep(a + b, ks) == Keep(a, ks) + Keep(b, ks)
  {
    if a == [] {
      assert a + b == b;
    } else {
      var h := if Tag(a[0]) in ks then [a[0]] else [];
      assert (a + b)[0] == a[0];
      assert (a + b)[1..] == a[1..] + b;
      calc {
        Keep(a + b, ks);
        h + Keep(a[1..] + b, ks);
        { KeepAppend(a[1..], b, ks); }
        h + (Keep(a[1..], ks) + Keep(b, ks));
        (h + Keep(a[1..], ks)) + Keep(b, ks);
      }
    }
  }

  /** The lines of one tag are all kept or all dropped. */
  lemma {:induction false} KeepTagged(ls: seq<string>, t: string, ks: set<string>)
    requires Tagged(ls, t)
    ensures Keep(ls, ks) == if t in ks then ls else []
  {
    if ls != [] {
      KeepTagged(ls[1..], t, ks);
    }
  }

  lemma TagsInAppend(a: seq<string>, b: seq<string>, ks: set<string>)
    requires TagsIn(a, ks) && TagsIn(b, ks)
    ensures TagsIn(a + b, ks)
  {
    forall i | 0 <= i < |a + b| ensures Tag((a + b)[i]) in ks {
      if i >= |a| { assert (a + b)[i] == b[i - |a|]; }
    }
  }

  /** A pattern that reads the lines of some tags finds the same first
      match and the same matches among them as in the whole block. */
  lemma {:induction false} FirstKeep<T>(ls: seq<string>, f: string -> Option<T>, ks: set<string>)
    requires Reads(ls, f, ks)
    ensures First(ls, f) == First(Keep(ls, ks), f)
    ensures All(ls, f) == All(Keep(ls, ks), f)
  {
    if ls != [] {
      assert Reads(ls[1..], f, ks) by {
        forall i | 0 <= i < |ls[1..]| && f(ls[1..][i]).Some? ensures Tag(ls[1..][i]) in ks {
          assert ls[1..][i] == ls[i + 1];
        }
      }
      FirstKeep(ls[1..], f, ks);
      if Tag(ls[0]) in ks {
        assert Keep(ls, ks) == [ls[0]] + Keep(ls[1..], ks);
        assert ([ls[0]] + Keep(ls[1..], ks))[1..] == Keep(ls[1..], ks);
      } else {
        assert f(ls[0]).None?;
        assert Keep(ls, ks) == Keep(ls[1..], ks);
      }
    }
  }

  /** A line whose tag is in `ks` is in the block exactly when it is among
      its lines of those tags. */
  lemma {:induction false} InKeep(ls: seq<string>, x: string, ks: set<string>)
    requires Tag(x) in ks
    ensures x in ls <==> x in Keep(ls, ks)
  {
    if ls != [] {
      InKeep(ls[1..], x, ks);
      assert x in ls <==> x == ls[0] || x in ls[1..];
    }
  }

  /** A pattern that only matches lines beginning with `k:` reads the
      lines tagged `k`. */
  lemma ReadsColon<T>(ls: seq<string>, f: string -> Option<T>, k: string)
    requires NoColon(k) && NoUpper(k)
    requires forall l :: f(l).Some? ==> StartsWithCI(l, k + ":")
    ensures Reads(ls, f, {k})
  {
    forall i | 0 <= i < |ls| && f(ls[i]).Some? ensures Tag(ls[i]) in {k} {
      TagOfCI(ls[i], k);
    }
  }

  /** The same for a pattern that compares case. */
  lemma CaseSensitive(l: string, p: string)
    requires NoUpper(p) && StartsWith(l, p)
    ensures StartsWithCI(l, p)
  {
    LowerStringFixed(p);
  }

  // ---------------------------------------------------------------------
  // Groups of lines

  /** The lines `g` gives for each element, one group after another. */
  function Flat<T>(xs: seq<T>, g: T -> seq<string>): seq<string> {
    if xs == [] then [] else Flat(xs[..|xs| - 1], g) + g(xs[|xs| - 1])
  }

  lemma FlatSnoc<T>(xs: seq<T>, x: T, g: T -> seq<string>)
    ensures Flat(xs + [x], g) == Flat(xs, g) + g(x)
  {
    assert (xs + [x])[..|xs|] == xs;
  }

  /** A line is in the groups exactly when it is in one of them. */
  lemma {:induction false} InFlat<T>(xs: seq<T>, g: T -> seq<string>, y: string)
    ensures y in Flat(xs, g) <==> exists i :: 0 <= i < |xs| && y in g(xs[i])
  {
    if xs != [] {
      var n := |xs| - 1;
      InFlat(xs[..n], g, y);
      if y in Flat(xs[..n], g) {
        var i :| 0 <= i < n && y in g(xs[..n][i]);
        assert xs[i] == xs[..n][i];
      }
      if exists i :: 0 <= i < |xs| && y in g(xs[i]) {
        var i :| 0 <= i < |xs| && y in g(xs[i]);
        if i < n {
          assert xs[..n][i] == xs[i];
        }
      }
    }
  }

  /** The groups of lines that all carry one tag carry it. */
  lemma {:induction false} FlatTagged<T>(xs: seq<T>, g: T -> seq<string>, t: string)
    requires forall i :: 0 <= i < |xs| ==> Tagged(g(xs[i]), t)
    ensures Tagged(Flat(xs, g), t)
  {
    if xs != [] {
      var n := |xs| - 1;
      assert forall i :: 0 <= i < n ==> xs[..n][i] == xs[i];
      FlatTagged(xs[..n], g, t);
      var a, b := Flat(xs[..n], g), g(xs[n]);
      forall i | 0 <= i < |a + b| ensures Tag((a + b)[i]) == t {
        if i >= |a| { assert (a + b)[i] == b[i - |a|]; }
      }
    }
  }

  /** The first match in the groups is the first match in the group of
      element `i` when no other group has a match. */
  lemma {:induction false} FirstFlat<T, U>(xs: seq<T>, g: T -> seq<string>, f: string -> Option<U>, i: nat)
    requires i < |xs|
    requires forall j :: 0 <= j < |xs| && j != i ==> First(g(xs[j]), f).None?
    ensures First(Flat(xs, g), f) == First(g(xs[i]), f)
  {
    var n := |xs| - 1;
    FirstAppend(Flat(xs[..n], g), g(xs[n]), f);
    if i < n {
      assert forall j :: 0 <= j < n && j != i ==> xs[..n][j] == xs[j];
      FirstFlat(xs[..n], g, f, i);
      assert xs[..n][i] == xs[i];
    } else {
      FirstFlatNone(xs[..n], g, f);
    }
  }

  lemma {:induction false} FirstFlatNone<T, U>(xs: seq<T>, g: T -> seq<string>, f: string -> Option<U>)
    requires forall j :: 0 <= j < |xs| ==> First(g(xs[j]), f).None?
    ensures First(Flat(xs, g), f).None?
  {
    if xs != [] {
      var n := |xs| - 1;
      assert forall j :: 0 <= j < n ==> xs[..n][j] == xs[j];
      FirstFlatNone(xs[..n], g, f);
      FirstAppend(Flat(xs[..n], g), g(xs[n]), f);
    }
  }

  /** What a global match finds in the groups when each group yields one
      capture. */
  lemma {:induction false} AllFlat<T, U>(xs: seq<T>, g: T -> seq<string>, f: string -> Option<U>, k: T -> U)
    requires forall i :: 0 <= i < |xs| ==> All(g(xs[i]), f) == [k(xs[i])]
    ensures All(Flat(xs, g), f) == Map(xs, k)
  {
    if xs != [] {
      var n := |xs| - 1;
      assert forall j :: 0 <= j < n ==> xs[..n][j] == xs[j];
      AllFlat(xs[..n], g, f, k);
      AllAppend(Flat(xs[..n], g), g(xs[n]), f);
      MapLast(xs, k);
    }
  }
}
