/** Text as lines. Every pattern of the SDP codec is anchored with `^` and
    `$` under the multi-line flag, so it matches inside one line: a line is
    the text between two of the line terminators of JavaScript regular
    expressions (LF, CR, U+2028, U+2029). A CR directly followed by an LF is
    taken as one terminator: the empty line between them matches none of
    the codec's patterns. */
module Lines {
  import opened Wrappers
  import opened Seqs

  datatype Term = LF | CRLF | CR | LS | PS | EOT

  datatype Line = Line(text: string, term: Term)

  predicate IsTerm(c: char) {
    c == '\n' || c == '\r' || c == '\U{2028}' || c == '\U{2029}'
  }

  /** Text inside one line. */
  predicate NoTerm(s: string) {
    forall i :: 0 <= i < |s| ==> !IsTerm(s[i])
  }

  function TermText(t: Term): string {
    match t
    case LF => "\n"
    case CRLF => "\r\n"
    case CR => "\r"
    case LS => "\U{2028}"
    case PS => "\U{2029}"
    case EOT => ""
  }

  /** Index of the first terminator of `s`, or its length. */
  function LineEnd(s: string): (n: nat)
    ensures n <= |s|
    ensures NoTerm(s[..n])
    ensures n < |s| ==> IsTerm(s[n])
  {
    if s == [] || IsTerm(s[0]) then 0
    else
      var m := LineEnd(s[1..]);
      assert s[..1 + m] == [s[0]] + s[1..][..m];
      1 + m
  }

  /** The terminator starting at `s[n]` and its length. */
  function TermAt(s: string, n: nat): (r: (Term, nat))
    requires n < |s| && IsTerm(s[n])
    ensures r.0 != EOT && n + r.1 <= |s| && s[n..n + r.1] == TermText(r.0)
  {
    if s[n] == '\n' then (LF, 1)
    else if s[n] == '\r' then
      if n + 1 < |s| && s[n + 1] == '\n' then (CRLF, 2) else (CR, 1)
    else if s[n] == '\U{2028}' then (LS, 1)
    else (PS, 1)
  }

  /** The lines of a text; only the last one ends at the end of the text. */
  function SplitLines(s: string): (ls: seq<Line>)
    ensures |ls| > 0 && ls[|ls| - 1].term == EOT
    decreases |s|
  {
    var n := LineEnd(s);
    if n == |s| then [Line(s, EOT)]
    else
      var t := TermAt(s, n);
      [Line(s[..n], t.0)] + SplitLines(s[n + t.1..])
  }

  function JoinLines(ls: seq<Line>): string {
    if ls == [] then "" else ls[0].text + TermText(ls[0].term) + JoinLines(ls[1..])
  }

  /** Splitting into lines loses nothing: the lines and their terminators
      give back the text. */
  lemma {:induction false} JoinSplit(s: string)
    ensures JoinLines(SplitLines(s)) == s
    decreases |s|
  {
    var n := LineEnd(s);
    if n == |s| {
      assert s[..n] == s;
    } else {
      var t := TermAt(s, n);
      var ls := SplitLines(s);
      assert ls[1..] == SplitLines(s[n + t.1..]);
      JoinSplit(s[n + t.1..]);
      Slices(s, n, n + t.1);
    }
  }

  /** Lines each followed by CR LF: the text the generator writes. */
  function Crlf(ls: seq<string>): string {
    if ls == [] then "" else ls[0] + "\r\n" + Crlf(ls[1..])
  }

  lemma {:induction false} CrlfAppend(a: seq<string>, b: seq<string>)
    ensures Crlf(a + b) == Crlf(a) + Crlf(b)
  {
    if a == [] {
      assert a + b == b;
    } else {
      assert (a + b)[1..] == a[1..] + b;
      CrlfAppend(a[1..], b);
    }
  }

  /** One line, ended by CR LF, then any text. */
  lemma SplitCrlfLine(x: string, rest: string)
    requires NoTerm(x)
    ensures SplitLines(x + "\r\n" + rest) == [Line(x, CRLF)] + SplitLines(rest)
  {
    var s := x + "\r\n" + rest;
    LineEndOf(x, "\r\n" + rest);
    assert s == x + ("\r\n" + rest);
    assert s[|x|] == '\r' && s[|x| + 1] == '\n';
    assert s[..|x|] == x;
    assert s[|x| + 2..] == rest;
  }

  lemma {:induction false} LineEndOf(x: string, rest: string)
    requires NoTerm(x)
    requires rest != [] && IsTerm(rest[0])
    ensures LineEnd(x + rest) == |x|
  {
    if x != [] {
      assert (x + rest)[0] == x[0];
      assert (x + rest)[1..] == x[1..] + rest;
      LineEndOf(x[1..], rest);
    } else {
      assert x + rest == rest;
    }
  }

  /** The lines of a text the generator writes. */
  function CrlfLines(ls: seq<string>): (r: seq<Line>)
    ensures |r| == |ls|
  {
    if ls == [] then [] else [Line(ls[0], CRLF)] + CrlfLines(ls[1..])
  }

  lemma {:induction false} SplitCrlf(ls: seq<string>, rest: string)
    requires forall i :: 0 <= i < |ls| ==> NoTerm(ls[i])
    ensures SplitLines(Crlf(ls) + rest) == CrlfLines(ls) + SplitLines(rest)
  {
    if ls == [] {
      assert Crlf(ls) + rest == rest;
    } else {
      assert forall i :: 0 <= i < |ls[1..]| ==> NoTerm(ls[1..][i]) by {
        forall i | 0 <= i < |ls[1..]| ensures NoTerm(ls[1..][i]) {
          assert ls[1..][i] == ls[i + 1];
        }
      }
      SplitCrlf(ls[1..], rest);
      SplitCrlfCons(ls, rest);
    }
  }

  lemma SplitCrlfCons(ls: seq<string>, rest: string)
    requires ls != [] && NoTerm(ls[0])
    requires SplitLines(Crlf(ls[1..]) + rest) == CrlfLines(ls[1..]) + SplitLines(rest)
    ensures SplitLines(Crlf(ls) + rest) == CrlfLines(ls) + SplitLines(rest)
  {
    SplitCrlfHead(ls, rest);
    CrlfLinesCons(ls);
    ConsAssoc(Line(ls[0], CRLF), CrlfLines(ls[1..]), SplitLines(rest));
  }

  lemma SplitCrlfHead(ls: seq<string>, rest: string)
    requires ls != [] && NoTerm(ls[0])
    ensures SplitLines(Crlf(ls) + rest) == [Line(ls[0], CRLF)] + SplitLines(Crlf(ls[1..]) + rest)
  {
    CrlfCons(ls, rest);
    SplitCrlfLine(ls[0], Crlf(ls[1..]) + rest);
  }

  lemma CrlfLinesCons(ls: seq<string>)
    requires ls != []
    ensures CrlfLines(ls) == [Line(ls[0], CRLF)] + CrlfLines(ls[1..])
  {
  }

  lemma ConsAssoc<T>(x: T, a: seq<T>, b: seq<T>)
    ensures [x] + (a + b) == ([x] + a) + b
  {
  }

  lemma CrlfCons(ls: seq<string>, rest: string)
    requires ls != []
    ensures Crlf(ls) + rest == ls[0] + "\r\n" + (Crlf(ls[1..]) + rest)
  {
  }

  /** What a pattern without the global flag finds: the captures of the
      first line it matches. */
  function First<T>(ls: seq<string>, f: string -> Option<T>): (r: Option<T>)
    ensures r.Some? ==> exists i :: 0 <= i < |ls| && f(ls[i]) == r
    ensures r.None? ==> forall i :: 0 <= i < |ls| ==> f(ls[i]).None?
  {
    if ls == [] then None
    else if f(ls[0]).Some? then f(ls[0])
    else First(ls[1..], f)
  }

  /** `match(block, pattern, flags, alt)`: the first matching line of the
      block, else of the alternative block. */
  function FirstOr<T>(ls: seq<string>, alt: seq<string>, f: string -> Option<T>): Option<T> {
    match First(ls, f)
    case Some(x) => Some(x)
    case None => First(alt, f)
  }

  /** What a pattern with the global flag finds: the captures of every line
      it matches, in order. */
  function All<A, T>(ls: seq<A>, f: A -> Option<T>): (r: seq<T>)
    ensures |r| <= |ls|
    ensures forall k :: 0 <= k < |r| ==> exists i :: 0 <= i < |ls| && f(ls[i]) == Some(r[k])
  {
    if ls == [] then []
    else
      var rest := All(ls[1..], f);
      assert forall i :: 0 <= i < |ls[1..]| ==> ls[1..][i] == ls[i + 1];
      match f(ls[0])
      case Some(x) => [x] + rest
      case None => rest
  }

  lemma {:induction false} FirstAppend<T>(a: seq<string>, b: seq<string>, f: string -> Option<T>)
    ensures First(a + b, f) == if First(a, f).Some? then First(a, f) else First(b, f)
  {
    if a == [] {
      assert a + b == b;
    } else {
      assert (a + b)[0] == a[0];
      assert (a + b)[1..] == a[1..] + b;
      FirstAppend(a[1..], b, f);
    }
  }

  lemma {:induction false} AllAppend<A, T>(a: seq<A>, b: seq<A>, f: A -> Option<T>)
    ensures All(a + b, f) == All(a, f) + All(b, f)
  {
    if a == [] {
      assert a + b == b;
    } else {
      assert (a + b)[0] == a[0];
      assert (a + b)[1..] == a[1..] + b;
      AllAppend(a[1..], b, f);
    }
  }

  /** The first match is the first element of all matches. */
  lemma {:induction false} FirstIsHeadOfAll<T>(ls: seq<string>, f: string -> Option<T>)
    ensures First(ls, f) == if All(ls, f) == [] then None else Some(All(ls, f)[0])
  {
    if ls != [] {
      FirstIsHeadOfAll(ls[1..], f);
    }
  }
}
