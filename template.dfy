/** The codec's text templates: `${[prefix]name[suffix]}` placeholders
    filled one key at a time, each key replacing the first placeholder that
    names it (bridge/client/webrtc.js, fillTemplate). */
module Template {
  import opened Wrappers
  import opened Chars
  import opened Seqs

  /** What a key of an info object contributes once stringified: `Vanish`
      for null, undefined and NaN (the values that are falsy and not loosely
      equal to 0), `Text` for everything else, 0, "" and false included. */
  datatype Value = Vanish | Text(s: string)

  /** An info object: its own enumerable keys in insertion order, each
      with its value. */
  datatype Info = Done | Entry(key: string, value: Value, more: Info)

  /** A placeholder recognised at the start of a text: the text inside its
      prefix and suffix brackets ("" when a bracket is absent) and the text
      after its closing brace. */
  datatype Hit = Hit(prefix: string, suffix: string, after: string)

  /** Index of the first occurrence of `c` in `s`. */
  function IndexOf(s: string, c: char): (r: Option<nat>)
    ensures r.Some? ==> r.value < |s| && s[r.value] == c
    ensures r.Some? ==> forall i :: 0 <= i < r.value ==> s[i] != c
    ensures r.None? ==> forall i :: 0 <= i < |s| ==> s[i] != c
  {
    if s == [] then None
    else if s[0] == c then Some(0)
    else
      match IndexOf(s[1..], c)
      case None => None
      case Some(j) => Some(j + 1)
  }

  /** `\[[^\]]+\]` at the start of `u`: the bracketed text and the text
      after the closing bracket. */
  function Bracket(u: string): (r: Option<(string, string)>)
    ensures r.Some? ==> |r.value.0| > 0 && |r.value.1| < |u|
  {
    if |u| >= 2 && u[0] == '[' then
      match IndexOf(u[1..], ']')
      case Some(j) => if j >= 1 then Some((u[1..1 + j], u[2 + j..])) else None
      case None => None
    else None
  }

  /** The optional suffix bracket and the closing brace after a key: the
      suffix text and the text after the brace. */
  function Close(r: string): (res: Option<(string, string)>)
    ensures res.Some? ==> |res.value.1| < |r|
  {
    match Bracket(r)
    case Some((b, r2)) =>
      if |r2| > 0 && r2[0] == '}' then Some((b, r2[1..])) else None
    case None =>
      if |r| > 0 && r[0] == '}' then Some(([], r[1..])) else None
  }

  /** The key and what follows it, without a prefix bracket. */
  function KeyThenClose(u: string, k: string): (res: Option<(string, string)>)
    ensures res.Some? ==> |res.value.1| < |u|
  {
    match DropPrefix(u, k)
    case Some(r) => Close(r)
    case None => None
  }

  /** The regular expression `\${(\[[^\]]+\])?key(\[[^\]]+\])?}` anchored
      at the start of `u`, trying the prefix bracket first and falling back
      to no prefix, as the regular expression engine backtracks. */
  function MatchKey(u: string, k: string): (r: Option<Hit>)
    ensures r.Some? ==> |u| >= 2 && u[0] == '$' && |r.value.after| < |u|
  {
    if |u| < 2 || u[0] != '$' || u[1] != '{' then None
    else
      var u1 := u[2..];
      var withPrefix :=
        match Bracket(u1)
        case Some((p, r)) =>
          (match KeyThenClose(r, k)
           case Some((suf, after)) => Some(Hit(p, suf, after))
           case None => None)
        case None => None;
      if withPrefix.Some? then withPrefix
      else
        match KeyThenClose(u1, k)
        case Some((suf, after)) => Some(Hit([], suf, after))
        case None => None
  }

  /** The leftmost placeholder for `k` in `t`: the text before it and the
      placeholder. */
  function FindFirst(t: string, k: string): (r: Option<(string, Hit)>)
    decreases |t|
  {
    if t == [] then None
    else
      match MatchKey(t, k)
      case Some(h) => Some(([], h))
      case None =>
        match FindFirst(t[1..], k)
        case Some((b, h)) => Some(([t[0]] + b, h))
        case None => None
  }

  /** The text a placeholder is replaced with: nothing for a vanishing
      value, else the prefix, the value and the suffix. */
  function Rendered(pre: string, suf: string, v: Value): string {
    match v
    case Vanish => ""
    case Text(s) => Affix(pre, s, suf)
  }

  /** `pre + s + suf`, written so that empty affixes add no term. */
  function Affix(pre: string, s: string, suf: string): string {
    var a := if pre == [] then s else pre + s;
    if suf == [] then a else a + suf
  }

  /** The callback's return value for a placeholder. */
  function Replacement(v: Value, h: Hit): string {
    match v
    case Vanish => ""
    case Text(s) => h.prefix + s + h.suffix
  }

  lemma ReplacementRendered(v: Value, h: Hit)
    ensures Replacement(v, h) == Rendered(h.prefix, h.suffix, v)
  {
    if v.Text? {
      if h.prefix == [] { assert h.prefix + v.s == v.s; }
      if h.suffix == [] { assert h.prefix + v.s + h.suffix == h.prefix + v.s; }
    }
  }

  /** One `text.replace(regex, callback)` step: the first placeholder for
      `k` is replaced, every other placeholder stays. */
  function FillOne(t: string, k: string, v: Value): string {
    match FindFirst(t, k)
    case None => t
    case Some((b, h)) => b + Replacement(v, h) + h.after
  }

  /** fillTemplate: the keys of `info` applied in order. */
  function Fill(t: string, info: Info): string
    decreases info
  {
    match info
    case Done => t
    case Entry(k, v, more) => Fill(FillOne(t, k, v), more)
  }

  // ---------------------------------------------------------------------
  // Templates as literal text and slots

  /** A template: literal text and `${[prefix]key[suffix]}` slots. */
  datatype Tmpl =
    | End
    | Lit(s: string, rest: Tmpl)
    | Slot(prefix: string, key: string, suffix: string, rest: Tmpl)

  function Bracketed(s: string): string {
    if s == [] then [] else ['['] + s + [']']
  }

  function SlotText(prefix: string, key: string, suffix: string): string {
    ['$', '{'] + (Bracketed(prefix) + (key + (Bracketed(suffix) + ['}'])))
  }

  /** The text of a template. */
  function Flatten(t: Tmpl): string {
    match t
    case End => ""
    case Lit(s, r) => s + Flatten(r)
    case Slot(p, k, s, r) => SlotText(p, k, s) + Flatten(r)
  }

  predicate DollarFree(s: string) {
    forall i :: 0 <= i < |s| ==> s[i] != '$'
  }

  /** Keys are identifiers. */
  predicate GoodKey(k: string) {
    |k| > 0 && forall i :: 0 <= i < |k| ==> IsWord(k[i])
  }

  /** Bracket texts contain neither `]` nor `$`. */
  predicate GoodAffix(s: string) {
    forall i :: 0 <= i < |s| ==> s[i] != ']' && s[i] != '$'
  }

  /** Literal text without `$`, slots with identifier keys and plain
      brackets. */
  predicate GoodTmpl(t: Tmpl) {
    match t
    case End => true
    case Lit(s, r) => DollarFree(s) && GoodTmpl(r)
    case Slot(p, k, s, r) => GoodKey(k) && GoodAffix(p) && GoodAffix(s) && GoodTmpl(r)
  }

  lemma LitGood(s: string, r: Tmpl)
    requires DollarFree(s) && GoodTmpl(r)
    ensures GoodTmpl(Lit(s, r))
  {
  }

  lemma SlotGood(p: string, k: string, s: string, r: Tmpl)
    requires GoodKey(k) && GoodAffix(p) && GoodAffix(s) && GoodTmpl(r)
    ensures GoodTmpl(Slot(p, k, s, r))
  {
  }

  predicate ValueDollarFree(v: Value) {
    v.Text? ==> DollarFree(v.s)
  }

  predicate InfoDollarFree(info: Info) {
    match info
    case Done => true
    case Entry(_, v, more) => ValueDollarFree(v) && InfoDollarFree(more)
  }

  predicate InfoKeysGood(info: Info) {
    match info
    case Done => true
    case Entry(k, _, more) => GoodKey(k) && InfoKeysGood(more)
  }

  /** The first slot naming `k` replaced by its rendered value. */
  function ReplaceFirst(t: Tmpl, k: string, v: Value): Tmpl {
    match t
    case End => End
    case Lit(s, r) => Lit(s, ReplaceFirst(r, k, v))
    case Slot(p, key, s, r) =>
      if key == k then Lit(Rendered(p, s, v), r) else Slot(p, key, s, ReplaceFirst(r, k, v))
  }

  /** Every key of `info` applied to the template in order. */
  function FillPieces(t: Tmpl, info: Info): Tmpl
    decreases info
  {
    match info
    case Done => t
    case Entry(k, v, more) => FillPieces(ReplaceFirst(t, k, v), more)
  }

  lemma {:induction false} FindFirstSkip(a: string, b: string, k: string)
    requires DollarFree(a)
    ensures FindFirst(a + b, k) ==
      (match FindFirst(b, k)
       case Some((x, h)) => Some((a + x, h))
       case None => None)
    decreases |a|
  {
    if a != [] {
      var t := a + b;
      assert t[0] == a[0] && a[0] != '$';
      assert MatchKey(t, k) == None;
      assert t[1..] == a[1..] + b;
      assert DollarFree(a[1..]) by {
        forall i | 0 <= i < |a[1..]| ensures a[1..][i] != '$' {
          assert a[1..][i] == a[i + 1];
        }
      }
      FindFirstSkip(a[1..], b, k);
      match FindFirst(b, k)
      case Some((x, h)) =>
        assert [a[0]] + (a[1..] + x) == a + x;
      case None =>
    } else {
      assert a + b == b;
      match FindFirst(b, k)
      case Some((x, h)) =>
        assert a + x == x;
      case None =>
    }
  }

  lemma DollarFreeAppend(a: string, b: string)
    requires DollarFree(a) && DollarFree(b)
    ensures DollarFree(a + b)
  {
    forall i | 0 <= i < |a + b| ensures (a + b)[i] != '$' {
      if i >= |a| { assert (a + b)[i] == b[i - |a|]; }
    }
  }

  lemma BracketedDollarFree(s: string)
    requires GoodAffix(s)
    ensures DollarFree(Bracketed(s))
  {
    if s != "" {
      assert DollarFree(s);
      DollarFreeAppend(['['], s);
      DollarFreeAppend(['['] + s, [']']);
    }
  }

  lemma SlotTextShape(pre: string, k: string, suf: string)
    requires GoodKey(k) && GoodAffix(pre) && GoodAffix(suf)
    ensures SlotText(pre, k, suf)[0] == '$'
    ensures DollarFree(SlotText(pre, k, suf)[1..])
  {
    var x := Bracketed(pre);
    var y := Bracketed(suf);
    var v := x + (k + (y + ['}']));
    assert SlotText(pre, k, suf)[1..] == ['{'] + v;
    BracketedDollarFree(pre);
    BracketedDollarFree(suf);
    assert DollarFree(k);
    DollarFreeAppend(y, ['}']);
    DollarFreeAppend(k, y + ['}']);
    DollarFreeAppend(x, k + (y + ['}']));
    DollarFreeAppend(['{'], v);
  }

  lemma {:induction false} IndexOfAfter(x: string, c: char, rest: string)
    requires forall i :: 0 <= i < |x| ==> x[i] != c
    ensures IndexOf(x + [c] + rest, c) == Some(|x|)
  {
    if x != [] {
      assert (x + [c] + rest)[0] == x[0];
      assert (x + [c] + rest)[1..] == x[1..] + [c] + rest;
      IndexOfAfter(x[1..], c, rest);
    } else {
      assert (x + [c] + rest)[0] == c;
    }
  }

  /** A well-formed bracket is read back, and what follows it is left. */
  lemma BracketOf(x: string, rest: string)
    requires x != [] && GoodAffix(x)
    ensures Bracket(Bracketed(x) + rest) == Some((x, rest))
  {
    var r := Bracketed(x) + rest;
    assert r == ['['] + (x + [']'] + rest);
    assert r[1..] == x + [']'] + rest;
    IndexOfAfter(x, ']', rest);
    assert r[1..1 + |x|] == x;
    assert r[2 + |x|..] == rest;
  }

  /** `Close` on a well-formed suffix bracket and closing brace. */
  lemma CloseOf(suf: string, rest: string)
    requires GoodAffix(suf)
    ensures Close(Bracketed(suf) + (['}'] + rest)) == Some((suf, rest))
  {
    var r := Bracketed(suf) + (['}'] + rest);
    if suf != [] {
      BracketOf(suf, ['}'] + rest);
      assert (['}'] + rest)[1..] == rest;
    } else {
      assert r == ['}'] + rest;
      assert r[1..] == rest;
    }
  }

  /** A word character can never open a bracket or close a placeholder. */
  lemma CloseRejectsWord(r: string)
    requires |r| > 0 && IsWord(r[0])
    ensures Close(r) == None
  {
  }

  /** The text after the opening `${` of a slot. */
  lemma SlotTextAfterOpen(pre: string, k: string, suf: string, rest: string)
    ensures |SlotText(pre, k, suf) + rest| >= 2
    ensures (SlotText(pre, k, suf) + rest)[0] == '$'
    ensures (SlotText(pre, k, suf) + rest)[1] == '{'
    ensures (SlotText(pre, k, suf) + rest)[2..] ==
      Bracketed(pre) + (k + (Bracketed(suf) + (['}'] + rest)))
  {
    var x := Bracketed(pre);
    var y := Bracketed(suf);
    var v := x + (k + (y + ['}']));
    var w := x + (k + (y + (['}'] + rest)));
    assert v + rest == w;
    var u := ['$', '{'] + v + rest;
    assert u == ['$', '{'] + w;
    assert u[2..] == w;
  }

  /** The key followed by its closing part. */
  lemma KeyThenCloseOwn(k: string, suf: string, rest: string)
    requires GoodAffix(suf)
    ensures KeyThenClose(k + (Bracketed(suf) + (['}'] + rest)), k) == Some((suf, rest))
  {
    DropPrefixOf(k, Bracketed(suf) + (['}'] + rest));
    CloseOf(suf, rest);
  }

  /** The slot of `k` is recognised as the placeholder of `k`. */
  lemma MatchOwnSlot(pre: string, k: string, suf: string, rest: string)
    requires GoodKey(k) && GoodAffix(pre) && GoodAffix(suf)
    ensures MatchKey(SlotText(pre, k, suf) + rest, k) == Some(Hit(pre, suf, rest))
  {
    var u := SlotText(pre, k, suf) + rest;
    SlotTextAfterOpen(pre, k, suf, rest);
    var tail := Bracketed(suf) + (['}'] + rest);
    var u1 := Bracketed(pre) + (k + tail);
    assert u[2..] == u1;
    KeyThenCloseOwn(k, suf, rest);
    if pre != [] {
      BracketOf(pre, k + tail);
      assert Bracket(u1) == Some((pre, k + tail));
      assert KeyThenClose(k + tail, k) == Some((suf, rest));
    } else {
      assert u1 == k + tail;
      assert u1[0] == k[0];
      assert Bracket(u1) == None;
    }
  }

  /** After another key, `k` is not followed by its closing part. */
  lemma OtherKey(k2: string, tail: string, k: string)
    requires GoodKey(k) && GoodKey(k2) && k2 != k
    requires |tail| > 0 && (tail[0] == '[' || tail[0] == '}')
    ensures KeyThenClose(k2 + tail, k) == None
  {
    var u := k2 + tail;
    if |k| < |k2| {
      if StartsWith(u, k) {
        assert u[|k|..][0] == k2[|k|];
        CloseRejectsWord(u[|k|..]);
      }
    } else if |k| == |k2| {
      assert u[..|k|] == k2;
    } else {
      assert u[|k2|] == tail[0];
    }
  }

  /** The slot of another key is not a placeholder of `k`. */
  lemma MatchOtherSlot(pre: string, k2: string, suf: string, rest: string, k: string)
    requires GoodKey(k) && GoodKey(k2) && k2 != k && GoodAffix(pre) && GoodAffix(suf)
    ensures MatchKey(SlotText(pre, k2, suf) + rest, k) == None
  {
    var u := SlotText(pre, k2, suf) + rest;
    SlotTextAfterOpen(pre, k2, suf, rest);
    var tail := Bracketed(suf) + (['}'] + rest);
    assert tail[0] == '[' || tail[0] == '}';
    OtherKey(k2, tail, k);
    var u1 := u[2..];
    if pre != [] {
      BracketOf(pre, k2 + tail);
      assert u1[0] == '[';
      KeyAtBracket(u1, k);
    } else {
      assert u1 == k2 + tail;
      assert u1[0] == k2[0];
      assert Bracket(u1) == None;
    }
    MatchKeyNone(u, k);
  }

  /** A key does not start at an opening bracket. */
  lemma KeyAtBracket(u: string, k: string)
    requires GoodKey(k) && |u| > 0 && u[0] == '['
    ensures KeyThenClose(u, k) == None
  {
    assert !IsWord(u[0]);
    assert !StartsWith(u, k);
  }

  /** No placeholder of `k` opens `u` when neither reading of its brackets
      meets the key. */
  lemma MatchKeyNone(u: string, k: string)
    requires |u| >= 2 && u[0] == '$' && u[1] == '{'
    requires Bracket(u[2..]).Some? ==> KeyThenClose(Bracket(u[2..]).value.1, k) == None
    requires KeyThenClose(u[2..], k) == None
    ensures MatchKey(u, k) == None
  {
  }

  /** Filling one key of a well-formed template replaces exactly the first
      slot naming that key, and nothing else. */
  lemma {:induction false} FillOnePieces(t: Tmpl, k: string, v: Value)
    requires GoodTmpl(t) && GoodKey(k)
    ensures FillOne(Flatten(t), k, v) == Flatten(ReplaceFirst(t, k, v))
  {
    match t
    case End =>
    case Lit(s, r) =>
      FillOnePieces(r, k, v);
      FillOneLit(s, Flatten(r), k, v);
    case Slot(p, key, s, r) =>
      if key == k {
        FillOneOwnSlot(p, k, s, Flatten(r), v);
      } else {
        FillOnePieces(r, k, v);
        FillOneOtherSlot(p, key, s, Flatten(r), k, v);
      }
  }

  lemma FillOneOwnSlot(pre: string, k: string, suf: string, rest: string, v: Value)
    requires GoodKey(k) && GoodAffix(pre) && GoodAffix(suf)
    ensures FillOne(SlotText(pre, k, suf) + rest, k, v) == Rendered(pre, suf, v) + rest
  {
    MatchOwnSlot(pre, k, suf, rest);
    FillOneAtStart(SlotText(pre, k, suf) + rest, k, v, Hit(pre, suf, rest));
    ReplacementRendered(v, Hit(pre, suf, rest));
  }

  lemma FillOneAtStart(t: string, k: string, v: Value, h: Hit)
    requires MatchKey(t, k) == Some(h)
    ensures FillOne(t, k, v) == Replacement(v, h) + h.after
  {
    assert |t| >= 2;
    var f := FindFirst(t, k);
    assert f == Some(([], h));
    assert FillOne(t, k, v) == f.value.0 + Replacement(v, h) + h.after;
  }

  lemma FillOneLit(s: string, rest: string, k: string, v: Value)
    requires DollarFree(s)
    ensures FillOne(s + rest, k, v) == s + FillOne(rest, k, v)
  {
    FindFirstSkip(s, rest, k);
    match FindFirst(rest, k)
    case Some((x, h)) =>
      calc {
        FillOne(s + rest, k, v);
        (s + x) + Replacement(v, h) + h.after;
        { Regroup(s, x, Replacement(v, h), h.after); }
        s + (x + Replacement(v, h) + h.after);
        s + FillOne(rest, k, v);
      }
    case None =>
  }


  /** Text that opens with a `$` no key matches, and has no other `$`, passes
      through unchanged. */
  lemma FillOneSkipDollar(x: string, rest: string, k: string, v: Value)
    requires x != [] && DollarFree(x[1..])
    requires MatchKey(x + rest, k) == None
    ensures FillOne(x + rest, k, v) == x + FillOne(rest, k, v)
  {
    var t := x + rest;
    assert t[1..] == x[1..] + rest;
    FindFirstSkip(x[1..], rest, k);
    FindFirstPast(t, k);
    match FindFirst(rest, k)
    case Some((b, h)) =>
      assert t[0] == x[0];
      assert [x[0]] + (x[1..] + b) == x + b;
      FillOneAt(t, k, v, x + b, h);
      FillOneAt(rest, k, v, b, h);
      Regroup(x, b, Replacement(v, h), h.after);
    case None =>
  }

  /** Past a position where no key matches, the search goes on one
      character later. */
  lemma FindFirstPast(t: string, k: string)
    requires t != [] && MatchKey(t, k) == None
    ensures FindFirst(t, k) ==
      (match FindFirst(t[1..], k)
       case Some((b, h)) => Some(([t[0]] + b, h))
       case None => None)
  {
  }

  lemma Regroup(x: string, b: string, r: string, a: string)
    ensures (x + b) + r + a == x + (b + r + a)
  {
  }

  lemma FillOneAt(t: string, k: string, v: Value, b: string, h: Hit)
    requires FindFirst(t, k) == Some((b, h))
    ensures FillOne(t, k, v) == b + Replacement(v, h) + h.after
  {
  }

  lemma FillOneOtherSlot(pre: string, k2: string, suf: string, rest: string, k: string, v: Value)
    requires GoodKey(k) && GoodKey(k2) && k2 != k && GoodAffix(pre) && GoodAffix(suf)
    ensures FillOne(SlotText(pre, k2, suf) + rest, k, v) == SlotText(pre, k2, suf) + FillOne(rest, k, v)
  {
    MatchOtherSlot(pre, k2, suf, rest, k);
    SlotTextShape(pre, k2, suf);
    FillOneSkipDollar(SlotText(pre, k2, suf), rest, k, v);
  }

  lemma {:induction false} ReplaceFirstGood(t: Tmpl, k: string, v: Value)
    requires GoodTmpl(t) && ValueDollarFree(v)
    ensures GoodTmpl(ReplaceFirst(t, k, v))
  {
    match t
    case End =>
    case Lit(s, r) =>
      ReplaceFirstGood(r, k, v);
    case Slot(p, key, s, r) =>
      if key == k {
        RenderedDollarFree(p, s, v);
      } else {
        ReplaceFirstGood(r, k, v);
      }
  }

  lemma RenderedDollarFree(p: string, s: string, v: Value)
    requires GoodAffix(p) && GoodAffix(s) && ValueDollarFree(v)
    ensures DollarFree(Rendered(p, s, v))
  {
    if v.Text? {
      assert DollarFree(p) && DollarFree(s);
      DollarFreeAppend(p, v.s);
      DollarFreeAppend(p + v.s, s);
      DollarFreeAppend(v.s, s);
    }
  }

  /** fillTemplate on a template whose literal text and values contain no
      `$` fills the template's slots: no value is ever re-substituted. */
  lemma {:induction false} FillPiecesText(t: Tmpl, info: Info)
    requires GoodTmpl(t) && InfoKeysGood(info) && InfoDollarFree(info)
    ensures Fill(Flatten(t), info) == Flatten(FillPieces(t, info))
    decreases info
  {
    match info
    case Done =>
    case Entry(k, v, more) =>
      FillOnePieces(t, k, v);
      ReplaceFirstGood(t, k, v);
      FillPiecesText(ReplaceFirst(t, k, v), more);
  }

  // ---------------------------------------------------------------------
  // Filling as simultaneous substitution

  /** The value of the first entry of `info` for key `k`: the one
      fillTemplate uses for the placeholder. */
  function Lookup(info: Info, k: string): Option<Value> {
    match info
    case Done => None
    case Entry(key, v, more) => if key == k then Some(v) else Lookup(more, k)
  }

  /** The entries of `a` followed by those of `b`. */
  function Concat(a: Info, b: Info): Info {
    match a
    case Done => b
    case Entry(k, v, more) => Entry(k, v, Concat(more, b))
  }

  /** Every slot whose key `info` names, replaced by its rendered value. */
  function SubstAll(t: Tmpl, info: Info): Tmpl {
    match t
    case End => End
    case Lit(s, r) => Lit(s, SubstAll(r, info))
    case Slot(p, k, s, r) =>
      match Lookup(info, k)
      case Some(v) => Lit(Rendered(p, s, v), SubstAll(r, info))
      case None => Slot(p, k, s, SubstAll(r, info))
  }

  /** The text of a template with every slot `info` names filled in. */
  function Render(t: Tmpl, info: Info): string {
    match t
    case End => ""
    case Lit(s, r) => s + Render(r, info)
    case Slot(p, k, s, r) =>
      match Lookup(info, k)
      case Some(v) => Rendered(p, s, v) + Render(r, info)
      case None => SlotText(p, k, s) + Render(r, info)
  }

  /** Number of slots naming `k`. */
  function SlotCount(t: Tmpl, k: string): nat {
    match t
    case End => 0
    case Lit(_, r) => SlotCount(r, k)
    case Slot(_, key, _, r) => (if key == k then 1 else 0) + SlotCount(r, k)
  }

  /** No key of `info` names two slots. */
  predicate SlotsOnce(t: Tmpl, info: Info) {
    match info
    case Done => true
    case Entry(k, _, more) => SlotCount(t, k) <= 1 && SlotsOnce(t, more)
  }

  /** No two slots name the same key. */
  predicate DistinctSlots(t: Tmpl) {
    match t
    case End => true
    case Lit(_, r) => DistinctSlots(r)
    case Slot(_, k, _, r) => SlotCount(r, k) == 0 && DistinctSlots(r)
  }

  lemma {:induction false} DistinctSlotsOnce(t: Tmpl, info: Info)
    requires DistinctSlots(t)
    ensures SlotsOnce(t, info)
    decreases info
  {
    match info
    case Done =>
    case Entry(k, _, more) =>
      DistinctCount(t, k);
      DistinctSlotsOnce(t, more);
  }

  lemma {:induction false} DistinctCount(t: Tmpl, k: string)
    requires DistinctSlots(t)
    ensures SlotCount(t, k) <= 1
  {
    match t
    case End =>
    case Lit(_, r) =>
      DistinctCount(r, k);
    case Slot(_, key, _, r) =>
      DistinctCount(r, k);
  }

  lemma {:induction false} LookupConcat(a: Info, b: Info, k: string)
    ensures Lookup(Concat(a, b), k) == if Lookup(a, k).Some? then Lookup(a, k) else Lookup(b, k)
  {
    match a
    case Done =>
    case Entry(key, v, more) =>
      if key != k { LookupConcat(more, b, k); }
  }

  /** Well-formed keys and `$`-free values stay so when two infos are
      joined. */
  lemma {:induction false} ConcatGood(a: Info, b: Info)
    requires InfoKeysGood(a) && InfoDollarFree(a)
    requires InfoKeysGood(b) && InfoDollarFree(b)
    ensures InfoKeysGood(Concat(a, b)) && InfoDollarFree(Concat(a, b))
  {
    match a
    case Done =>
    case Entry(k, v, more) =>
      ConcatGood(more, b);
  }

  lemma {:induction false} ReplaceFirstOnce(t: Tmpl, k: string, v: Value)
    requires SlotCount(t, k) <= 1
    ensures ReplaceFirst(t, k, v) == SubstAll(t, Entry(k, v, Done))
  {
    match t
    case End =>
    case Lit(s, r) =>
      ReplaceFirstOnce(r, k, v);
    case Slot(p, key, s, r) =>
      if key == k {
        SlotCountZero(r, k, v);
      } else {
        ReplaceFirstOnce(r, k, v);
        assert Lookup(Entry(k, v, Done), key) == None;
      }
  }

  lemma {:induction false} SlotCountZero(t: Tmpl, k: string, v: Value)
    requires SlotCount(t, k) == 0
    ensures SubstAll(t, Entry(k, v, Done)) == t
  {
    match t
    case End =>
    case Lit(s, r) =>
      SlotCountZero(r, k, v);
    case Slot(p, key, s, r) =>
      SlotCountZero(r, k, v);
      assert Lookup(Entry(k, v, Done), key) == None;
  }

  /** Substituting the keys of `a` and then those of `b` is substituting
      the keys of both at once, the first entry for a key winning. */
  lemma {:induction false} SubstConcat(t: Tmpl, a: Info, b: Info)
    ensures SubstAll(SubstAll(t, a), b) == SubstAll(t, Concat(a, b))
  {
    match t
    case End =>
    case Lit(s, r) =>
      SubstConcat(r, a, b);
    case Slot(p, k, s, r) =>
      SubstConcat(r, a, b);
      LookupConcat(a, b, k);
  }

  lemma {:induction false} SlotCountSubst(t: Tmpl, info: Info, k: string)
    ensures SlotCount(SubstAll(t, info), k) <= SlotCount(t, k)
  {
    match t
    case End =>
    case Lit(s, r) =>
      SlotCountSubst(r, info, k);
    case Slot(p, key, s, r) =>
      SlotCountSubst(r, info, k);
  }

  lemma {:induction false} SlotsOnceSubst(t: Tmpl, a: Info, info: Info)
    requires SlotsOnce(t, info)
    ensures SlotsOnce(SubstAll(t, a), info)
  {
    match info
    case Done =>
    case Entry(k, _, more) =>
      SlotCountSubst(t, a, k);
      SlotsOnceSubst(t, a, more);
  }

  lemma {:induction false} SubstNone(t: Tmpl)
    ensures SubstAll(t, Done) == t
  {
    match t
    case End =>
    case Lit(s, r) =>
      SubstNone(r);
    case Slot(p, k, s, r) =>
      SubstNone(r);
  }

  /** With no key naming two slots, applying the keys of `info` one after
      the other substitutes every named slot at once. */
  lemma {:induction false} FillPiecesSubst(t: Tmpl, info: Info)
    requires SlotsOnce(t, info)
    ensures FillPieces(t, info) == SubstAll(t, info)
    decreases info
  {
    match info
    case Done =>
      SubstNone(t);
    case Entry(k, v, more) =>
      ReplaceFirstOnce(t, k, v);
      var e := Entry(k, v, Done);
      SlotsOnceSubst(t, e, more);
      FillPiecesSubst(SubstAll(t, e), more);
      SubstConcat(t, e, more);
  }

  lemma {:induction false} SubstGood(t: Tmpl, info: Info)
    requires GoodTmpl(t) && InfoDollarFree(info)
    ensures GoodTmpl(SubstAll(t, info))
  {
    match t
    case End =>
    case Lit(s, r) =>
      SubstGood(r, info);
    case Slot(p, k, s, r) =>
      SubstGood(r, info);
      match Lookup(info, k)
      case Some(v) =>
        LookupDollarFree(info, k);
        RenderedDollarFree(p, s, v);
      case None =>
  }

  lemma {:induction false} LookupDollarFree(info: Info, k: string)
    requires InfoDollarFree(info) && Lookup(info, k).Some?
    ensures ValueDollarFree(Lookup(info, k).value)
  {
    match info
    case Done =>
    case Entry(key, v, more) =>
      if key != k { LookupDollarFree(more, k); }
  }

  lemma {:induction false} FlattenSubst(t: Tmpl, info: Info)
    ensures Flatten(SubstAll(t, info)) == Render(t, info)
  {
    match t
    case End =>
    case Lit(s, r) =>
      FlattenSubst(r, info);
    case Slot(p, k, s, r) =>
      FlattenSubst(r, info);
  }

  /** fillTemplate on a `$`-free template and `$`-free values, with no key
      naming two slots: each named slot shows its value and every other
      slot stays as written. */
  lemma FillTemplate(t: Tmpl, info: Info)
    requires GoodTmpl(t) && InfoKeysGood(info) && InfoDollarFree(info)
    requires SlotsOnce(t, info)
    ensures Fill(Flatten(t), info) == Render(t, info)
  {
    FillPiecesText(t, info);
    FillPiecesSubst(t, info);
    FlattenSubst(t, info);
  }

  /** Filling a text that an earlier fill produced from a template: the
      two fills together fill the template's slots from both objects. */
  lemma FillAgain(t: Tmpl, a: Info, b: Info)
    requires GoodTmpl(t) && InfoDollarFree(a)
    requires InfoKeysGood(b) && InfoDollarFree(b) && SlotsOnce(t, b)
    ensures Fill(Render(t, a), b) == Render(t, Concat(a, b))
  {
    FlattenSubst(t, a);
    SubstGood(t, a);
    SlotsOnceSubst(t, a, b);
    FillTemplate(SubstAll(t, a), b);
    SubstConcat(t, a, b);
    FlattenSubst(SubstAll(t, a), b);
    FlattenSubst(t, Concat(a, b));
  }

  /** No character class of the codec's patterns contains `$`. */
  lemma ClassDollarFree(s: string, k: CharClass)
    requires AllIn(s, k)
    ensures DollarFree(s)
  {
    forall i | 0 <= i < |s| ensures s[i] != '$' {
      assert InClass(s[i], k);
    }
  }

  /** A number's value: its decimal text. */
  function NumValue(n: nat): Value {
    Text(Decimal(n))
  }

  /** A property that may be null. */
  function OptText(o: Option<string>): Value {
    if o.Some? then Text(o.value) else Vanish
  }

  function OptNum(o: Option<nat>): Value {
    if o.Some? then Text(Decimal(o.value)) else Vanish
  }

  /** A property that may be missing: no key at all when it is, so that
      its placeholder stays in the text. */
  function Maybe(k: string, o: Option<string>, more: Info): Info {
    if o.Some? then Entry(k, Text(o.value), more) else more
  }

  /** An optional entry keeps an info well formed. */
  lemma MaybeGood(k: string, o: Option<string>, more: Info)
    requires GoodKey(k) && (o.Some? ==> DollarFree(o.value))
    requires InfoKeysGood(more) && InfoDollarFree(more)
    ensures InfoKeysGood(Maybe(k, o, more)) && InfoDollarFree(Maybe(k, o, more))
  {
  }

  function MaybeNum(k: string, o: Option<nat>, more: Info): Info {
    if o.Some? then Entry(k, NumValue(o.value), more) else more
  }

  /** A number that may be null as a placeholder renders it, or as a
      pattern receives it: its decimal text, or nothing. */
  function NumText(o: Option<nat>): string {
    if o.Some? then Decimal(o.value) else ""
  }

  /** The text of an optional property after a fixed prefix, as a
      placeholder with a prefix bracket renders it. */
  function Prefixed(pre: string, o: Option<string>): string {
    if o.Some? then pre + o.value else ""
  }

  function PrefixedNum(pre: string, o: Option<nat>): string {
    if o.Some? then pre + Decimal(o.value) else ""
  }

  /** Template `t` followed by template `u`. */
  function Append(t: Tmpl, u: Tmpl): Tmpl {
    match t
    case End => u
    case Lit(s, r) => Lit(s, Append(r, u))
    case Slot(p, k, s, r) => Slot(p, k, s, Append(r, u))
  }

  /** A template of one line: the line's text, then CR LF. */
  function Line(t: Tmpl): Tmpl {
    Append(t, Lit("\r\n", End))
  }

  lemma {:induction false} RenderAppend(t: Tmpl, u: Tmpl, info: Info)
    ensures Render(Append(t, u), info) == Render(t, info) + Render(u, info)
  {
    match t
    case End =>
      assert Render(t, info) == "";
    case Lit(s, r) =>
      RenderAppend(r, u, info);
      AppendAssoc(s, Render(r, info), Render(u, info));
    case Slot(p, k, s, r) =>
      RenderAppend(r, u, info);
      var head := if Lookup(info, k).Some? then Rendered(p, s, Lookup(info, k).value) else SlotText(p, k, s);
      assert Render(t, info) == head + Render(r, info);
      assert Render(Append(t, u), info) == head + Render(Append(r, u), info);
      AppendAssoc(head, Render(r, info), Render(u, info));
  }

  lemma AppendAssoc(a: string, b: string, c: string)
    ensures a + (b + c) == (a + b) + c
  {
  }

  lemma {:induction false} GoodAppend(t: Tmpl, u: Tmpl)
    requires GoodTmpl(t) && GoodTmpl(u)
    ensures GoodTmpl(Append(t, u))
  {
    match t
    case End =>
    case Lit(s, r) =>
      GoodAppend(r, u);
    case Slot(p, k, s, r) =>
      GoodAppend(r, u);
  }

  lemma {:induction false} SlotCountAppend(t: Tmpl, u: Tmpl, k: string)
    ensures SlotCount(Append(t, u), k) == SlotCount(t, k) + SlotCount(u, k)
  {
    match t
    case End =>
    case Lit(s, r) =>
      SlotCountAppend(r, u, k);
    case Slot(p, key, s, r) =>
      SlotCountAppend(r, u, k);
  }

  /** Appending literal text keeps the slots distinct. */
  lemma {:induction false} DistinctAppendLit(t: Tmpl, s: string)
    requires DistinctSlots(t)
    ensures DistinctSlots(Append(t, Lit(s, End)))
  {
    match t
    case End =>
    case Lit(x, r) =>
      DistinctAppendLit(r, s);
    case Slot(p, k, x, r) =>
      DistinctAppendLit(r, s);
      SlotCountAppend(r, Lit(s, End), k);
  }

  /** The keys the slots of a template name. */
  function SlotKeys(t: Tmpl): set<string> {
    match t
    case End => {}
    case Lit(_, r) => SlotKeys(r)
    case Slot(_, k, _, r) => {k} + SlotKeys(r)
  }

  lemma {:induction false} SlotKeysCount(t: Tmpl, k: string)
    ensures SlotCount(t, k) == 0 <==> k !in SlotKeys(t)
  {
    match t
    case End =>
    case Lit(_, r) => SlotKeysCount(r, k);
    case Slot(_, _, _, r) => SlotKeysCount(r, k);
  }

  /** Two templates with distinct slots and no key in common make one
      with distinct slots. */
  lemma {:induction false} DistinctAppend(t: Tmpl, u: Tmpl)
    requires DistinctSlots(t) && DistinctSlots(u) && SlotKeys(t) !! SlotKeys(u)
    ensures DistinctSlots(Append(t, u))
    ensures SlotKeys(Append(t, u)) == SlotKeys(t) + SlotKeys(u)
  {
    match t
    case End =>
    case Lit(_, r) =>
      DistinctAppend(r, u);
    case Slot(_, k, _, r) =>
      DistinctAppend(r, u);
      SlotCountAppend(r, u, k);
      SlotKeysCount(r, k);
      SlotKeysCount(u, k);
  }

  /** A line keeps the keys and the distinct slots of its text. */
  lemma LineKeys(t: Tmpl)
    requires DistinctSlots(t)
    ensures DistinctSlots(Line(t)) && SlotKeys(Line(t)) == SlotKeys(t)
  {
    DistinctAppend(t, Lit("\r\n", End));
  }

  /** Lookups in concatenated objects, for any objects and key. */
  lemma LookupConcatAll()
    ensures forall a, b, k {:trigger Lookup(Concat(a, b), k)} ::
      Lookup(Concat(a, b), k) == if Lookup(a, k).Some? then Lookup(a, k) else Lookup(b, k)
  {
    forall a, b, k {
      LookupConcat(a, b, k);
    }
  }

  /** Filling a one-line template whose slots are distinct gives the
      rendered line followed by CR LF. */
  lemma FillLine(t: Tmpl, info: Info)
    requires GoodTmpl(t) && DistinctSlots(t)
    requires InfoKeysGood(info) && InfoDollarFree(info)
    ensures Fill(Flatten(Line(t)), info) == Render(t, info) + "\r\n"
  {
    var eol := Lit("\r\n", End);
    assert DollarFree("\r\n");
    GoodAppend(t, eol);
    DistinctAppendLit(t, "\r\n");
    DistinctSlotsOnce(Line(t), info);
    FillTemplate(Line(t), info);
    RenderAppend(t, eol, info);
  }

  /** One-step unfoldings of the template functions on constructor terms,
      for evaluating them on the codec's fixed templates. */
  lemma Unfold()
    ensures forall s, r, info {:trigger Render(Lit(s, r), info)} ::
      Render(Lit(s, r), info) == s + Render(r, info)
    ensures forall s, info {:trigger Render(Lit(s, End), info)} ::
      Render(Lit(s, End), info) == s
    ensures forall p, k, s, info {:trigger Render(Slot(p, k, s, End), info)} ::
      Render(Slot(p, k, s, End), info) ==
        (if Lookup(info, k).Some? then Rendered(p, s, Lookup(info, k).value) else SlotText(p, k, s))
    ensures forall p, k, s, r, info {:trigger Render(Slot(p, k, s, r), info)} ::
      Render(Slot(p, k, s, r), info) ==
        (if Lookup(info, k).Some? then Rendered(p, s, Lookup(info, k).value) else SlotText(p, k, s))
        + Render(r, info)
    ensures forall k, v, m, k2 {:trigger Lookup(Entry(k, v, m), k2)} ::
      Lookup(Entry(k, v, m), k2) == if k == k2 then Some(v) else Lookup(m, k2)
    ensures forall k, v, m, b {:trigger Concat(Entry(k, v, m), b)} ::
      Concat(Entry(k, v, m), b) == Entry(k, v, Concat(m, b))
    ensures forall s, r, k {:trigger SlotCount(Lit(s, r), k)} :: SlotCount(Lit(s, r), k) == SlotCount(r, k)
    ensures forall p, key, s, r, k {:trigger SlotCount(Slot(p, key, s, r), k)} ::
      SlotCount(Slot(p, key, s, r), k) == (if key == k then 1 else 0) + SlotCount(r, k)
    ensures forall s, r {:trigger DistinctSlots(Lit(s, r))} :: DistinctSlots(Lit(s, r)) == DistinctSlots(r)
    ensures forall p, k, s, r {:trigger DistinctSlots(Slot(p, k, s, r))} ::
      DistinctSlots(Slot(p, k, s, r)) == (SlotCount(r, k) == 0 && DistinctSlots(r))
    ensures forall s, r {:trigger GoodTmpl(Lit(s, r))} :: GoodTmpl(Lit(s, r)) == (DollarFree(s) && GoodTmpl(r))
    ensures forall p, k, s, r {:trigger GoodTmpl(Slot(p, k, s, r))} ::
      GoodTmpl(Slot(p, k, s, r)) == (GoodKey(k) && GoodAffix(p) && GoodAffix(s) && GoodTmpl(r))
    ensures forall k, v, m {:trigger InfoKeysGood(Entry(k, v, m))} ::
      InfoKeysGood(Entry(k, v, m)) == (GoodKey(k) && InfoKeysGood(m))
    ensures forall k, v, m {:trigger InfoDollarFree(Entry(k, v, m))} ::
      InfoDollarFree(Entry(k, v, m)) == (ValueDollarFree(v) && InfoDollarFree(m))
  {
  }

  /** fillTemplate's loop: the keys of `info` applied one after another to
      the text. */
  method FillText(t: string, info: Info) returns (text: string)
    ensures text == Fill(t, info)
  {
    text := t;
    var rest := info;
    while rest.Entry?
      invariant Fill(text, rest) == Fill(t, info)
      decreases rest
    {
      text := FillOne(text, rest.key, rest.value);
      rest := rest.more;
    }
  }
}
