/** Character classes of the regular expressions used by the SDP codec,
    maximal-run scanning, decimal numbers and ASCII case mapping. */
module Chars {
  import opened Wrappers

  predicate IsDigit(c: char) { '0' <= c <= '9' }
  predicate IsLower(c: char) { 'a' <= c <= 'z' }
  predicate IsUpper(c: char) { 'A' <= c <= 'Z' }
  /** `\w` of a JavaScript regular expression. */
  predicate IsWord(c: char) { IsDigit(c) || IsLower(c) || IsUpper(c) || c == '_' }

  /** The bracketed classes that occur in the codec's patterns. */
  datatype CharClass =
    | Digit         // \d
    | DigitDot      // [\d\.]
    | Address       // [\d\.a-f\:]
    | AddressCI     // [\d\.a-f\:] under the `i` flag
    | Letter        // [a-z] under the `i` flag
    | WordDash      // [\w\-]
    | UserChar      // [\w\-@\.]
    | ProtoChar     // [A-Z/]
    | FmtChar       // [\d ]
    | CnameChar     // [\w+/\-@\.\{\}]
    | MsidChar      // [\w+/\-=]
    | IceChar       // [\w+/]
    | HexChar       // [A-Fa-f\d\:]
    | FmtpChar      // [\w\-=; ]

  predicate InClass(c: char, k: CharClass) {
    match k
    case Digit => IsDigit(c)
    case DigitDot => IsDigit(c) || c == '.'
    case Address => IsDigit(c) || c == '.' || ('a' <= c <= 'f') || c == ':'
    case AddressCI => IsDigit(c) || c == '.' || ('a' <= c <= 'f') || ('A' <= c <= 'F') || c == ':'
    case Letter => IsLower(c) || IsUpper(c)
    case WordDash => IsWord(c) || c == '-'
    case UserChar => IsWord(c) || c == '-' || c == '@' || c == '.'
    case ProtoChar => IsUpper(c) || c == '/'
    case FmtChar => IsDigit(c) || c == ' '
    case CnameChar => IsWord(c) || c == '+' || c == '/' || c == '-' || c == '@' || c == '.' || c == '{' || c == '}'
    case MsidChar => IsWord(c) || c == '+' || c == '/' || c == '-' || c == '='
    case IceChar => IsWord(c) || c == '+' || c == '/'
    case HexChar => IsDigit(c) || ('a' <= c <= 'f') || ('A' <= c <= 'F') || c == ':'
    case FmtpChar => IsWord(c) || c == '-' || c == '=' || c == ';' || c == ' '
  }

  predicate AllIn(s: string, k: CharClass) {
    forall i :: 0 <= i < |s| ==> InClass(s[i], k)
  }

  /** Length of the longest prefix of `s` inside class `k`: what a greedy
      `[...]*` consumes. */
  function Span(s: string, k: CharClass): (n: nat)
    ensures n <= |s|
    ensures AllIn(s[..n], k)
    ensures n < |s| ==> !InClass(s[n], k)
  {
    if s == [] || !InClass(s[0], k) then 0
    else
      var m := Span(s[1..], k);
      assert s[..1 + m] == [s[0]] + s[1..][..m];
      1 + m
  }

  /** A run of class characters followed by text that does not continue the
      run is consumed exactly. */
  lemma {:induction false} SpanOf(x: string, rest: string, k: CharClass)
    requires AllIn(x, k)
    requires rest == [] || !InClass(rest[0], k)
    ensures Span(x + rest, k) == |x|
  {
    if x != [] {
      assert (x + rest)[0] == x[0];
      assert (x + rest)[1..] == x[1..] + rest;
      SpanOf(x[1..], rest, k);
    }
  }

  /** `s` begins with `p`. */
  predicate StartsWith(s: string, p: string) {
    |p| <= |s| && s[..|p|] == p
  }

  /** The text after literal `p`, if `s` begins with it. */
  function DropPrefix(s: string, p: string): (r: Option<string>)
    ensures r.Some? <==> StartsWith(s, p)
    ensures r.Some? ==> s == p + r.value
  {
    if StartsWith(s, p) then
      assert s == s[..|p|] + s[|p|..];
      Some(s[|p|..])
    else None
  }

  lemma DropPrefixOf(p: string, rest: string)
    ensures DropPrefix(p + rest, p) == Some(rest)
  {
    assert (p + rest)[..|p|] == p;
  }

  function ToLower(c: char): char {
    if IsUpper(c) then (c as int + 32) as char else c
  }

  function ToUpper(c: char): char {
    if IsLower(c) then (c as int - 32) as char else c
  }

  /** ASCII `toLowerCase`. */
  function LowerString(s: string): (r: string)
    ensures |r| == |s|
    ensures forall i :: 0 <= i < |s| ==> r[i] == ToLower(s[i])
  {
    seq(|s|, i requires 0 <= i < |s| => ToLower(s[i]))
  }

  /** ASCII `toUpperCase`. */
  function UpperString(s: string): (r: string)
    ensures |r| == |s|
    ensures forall i :: 0 <= i < |s| ==> r[i] == ToUpper(s[i])
  {
    seq(|s|, i requires 0 <= i < |s| => ToUpper(s[i]))
  }

  predicate NoLower(s: string) {
    forall i :: 0 <= i < |s| ==> !IsLower(s[i])
  }

  predicate NoUpper(s: string) {
    forall i :: 0 <= i < |s| ==> !IsUpper(s[i])
  }

  /** Upper-casing text that has no lower-case letter leaves it as it is. */
  lemma UpperStringFixed(s: string)
    requires NoLower(s)
    ensures UpperString(s) == s
  {
  }

  lemma LowerStringFixed(s: string)
    requires NoUpper(s)
    ensures LowerString(s) == s
  {
  }

  /** Literal `p` (given in lower case) at the start of `s`, compared without
      regard to ASCII case, as a pattern under the `i` flag does. */
  predicate StartsWithCI(s: string, p: string) {
    |p| <= |s| && LowerString(s[..|p|]) == p
  }

  function DropPrefixCI(s: string, p: string): (r: Option<string>)
    ensures r.Some? <==> StartsWithCI(s, p)
    ensures r.Some? ==> |s| == |p| + |r.value| && s[|p|..] == r.value
  {
    if StartsWithCI(s, p) then Some(s[|p|..]) else None
  }

  lemma DropPrefixCIOf(p: string, rest: string)
    requires NoUpper(p)
    ensures DropPrefixCI(p + rest, p) == Some(rest)
  {
    assert (p + rest)[..|p|] == p;
    LowerStringFixed(p);
  }

  function DigitChar(d: nat): (c: char)
    requires d < 10
    ensures IsDigit(c)
  {
    ('0' as int + d) as char
  }

  function DigitOf(c: char): (d: nat)
    requires IsDigit(c)
    ensures d < 10
  {
    c as int - '0' as int
  }

  /** The decimal rendering of a number, as `"" + n` gives in JavaScript. */
  function Decimal(n: nat): (s: string)
    ensures |s| > 0 && AllIn(s, Digit)
    decreases n
  {
    if n < 10 then [DigitChar(n)] else Decimal(n / 10) + [DigitChar(n % 10)]
  }

  /** The value of a string of decimal digits. */
  function DigitsValue(s: string): nat
    requires AllIn(s, Digit)
  {
    if s == [] then 0
    else DigitsValue(s[..|s| - 1]) * 10 + DigitOf(s[|s| - 1])
  }

  lemma {:induction false} DecimalValue(n: nat)
    ensures DigitsValue(Decimal(n)) == n
    decreases n
  {
    if n >= 10 {
      var s := Decimal(n);
      assert s[..|s| - 1] == Decimal(n / 10);
      DecimalValue(n / 10);
    }
  }

  lemma DecimalInjective(a: nat, b: nat)
    requires Decimal(a) == Decimal(b)
    ensures a == b
  {
    DecimalValue(a);
    DecimalValue(b);
  }

  /** JavaScript `parseInt` on the texts the codec hands it (leading spaces,
      then decimal digits): the value of the leading digit run, or None for
      NaN when there is none. */
  function ParseInt(s: string): Option<nat>
  {
    var t := s[SpaceRun(s)..];
    var n := Span(t, Digit);
    if n == 0 then None else Some(DigitsValue(t[..n]))
  }

  /** `parseInt` reads back the decimal rendering of a number, whatever
      non-digit text follows it, and reads NaN from text without digits. */
  lemma {:induction false} ParseIntDecimal(n: nat, rest: string)
    requires rest == [] || !IsDigit(rest[0])
    ensures ParseInt(Decimal(n) + rest) == Some(n)
  {
    var s := Decimal(n) + rest;
    assert s[0] == Decimal(n)[0];
    assert SpaceRun(s) == 0;
    SpanOf(Decimal(n), rest, Digit);
    assert s[..|Decimal(n)|] == Decimal(n);
    DecimalValue(n);
  }

  function SpaceRun(s: string): (n: nat)
    ensures n <= |s|
    ensures forall i :: 0 <= i < n ==> s[i] == ' '
    ensures n < |s| ==> s[n] != ' '
  {
    if s == [] || s[0] != ' ' then 0 else 1 + SpaceRun(s[1..])
  }
}
