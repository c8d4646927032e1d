/** The format list of a media line: how the generator accumulates the
    payload types into the `fmt` placeholder (bridge/client/webrtc.js:1051-1055)
    and how the parser reads them back from the `m=` line
    (bridge/client/webrtc.js:813-817). */
module MediaFormats {
  import opened Wrappers
  import opened Chars
  import opened Scan
  import opened Template

  /** Texts joined with single spaces, as `Array.prototype.join(" ")`
      writes them. */
  function JoinSpaced(ws: seq<string>): string {
    if ws == [] then "" else ws[0] + (if |ws| == 1 then "" else " " + JoinSpaced(ws[1..]))
  }

  lemma {:induction false} JoinSpacedSnoc(ws: seq<string>, w: string)
    requires ws != []
    ensures JoinSpaced(ws + [w]) == JoinSpaced(ws) + " " + w
  {
    var xs := ws + [w];
    assert xs[0] == ws[0];
    if |ws| == 1 {
      assert xs[1..] == [w];
    } else {
      assert xs[1..] == ws[1..] + [w];
      JoinSpacedSnoc(ws[1..], w);
    }
  }

  // ---------------------------------------------------------------------
  // Reading: `fmt.replace(/^[\s\uFEFF\xA0]+/, '').split(/ +/).map(parseInt)`

  /** `s.split(/ +/)` on a text of digits and spaces. */
  function Words(s: string): (r: seq<string>)
    ensures r != []
    decreases |s|
  {
    var (w, rest) := Run(s, Digit);
    var n := SpaceRun(rest);
    if n == 0 then [w] else [w] + Words(rest[n..])
  }

  function ParseAll(ws: seq<string>): (r: seq<Option<nat>>)
    ensures |r| == |ws|
  {
    if ws == [] then [] else [ParseInt(ws[0])] + ParseAll(ws[1..])
  }

  /** The payload types the parser reads from the format text the media
      line pattern captures: leading spaces dropped, split at runs of
      spaces, each piece through parseInt (NaN as None). */
  function FmtTypes(fmt: string): (r: seq<Option<nat>>)
    ensures |r| >= 1
  {
    ParseAll(Words(fmt[SpaceRun(fmt)..]))
  }

  predicate DigitWords(ws: seq<string>) {
    forall i :: 0 <= i < |ws| ==> ws[i] != [] && AllIn(ws[i], Digit)
  }

  /** Splitting a space-joined list of digit words gives the words back. */
  lemma {:induction false} WordsJoin(ws: seq<string>)
    requires ws != [] && DigitWords(ws)
    ensures Words(JoinSpaced(ws)) == ws
  {
    if |ws| == 1 {
      assert JoinSpaced(ws) == ws[0] + "";
      WordsOne(ws[0]);
    } else {
      var tail := JoinSpaced(ws[1..]);
      assert JoinSpaced(ws) == ws[0] + (" " + tail);
      assert ws[1..][0] == ws[1];
      assert tail[0] == ws[1][0];
      WordsCons(ws[0], tail);
      WordsJoin(ws[1..]);
      assert ws == [ws[0]] + ws[1..];
    }
  }

  lemma WordsOne(w: string)
    requires AllIn(w, Digit)
    ensures Words(w + "") == [w]
  {
    RunOf(w, "", Digit);
  }

  lemma WordsCons(w: string, tail: string)
    requires AllIn(w, Digit)
    requires tail != [] && tail[0] != ' '
    ensures Words(w + (" " + tail)) == [w] + Words(tail)
  {
    var rest := " " + tail;
    assert rest[0] == ' ';
    RunOf(w, rest, Digit);
    assert rest[1..] == tail;
    assert SpaceRun(tail) == 0;
    assert SpaceRun(rest) == 1;
  }

  function Decimals(ns: seq<nat>): (r: seq<string>)
    ensures |r| == |ns|
  {
    seq(|ns|, i requires 0 <= i < |ns| => Decimal(ns[i]))
  }

  function Somes(ns: seq<nat>): (r: seq<Option<nat>>)
    ensures |r| == |ns|
  {
    seq(|ns|, i requires 0 <= i < |ns| => Some(ns[i]))
  }

  lemma {:induction false} ParseAllDecimals(ns: seq<nat>)
    ensures ParseAll(Decimals(ns)) == Somes(ns)
  {
    if ns != [] {
      ParseIntDecimal(ns[0], "");
      assert Decimal(ns[0]) + "" == Decimal(ns[0]);
      assert Decimals(ns)[1..] == Decimals(ns[1..]);
      ParseAllDecimals(ns[1..]);
      assert Somes(ns) == [Some(ns[0])] + Somes(ns[1..]);
    }
  }

  /** The parser reads a list of numbers back from the text the generator
      writes after the protocol: a space, then the numbers joined by
      spaces. */
  lemma FmtTypesJoined(ns: seq<nat>)
    requires ns != []
    ensures FmtTypes(" " + JoinSpaced(Decimals(ns))) == Somes(ns)
  {
    var j := JoinSpaced(Decimals(ns));
    assert j[0] == Decimals(ns)[0][0];
    assert SpaceRun(" " + j) == 1 by {
      assert (" " + j)[1..] == j;
      assert SpaceRun(j) == 0;
    }
    assert (" " + j)[1..] == j;
    WordsJoin(Decimals(ns));
    ParseAllDecimals(ns);
  }

  // ---------------------------------------------------------------------
  // Writing: the `payloadInfo.fmt` accumulator

  /** The value the generator accumulates in `payloadInfo.fmt`: nothing
      yet, the first payload type (a number, or null for a type that was
      NaN), or the text joined once a second type was appended. */
  datatype FmtAcc = NoFmt | First(pt: Option<nat>) | Joined(s: string)

  /** `" " + payload.type`: a number as its decimal text, null as "null". */
  function TypeText(pt: Option<nat>): string {
    if pt.Some? then Decimal(pt.value) else "null"
  }

  function AccText(a: FmtAcc): string {
    match a
    case NoFmt => ""
    case First(pt) => TypeText(pt)
    case Joined(s) => s
  }

  /** JavaScript truthiness of the accumulator: undefined, 0 and null are
      false. */
  predicate AccTruthy(a: FmtAcc) {
    match a
    case NoFmt => false
    case First(pt) => pt.Some? && pt.value != 0
    case Joined(s) => s != ""
  }

  /** One step as the source writes it: append when the accumulator is
      truthy, otherwise start over with this type. */
  function StepAsWritten(a: FmtAcc, pt: Option<nat>): FmtAcc {
    if AccTruthy(a) then Joined(AccText(a) + " " + TypeText(pt)) else First(pt)
  }

  function FoldAsWritten(pts: seq<Option<nat>>): FmtAcc {
    if pts == [] then NoFmt
    else StepAsWritten(FoldAsWritten(pts[..|pts| - 1]), pts[|pts| - 1])
  }

  /** One step as intended: append whenever a type was already recorded. */
  function Step(a: FmtAcc, pt: Option<nat>): FmtAcc {
    if a.NoFmt? then First(pt) else Joined(AccText(a) + " " + TypeText(pt))
  }

  function Fold(pts: seq<Option<nat>>): FmtAcc {
    if pts == [] then NoFmt else Step(Fold(pts[..|pts| - 1]), pts[|pts| - 1])
  }

  /** The value the `fmt` placeholder receives: null renders nothing. */
  function FmtValue(a: FmtAcc): Value {
    match a
    case NoFmt => Vanish
    case First(pt) => OptNum(pt)
    case Joined(s) => Text(s)
  }

  function TypeTexts(pts: seq<Option<nat>>): (r: seq<string>)
    ensures |r| == |pts|
  {
    seq(|pts|, i requires 0 <= i < |pts| => TypeText(pts[i]))
  }

  /** The corrected accumulator holds every payload type, in order,
      joined by single spaces. */
  lemma {:induction false} FoldText(pts: seq<Option<nat>>)
    requires pts != []
    ensures Fold(pts) != NoFmt
    ensures AccText(Fold(pts)) == JoinSpaced(TypeTexts(pts))
  {
    var n := |pts| - 1;
    if n > 0 {
      FoldText(pts[..n]);
      assert TypeTexts(pts) == TypeTexts(pts[..n]) + [TypeText(pts[n])];
      JoinSpacedSnoc(TypeTexts(pts[..n]), TypeText(pts[n]));
    } else {
      assert TypeTexts(pts) == [TypeText(pts[0])];
    }
  }

  /** What the media line then carries: the parser reads back exactly the
      payload types of the description, in order. */
  lemma FmtRoundTrip(ns: seq<nat>)
    requires ns != []
    ensures FmtValue(Fold(Somes(ns))) == Text(AccText(Fold(Somes(ns))))
    ensures FmtTypes(" " + AccText(Fold(Somes(ns)))) == Somes(ns)
  {
    FoldText(Somes(ns));
    assert TypeTexts(Somes(ns)) == Decimals(ns);
    FmtTypesJoined(ns);
    if |ns| == 1 {
      assert Somes(ns)[..0] == [];
    }
  }

  /** The code as written agrees with the corrected step whenever the
      first payload type is truthy (a number other than 0). */
  lemma {:induction false} AsWrittenAgrees(pts: seq<Option<nat>>)
    requires pts != [] && pts[0].Some? && pts[0].value != 0
    ensures FoldAsWritten(pts) == Fold(pts)
    ensures AccTruthy(Fold(pts))
  {
    var n := |pts| - 1;
    if n == 0 {
      assert pts[..0] == [];
    } else {
      assert pts[..n][0] == pts[0];
      AsWrittenAgrees(pts[..n]);
    }
  }

  /** With payload types 0 and 8 the code as written drops the 0: the
      media line lists only 8, and the parser reads one payload type where
      the description had two. */
  lemma AsWrittenDropsLeadingZero()
    ensures FoldAsWritten([Some(0), Some(8)]) == First(Some(8))
    ensures FmtTypes(" " + AccText(FoldAsWritten([Some(0), Some(8)]))) == [Some(8)]
    ensures Fold([Some(0), Some(8)]) == Joined("0 8")
  {
    ZeroThenEight();
    OnlyEight();
  }

  lemma ZeroThenEight()
    ensures FoldAsWritten([Some(0), Some(8)]) == First(Some(8))
    ensures Fold([Some(0), Some(8)]) == Joined("0 8")
  {
    var pts: seq<Option<nat>> := [Some(0), Some(8)];
    assert pts[..1] == [Some(0)];
    assert [Some(0)][..0] == [];
    assert FoldAsWritten([Some(0)]) == First(Some(0));
    assert Fold([Some(0)]) == First(Some(0));
    assert TypeText(Some(0)) == "0";
    assert TypeText(Some(8)) == "8";
  }

  lemma OnlyEight()
    ensures AccText(First(Some(8))) == "8"
    ensures FmtTypes(" 8") == [Some(8)]
  {
    assert Decimal(8) == "8";
    assert Decimals([8]) == ["8"];
    assert JoinSpaced(["8"]) == "8";
    FmtTypesJoined([8]);
    assert Somes([8]) == [Some(8)];
  }
}
