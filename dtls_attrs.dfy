/** The transport attribute lines of a media block: `a=fingerprint`
    (RFC 4572 section 5), `a=setup` (RFC 4145 section 4) and `a=sctpmap`
    (the SCTP-over-DTLS draft's media attribute); the patterns that read
    them (bridge/client/webrtc.js:682-684) and the templates that write
    them (bridge/client/webrtc.js:739-742). */
module DtlsAttrs {
  import opened Wrappers
  import opened Chars
  import opened Scan
  import opened Template
  import opened SdpTypes

  // ---------------------------------------------------------------------
  // a=fingerprint

  const HashNames: seq<string> := ["sha-1", "sha-256"]

  /** `^a=fingerprint:(sha-1|sha-256) ([A-Fa-f\d:]+)` under the `i` flag:
      the hash function and the fingerprint as written. The two
      alternatives differ at their fifth character, so no text matches
      both and the engine never backtracks between them. */
  function FingerprintMatch(line: string): (r: Option<(string, string)>)
    ensures r.Some? ==> r.value.1 != [] && AllIn(r.value.1, HexChar)
    ensures r.Some? ==> StartsWithCI(line, "a=fingerprint:")
  {
    var r0 :- Expect(line, "a=fingerprint:", true);
    var hash :- Alt(r0, HashNames, true);
    var r1 :- Expect(hash.1, " ", true);
    var fp :- Run1(r1, HexChar);
    Some((hash.0, fp.0))
  }

  function FingerprintText(hash: string, fingerprint: string): string {
    "a=fingerprint:" + (hash + (" " + fingerprint))
  }

  /** The parser lower-cases the hash name and upper-cases the
      fingerprint; a line the generator writes from an upper-case
      fingerprint is read back as written. */
  lemma FingerprintRoundTrip(hash: string, fingerprint: string)
    requires hash in HashNames
    requires fingerprint != [] && AllIn(fingerprint, HexChar)
    ensures FingerprintMatch(FingerprintText(hash, fingerprint)) == Some((hash, fingerprint))
    ensures LowerString(hash) == hash
    ensures NoLower(fingerprint) ==> UpperString(fingerprint) == fingerprint
  {
    FingerprintLineRead(hash, fingerprint);
    HashLower(hash);
    if NoLower(fingerprint) { UpperStringFixed(fingerprint); }
  }

  lemma HashLower(hash: string)
    requires hash in HashNames
    ensures LowerString(hash) == hash
  {
    assert NoUpper(hash);
    LowerStringFixed(hash);
  }

  lemma FingerprintLineRead(hash: string, fingerprint: string)
    requires hash in HashNames
    requires fingerprint != [] && AllIn(fingerprint, HexChar)
    ensures FingerprintMatch(FingerprintText(hash, fingerprint)) == Some((hash, fingerprint))
  {
    assert NoUpper("a=fingerprint:");
    ExpectOf("a=fingerprint:", hash + (" " + fingerprint), true);
    HashAlt(hash, " " + fingerprint);
    FingerprintTail(fingerprint);
  }

  lemma FingerprintTail(fingerprint: string)
    requires fingerprint != [] && AllIn(fingerprint, HexChar)
    ensures Expect(" " + fingerprint, " ", true) == Some(fingerprint)
    ensures Run1(fingerprint, HexChar) == Some((fingerprint, ""))
  {
    assert NoUpper(" ");
    ExpectOf(" ", fingerprint, true);
    Run1Of(fingerprint, "", HexChar);
    assert fingerprint + "" == fingerprint;
  }

  lemma HashAlt(hash: string, rest: string)
    requires hash in HashNames
    ensures Alt(hash + rest, HashNames, true) == Some((hash, rest))
  {
    var s := hash + rest;
    assert s[..|hash|] == hash && s[|hash|..] == rest;
    assert NoUpper(hash);
    LowerStringFixed(hash);
    if hash == "sha-1" {
      AltAt(s, HashNames, true, 0);
    } else {
      assert LowerString(s[..5])[4] == '2';
      assert !Hits(s, HashNames[0], true);
      AltAt(s, HashNames, true, 1);
    }
  }

  /** The dtls object of a description as the generator fills its
      templates: keys the description lacks are absent. */
  function DtlsInfo(d: Dtls): Info {
    Maybe("fingerprintHashFunction", d.hashFunction, Maybe("fingerprint", d.fingerprint,
      if d.setup.Some? then Entry("setup", Text(SetupName(d.setup.value)), Done) else Done))
  }

  /** The `dtlsFingerprint` template of the generator. */
  function FingerprintTemplate(): Tmpl {
    Line(FingerprintSlots())
  }

  function FingerprintSlots(): Tmpl {
    Lit("a=fingerprint:", Slot("", "fingerprintHashFunction", "", Lit(" ", Slot("", "fingerprint", "", End))))
  }

  lemma FingerprintGood()
    ensures GoodTmpl(FingerprintSlots()) && DistinctSlots(FingerprintSlots())
  {
    assert GoodTmpl(FingerprintSlots()) by {
      assert DollarFree("a=fingerprint:") && DollarFree(" ");
      assert GoodKey("fingerprintHashFunction") && GoodKey("fingerprint");
    }
    assert "fingerprintHashFunction" != "fingerprint" by {
      assert |"fingerprintHashFunction"| != |"fingerprint"|;
    }
  }

  predicate DtlsDollarFree(d: Dtls) {
    (d.hashFunction.Some? ==> DollarFree(d.hashFunction.value))
    && (d.fingerprint.Some? ==> DollarFree(d.fingerprint.value))
  }

  lemma DtlsInfoGood(d: Dtls)
    requires DtlsDollarFree(d)
    ensures InfoKeysGood(DtlsInfo(d)) && InfoDollarFree(DtlsInfo(d))
  {
    var tail := if d.setup.Some? then Entry("setup", Text(SetupName(d.setup.value)), Done) else Done;
    assert InfoKeysGood(tail) && InfoDollarFree(tail) by {
      if d.setup.Some? {
        assert GoodKey("setup") && DollarFree(SetupName(d.setup.value));
      }
    }
    assert GoodKey("fingerprint") && GoodKey("fingerprintHashFunction");
    MaybeGood("fingerprint", d.fingerprint, tail);
    MaybeGood("fingerprintHashFunction", d.hashFunction, Maybe("fingerprint", d.fingerprint, tail));
  }

  lemma FingerprintRender(d: Dtls)
    requires d.hashFunction.Some? && d.fingerprint.Some?
    ensures Render(FingerprintSlots(), DtlsInfo(d)) ==
      FingerprintText(d.hashFunction.value, d.fingerprint.value)
  {
    Unfold();
  }

  /** The generator's fingerprint line. */
  lemma FingerprintFill(d: Dtls)
    requires d.hashFunction.Some? && d.fingerprint.Some? && DtlsDollarFree(d)
    ensures Fill(Flatten(FingerprintTemplate()), DtlsInfo(d)) ==
      FingerprintText(d.hashFunction.value, d.fingerprint.value) + "\r\n"
  {
    FingerprintGood();
    DtlsInfoGood(d);
    FillLine(FingerprintSlots(), DtlsInfo(d));
    FingerprintRender(d);
  }

  // ---------------------------------------------------------------------
  // a=setup

  const SetupNames: seq<string> := ["actpass", "active", "passive"]

  /** `^a=setup:(actpass|active|passive)`. */
  function SetupMatch(line: string): (r: Option<Setup>)
    ensures r.Some? ==> StartsWith(line, "a=setup:" + SetupName(r.value))
  {
    var rest :- Expect(line, "a=setup:", false);
    var m :- Alt(rest, SetupNames, false);
    AltChoice(rest, SetupNames);
    var setup := if m.0 == "actpass" then ActPass else if m.0 == "active" then Active else Passive;
    assert line == "a=setup:" + SetupName(setup) + m.1;
    Some(setup)
  }

  function SetupText(s: Setup): string {
    "a=setup:" + SetupName(s)
  }

  lemma SetupRoundTrip(s: Setup)
    ensures SetupMatch(SetupText(s)) == Some(s)
  {
    var n := SetupName(s);
    ExpectOf("a=setup:", n, false);
    assert n[..|n|] == n && n[|n|..] == "";
    if s == ActPass {
      AltAt(n, SetupNames, false, 0);
    } else if s == Active {
      assert !Hits(n, SetupNames[0], false) by { assert |n| < |SetupNames[0]|; }
      AltAt(n, SetupNames, false, 1);
    } else {
      assert n[..7] != SetupNames[0] by { assert n[0] != SetupNames[0][0]; }
      assert n[..6] != SetupNames[1] by { assert n[0] != SetupNames[1][0]; }
      AltAt(n, SetupNames, false, 2);
    }
  }

  /** The setup the generator writes: the description's, else actpass. */
  function WrittenSetup(d: Dtls): Setup {
    d.setup.GetOr(ActPass)
  }

  /** The `dtlsSetup` template of the generator. */
  function SetupTemplate(): Tmpl {
    Line(SetupSlots())
  }

  function SetupSlots(): Tmpl {
    Lit("a=setup:", Slot("", "setup", "", End))
  }

  lemma SetupGood()
    ensures GoodTmpl(SetupSlots()) && DistinctSlots(SetupSlots())
  {
    Unfold();
    assert DollarFree("a=setup:");
  }

  lemma SetupRender(d: Dtls)
    ensures Render(SetupSlots(), DtlsInfo(d.(setup := Some(WrittenSetup(d))))) ==
      SetupText(WrittenSetup(d))
  {
    Unfold();
  }

  /** The generator's setup line, after the actpass default is added. */
  lemma SetupFill(d: Dtls)
    requires DtlsDollarFree(d)
    ensures Fill(Flatten(SetupTemplate()), DtlsInfo(d.(setup := Some(WrittenSetup(d))))) ==
      SetupText(WrittenSetup(d)) + "\r\n"
  {
    SetupGood();
    DtlsInfoGood(d.(setup := Some(WrittenSetup(d))));
    FillLine(SetupSlots(), DtlsInfo(d.(setup := Some(WrittenSetup(d)))));
    SetupRender(d);
  }

  // ---------------------------------------------------------------------
  // a=sctpmap

  /** `^a=sctpmap:<port> ([\w\-]+)( [\d]+)?`, the port written into the
      pattern as its decimal text: the application and the stream count
      digits when present (`parseInt` skips the blank before them). */
  function SctpmapMatch(line: string, port: Option<nat>): (r: Option<(string, Option<string>)>)
    ensures r.Some? ==> StartsWith(line, "a=sctpmap:" + NumText(port) + " ")
    ensures r.Some? ==> r.value.0 != [] && AllIn(r.value.0, WordDash)
    ensures r.Some? && r.value.1.Some? ==> r.value.1.value != [] && AllIn(r.value.1.value, Digit)
  {
    var r0 :- DropPrefix(line, "a=sctpmap:" + NumText(port) + " ");
    var app :- Run1(r0, WordDash);
    var streams := if |app.1| >= 2 && app.1[0] == ' ' && IsDigit(app.1[1])
      then Some(Run(app.1[1..], Digit).0) else None;
    Some((app.0, streams))
  }

  function SctpmapText(port: Option<nat>, app: string, streams: Option<nat>): string {
    "a=sctpmap:" + NumText(port) + " " + (app + PrefixedNum(" ", streams))
  }

  lemma SctpmapRoundTrip(port: Option<nat>, app: string, streams: Option<nat>)
    requires app != [] && AllIn(app, WordDash)
    ensures SctpmapMatch(SctpmapText(port, app, streams), port) ==
      Some((app, if streams.Some? then Some(Decimal(streams.value)) else None))
  {
    var tail := PrefixedNum(" ", streams);
    DropPrefixOf("a=sctpmap:" + NumText(port) + " ", app + tail);
    Run1Of(app, tail, WordDash);
    if streams.Some? {
      var d := Decimal(streams.value);
      assert tail[1..] == d + "";
      RunOf(d, "", Digit);
    }
  }

  /** The sctp object of a description as the generator fills the
      template, after the null `streams` default is added. */
  function SctpInfo(s: Sctp): Info {
    Entry("port", OptNum(s.port), Maybe("app", s.app, Entry("streams", OptNum(s.streams), Done)))
  }

  /** The `sctpmap` template of the generator. */
  function SctpmapTemplate(): Tmpl {
    Line(SctpmapSlots())
  }

  function SctpmapSlots(): Tmpl {
    Lit("a=sctpmap:", Slot("", "port", "", Lit(" ", Slot("", "app", "", Slot(" ", "streams", "", End)))))
  }

  lemma SctpmapGood()
    ensures GoodTmpl(SctpmapSlots()) && DistinctSlots(SctpmapSlots())
  {
    Unfold();
    assert DollarFree("a=sctpmap:") && DollarFree(" ");
  }

  lemma SctpInfoGood(s: Sctp)
    requires s.app.Some? ==> DollarFree(s.app.value)
    ensures InfoKeysGood(SctpInfo(s)) && InfoDollarFree(SctpInfo(s))
  {
    Unfold();
    if s.port.Some? { ClassDollarFree(Decimal(s.port.value), Digit); }
    if s.streams.Some? { ClassDollarFree(Decimal(s.streams.value), Digit); }
  }

  lemma SctpmapRender(s: Sctp)
    requires s.app.Some?
    ensures Render(SctpmapSlots(), SctpInfo(s)) == SctpmapText(s.port, s.app.value, s.streams)
  {
    Unfold();
  }

  /** The generator's sctpmap line. */
  lemma SctpmapFill(s: Sctp)
    requires s.app.Some? && DollarFree(s.app.value)
    ensures Fill(Flatten(SctpmapTemplate()), SctpInfo(s)) ==
      SctpmapText(s.port, s.app.value, s.streams) + "\r\n"
  {
    SctpmapGood();
    SctpInfoGood(s);
    FillLine(SctpmapSlots(), SctpInfo(s));
    SctpmapRender(s);
  }
}
