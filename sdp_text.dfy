/** The generator's fills, worked out (bridge/client/webrtc.js:1003-1160).
    The seven fills of the `mblock` template amount to one rendering of
    the template with the stage objects one after another, the first
    entry of a key winning; for a description whose fields lie within
    what the codec's patterns read, that rendering is the block's lines,
    each ended by CR LF. */
module SdpText {
  import opened Wrappers
  import opened Chars
  import opened Template
  import opened Lines
  import opened Seqs
  import opened LineTags
  import opened SdpTypes
  import opened SessionLines
  import opened RtpAttrs
  import opened SourceAttrs
  import opened IceAttrs
  import opened DtlsAttrs
  import opened SdpGenerate
  import opened SdpLines
  import MediaFormats

  // ---------------------------------------------------------------------
  // The `mblock` template names each key once

  /** A literal in front of a good template. */
  lemma LitFront(s: string, r: Tmpl)
    requires DollarFree(s) && GoodTmpl(r) && DistinctSlots(r)
    ensures GoodTmpl(Lit(s, r)) && DistinctSlots(Lit(s, r)) && SlotKeys(Lit(s, r)) == SlotKeys(r)
  {
  }

  lemma LineWords()
    ensures DollarFree("m=") && DollarFree("c=") && DollarFree("a=") && DollarFree(" ") && DollarFree("\r\n")
    ensures GoodKey("type") && GoodKey("port") && GoodKey("protocol") && GoodKey("fmt")
    ensures GoodKey("netType") && GoodKey("addressType") && GoodKey("address") && GoodKey("mode")
  {
  }

  /** A one-line template is good when the line is. */
  lemma LineGood(t: Tmpl)
    requires GoodTmpl(t) && DistinctSlots(t)
    ensures GoodTmpl(Template.Line(t)) && DistinctSlots(Template.Line(t)) && SlotKeys(Template.Line(t)) == SlotKeys(t)
  {
    LineWords();
    GoodAppend(t, Lit("\r\n", End));
    LineKeys(t);
  }

  lemma MediaLineGood()
    ensures GoodTmpl(Template.Line(MediaLineSlots())) && DistinctSlots(Template.Line(MediaLineSlots()))
    ensures SlotKeys(Template.Line(MediaLineSlots())) == {"type", "port", "protocol", "fmt"}
  {
    LineWords();
    var t6 := Slot("", "fmt", "", End);
    var t5 := Lit(" ", t6);
    var t4 := Slot("", "protocol", "", t5);
    var t3 := Lit(" ", t4);
    var t2 := Slot("", "port", "", t3);
    var t1 := Lit(" ", t2);
    var t0 := Slot("", "type", "", t1);
    SlotFront("fmt", End);
    LitFront(" ", t6);
    SlotFront("protocol", t5);
    LitFront(" ", t4);
    SlotFront("port", t3);
    LitFront(" ", t2);
    SlotFront("type", t1);
    LitFront("m=", t0);
    LineGood(MediaLineSlots());
  }

  lemma ConnectionGood()
    ensures GoodTmpl(Template.Line(ConnectionSlots())) && DistinctSlots(Template.Line(ConnectionSlots()))
    ensures SlotKeys(Template.Line(ConnectionSlots())) == {"netType", "addressType", "address"}
  {
    LineWords();
    var t4 := Slot("", "address", "", End);
    var t3 := Lit(" ", t4);
    var t2 := Slot("", "addressType", "", t3);
    var t1 := Lit(" ", t2);
    var t0 := Slot("", "netType", "", t1);
    SlotFront("address", End);
    LitFront(" ", t4);
    SlotFront("addressType", t3);
    LitFront(" ", t2);
    SlotFront("netType", t1);
    LitFront("c=", t0);
    LineGood(ConnectionSlots());
  }

  lemma ModeGood()
    ensures GoodTmpl(Template.Line(ModeSlots())) && DistinctSlots(Template.Line(ModeSlots()))
    ensures SlotKeys(Template.Line(ModeSlots())) == {"mode"}
  {
    LineWords();
    SlotFront("mode", End);
    LitFront("a=", Slot("", "mode", "", End));
    LineGood(ModeSlots());
  }

  lemma RtcpGroupGood()
    ensures GoodTmpl(RtcpGroupSlots()) && DistinctSlots(RtcpGroupSlots())
    ensures SlotKeys(RtcpGroupSlots()) == {"rtcpLine", "rtcpMuxLine"}
  {
    Unfold();
  }

  /** A bare placeholder in front of a template whose keys it does not
      share. */
  lemma SlotFront(k: string, r: Tmpl)
    requires GoodKey(k) && GoodTmpl(r) && DistinctSlots(r) && k !in SlotKeys(r)
    ensures GoodTmpl(Slot("", k, "", r)) && DistinctSlots(Slot("", k, "", r))
    ensures SlotKeys(Slot("", k, "", r)) == {k} + SlotKeys(r)
  {
    SlotKeysCount(r, k);
  }

  /** A bare placeholder in front of a template with known keys. */
  lemma SlotOnto(k: string, r: Tmpl, ks: set<string>)
    requires GoodKey(k) && GoodTmpl(r) && DistinctSlots(r) && SlotKeys(r) == ks && k !in ks
    ensures GoodTmpl(Slot("", k, "", r)) && DistinctSlots(Slot("", k, "", r))
    ensures SlotKeys(Slot("", k, "", r)) == {k} + ks
  {
    SlotFront(k, r);
  }

  lemma PayloadWords()
    ensures GoodKey("ericScreamLines") && GoodKey("ccmfirLines") && GoodKey("nackpliLines")
    ensures GoodKey("nackLines") && GoodKey("fmtpLines") && GoodKey("rtpMapLines")
  {
  }

  lemma PayloadKeysApartEach()
    ensures "ccmfirLines" !in {"ericScreamLines"}
    ensures "nackpliLines" !in {"ccmfirLines"} + {"ericScreamLines"}
    ensures "nackLines" !in {"nackpliLines"} + ({"ccmfirLines"} + {"ericScreamLines"})
    ensures "fmtpLines" !in {"nackLines"} + ({"nackpliLines"} + ({"ccmfirLines"} + {"ericScreamLines"}))
    ensures "rtpMapLines" !in {"fmtpLines"} + ({"nackLines"} + ({"nackpliLines"} + ({"ccmfirLines"} + {"ericScreamLines"})))
    ensures {"rtpMapLines"} + ({"fmtpLines"} + ({"nackLines"} + ({"nackpliLines"} + ({"ccmfirLines"} + {"ericScreamLines"}))))
      == PayloadKeys()
  {
  }

  lemma PayloadGroupGood()
    ensures GoodTmpl(PayloadGroupSlots()) && DistinctSlots(PayloadGroupSlots())
    ensures SlotKeys(PayloadGroupSlots()) == PayloadKeys()
  {
    var t5 := Slot("", "ericScreamLines", "", End);
    var t4 := Slot("", "ccmfirLines", "", t5);
    var t3 := Slot("", "nackpliLines", "", t4);
    var t2 := Slot("", "nackLines", "", t3);
    var t1 := Slot("", "fmtpLines", "", t2);
    var k5 := {"ericScreamLines"};
    var k4 := {"ccmfirLines"} + k5;
    var k3 := {"nackpliLines"} + k4;
    var k2 := {"nackLines"} + k3;
    var k1 := {"fmtpLines"} + k2;
    PayloadWords();
    PayloadKeysApartEach();
    SlotFront("ericScreamLines", End);
    SlotOnto("ccmfirLines", t5, k5);
    SlotOnto("nackpliLines", t4, k4);
    SlotOnto("nackLines", t3, k3);
    SlotOnto("fmtpLines", t2, k2);
    SlotOnto("rtpMapLines", t1, k1);
  }

  lemma SourceGroupGood()
    ensures GoodTmpl(SourceGroupSlots()) && DistinctSlots(SourceGroupSlots())
    ensures SlotKeys(SourceGroupSlots()) == {"cnameLines", "msidLines"}
  {
    Unfold();
  }

  lemma IceGroupGood()
    ensures GoodTmpl(IceGroupSlots()) && DistinctSlots(IceGroupSlots())
    ensures SlotKeys(IceGroupSlots()) == {"iceCredentialLines", "iceOptionLine", "candidateLines"}
  {
    Unfold();
  }

  lemma TransportGroupGood()
    ensures GoodTmpl(TransportGroupSlots()) && DistinctSlots(TransportGroupSlots())
    ensures SlotKeys(TransportGroupSlots()) == {"dtlsFingerprintLine", "dtlsSetupLine", "sctpmapLine"}
  {
    Unfold();
  }

  function PayloadKeys(): set<string> {
    {"rtpMapLines", "fmtpLines", "nackLines", "nackpliLines", "ccmfirLines", "ericScreamLines"}
  }

  function SourceOnKeys(): set<string> {
    {"cnameLines", "msidLines", "iceCredentialLines", "iceOptionLine", "candidateLines",
     "dtlsFingerprintLine", "dtlsSetupLine", "sctpmapLine"}
  }

  lemma PayloadKeysApart()
    ensures PayloadKeys() !! SourceOnKeys()
  {
  }

  /** The template from the ICE groups on. */
  function IceOn(): Tmpl { Append(IceGroupSlots(), TransportGroupSlots()) }
  function SourceOn(): Tmpl { Append(SourceGroupSlots(), IceOn()) }
  function PayloadOn(): Tmpl { Append(PayloadGroupSlots(), SourceOn()) }
  function ModeOn(): Tmpl { Append(Template.Line(ModeSlots()), PayloadOn()) }
  function RtcpOn(): Tmpl { Append(RtcpGroupSlots(), ModeOn()) }
  function ConnectionOn(): Tmpl { Append(Template.Line(ConnectionSlots()), RtcpOn()) }

  lemma IceOnGood()
    ensures GoodTmpl(IceOn()) && DistinctSlots(IceOn())
    ensures SlotKeys(IceOn()) ==
      {"iceCredentialLines", "iceOptionLine", "candidateLines", "dtlsFingerprintLine", "dtlsSetupLine", "sctpmapLine"}
  {
    IceGroupGood();
    TransportGroupGood();
    GoodAppend(IceGroupSlots(), TransportGroupSlots());
    DistinctAppend(IceGroupSlots(), TransportGroupSlots());
  }

  lemma SourceOnGood()
    ensures GoodTmpl(SourceOn()) && DistinctSlots(SourceOn())
    ensures SlotKeys(SourceOn()) == SourceOnKeys()
  {
    SourceGroupGood();
    IceOnGood();
    GoodAppend(SourceGroupSlots(), IceOn());
    DistinctAppend(SourceGroupSlots(), IceOn());
  }

  /** The keys of the attribute groups after the direction line. */
  function LaterKeys(): set<string> {
    PayloadKeys() + SourceOnKeys()
  }

  lemma PayloadOnGood()
    ensures GoodTmpl(PayloadOn()) && DistinctSlots(PayloadOn())
    ensures SlotKeys(PayloadOn()) == LaterKeys()
  {
    PayloadGroupGood();
    SourceOnGood();
    PayloadKeysApart();
    GoodAppend(PayloadGroupSlots(), SourceOn());
    DistinctAppend(PayloadGroupSlots(), SourceOn());
  }

  lemma ModeApart() ensures {"mode"} !! LaterKeys() {}
  lemma RtcpApart() ensures {"rtcpLine", "rtcpMuxLine"} !! {"mode"} + LaterKeys() {}
  lemma ConnectionApart()
    ensures {"netType", "addressType", "address"} !! {"rtcpLine", "rtcpMuxLine"} + ({"mode"} + LaterKeys())
  {}
  lemma MediaLineApart() ensures {"type", "port", "protocol", "fmt"} !! ConnectionOnKeys() {}

  /** Two well-formed templates with no key in common make one. */
  lemma Glue(t: Tmpl, u: Tmpl, kt: set<string>, ku: set<string>)
    requires GoodTmpl(t) && DistinctSlots(t) && SlotKeys(t) == kt
    requires GoodTmpl(u) && DistinctSlots(u) && SlotKeys(u) == ku
    requires kt !! ku
    ensures GoodTmpl(Append(t, u)) && DistinctSlots(Append(t, u))
    ensures SlotKeys(Append(t, u)) == kt + ku
  {
    GoodAppend(t, u);
    DistinctAppend(t, u);
  }

  lemma ModeOnGood()
    ensures GoodTmpl(ModeOn()) && DistinctSlots(ModeOn())
    ensures SlotKeys(ModeOn()) == {"mode"} + LaterKeys()
  {
    ModeGood();
    PayloadOnGood();
    ModeApart();
    Glue(Template.Line(ModeSlots()), PayloadOn(), {"mode"}, LaterKeys());
  }

  lemma RtcpOnGood()
    ensures GoodTmpl(RtcpOn()) && DistinctSlots(RtcpOn())
    ensures SlotKeys(RtcpOn()) == {"rtcpLine", "rtcpMuxLine"} + ({"mode"} + LaterKeys())
  {
    RtcpGroupGood();
    ModeOnGood();
    RtcpApart();
    Glue(RtcpGroupSlots(), ModeOn(), {"rtcpLine", "rtcpMuxLine"}, {"mode"} + LaterKeys());
  }

  function ConnectionOnKeys(): set<string> {
    {"netType", "addressType", "address"} + ({"rtcpLine", "rtcpMuxLine"} + ({"mode"} + LaterKeys()))
  }

  lemma ConnectionOnGood()
    ensures GoodTmpl(ConnectionOn()) && DistinctSlots(ConnectionOn())
    ensures SlotKeys(ConnectionOn()) == ConnectionOnKeys()
  {
    ConnectionGood();
    RtcpOnGood();
    ConnectionApart();
    Glue(Template.Line(ConnectionSlots()), RtcpOn(), {"netType", "addressType", "address"},
      {"rtcpLine", "rtcpMuxLine"} + ({"mode"} + LaterKeys()));
  }

  /** No key has two placeholders in the `mblock` template. */
  lemma MblockGood()
    ensures GoodTmpl(MblockTemplate()) && DistinctSlots(MblockTemplate())
  {
    MediaLineGood();
    ConnectionOnGood();
    MediaLineApart();
    Glue(Template.Line(MediaLineSlots()), ConnectionOn(), {"type", "port", "protocol", "fmt"}, ConnectionOnKeys());
  }

  // ---------------------------------------------------------------------
  // The objects the block is filled with are good fill objects

  /** Placeholder keys and values without `$`. */
  predicate GoodInfo(info: Info) {
    InfoKeysGood(info) && InfoDollarFree(info)
  }

  lemma EntryGood(k: string, v: Value, more: Info)
    requires GoodKey(k) && ValueDollarFree(v) && GoodInfo(more)
    ensures GoodInfo(Entry(k, v, more))
  {
  }

  /** The description's own object, over any field texts free of `$`. */
  lemma MdescFieldsGood(media: string, port: string, protocol: string, addressType: string, address: string,
                        mode: string)
    requires DollarFree(media) && DollarFree(port) && DollarFree(protocol)
    requires DollarFree(addressType) && DollarFree(address) && DollarFree(mode)
    ensures GoodInfo(Entry("type", Text(media), Entry("port", Text(port), Entry("protocol", Text(protocol),
      Entry("netType", Text("IN"), Entry("addressType", Text(addressType), Entry("address", Text(address),
      Entry("mode", Text(mode), Done))))))))
  {
    LineWords();
    assert DollarFree("IN");
    var i6 := Entry("mode", Text(mode), Done);
    var i5 := Entry("address", Text(address), i6);
    var i4 := Entry("addressType", Text(addressType), i5);
    var i3 := Entry("netType", Text("IN"), i4);
    var i2 := Entry("protocol", Text(protocol), i3);
    var i1 := Entry("port", Text(port), i2);
    EntryGood("mode", Text(mode), Done);
    EntryGood("address", Text(address), i6);
    EntryGood("addressType", Text(addressType), i5);
    EntryGood("netType", Text("IN"), i4);
    EntryGood("protocol", Text(protocol), i3);
    EntryGood("port", Text(port), i2);
    EntryGood("type", Text(media), i1);
  }

  lemma MdescGood(m: MediaDescription)
    requires MediaWritable(m)
    ensures GoodInfo(MdescInfo(m))
  {
    assert DollarFree(MediaTypeName(m.media));
    assert DollarFree(ModeName(WrittenMode(m)));
    assert DollarFree("IP4") && DollarFree("IP6");
    ClassDollarFree(Decimal(WrittenPort(m)), Digit);
    ClassDollarFree(WrittenProtocol(m), ProtoChar);
    ClassDollarFree(WrittenAddress(m), Address);
    MdescFieldsGood(MediaTypeName(m.media), Decimal(WrittenPort(m)), WrittenProtocol(m), WrittenAddressType(m),
      WrittenAddress(m), ModeName(WrittenMode(m)));
  }

  /** Digits and single spaces make a format list. */
  lemma {:induction false} JoinedDigits(ns: seq<nat>)
    ensures AllIn(MediaFormats.JoinSpaced(MediaFormats.Decimals(ns)), FmtChar)
  {
    var ws := MediaFormats.Decimals(ns);
    if ns != [] {
      var w := ws[0];
      assert AllIn(w, Digit);
      if |ns| > 1 {
        JoinedDigits(ns[1..]);
        assert ws[1..] == MediaFormats.Decimals(ns[1..]);
        var j := " " + MediaFormats.JoinSpaced(ws[1..]);
        assert AllIn(j, FmtChar);
      }
    }
  }

  /** The payload types of payloads that all have one. */
  function TypeNums(ps: seq<Payload>): (ns: seq<nat>)
    requires AllWritable(ps)
    ensures |ns| == |ps|
  {
    seq(|ps|, i requires 0 <= i < |ps| => ps[i].payloadType.value)
  }

  /** Payloads with types give a format list of digits and spaces, which
      is what the `fmt` placeholder receives. */
  lemma PayloadFmt(ps: seq<Payload>)
    requires AllWritable(ps) && ps != []
    ensures Types(ps) == MediaFormats.Somes(TypeNums(ps))
    ensures Payloads(ps).fmt == MediaFormats.Fold(Types(ps)) != MediaFormats.NoFmt
    ensures MediaFormats.FmtValue(Payloads(ps).fmt) == Text(MediaFormats.AccText(Payloads(ps).fmt))
    ensures AllIn(MediaFormats.AccText(Payloads(ps).fmt), FmtChar)
  {
    var ns := TypeNums(ps);
    assert Types(ps) == MediaFormats.Somes(ns);
    PayloadsFmt(ps);
    MediaFormats.FoldText(Types(ps));
    MediaFormats.FmtRoundTrip(ns);
    assert MediaFormats.TypeTexts(MediaFormats.Somes(ns)) == MediaFormats.Decimals(ns);
    JoinedDigits(ns);
  }

  /** The keys of the line groups are identifiers. */
  lemma SourceWords()
    ensures GoodKey("rtcpLine") && GoodKey("rtcpMuxLine") && GoodKey("cnameLines") && GoodKey("msidLines")
  {
  }

  lemma IceWords()
    ensures GoodKey("iceCredentialLines") && GoodKey("iceOptionLine") && GoodKey("candidateLines")
  {
  }

  lemma TransportWords()
    ensures GoodKey("dtlsFingerprintLine") && GoodKey("dtlsSetupLine") && GoodKey("sctpmapLine") && GoodKey("fmt")
  {
  }

  /** Two groups of plain lines under identifier keys. */
  lemma TwoGroupsGood(k1: string, l1: seq<string>, k2: string, l2: seq<string>, more: Info)
    requires GoodKey(k1) && GoodKey(k2) && AllPlain(l1) && AllPlain(l2) && GoodInfo(more)
    ensures GoodInfo(Entry(k1, Text(Crlf(l1)), Entry(k2, Text(Crlf(l2)), more)))
  {
    LinesEntryGood(k2, l2, more);
    LinesEntryGood(k1, l1, Entry(k2, Text(Crlf(l2)), more));
  }

  /** An entry whose value is whole plain lines. */
  lemma LinesEntryGood(k: string, ls: seq<string>, more: Info)
    requires GoodKey(k) && AllPlain(ls) && GoodInfo(more)
    ensures GoodInfo(Entry(k, Text(Crlf(ls)), more))
  {
    CrlfDollarFree(ls);
  }

  /** The payload stage in the shape its lines give it: the six line
      groups, then the payload types once there is a payload. */
  function PayloadForm(ps: seq<Payload>): Info
    requires AllWritable(ps)
  {
    Entry("rtpMapLines", Text(Crlf(Flat(ps, PayloadRtpmap))),
    Entry("fmtpLines", Text(Crlf(Flat(ps, PayloadFmtp))),
    Entry("nackLines", Text(Crlf(Flat(ps, PayloadNack))),
    Entry("nackpliLines", Text(Crlf(Flat(ps, PayloadNackPli))),
    Entry("ccmfirLines", Text(Crlf(Flat(ps, PayloadCcmFir))),
    Entry("ericScreamLines", Text(Crlf(Flat(ps, PayloadEricScream))),
      FmtTail(ps)))))))
  }

  /** The `fmt` entry of the payload stage: the payload types, if any. */
  function FmtTail(ps: seq<Payload>): Info {
    if ps == [] then Done
    else Entry("fmt", Text(MediaFormats.AccText(MediaFormats.Fold(Types(ps)))), Done)
  }

  lemma FmtTailGood(ps: seq<Payload>)
    requires AllWritable(ps)
    ensures GoodInfo(FmtTail(ps))
  {
    if ps != [] {
      PayloadFmt(ps);
      ClassDollarFree(MediaFormats.AccText(Payloads(ps).fmt), FmtChar);
      TransportWords();
      EntryGood("fmt", Text(MediaFormats.AccText(Payloads(ps).fmt)), Done);
    }
  }

  lemma PayloadStageShape(ps: seq<Payload>)
    requires AllWritable(ps)
    ensures PayloadStage(ps) == PayloadForm(ps)
  {
    PayloadStageForm(ps);
    if ps != [] {
      PayloadFmt(ps);
    } else {
      assert Payloads(ps).fmt.NoFmt?;
    }
  }

  /** Six texts without `$` under the payload keys. */
  lemma PayloadGroupsGood(a: string, b: string, c: string, d: string, e: string, f: string, tail: Info)
    requires DollarFree(a) && DollarFree(b) && DollarFree(c) && DollarFree(d) && DollarFree(e) && DollarFree(f)
    requires GoodInfo(tail)
    ensures GoodInfo(Entry("rtpMapLines", Text(a), Entry("fmtpLines", Text(b),
      Entry("nackLines", Text(c), Entry("nackpliLines", Text(d),
      Entry("ccmfirLines", Text(e), Entry("ericScreamLines", Text(f), tail)))))))
  {
    PayloadWords();
    var i5 := Entry("ericScreamLines", Text(f), tail);
    var i4 := Entry("ccmfirLines", Text(e), i5);
    var i3 := Entry("nackpliLines", Text(d), i4);
    var i2 := Entry("nackLines", Text(c), i3);
    var i1 := Entry("fmtpLines", Text(b), i2);
    EntryGood("ericScreamLines", Text(f), tail);
    EntryGood("ccmfirLines", Text(e), i5);
    EntryGood("nackpliLines", Text(d), i4);
    EntryGood("nackLines", Text(c), i3);
    EntryGood("fmtpLines", Text(b), i2);
    EntryGood("rtpMapLines", Text(a), i1);
  }

  lemma PayloadFormGood(ps: seq<Payload>)
    requires AllWritable(ps)
    ensures GoodInfo(PayloadForm(ps))
  {
    PayloadPiecePlain(ps);
    FmtTailGood(ps);
    CrlfDollarFree(Flat(ps, PayloadRtpmap));
    CrlfDollarFree(Flat(ps, PayloadFmtp));
    CrlfDollarFree(Flat(ps, PayloadNack));
    CrlfDollarFree(Flat(ps, PayloadNackPli));
    CrlfDollarFree(Flat(ps, PayloadCcmFir));
    CrlfDollarFree(Flat(ps, PayloadEricScream));
    PayloadGroupsGood(Crlf(Flat(ps, PayloadRtpmap)), Crlf(Flat(ps, PayloadFmtp)), Crlf(Flat(ps, PayloadNack)),
      Crlf(Flat(ps, PayloadNackPli)), Crlf(Flat(ps, PayloadCcmFir)), Crlf(Flat(ps, PayloadEricScream)),
      FmtTail(ps));
  }

  lemma PayloadStageGood(ps: seq<Payload>)
    requires AllWritable(ps)
    ensures GoodInfo(PayloadStage(ps))
  {
    PayloadStageShape(ps);
    PayloadFormGood(ps);
  }

  lemma RtcpStageGood(r: Rtcp)
    requires RtcpWritable(r)
    ensures GoodInfo(RtcpStage(r))
  {
    RtcpStageForm(r);
    RtcpPlain(r);
    SourceWords();
    TwoGroupsGood("rtcpLine", RtcpGroup(r), "rtcpMuxLine", MuxGroup(r), Done);
  }

  lemma SrcStageGood(m: MediaDescription)
    requires SourcesWritable(m)
    ensures GoodInfo(SrcStage(m))
  {
    SrcStageForm(m);
    SourcesPlain(m);
    SourceWords();
    TwoGroupsGood("cnameLines", CnameGroup(m), "msidLines", MsidGroup(m), Done);
  }

  /** The ICE stage in the shape its lines give it. */
  function IceForm(ice: Option<Ice>): Info {
    Entry("iceCredentialLines", Text(Crlf(UfragGroup(ice) + PwdGroup(ice))),
    Entry("iceOptionLine", Text(Crlf(OptionGroup(ice))),
    Entry("candidateLines", Text(Crlf(CandidateGroup(ice))), Done)))
  }

  lemma IceFormGood(ice: Option<Ice>)
    requires IceWritable(ice)
    ensures GoodInfo(IceForm(ice))
  {
    IcePlain(ice);
    AllPlainCat(UfragGroup(ice), PwdGroup(ice));
    IceWords();
    LinesEntryGood("candidateLines", CandidateGroup(ice), Done);
    TwoGroupsGood("iceCredentialLines", UfragGroup(ice) + PwdGroup(ice), "iceOptionLine", OptionGroup(ice),
      Entry("candidateLines", Text(Crlf(CandidateGroup(ice))), Done));
  }

  lemma IceStageGood(ice: Option<Ice>)
    requires IceWritable(ice)
    ensures GoodInfo(IceStage(ice))
  {
    IceStageForm(ice);
    IceFormGood(ice);
  }

  lemma DtlsStageGood(dtls: Option<Dtls>)
    requires DtlsWritable(dtls)
    ensures GoodInfo(DtlsStage(dtls))
  {
    DtlsStageForm(dtls);
    FingerprintPlain(dtls);
    SetupPlain(dtls);
    TransportWords();
    TwoGroupsGood("dtlsFingerprintLine", FingerprintGroup(dtls), "dtlsSetupLine", SetupGroup(dtls), Done);
  }

  lemma SctpStageGood(sctp: Option<Sctp>)
    requires SctpWritable(sctp)
    ensures GoodInfo(SctpStage(sctp))
  {
    SctpStageForm(sctp);
    SctpmapPlain(sctp);
    var v := if sctp.Some? then OptNum(sctp.value.port) else Text("");
    if sctp.Some? && sctp.value.port.Some? { ClassDollarFree(Decimal(sctp.value.port.value), Digit); }
    assert ValueDollarFree(v);
    TransportWords();
    EntryGood("fmt", v, Done);
    LinesEntryGood("sctpmapLine", SctpmapGroup(sctp), Entry("fmt", v, Done));
  }

  // ---------------------------------------------------------------------
  // The seven fills are one rendering

  /** The objects of the seven fills, one after another. */
  function BlockInfo(m: MediaDescription): Info {
    Concat(Concat(Concat(Concat(Concat(Concat(MdescInfo(m),
      PayloadStage(WrittenPayloads(m))), RtcpStage(WrittenRtcp(m))), SrcStage(m)),
      IceStage(m.ice)), DtlsStage(m.dtls)), SctpStage(m.sctp))
  }

  /** One more fill of a rendered template with a good object. */
  lemma FillStep(t: Tmpl, a: Info, b: Info)
    requires GoodTmpl(t) && DistinctSlots(t) && GoodInfo(a) && GoodInfo(b)
    ensures Fill(Render(t, a), b) == Render(t, Concat(a, b))
    ensures GoodInfo(Concat(a, b))
  {
    DistinctSlotsOnce(t, b);
    FillAgain(t, a, b);
    ConcatGood(a, b);
  }

  /** The media block is the `mblock` template rendered with every stage
      object at once, an earlier stage's entry for a key winning over a
      later one's. */
  lemma BlockFills(m: MediaDescription)
    requires MediaWritable(m)
    ensures MediaBlock(m) == Render(MblockTemplate(), BlockInfo(m))
  {
    var t := MblockTemplate();
    MblockGood();
    var i0 := MdescInfo(m);
    var i1 := PayloadStage(WrittenPayloads(m));
    var i2 := RtcpStage(WrittenRtcp(m));
    var i3 := SrcStage(m);
    var i4 := IceStage(m.ice);
    var i5 := DtlsStage(m.dtls);
    var i6 := SctpStage(m.sctp);
    MediaBlockSteps(m);
    StagesGood(m);
    SevenFills(t, i0, i1, i2, i3, i4, i5, i6);
  }

  lemma StagesGood(m: MediaDescription)
    requires MediaWritable(m)
    ensures GoodInfo(MdescInfo(m)) && GoodInfo(PayloadStage(WrittenPayloads(m)))
    ensures GoodInfo(RtcpStage(WrittenRtcp(m))) && GoodInfo(SrcStage(m)) && GoodInfo(IceStage(m.ice))
    ensures GoodInfo(DtlsStage(m.dtls)) && GoodInfo(SctpStage(m.sctp))
  {
    WritableParts(m);
    MdescGood(m);
    PayloadStageGood(WrittenPayloads(m));
    RtcpStageGood(WrittenRtcp(m));
    SrcStageGood(m);
    IceStageGood(m.ice);
    DtlsStageGood(m.dtls);
    SctpStageGood(m.sctp);
  }

  /** Seven fills of a well-formed template are one rendering. */
  lemma SevenFills(t: Tmpl, i0: Info, i1: Info, i2: Info, i3: Info, i4: Info, i5: Info, i6: Info)
    requires GoodTmpl(t) && DistinctSlots(t)
    requires GoodInfo(i0) && GoodInfo(i1) && GoodInfo(i2) && GoodInfo(i3)
    requires GoodInfo(i4) && GoodInfo(i5) && GoodInfo(i6)
    ensures Fill(Fill(Fill(Fill(Fill(Fill(Fill(Flatten(t), i0), i1), i2), i3), i4), i5), i6) ==
      Render(t, Concat(Concat(Concat(Concat(Concat(Concat(i0, i1), i2), i3), i4), i5), i6))
  {
    DistinctSlotsOnce(t, i0);
    FillTemplate(t, i0);
    FillStep(t, i0, i1);
    FillStep(t, Concat(i0, i1), i2);
    FillStep(t, Concat(Concat(i0, i1), i2), i3);
    FillStep(t, Concat(Concat(Concat(i0, i1), i2), i3), i4);
    FillStep(t, Concat(Concat(Concat(Concat(i0, i1), i2), i3), i4), i5);
    FillStep(t, Concat(Concat(Concat(Concat(Concat(i0, i1), i2), i3), i4), i5), i6);
  }

  // ---------------------------------------------------------------------
  // What each placeholder of the block receives

  function RtcpForm(r: Rtcp): Info {
    Entry("rtcpLine", Text(Crlf(RtcpGroup(r))), Entry("rtcpMuxLine", Text(Crlf(MuxGroup(r))), Done))
  }

  function SrcForm(m: MediaDescription): Info {
    Entry("cnameLines", Text(Crlf(CnameGroup(m))), Entry("msidLines", Text(Crlf(MsidGroup(m))), Done))
  }

  function DtlsForm(dtls: Option<Dtls>): Info {
    Entry("dtlsFingerprintLine", Text(Crlf(FingerprintGroup(dtls))),
    Entry("dtlsSetupLine", Text(Crlf(SetupGroup(dtls))), Done))
  }

  function SctpForm(sctp: Option<Sctp>): Info {
    Entry("sctpmapLine", Text(Crlf(SctpmapGroup(sctp))),
    Entry("fmt", if sctp.Some? then OptNum(sctp.value.port) else Text(""), Done))
  }

  /** The stage objects in the shape their lines give them. */
  function FormInfo(m: MediaDescription): Info
    requires AllWritable(WrittenPayloads(m))
  {
    Concat(Concat(Concat(Concat(Concat(Concat(MdescInfo(m),
      PayloadForm(WrittenPayloads(m))), RtcpForm(WrittenRtcp(m))), SrcForm(m)),
      IceForm(m.ice)), DtlsForm(m.dtls)), SctpForm(m.sctp))
  }

  lemma BlockInfoForm(m: MediaDescription)
    requires MediaWritable(m)
    ensures BlockInfo(m) == FormInfo(m)
  {
    WritableParts(m);
    StagesForm(m);
  }

  /** The stage conditions a writable description meets. */
  lemma WritableParts(m: MediaDescription)
    requires MediaWritable(m)
    ensures AllWritable(WrittenPayloads(m)) && RtcpWritable(WrittenRtcp(m)) && SourcesWritable(m)
    ensures IceWritable(m.ice) && DtlsWritable(m.dtls) && SctpWritable(m.sctp)
  {
  }

  lemma StagesForm(m: MediaDescription)
    requires AllWritable(WrittenPayloads(m)) && RtcpWritable(WrittenRtcp(m)) && SourcesWritable(m)
    requires IceWritable(m.ice) && DtlsWritable(m.dtls) && SctpWritable(m.sctp)
    ensures PayloadStage(WrittenPayloads(m)) == PayloadForm(WrittenPayloads(m))
    ensures RtcpStage(WrittenRtcp(m)) == RtcpForm(WrittenRtcp(m)) && SrcStage(m) == SrcForm(m)
    ensures IceStage(m.ice) == IceForm(m.ice) && DtlsStage(m.dtls) == DtlsForm(m.dtls)
    ensures SctpStage(m.sctp) == SctpForm(m.sctp)
  {
    PayloadStageShape(WrittenPayloads(m));
    RtcpStageForm(WrittenRtcp(m));
    SrcStageForm(m);
    IceStageForm(m.ice);
    DtlsStageForm(m.dtls);
    SctpStageForm(m.sctp);
  }

  /** The keys an object names. */
  function Keys(info: Info): set<string> {
    match info
    case Done => {}
    case Entry(k, _, more) => {k} + Keys(more)
  }

  lemma KeysEntry()
    ensures forall k, v, more {:trigger Keys(Entry(k, v, more))} :: Keys(Entry(k, v, more)) == {k} + Keys(more)
  {
  }

  lemma {:induction false} LookupMiss(info: Info, k: string)
    requires k !in Keys(info)
    ensures Lookup(info, k) == None
  {
    match info
    case Done =>
    case Entry(_, _, more) => LookupMiss(more, k);
  }

  /** A key of seven objects one after another: the first that names it. */
  lemma {:induction false} ChainLookup(a0: Info, a1: Info, a2: Info, a3: Info, a4: Info, a5: Info, a6: Info, k: string)
    ensures Lookup(Concat(Concat(Concat(Concat(Concat(Concat(a0, a1), a2), a3), a4), a5), a6), k) ==
      if Lookup(a0, k).Some? then Lookup(a0, k)
      else if Lookup(a1, k).Some? then Lookup(a1, k)
      else if Lookup(a2, k).Some? then Lookup(a2, k)
      else if Lookup(a3, k).Some? then Lookup(a3, k)
      else if Lookup(a4, k).Some? then Lookup(a4, k)
      else if Lookup(a5, k).Some? then Lookup(a5, k)
      else Lookup(a6, k)
  {
    LookupConcat(a0, a1, k);
    LookupConcat(Concat(a0, a1), a2, k);
    LookupConcat(Concat(Concat(a0, a1), a2), a3, k);
    LookupConcat(Concat(Concat(Concat(a0, a1), a2), a3), a4, k);
    LookupConcat(Concat(Concat(Concat(Concat(a0, a1), a2), a3), a4), a5, k);
    LookupConcat(Concat(Concat(Concat(Concat(Concat(a0, a1), a2), a3), a4), a5), a6, k);
  }

  function MdescKeys(): set<string> {
    {"type", "port", "protocol", "netType", "addressType", "address", "mode"}
  }

  /** The keys of each stage object. */
  lemma MdescKeysOf(m: MediaDescription)
    requires m.fmt.None?
    ensures Keys(MdescInfo(m)) == MdescKeys()
  {
    KeysEntry();
  }

  lemma PayloadKeysOf(ps: seq<Payload>)
    requires AllWritable(ps)
    ensures Keys(PayloadForm(ps)) == PayloadKeys() + (if ps == [] then {} else {"fmt"})
  {
    PayloadEntriesKeys(Text(Crlf(Flat(ps, PayloadRtpmap))), Text(Crlf(Flat(ps, PayloadFmtp))),
      Text(Crlf(Flat(ps, PayloadNack))), Text(Crlf(Flat(ps, PayloadNackPli))),
      Text(Crlf(Flat(ps, PayloadCcmFir))), Text(Crlf(Flat(ps, PayloadEricScream))), FmtTail(ps));
    assert Keys(FmtTail(ps)) == if ps == [] then {} else {"fmt"};
  }

  /** The six payload groups name the payload keys. */
  lemma PayloadEntriesKeys(a: Value, b: Value, c: Value, d: Value, e: Value, f: Value, tail: Info)
    ensures Keys(Entry("rtpMapLines", a, Entry("fmtpLines", b, Entry("nackLines", c,
      Entry("nackpliLines", d, Entry("ccmfirLines", e, Entry("ericScreamLines", f, tail))))))) ==
      PayloadKeys() + Keys(tail)
  {
    KeysEntry();
    PayloadKeysApartEach();
  }

  lemma OtherKeysOf(m: MediaDescription)
    ensures Keys(RtcpForm(WrittenRtcp(m))) == {"rtcpLine", "rtcpMuxLine"}
    ensures Keys(SrcForm(m)) == {"cnameLines", "msidLines"}
    ensures Keys(DtlsForm(m.dtls)) == {"dtlsFingerprintLine", "dtlsSetupLine"}
    ensures Keys(SctpForm(m.sctp)) == {"sctpmapLine", "fmt"}
  {
    KeysEntry();
  }

  lemma IceKeysOf(ice: Option<Ice>)
    ensures Keys(IceForm(ice)) == {"iceCredentialLines", "iceOptionLine", "candidateLines"}
  {
    KeysEntry();
  }

  /** The description's own fields: the first object names them. */
  lemma MdescLookup(m: MediaDescription, k: string)
    requires MediaWritable(m)
    ensures Lookup(FormInfo(m), k) ==
      if Lookup(MdescInfo(m), k).Some? then Lookup(MdescInfo(m), k)
      else Lookup(Concat(Concat(Concat(Concat(Concat(PayloadForm(WrittenPayloads(m)),
        RtcpForm(WrittenRtcp(m))), SrcForm(m)), IceForm(m.ice)), DtlsForm(m.dtls)), SctpForm(m.sctp)), k)
  {
    var a1, a2, a3, a4, a5, a6 := PayloadForm(WrittenPayloads(m)), RtcpForm(WrittenRtcp(m)), SrcForm(m),
      IceForm(m.ice), DtlsForm(m.dtls), SctpForm(m.sctp);
    ChainLookup(MdescInfo(m), a1, a2, a3, a4, a5, a6, k);
    ChainLookup(Done, a1, a2, a3, a4, a5, a6, k);
  }

  lemma MdescLookups(m: MediaDescription)
    requires MediaWritable(m)
    ensures Lookup(FormInfo(m), "type") == Some(Text(MediaTypeName(m.media)))
    ensures Lookup(FormInfo(m), "port") == Some(Text(Decimal(WrittenPort(m))))
    ensures Lookup(FormInfo(m), "protocol") == Some(Text(WrittenProtocol(m)))
    ensures Lookup(FormInfo(m), "netType") == Some(Text("IN"))
    ensures Lookup(FormInfo(m), "addressType") == Some(Text(WrittenAddressType(m)))
    ensures Lookup(FormInfo(m), "address") == Some(Text(WrittenAddress(m)))
    ensures Lookup(FormInfo(m), "mode") == Some(Text(ModeName(WrittenMode(m))))
  {
    MdescInfoLookups(m);
    MdescLookup(m, "type");
    MdescLookup(m, "port");
    MdescLookup(m, "protocol");
    MdescLookup(m, "netType");
    MdescLookup(m, "addressType");
    MdescLookup(m, "address");
    MdescLookup(m, "mode");
  }

  lemma MdescInfoLookups(m: MediaDescription)
    requires m.fmt.None?
    ensures Lookup(MdescInfo(m), "type") == Some(Text(MediaTypeName(m.media)))
    ensures Lookup(MdescInfo(m), "port") == Some(Text(Decimal(WrittenPort(m))))
    ensures Lookup(MdescInfo(m), "protocol") == Some(Text(WrittenProtocol(m)))
    ensures Lookup(MdescInfo(m), "netType") == Some(Text("IN"))
    ensures Lookup(MdescInfo(m), "addressType") == Some(Text(WrittenAddressType(m)))
    ensures Lookup(MdescInfo(m), "address") == Some(Text(WrittenAddress(m)))
    ensures Lookup(MdescInfo(m), "mode") == Some(Text(ModeName(WrittenMode(m))))
  {
    Unfold();
  }

  lemma PayloadFormLookups(m: MediaDescription)
    requires AllWritable(WrittenPayloads(m))
    ensures Lookup(PayloadForm(WrittenPayloads(m)), "rtpMapLines") == Some(Text(Crlf(Flat(WrittenPayloads(m), PayloadRtpmap))))
    ensures Lookup(PayloadForm(WrittenPayloads(m)), "fmtpLines") == Some(Text(Crlf(Flat(WrittenPayloads(m), PayloadFmtp))))
    ensures Lookup(PayloadForm(WrittenPayloads(m)), "nackLines") == Some(Text(Crlf(Flat(WrittenPayloads(m), PayloadNack))))
    ensures Lookup(PayloadForm(WrittenPayloads(m)), "nackpliLines") == Some(Text(Crlf(Flat(WrittenPayloads(m), PayloadNackPli))))
    ensures Lookup(PayloadForm(WrittenPayloads(m)), "ccmfirLines") == Some(Text(Crlf(Flat(WrittenPayloads(m), PayloadCcmFir))))
    ensures Lookup(PayloadForm(WrittenPayloads(m)), "ericScreamLines") == Some(Text(Crlf(Flat(WrittenPayloads(m), PayloadEricScream))))
  {
    Unfold();
  }

  lemma RtcpFormLookups(m: MediaDescription)
    ensures Lookup(RtcpForm(WrittenRtcp(m)), "rtcpLine") == Some(Text(Crlf(RtcpGroup(WrittenRtcp(m)))))
    ensures Lookup(RtcpForm(WrittenRtcp(m)), "rtcpMuxLine") == Some(Text(Crlf(MuxGroup(WrittenRtcp(m)))))
  {
    Unfold();
  }

  lemma SrcFormLookups(m: MediaDescription)
    ensures Lookup(SrcForm(m), "cnameLines") == Some(Text(Crlf(CnameGroup(m))))
    ensures Lookup(SrcForm(m), "msidLines") == Some(Text(Crlf(MsidGroup(m))))
  {
    Unfold();
  }

  lemma IceFormLookups(m: MediaDescription)
    ensures Lookup(IceForm(m.ice), "iceCredentialLines") == Some(Text(Crlf(UfragGroup(m.ice) + PwdGroup(m.ice))))
    ensures Lookup(IceForm(m.ice), "iceOptionLine") == Some(Text(Crlf(OptionGroup(m.ice))))
    ensures Lookup(IceForm(m.ice), "candidateLines") == Some(Text(Crlf(CandidateGroup(m.ice))))
  {
    Unfold();
  }

  lemma DtlsFormLookups(m: MediaDescription)
    ensures Lookup(DtlsForm(m.dtls), "dtlsFingerprintLine") == Some(Text(Crlf(FingerprintGroup(m.dtls))))
    ensures Lookup(DtlsForm(m.dtls), "dtlsSetupLine") == Some(Text(Crlf(SetupGroup(m.dtls))))
  {
    Unfold();
  }

  lemma SctpFormLookups(m: MediaDescription)
    ensures Lookup(SctpForm(m.sctp), "sctpmapLine") == Some(Text(Crlf(SctpmapGroup(m.sctp))))
  {
    Unfold();
  }

  // ---------------------------------------------------------------------
  // Rendering the block, placeholder group by placeholder group

  /** A placeholder whose value is whole lines. */
  lemma SlotLines(k: string, xs: seq<string>, rest: Tmpl, info: Info)
    requires Lookup(info, k) == Some(Text(Crlf(xs)))
    ensures Render(Slot("", k, "", rest), info) == Crlf(xs) + Render(rest, info)
  {
    Unfold();
  }

  lemma TwoGroups(k1: string, k2: string, x1: seq<string>, x2: seq<string>, info: Info)
    requires Lookup(info, k1) == Some(Text(Crlf(x1)))
    requires Lookup(info, k2) == Some(Text(Crlf(x2)))
    ensures Render(Slot("", k1, "", Slot("", k2, "", End)), info) == Crlf(x1 + x2)
  {
    SlotLines(k2, x2, End, info);
    SlotLines(k1, x1, Slot("", k2, "", End), info);
    CrlfAppend(x1, x2);
  }

  lemma ThreeGroups(k1: string, k2: string, k3: string, x1: seq<string>, x2: seq<string>, x3: seq<string>,
                    info: Info)
    requires Lookup(info, k1) == Some(Text(Crlf(x1)))
    requires Lookup(info, k2) == Some(Text(Crlf(x2)))
    requires Lookup(info, k3) == Some(Text(Crlf(x3)))
    ensures Render(Slot("", k1, "", Slot("", k2, "", Slot("", k3, "", End))), info) == Crlf(x1 + (x2 + x3))
  {
    TwoGroups(k2, k3, x2, x3, info);
    SlotLines(k1, x1, Slot("", k2, "", Slot("", k3, "", End)), info);
    CrlfAppend(x1, x2 + x3);
  }

  lemma PayloadGroups(ps: seq<Payload>, info: Info)
    requires Lookup(info, "rtpMapLines") == Some(Text(Crlf(Flat(ps, PayloadRtpmap))))
    requires Lookup(info, "fmtpLines") == Some(Text(Crlf(Flat(ps, PayloadFmtp))))
    requires Lookup(info, "nackLines") == Some(Text(Crlf(Flat(ps, PayloadNack))))
    requires Lookup(info, "nackpliLines") == Some(Text(Crlf(Flat(ps, PayloadNackPli))))
    requires Lookup(info, "ccmfirLines") == Some(Text(Crlf(Flat(ps, PayloadCcmFir))))
    requires Lookup(info, "ericScreamLines") == Some(Text(Crlf(Flat(ps, PayloadEricScream))))
    ensures Render(PayloadGroupSlots(), info) == Crlf(PayloadPiece(ps))
  {
    var t4 := Slot("", "nackpliLines", "", Slot("", "ccmfirLines", "", Slot("", "ericScreamLines", "", End)));
    ThreeGroups("nackpliLines", "ccmfirLines", "ericScreamLines",
      Flat(ps, PayloadNackPli), Flat(ps, PayloadCcmFir), Flat(ps, PayloadEricScream), info);
    var x4 := Flat(ps, PayloadNackPli) + (Flat(ps, PayloadCcmFir) + Flat(ps, PayloadEricScream));
    SlotLines("nackLines", Flat(ps, PayloadNack), t4, info);
    CrlfAppend(Flat(ps, PayloadNack), x4);
    var t3 := Slot("", "nackLines", "", t4);
    var x3 := Flat(ps, PayloadNack) + x4;
    SlotLines("fmtpLines", Flat(ps, PayloadFmtp), t3, info);
    CrlfAppend(Flat(ps, PayloadFmtp), x3);
    var t2 := Slot("", "fmtpLines", "", t3);
    var x2 := Flat(ps, PayloadFmtp) + x3;
    SlotLines("rtpMapLines", Flat(ps, PayloadRtpmap), t2, info);
    CrlfAppend(Flat(ps, PayloadRtpmap), x2);
  }

  lemma MediaLineRender(media: MediaType, port: nat, protocol: string, fmt: string, info: Info)
    requires Lookup(info, "type") == Some(Text(MediaTypeName(media)))
    requires Lookup(info, "port") == Some(Text(Decimal(port)))
    requires Lookup(info, "protocol") == Some(Text(protocol))
    requires Lookup(info, "fmt").Some? && Rendered("", "", Lookup(info, "fmt").value) == fmt
    ensures Render(Template.Line(MediaLineSlots()), info) == Crlf([MediaLineText(media, port, protocol, fmt)])
  {
    Unfold();
    RenderAppend(MediaLineSlots(), Lit("\r\n", End), info);
    CrlfOne(MediaLineText(media, port, protocol, fmt));
  }

  lemma ConnectionRender(addressType: string, address: string, info: Info)
    requires Lookup(info, "netType") == Some(Text("IN"))
    requires Lookup(info, "addressType") == Some(Text(addressType))
    requires Lookup(info, "address") == Some(Text(address))
    ensures Render(Template.Line(ConnectionSlots()), info) == Crlf([ConnectionText(addressType, address)])
  {
    Unfold();
    RenderAppend(ConnectionSlots(), Lit("\r\n", End), info);
    CrlfOne(ConnectionText(addressType, address));
    assert "c=" + ("IN" + (" " + (addressType + (" " + address)))) == "c=IN " + (addressType + (" " + address));
  }

  lemma ModeRender(mode: Mode, info: Info)
    requires Lookup(info, "mode") == Some(Text(ModeName(mode)))
    ensures Render(Template.Line(ModeSlots()), info) == Crlf([ModeText(mode)])
  {
    Unfold();
    RenderAppend(ModeSlots(), Lit("\r\n", End), info);
    CrlfOne(ModeText(mode));
  }

  /** The whole template, piece by piece. */
  lemma {:induction false} BlockPieces(info: Info, y0: seq<string>, y1: seq<string>, y2: seq<string>, y3: seq<string>,
                    y4: seq<string>, y5: seq<string>, y6: seq<string>, y7: seq<string>)
    requires Render(Template.Line(MediaLineSlots()), info) == Crlf(y0)
    requires Render(Template.Line(ConnectionSlots()), info) == Crlf(y1)
    requires Render(RtcpGroupSlots(), info) == Crlf(y2)
    requires Render(Template.Line(ModeSlots()), info) == Crlf(y3)
    requires Render(PayloadGroupSlots(), info) == Crlf(y4)
    requires Render(SourceGroupSlots(), info) == Crlf(y5)
    requires Render(IceGroupSlots(), info) == Crlf(y6)
    requires Render(TransportGroupSlots(), info) == Crlf(y7)
    ensures Render(MblockTemplate(), info) == Crlf(y0 + (y1 + (y2 + (y3 + (y4 + (y5 + (y6 + y7)))))))
  {
    RenderAppend(IceGroupSlots(), TransportGroupSlots(), info);
    CrlfAppend(y6, y7);
    var t6 := Append(IceGroupSlots(), TransportGroupSlots());
    RenderAppend(SourceGroupSlots(), t6, info);
    CrlfAppend(y5, y6 + y7);
    var t5 := Append(SourceGroupSlots(), t6);
    RenderAppend(PayloadGroupSlots(), t5, info);
    CrlfAppend(y4, y5 + (y6 + y7));
    var t4 := Append(PayloadGroupSlots(), t5);
    RenderAppend(Template.Line(ModeSlots()), t4, info);
    CrlfAppend(y3, y4 + (y5 + (y6 + y7)));
    var t3 := Append(Template.Line(ModeSlots()), t4);
    RenderAppend(RtcpGroupSlots(), t3, info);
    CrlfAppend(y2, y3 + (y4 + (y5 + (y6 + y7))));
    var t2 := Append(RtcpGroupSlots(), t3);
    RenderAppend(Template.Line(ConnectionSlots()), t2, info);
    CrlfAppend(y1, y2 + (y3 + (y4 + (y5 + (y6 + y7)))));
    var t1 := Append(Template.Line(ConnectionSlots()), t2);
    RenderAppend(Template.Line(MediaLineSlots()), t1, info);
    CrlfAppend(y0, y1 + (y2 + (y3 + (y4 + (y5 + (y6 + y7))))));
  }

  // ---------------------------------------------------------------------
  // Which stage object a key comes from

  /** Seven objects one after another. */
  function Chain7(a0: Info, a1: Info, a2: Info, a3: Info, a4: Info, a5: Info, a6: Info): Info {
    Concat(Concat(Concat(Concat(Concat(Concat(a0, a1), a2), a3), a4), a5), a6)
  }

  function Nth(j: nat, a0: Info, a1: Info, a2: Info, a3: Info, a4: Info, a5: Info, a6: Info): Info {
    if j == 0 then a0 else if j == 1 then a1 else if j == 2 then a2 else if j == 3 then a3
    else if j == 4 then a4 else if j == 5 then a5 else a6
  }

  /** A key the objects before the `j`th do not name comes from the `j`th. */
  lemma {:induction false} FoundAt(a0: Info, a1: Info, a2: Info, a3: Info, a4: Info, a5: Info, a6: Info, j: nat, k: string)
    requires j <= 6 && (j < 6 ==> Lookup(Nth(j, a0, a1, a2, a3, a4, a5, a6), k).Some?)
    requires (0 < j ==> k !in Keys(a0)) && (1 < j ==> k !in Keys(a1)) && (2 < j ==> k !in Keys(a2))
    requires (3 < j ==> k !in Keys(a3)) && (4 < j ==> k !in Keys(a4)) && (5 < j ==> k !in Keys(a5))
    ensures Lookup(Chain7(a0, a1, a2, a3, a4, a5, a6), k) == Lookup(Nth(j, a0, a1, a2, a3, a4, a5, a6), k)
  {
    if 0 < j { LookupMiss(a0, k); }
    if 1 < j { LookupMiss(a1, k); }
    if 2 < j { LookupMiss(a2, k); }
    if 3 < j { LookupMiss(a3, k); }
    if 4 < j { LookupMiss(a4, k); }
    if 5 < j { LookupMiss(a5, k); }
    ChainLookup(a0, a1, a2, a3, a4, a5, a6, k);
  }

  /** Each object names none of the keys in the sets after it, and the
      sets shrink. */
  predicate Apart(a0: Info, a1: Info, a2: Info, a3: Info, a4: Info, a5: Info,
                  f1: set<string>, f2: set<string>, f3: set<string>, f4: set<string>, f5: set<string>,
                  f6: set<string>) {
    Keys(a0) !! f1 && Keys(a1) !! f2 && Keys(a2) !! f3 && Keys(a3) !! f4 && Keys(a4) !! f5 && Keys(a5) !! f6
    && f6 <= f5 && f5 <= f4 && f4 <= f3 && f3 <= f2 && f2 <= f1
  }

  function NthSet(j: nat, f1: set<string>, f2: set<string>, f3: set<string>, f4: set<string>, f5: set<string>,
                  f6: set<string>): set<string> {
    if j <= 1 then f1 else if j == 2 then f2 else if j == 3 then f3 else if j == 4 then f4
    else if j == 5 then f5 else f6
  }

  /** A key of the `j`th set comes from the `j`th object. */
  lemma {:induction false} FoundLater(a0: Info, a1: Info, a2: Info, a3: Info, a4: Info, a5: Info, a6: Info,
                   f1: set<string>, f2: set<string>, f3: set<string>, f4: set<string>, f5: set<string>,
                   f6: set<string>, j: nat, k: string)
    requires Apart(a0, a1, a2, a3, a4, a5, f1, f2, f3, f4, f5, f6)
    requires 1 <= j <= 6 && k in NthSet(j, f1, f2, f3, f4, f5, f6)
    requires j < 6 ==> Lookup(Nth(j, a0, a1, a2, a3, a4, a5, a6), k).Some?
    ensures Lookup(Chain7(a0, a1, a2, a3, a4, a5, a6), k) == Lookup(Nth(j, a0, a1, a2, a3, a4, a5, a6), k)
  {
    FoundAt(a0, a1, a2, a3, a4, a5, a6, j, k);
  }

  // ---------------------------------------------------------------------
  // Each placeholder group, over any objects laid out like the stages

  lemma {:induction false} MediaLineAt(a0: Info, a1: Info, a2: Info, a3: Info, a4: Info, a5: Info, a6: Info,
                    media: MediaType, port: nat, protocol: string, fmt: string, j: nat)
    requires Lookup(a0, "type") == Some(Text(MediaTypeName(media)))
    requires Lookup(a0, "port") == Some(Text(Decimal(port)))
    requires Lookup(a0, "protocol") == Some(Text(protocol))
    requires j == 1 || j == 6
    requires "fmt" !in Keys(a0) && (j == 6 ==> "fmt" !in Keys(a1) + Keys(a2) + Keys(a3) + Keys(a4) + Keys(a5))
    requires j == 1 ==> Lookup(a1, "fmt").Some? && Rendered("", "", Lookup(a1, "fmt").value) == fmt
    requires j == 6 ==> Lookup(a6, "fmt").Some? && Rendered("", "", Lookup(a6, "fmt").value) == fmt
    ensures Render(Template.Line(MediaLineSlots()), Chain7(a0, a1, a2, a3, a4, a5, a6))
      == Crlf([MediaLineText(media, port, protocol, fmt)])
  {
    FoundAt(a0, a1, a2, a3, a4, a5, a6, 0, "type");
    FoundAt(a0, a1, a2, a3, a4, a5, a6, 0, "port");
    FoundAt(a0, a1, a2, a3, a4, a5, a6, 0, "protocol");
    FoundAt(a0, a1, a2, a3, a4, a5, a6, j, "fmt");
    MediaLineRender(media, port, protocol, fmt, Chain7(a0, a1, a2, a3, a4, a5, a6));
  }

  lemma {:induction false} ConnectionModeAt(a0: Info, a1: Info, a2: Info, a3: Info, a4: Info, a5: Info, a6: Info,
                         addressType: string, address: string, mode: Mode)
    requires Lookup(a0, "netType") == Some(Text("IN"))
    requires Lookup(a0, "addressType") == Some(Text(addressType))
    requires Lookup(a0, "address") == Some(Text(address))
    requires Lookup(a0, "mode") == Some(Text(ModeName(mode)))
    ensures Render(Template.Line(ConnectionSlots()), Chain7(a0, a1, a2, a3, a4, a5, a6))
      == Crlf([ConnectionText(addressType, address)])
    ensures Render(Template.Line(ModeSlots()), Chain7(a0, a1, a2, a3, a4, a5, a6)) == Crlf([ModeText(mode)])
  {
    var info := Chain7(a0, a1, a2, a3, a4, a5, a6);
    FoundAt(a0, a1, a2, a3, a4, a5, a6, 0, "netType");
    FoundAt(a0, a1, a2, a3, a4, a5, a6, 0, "addressType");
    FoundAt(a0, a1, a2, a3, a4, a5, a6, 0, "address");
    FoundAt(a0, a1, a2, a3, a4, a5, a6, 0, "mode");
    ConnectionRender(addressType, address, info);
    ModeRender(mode, info);
  }

  lemma {:induction false} PayloadAt(a0: Info, a1: Info, a2: Info, a3: Info, a4: Info, a5: Info, a6: Info,
                  f1: set<string>, f2: set<string>, f3: set<string>, f4: set<string>, f5: set<string>,
                  f6: set<string>, ps: seq<Payload>)
    requires Apart(a0, a1, a2, a3, a4, a5, f1, f2, f3, f4, f5, f6)
    requires "rtpMapLines" in f1 && "fmtpLines" in f1 && "nackLines" in f1
    requires "nackpliLines" in f1 && "ccmfirLines" in f1 && "ericScreamLines" in f1
    requires Lookup(a1, "rtpMapLines") == Some(Text(Crlf(Flat(ps, PayloadRtpmap))))
    requires Lookup(a1, "fmtpLines") == Some(Text(Crlf(Flat(ps, PayloadFmtp))))
    requires Lookup(a1, "nackLines") == Some(Text(Crlf(Flat(ps, PayloadNack))))
    requires Lookup(a1, "nackpliLines") == Some(Text(Crlf(Flat(ps, PayloadNackPli))))
    requires Lookup(a1, "ccmfirLines") == Some(Text(Crlf(Flat(ps, PayloadCcmFir))))
    requires Lookup(a1, "ericScreamLines") == Some(Text(Crlf(Flat(ps, PayloadEricScream))))
    ensures Render(PayloadGroupSlots(), Chain7(a0, a1, a2, a3, a4, a5, a6)) == Crlf(PayloadPiece(ps))
  {
    FoundLater(a0, a1, a2, a3, a4, a5, a6, f1, f2, f3, f4, f5, f6, 1, "rtpMapLines");
    FoundLater(a0, a1, a2, a3, a4, a5, a6, f1, f2, f3, f4, f5, f6, 1, "fmtpLines");
    FoundLater(a0, a1, a2, a3, a4, a5, a6, f1, f2, f3, f4, f5, f6, 1, "nackLines");
    FoundLater(a0, a1, a2, a3, a4, a5, a6, f1, f2, f3, f4, f5, f6, 1, "nackpliLines");
    FoundLater(a0, a1, a2, a3, a4, a5, a6, f1, f2, f3, f4, f5, f6, 1, "ccmfirLines");
    FoundLater(a0, a1, a2, a3, a4, a5, a6, f1, f2, f3, f4, f5, f6, 1, "ericScreamLines");
    PayloadGroups(ps, Chain7(a0, a1, a2, a3, a4, a5, a6));
  }

  /** Two placeholders in a row, filled by the `j`th object. */
  lemma {:induction false} TwoAt(a0: Info, a1: Info, a2: Info, a3: Info, a4: Info, a5: Info, a6: Info,
              f1: set<string>, f2: set<string>, f3: set<string>, f4: set<string>, f5: set<string>,
              f6: set<string>, j: nat, k1: string, k2: string, x1: seq<string>, x2: seq<string>)
    requires Apart(a0, a1, a2, a3, a4, a5, f1, f2, f3, f4, f5, f6)
    requires 1 <= j <= 5 && k1 in NthSet(j, f1, f2, f3, f4, f5, f6) && k2 in NthSet(j, f1, f2, f3, f4, f5, f6)
    requires Lookup(Nth(j, a0, a1, a2, a3, a4, a5, a6), k1) == Some(Text(Crlf(x1)))
    requires Lookup(Nth(j, a0, a1, a2, a3, a4, a5, a6), k2) == Some(Text(Crlf(x2)))
    ensures Render(Slot("", k1, "", Slot("", k2, "", End)), Chain7(a0, a1, a2, a3, a4, a5, a6)) == Crlf(x1 + x2)
  {
    FoundLater(a0, a1, a2, a3, a4, a5, a6, f1, f2, f3, f4, f5, f6, j, k1);
    FoundLater(a0, a1, a2, a3, a4, a5, a6, f1, f2, f3, f4, f5, f6, j, k2);
    TwoGroups(k1, k2, x1, x2, Chain7(a0, a1, a2, a3, a4, a5, a6));
  }

  /** Three placeholders in a row: the first two filled by the `j`th object
      and the third by the `l`th. */
  lemma {:induction false} ThreeAt(a0: Info, a1: Info, a2: Info, a3: Info, a4: Info, a5: Info, a6: Info,
                f1: set<string>, f2: set<string>, f3: set<string>, f4: set<string>, f5: set<string>,
                f6: set<string>, j: nat, l: nat, k1: string, k2: string, k3: string,
                x1: seq<string>, x2: seq<string>, x3: seq<string>)
    requires Apart(a0, a1, a2, a3, a4, a5, f1, f2, f3, f4, f5, f6)
    requires 1 <= j <= 5 && j <= l <= 6
    requires k1 in NthSet(j, f1, f2, f3, f4, f5, f6) && k2 in NthSet(j, f1, f2, f3, f4, f5, f6)
    requires k3 in NthSet(l, f1, f2, f3, f4, f5, f6)
    requires Lookup(Nth(j, a0, a1, a2, a3, a4, a5, a6), k1) == Some(Text(Crlf(x1)))
    requires Lookup(Nth(j, a0, a1, a2, a3, a4, a5, a6), k2) == Some(Text(Crlf(x2)))
    requires Lookup(Nth(l, a0, a1, a2, a3, a4, a5, a6), k3) == Some(Text(Crlf(x3)))
    ensures Render(Slot("", k1, "", Slot("", k2, "", Slot("", k3, "", End))), Chain7(a0, a1, a2, a3, a4, a5, a6))
      == Crlf(x1 + (x2 + x3))
  {
    FoundLater(a0, a1, a2, a3, a4, a5, a6, f1, f2, f3, f4, f5, f6, j, k1);
    FoundLater(a0, a1, a2, a3, a4, a5, a6, f1, f2, f3, f4, f5, f6, j, k2);
    FoundLater(a0, a1, a2, a3, a4, a5, a6, f1, f2, f3, f4, f5, f6, l, k3);
    ThreeGroups(k1, k2, k3, x1, x2, x3, Chain7(a0, a1, a2, a3, a4, a5, a6));
  }

  // ---------------------------------------------------------------------
  // The block of a description

  /** The keys of the stages from the `n`th on, `fmt` aside. */
  function From6(): set<string> { {"sctpmapLine"} }
  function From5(): set<string> { {"dtlsFingerprintLine", "dtlsSetupLine"} + From6() }
  function From4(): set<string> { {"iceCredentialLines", "iceOptionLine", "candidateLines"} + From5() }
  function From3(): set<string> { {"cnameLines", "msidLines"} + From4() }
  function From2(): set<string> { {"rtcpLine", "rtcpMuxLine"} + From3() }
  function From1(): set<string> { PayloadKeys() + From2() }

  lemma FromMembers()
    ensures From6() <= From5() && From5() <= From4() && From4() <= From3() && From3() <= From2()
    ensures From2() <= From1()
    ensures "rtpMapLines" in From1() && "fmtpLines" in From1() && "nackLines" in From1()
    ensures "nackpliLines" in From1() && "ccmfirLines" in From1() && "ericScreamLines" in From1()
    ensures "rtcpLine" in From2() && "rtcpMuxLine" in From2()
    ensures "cnameLines" in From3() && "msidLines" in From3()
    ensures "iceCredentialLines" in From4() && "iceOptionLine" in From4() && "candidateLines" in From4()
    ensures "dtlsFingerprintLine" in From5() && "dtlsSetupLine" in From5()
    ensures "sctpmapLine" in From6()
  {
  }

  lemma MdescFromApart()
    ensures MdescKeys() !! From1() && "fmt" !in MdescKeys()
  {
    MdescApartPayload();
    MdescApartLater();
  }

  lemma MdescApartPayload()
    ensures MdescKeys() !! PayloadKeys() && "fmt" !in MdescKeys()
  {
  }

  lemma MdescApartLater()
    ensures MdescKeys() !! From2()
  {
  }

  lemma PayloadFromApart()
    ensures PayloadKeys() + {"fmt"} !! From2() && "fmt" !in PayloadKeys()
  {
  }

  lemma LaterFromApart()
    ensures {"rtcpLine", "rtcpMuxLine"} !! From3() && "fmt" !in {"rtcpLine", "rtcpMuxLine"}
    ensures {"cnameLines", "msidLines"} !! From4() && "fmt" !in {"cnameLines", "msidLines"}
    ensures {"iceCredentialLines", "iceOptionLine", "candidateLines"} !! From5()
    ensures "fmt" !in {"iceCredentialLines", "iceOptionLine", "candidateLines"}
    ensures {"dtlsFingerprintLine", "dtlsSetupLine"} !! From6() && "fmt" !in {"dtlsFingerprintLine", "dtlsSetupLine"}
  {
  }

  /** The stage objects of a description keep to their own keys. */
  lemma FormsApart(m: MediaDescription)
    requires m.fmt.None? && AllWritable(WrittenPayloads(m))
    ensures Apart(MdescInfo(m), PayloadForm(WrittenPayloads(m)), RtcpForm(WrittenRtcp(m)), SrcForm(m),
      IceForm(m.ice), DtlsForm(m.dtls), From1(), From2(), From3(), From4(), From5(), From6())
    ensures "fmt" !in Keys(MdescInfo(m))
    ensures WrittenPayloads(m) == [] ==>
      "fmt" !in Keys(PayloadForm(WrittenPayloads(m))) + Keys(RtcpForm(WrittenRtcp(m)))
        + Keys(SrcForm(m)) + Keys(IceForm(m.ice)) + Keys(DtlsForm(m.dtls))
  {
    MdescKeysOf(m);
    PayloadKeysOf(WrittenPayloads(m));
    OtherKeysOf(m);
    IceKeysOf(m.ice);
    MdescFromApart();
    PayloadFromApart();
    LaterFromApart();
    FromMembers();
  }

  /** The format list comes from the payload stage, or else the SCTP stage. */
  lemma PayloadFmtFound(ps: seq<Payload>)
    requires AllWritable(ps) && ps != []
    ensures Lookup(PayloadForm(ps), "fmt") == Some(Text(MediaFormats.AccText(MediaFormats.Fold(Types(ps)))))
  {
    Unfold();
  }

  lemma SctpFmtFound(sctp: Option<Sctp>)
    ensures Lookup(SctpForm(sctp), "fmt").Some?
    ensures Rendered("", "", Lookup(SctpForm(sctp), "fmt").value) == if sctp.Some? then NumText(sctp.value.port) else ""
  {
    Unfold();
  }

  /** Where the media line's format list comes from. */
  lemma FmtAt(m: MediaDescription)
    requires AllWritable(WrittenPayloads(m))
    ensures WrittenPayloads(m) != [] ==> (Lookup(PayloadForm(WrittenPayloads(m)), "fmt").Some?
      && Rendered("", "", Lookup(PayloadForm(WrittenPayloads(m)), "fmt").value) == FmtText(m))
    ensures WrittenPayloads(m) == [] ==> (Lookup(SctpForm(m.sctp), "fmt").Some?
      && Rendered("", "", Lookup(SctpForm(m.sctp), "fmt").value) == FmtText(m))
  {
    if WrittenPayloads(m) != [] {
      PayloadFmtFound(WrittenPayloads(m));
    } else {
      SctpFmtFound(m.sctp);
    }
  }

  /** The whole template over objects laid out like the stages. */
  lemma {:induction false} BlockAt(a0: Info, a1: Info, a2: Info, a3: Info, a4: Info, a5: Info, a6: Info,
                f1: set<string>, f2: set<string>, f3: set<string>, f4: set<string>, f5: set<string>,
                f6: set<string>, media: MediaType, port: nat, protocol: string, fmt: string, j: nat,
                addressType: string, address: string, mode: Mode, ps: seq<Payload>,
                rtcp: seq<string>, mux: seq<string>, cname: seq<string>, msid: seq<string>,
                cred: seq<string>, option: seq<string>, cand: seq<string>,
                fingerprint: seq<string>, setup: seq<string>, sctpmap: seq<string>)
    requires Apart(a0, a1, a2, a3, a4, a5, f1, f2, f3, f4, f5, f6)
    requires "rtpMapLines" in f1 && "fmtpLines" in f1 && "nackLines" in f1
    requires "nackpliLines" in f1 && "ccmfirLines" in f1 && "ericScreamLines" in f1
    requires "rtcpLine" in f2 && "rtcpMuxLine" in f2 && "cnameLines" in f3 && "msidLines" in f3
    requires "iceCredentialLines" in f4 && "iceOptionLine" in f4 && "candidateLines" in f4
    requires "dtlsFingerprintLine" in f5 && "dtlsSetupLine" in f5 && "sctpmapLine" in f6
    requires Lookup(a0, "type") == Some(Text(MediaTypeName(media)))
    requires Lookup(a0, "port") == Some(Text(Decimal(port)))
    requires Lookup(a0, "protocol") == Some(Text(protocol))
    requires j == 1 || j == 6
    requires "fmt" !in Keys(a0) && (j == 6 ==> "fmt" !in Keys(a1) + Keys(a2) + Keys(a3) + Keys(a4) + Keys(a5))
    requires j == 1 ==> Lookup(a1, "fmt").Some? && Rendered("", "", Lookup(a1, "fmt").value) == fmt
    requires j == 6 ==> Lookup(a6, "fmt").Some? && Rendered("", "", Lookup(a6, "fmt").value) == fmt
    requires Lookup(a0, "netType") == Some(Text("IN"))
    requires Lookup(a0, "addressType") == Some(Text(addressType))
    requires Lookup(a0, "address") == Some(Text(address))
    requires Lookup(a0, "mode") == Some(Text(ModeName(mode)))
    requires Lookup(a1, "rtpMapLines") == Some(Text(Crlf(Flat(ps, PayloadRtpmap))))
    requires Lookup(a1, "fmtpLines") == Some(Text(Crlf(Flat(ps, PayloadFmtp))))
    requires Lookup(a1, "nackLines") == Some(Text(Crlf(Flat(ps, PayloadNack))))
    requires Lookup(a1, "nackpliLines") == Some(Text(Crlf(Flat(ps, PayloadNackPli))))
    requires Lookup(a1, "ccmfirLines") == Some(Text(Crlf(Flat(ps, PayloadCcmFir))))
    requires Lookup(a1, "ericScreamLines") == Some(Text(Crlf(Flat(ps, PayloadEricScream))))
    requires Lookup(a2, "rtcpLine") == Some(Text(Crlf(rtcp)))
    requires Lookup(a2, "rtcpMuxLine") == Some(Text(Crlf(mux)))
    requires Lookup(a3, "cnameLines") == Some(Text(Crlf(cname)))
    requires Lookup(a3, "msidLines") == Some(Text(Crlf(msid)))
    requires Lookup(a4, "iceCredentialLines") == Some(Text(Crlf(cred)))
    requires Lookup(a4, "iceOptionLine") == Some(Text(Crlf(option)))
    requires Lookup(a4, "candidateLines") == Some(Text(Crlf(cand)))
    requires Lookup(a5, "dtlsFingerprintLine") == Some(Text(Crlf(fingerprint)))
    requires Lookup(a5, "dtlsSetupLine") == Some(Text(Crlf(setup)))
    requires Lookup(a6, "sctpmapLine") == Some(Text(Crlf(sctpmap)))
    ensures Render(MblockTemplate(), Chain7(a0, a1, a2, a3, a4, a5, a6)) ==
      Crlf([MediaLineText(media, port, protocol, fmt)] + ([ConnectionText(addressType, address)]
        + ((rtcp + mux) + ([ModeText(mode)] + (PayloadPiece(ps) + ((cname + msid)
        + ((cred + (option + cand)) + (fingerprint + (setup + sctpmap)))))))))
  {
    MediaLineAt(a0, a1, a2, a3, a4, a5, a6, media, port, protocol, fmt, j);
    ConnectionModeAt(a0, a1, a2, a3, a4, a5, a6, addressType, address, mode);
    PayloadAt(a0, a1, a2, a3, a4, a5, a6, f1, f2, f3, f4, f5, f6, ps);
    TwoAt(a0, a1, a2, a3, a4, a5, a6, f1, f2, f3, f4, f5, f6, 2, "rtcpLine", "rtcpMuxLine", rtcp, mux);
    TwoAt(a0, a1, a2, a3, a4, a5, a6, f1, f2, f3, f4, f5, f6, 3, "cnameLines", "msidLines", cname, msid);
    ThreeAt(a0, a1, a2, a3, a4, a5, a6, f1, f2, f3, f4, f5, f6, 4, 4,
      "iceCredentialLines", "iceOptionLine", "candidateLines", cred, option, cand);
    ThreeAt(a0, a1, a2, a3, a4, a5, a6, f1, f2, f3, f4, f5, f6, 5, 6,
      "dtlsFingerprintLine", "dtlsSetupLine", "sctpmapLine", fingerprint, setup, sctpmap);
    BlockPieces(Chain7(a0, a1, a2, a3, a4, a5, a6), [MediaLineText(media, port, protocol, fmt)],
      [ConnectionText(addressType, address)], rtcp + mux, [ModeText(mode)], PayloadPiece(ps), cname + msid,
      cred + (option + cand), fingerprint + (setup + sctpmap));
  }

  /** The block's lines, group by group. */
  lemma BlockLinesShape(m: MediaDescription)
    ensures BlockLines(m) == [MediaLine(m)] + ([ConnectionLine(m)] + ((RtcpGroup(WrittenRtcp(m)) + MuxGroup(WrittenRtcp(m)))
      + ([ModeText(WrittenMode(m))] + (PayloadPiece(WrittenPayloads(m)) + ((CnameGroup(m) + MsidGroup(m))
      + (((UfragGroup(m.ice) + PwdGroup(m.ice)) + (OptionGroup(m.ice) + CandidateGroup(m.ice)))
      + (FingerprintGroup(m.dtls) + (SetupGroup(m.dtls) + SctpmapGroup(m.sctp)))))))))
  {
  }

  /** The `mblock` template rendered with the stage objects is the block's
      lines. */
  lemma FormsRender(m: MediaDescription)
    requires m.fmt.None? && AllWritable(WrittenPayloads(m))
    ensures Render(MblockTemplate(), Chain7(MdescInfo(m), PayloadForm(WrittenPayloads(m)), RtcpForm(WrittenRtcp(m)),
      SrcForm(m), IceForm(m.ice), DtlsForm(m.dtls), SctpForm(m.sctp))) == Crlf(BlockLines(m))
  {
    var ps, r := WrittenPayloads(m), WrittenRtcp(m);
    FormsApart(m);
    FromMembers();
    FmtAt(m);
    MdescInfoLookups(m);
    PayloadFormLookups(m);
    RtcpFormLookups(m);
    SrcFormLookups(m);
    IceFormLookups(m);
    DtlsFormLookups(m);
    SctpFormLookups(m);
    BlockAt(MdescInfo(m), PayloadForm(ps), RtcpForm(r), SrcForm(m), IceForm(m.ice), DtlsForm(m.dtls), SctpForm(m.sctp),
      From1(), From2(), From3(), From4(), From5(), From6(),
      m.media, WrittenPort(m), WrittenProtocol(m), FmtText(m), if ps != [] then 1 else 6,
      WrittenAddressType(m), WrittenAddress(m), WrittenMode(m), ps,
      RtcpGroup(r), MuxGroup(r), CnameGroup(m), MsidGroup(m),
      UfragGroup(m.ice) + PwdGroup(m.ice), OptionGroup(m.ice), CandidateGroup(m.ice),
      FingerprintGroup(m.dtls), SetupGroup(m.dtls), SctpmapGroup(m.sctp));
    BlockLinesShape(m);
  }

  /** The media block the generator writes for a description is its lines,
      each ended by CR LF. */
  lemma BlockText(m: MediaDescription)
    requires MediaWritable(m)
    ensures MediaBlock(m) == Crlf(BlockLines(m))
  {
    BlockFills(m);
    BlockInfoForm(m);
    FormsRender(m);
  }
}
