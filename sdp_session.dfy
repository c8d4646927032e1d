/** The session block the generator writes (bridge/client/webrtc.js:1004-1036),
    worked out: the `sdp` template filled with the session, the originator
    and the msid-semantic line is the four session lines and the optional
    msid-semantic line, each ended by CR LF. */
module SdpSession {
  import opened Wrappers
  import opened Chars
  import opened Template
  import opened Lines
  import opened SdpTypes
  import opened SessionLines
  import opened SdpGenerate
  import opened SdpLines
  import opened SdpText
  import opened SdpParse
  import MediaFormats

  // ---------------------------------------------------------------------
  // The lines of the session block

  /** The four session lines after the generator's defaults. */
  function HeadLines(s: Session, sessionId: string): seq<string> {
    var o := s.originator.GetOr(NoOriginator);
    HeaderLines(s.version.GetOr(0), o.username.GetOr("-"), o.sessionId.GetOr(sessionId),
      o.sessionVersion.GetOr(1), o.addressType.GetOr("IP4"), o.address.GetOr("127.0.0.1"),
      s.sessionName.GetOr("-"), s.startTime.GetOr(0), s.stopTime.GetOr(0))
  }

  /** The msid-semantic line, when some description carries stream ids. */
  function SemanticGroup(media: seq<MediaDescription>): seq<string> {
    var ids := StreamIds(media);
    if ids == [] then [] else [MsidSemanticText(MediaFormats.JoinSpaced(ids))]
  }

  /** Session fields the fills copy as they are: no `$` in them. */
  predicate SessionFieldsFree(s: Session, sessionId: string) {
    var o := s.originator.GetOr(NoOriginator);
    DollarFree(o.username.GetOr("-")) && DollarFree(o.sessionId.GetOr(sessionId))
    && DollarFree(o.addressType.GetOr("IP4")) && DollarFree(o.address.GetOr("127.0.0.1"))
    && DollarFree(s.sessionName.GetOr("-"))
  }

  /** Stream ids without `$`. */
  predicate IdsFree(media: seq<MediaDescription>) {
    forall i :: 0 <= i < |StreamIds(media)| ==> DollarFree(StreamIds(media)[i])
  }

  // ---------------------------------------------------------------------
  // The `sdp` template names each key once

  lemma SessionWords()
    ensures DollarFree("v=") && DollarFree("o=") && DollarFree("s=") && DollarFree("t=") && DollarFree(" ")
    ensures GoodKey("version") && GoodKey("sessionName") && GoodKey("startTime") && GoodKey("stopTime")
  {
  }

  lemma OriginWords()
    ensures GoodKey("username") && GoodKey("sessionId") && GoodKey("sessionVersion")
    ensures GoodKey("netType") && GoodKey("addressType") && GoodKey("address") && GoodKey("msidsemanticLine")
  {
  }

  lemma OriginGood()
    ensures GoodTmpl(Template.Line(OriginSlots())) && DistinctSlots(Template.Line(OriginSlots()))
    ensures SlotKeys(Template.Line(OriginSlots())) ==
      {"username", "sessionId", "sessionVersion", "netType", "addressType", "address"}
  {
    SessionWords();
    OriginWords();
    var t10 := Slot("", "address", "", End);
    var t9 := Lit(" ", t10);
    var t8 := Slot("", "addressType", "", t9);
    var t7 := Lit(" ", t8);
    var t6 := Slot("", "netType", "", t7);
    var t5 := Lit(" ", t6);
    var t4 := Slot("", "sessionVersion", "", t5);
    var t3 := Lit(" ", t4);
    var t2 := Slot("", "sessionId", "", t3);
    var t1 := Lit(" ", t2);
    var t0 := Slot("", "username", "", t1);
    SlotFront("address", End);
    LitFront(" ", t10);
    SlotFront("addressType", t9);
    LitFront(" ", t8);
    SlotFront("netType", t7);
    LitFront(" ", t6);
    SlotFront("sessionVersion", t5);
    LitFront(" ", t4);
    SlotFront("sessionId", t3);
    LitFront(" ", t2);
    SlotFront("username", t1);
    LitFront("o=", t0);
    LineGood(OriginSlots());
  }

  lemma TimingGood()
    ensures GoodTmpl(Template.Line(TimingSlots())) && DistinctSlots(Template.Line(TimingSlots()))
    ensures SlotKeys(Template.Line(TimingSlots())) == {"startTime", "stopTime"}
  {
    SessionWords();
    var t2 := Slot("", "stopTime", "", End);
    var t1 := Lit(" ", t2);
    var t0 := Slot("", "startTime", "", t1);
    SlotFront("stopTime", End);
    LitFront(" ", t2);
    SlotFront("startTime", t1);
    LitFront("t=", t0);
    LineGood(TimingSlots());
  }

  lemma OneSlotLineGood(p: string, k: string)
    requires DollarFree(p) && GoodKey(k)
    ensures GoodTmpl(Template.Line(Lit(p, Slot("", k, "", End))))
    ensures DistinctSlots(Template.Line(Lit(p, Slot("", k, "", End))))
    ensures SlotKeys(Template.Line(Lit(p, Slot("", k, "", End)))) == {k}
  {
    SlotFront(k, End);
    LitFront(p, Slot("", k, "", End));
    LineGood(Lit(p, Slot("", k, "", End)));
  }

  /** The templates after each line of the `sdp` template. */
  function TimingOn(): Tmpl { Append(Template.Line(TimingSlots()), Slot("", "msidsemanticLine", "", End)) }
  function NameOn(): Tmpl { Append(Template.Line(Lit("s=", Slot("", "sessionName", "", End))), TimingOn()) }
  function OriginOn(): Tmpl { Append(Template.Line(OriginSlots()), NameOn()) }

  lemma SessionKeysApart()
    ensures {"startTime", "stopTime"} !! {"msidsemanticLine"}
    ensures {"sessionName"} !! {"startTime", "stopTime"} + {"msidsemanticLine"}
    ensures {"username", "sessionId", "sessionVersion", "netType", "addressType", "address"}
      !! {"sessionName"} + ({"startTime", "stopTime"} + {"msidsemanticLine"})
    ensures {"version"} !! {"username", "sessionId", "sessionVersion", "netType", "addressType", "address"}
      + ({"sessionName"} + ({"startTime", "stopTime"} + {"msidsemanticLine"}))
  {
  }

  /** No key has two placeholders in the `sdp` template. */
  lemma SdpTemplateGood()
    ensures GoodTmpl(SdpTemplate()) && DistinctSlots(SdpTemplate())
  {
    SessionWords();
    OriginWords();
    SessionKeysApart();
    var msid := Slot("", "msidsemanticLine", "", End);
    SlotFront("msidsemanticLine", End);
    TimingGood();
    Glue(Template.Line(TimingSlots()), msid, {"startTime", "stopTime"}, {"msidsemanticLine"});
    var kt := {"startTime", "stopTime"} + {"msidsemanticLine"};
    OneSlotLineGood("s=", "sessionName");
    Glue(Template.Line(Lit("s=", Slot("", "sessionName", "", End))), TimingOn(), {"sessionName"}, kt);
    var kn := {"sessionName"} + kt;
    OriginGood();
    var ko := {"username", "sessionId", "sessionVersion", "netType", "addressType", "address"};
    Glue(Template.Line(OriginSlots()), NameOn(), ko, kn);
    OneSlotLineGood("v=", "version");
    Glue(Template.Line(Lit("v=", Slot("", "version", "", End))), OriginOn(), {"version"}, ko + kn);
  }

  // ---------------------------------------------------------------------
  // The objects the `sdp` template is filled with

  lemma SessionInfoGood(s: Session)
    requires DollarFree(s.sessionName.GetOr("-"))
    ensures GoodInfo(SessionInfo(s))
  {
    SessionWords();
    var i3 := Entry("stopTime", NumValue(s.stopTime.GetOr(0)), Done);
    var i2 := Entry("startTime", NumValue(s.startTime.GetOr(0)), i3);
    var i1 := Entry("sessionName", Text(s.sessionName.GetOr("-")), i2);
    DecimalFree(s.version.GetOr(0));
    DecimalFree(s.startTime.GetOr(0));
    DecimalFree(s.stopTime.GetOr(0));
    EntryGood("stopTime", NumValue(s.stopTime.GetOr(0)), Done);
    EntryGood("startTime", NumValue(s.startTime.GetOr(0)), i3);
    EntryGood("sessionName", Text(s.sessionName.GetOr("-")), i2);
    EntryGood("version", NumValue(s.version.GetOr(0)), i1);
  }

  lemma OriginInfoGood(s: Session, sessionId: string)
    requires SessionFieldsFree(s, sessionId)
    ensures GoodInfo(OriginInfo(s.originator, sessionId))
  {
    OriginWords();
    var x := s.originator.GetOr(NoOriginator);
    assert DollarFree("IN");
    DecimalFree(x.sessionVersion.GetOr(1));
    var i5 := Entry("address", Text(x.address.GetOr("127.0.0.1")), Done);
    var i4 := Entry("addressType", Text(x.addressType.GetOr("IP4")), i5);
    var i3 := Entry("netType", Text("IN"), i4);
    var i2 := Entry("sessionVersion", NumValue(x.sessionVersion.GetOr(1)), i3);
    var i1 := Entry("sessionId", Text(x.sessionId.GetOr(sessionId)), i2);
    EntryGood("address", Text(x.address.GetOr("127.0.0.1")), Done);
    EntryGood("addressType", Text(x.addressType.GetOr("IP4")), i5);
    EntryGood("netType", Text("IN"), i4);
    EntryGood("sessionVersion", NumValue(x.sessionVersion.GetOr(1)), i3);
    EntryGood("sessionId", Text(x.sessionId.GetOr(sessionId)), i2);
    EntryGood("username", Text(x.username.GetOr("-")), i1);
  }

  /** Decimal digits hold no `$`. */
  lemma DecimalFree(n: nat)
    ensures DollarFree(Decimal(n))
  {
    ClassDollarFree(Decimal(n), Digit);
  }

  /** Texts without `$` joined with spaces hold no `$`. */
  lemma {:induction false} JoinSpacedFree(ws: seq<string>)
    requires forall i :: 0 <= i < |ws| ==> DollarFree(ws[i])
    ensures DollarFree(MediaFormats.JoinSpaced(ws))
  {
    if |ws| > 1 {
      JoinSpacedFree(ws[1..]);
      DollarFreeAppend(" ", MediaFormats.JoinSpaced(ws[1..]));
      DollarFreeAppend(ws[0], " " + MediaFormats.JoinSpaced(ws[1..]));
    }
  }

  lemma SemanticWords()
    ensures DollarFree("a=msid-semantic:WMS ") && GoodKey("mediaStreamIds")
  {
  }

  /** The msid-semantic template filled with a dollar-free list of stream
      ids is the line and its CR LF. */
  lemma SemanticFill(w: string)
    requires DollarFree(w)
    ensures Fill(Flatten(MsidSemanticTemplate()), Entry("mediaStreamIds", Text(w), Done)) == MsidSemanticText(w) + "\r\n"
    ensures DollarFree(MsidSemanticText(w) + "\r\n")
  {
    var p := "a=msid-semantic:WMS ";
    var t := Lit(p, Slot("", "mediaStreamIds", "", End));
    var info := Entry("mediaStreamIds", Text(w), Done);
    SemanticWords();
    SlotFront("mediaStreamIds", End);
    LitFront(p, Slot("", "mediaStreamIds", "", End));
    EntryGood("mediaStreamIds", Text(w), Done);
    FillLine(t, info);
    assert Render(Slot("", "mediaStreamIds", "", End), info) == w;
    assert Render(t, info) == MsidSemanticText(w);
    DollarFreeAppend(p, w);
    DollarFreeAppend(MsidSemanticText(w), "\r\n");
  }

  /** The msid-semantic template filled with the stream ids is the line
      and its CR LF, or nothing without stream ids. */
  lemma SemanticLineText(media: seq<MediaDescription>)
    requires IdsFree(media)
    ensures MsidSemanticLine(media) == Crlf(SemanticGroup(media))
    ensures DollarFree(MsidSemanticLine(media))
  {
    var ids := StreamIds(media);
    if ids != [] {
      var w := MediaFormats.JoinSpaced(ids);
      JoinSpacedFree(ids);
      SemanticFill(w);
      CrlfOne(MsidSemanticText(w));
    }
  }

  // ---------------------------------------------------------------------
  // Rendering the `sdp` template

  /** The three fill objects one after another. */
  function SessionAll(s: Session, sessionId: string, x: string): Info {
    Concat(Concat(SessionInfo(s), OriginInfo(s.originator, sessionId)), Entry("msidsemanticLine", Text(x), Done))
  }

  lemma SessionLookups(s: Session, sessionId: string, x: string)
    ensures Lookup(SessionAll(s, sessionId, x), "version") == Some(NumValue(s.version.GetOr(0)))
    ensures Lookup(SessionAll(s, sessionId, x), "sessionName") == Some(Text(s.sessionName.GetOr("-")))
    ensures Lookup(SessionAll(s, sessionId, x), "startTime") == Some(NumValue(s.startTime.GetOr(0)))
    ensures Lookup(SessionAll(s, sessionId, x), "stopTime") == Some(NumValue(s.stopTime.GetOr(0)))
    ensures Lookup(SessionAll(s, sessionId, x), "msidsemanticLine") == Some(Text(x))
  {
    var a, b, c := SessionInfo(s), OriginInfo(s.originator, sessionId), Entry("msidsemanticLine", Text(x), Done);
    Unfold();
    LookupConcat(Concat(a, b), c, "version");
    LookupConcat(a, b, "version");
    LookupConcat(Concat(a, b), c, "sessionName");
    LookupConcat(a, b, "sessionName");
    LookupConcat(Concat(a, b), c, "startTime");
    LookupConcat(a, b, "startTime");
    LookupConcat(Concat(a, b), c, "stopTime");
    LookupConcat(a, b, "stopTime");
    LookupConcat(Concat(a, b), c, "msidsemanticLine");
    LookupConcat(a, b, "msidsemanticLine");
  }

  lemma OriginLookups(s: Session, sessionId: string, x: string)
    ensures var o := s.originator.GetOr(NoOriginator);
      Lookup(SessionAll(s, sessionId, x), "username") == Some(Text(o.username.GetOr("-")))
      && Lookup(SessionAll(s, sessionId, x), "sessionId") == Some(Text(o.sessionId.GetOr(sessionId)))
      && Lookup(SessionAll(s, sessionId, x), "sessionVersion") == Some(NumValue(o.sessionVersion.GetOr(1)))
      && Lookup(SessionAll(s, sessionId, x), "netType") == Some(Text("IN"))
      && Lookup(SessionAll(s, sessionId, x), "addressType") == Some(Text(o.addressType.GetOr("IP4")))
      && Lookup(SessionAll(s, sessionId, x), "address") == Some(Text(o.address.GetOr("127.0.0.1")))
  {
    var a, b, c := SessionInfo(s), OriginInfo(s.originator, sessionId), Entry("msidsemanticLine", Text(x), Done);
    Unfold();
    LookupConcat(Concat(a, b), c, "username");
    LookupConcat(a, b, "username");
    LookupConcat(Concat(a, b), c, "sessionId");
    LookupConcat(a, b, "sessionId");
    LookupConcat(Concat(a, b), c, "sessionVersion");
    LookupConcat(a, b, "sessionVersion");
    LookupConcat(Concat(a, b), c, "netType");
    LookupConcat(a, b, "netType");
    LookupConcat(Concat(a, b), c, "addressType");
    LookupConcat(a, b, "addressType");
    LookupConcat(Concat(a, b), c, "address");
    LookupConcat(a, b, "address");
  }

  /** A one-line template renders as its line and CR LF. */
  lemma LineRender(t: Tmpl, info: Info)
    ensures Render(Template.Line(t), info) == Render(t, info) + "\r\n"
  {
    RenderAppend(t, Lit("\r\n", End), info);
    Unfold();
  }

  lemma VersionRender(version: nat, info: Info)
    requires Lookup(info, "version") == Some(NumValue(version))
    ensures Render(Template.Line(Lit("v=", Slot("", "version", "", End))), info) == VersionText(version) + "\r\n"
  {
    LineRender(Lit("v=", Slot("", "version", "", End)), info);
    Unfold();
  }

  lemma NameRender(name: string, info: Info)
    requires Lookup(info, "sessionName") == Some(Text(name))
    ensures Render(Template.Line(Lit("s=", Slot("", "sessionName", "", End))), info) == "s=" + name + "\r\n"
  {
    LineRender(Lit("s=", Slot("", "sessionName", "", End)), info);
    Unfold();
  }

  lemma TimingRender(start: nat, stop: nat, info: Info)
    requires Lookup(info, "startTime") == Some(NumValue(start))
    requires Lookup(info, "stopTime") == Some(NumValue(stop))
    ensures Render(Template.Line(TimingSlots()), info) == TimingText(start, stop) + "\r\n"
  {
    LineRender(TimingSlots(), info);
    Unfold();
  }

  lemma OriginRender(username: string, sessionId: string, sessionVersion: nat, addressType: string,
                     address: string, info: Info)
    requires Lookup(info, "username") == Some(Text(username))
    requires Lookup(info, "sessionId") == Some(Text(sessionId))
    requires Lookup(info, "sessionVersion") == Some(NumValue(sessionVersion))
    requires Lookup(info, "netType") == Some(Text("IN"))
    requires Lookup(info, "addressType") == Some(Text(addressType))
    requires Lookup(info, "address") == Some(Text(address))
    ensures Render(Template.Line(OriginSlots()), info) ==
      OriginText(username, sessionId, sessionVersion, addressType, address) + "\r\n"
  {
    LineRender(OriginSlots(), info);
    Unfold();
    assert " " + ("IN" + (" " + (addressType + (" " + address)))) == " IN " + (addressType + (" " + address));
  }

  lemma MsidSlotRender(x: string, info: Info)
    requires Lookup(info, "msidsemanticLine") == Some(Text(x))
    ensures Render(Slot("", "msidsemanticLine", "", End), info) == x
  {
    Unfold();
  }

  lemma CrlfFour(a: string, b: string, c: string, d: string)
    ensures Crlf([a, b, c, d]) == a + "\r\n" + (b + "\r\n" + (c + "\r\n" + (d + "\r\n")))
  {
    assert [a, b, c, d][1..] == [b, c, d];
    assert [b, c, d][1..] == [c, d];
    assert [c, d][1..] == [d];
    CrlfOne(d);
    assert Crlf([c, d]) == c + "\r\n" + Crlf([d]);
    assert Crlf([b, c, d]) == b + "\r\n" + Crlf([c, d]);
    assert Crlf([a, b, c, d]) == a + "\r\n" + Crlf([b, c, d]);
  }

  /** The `sdp` template over any object with the session's values. */
  lemma SdpRender(info: Info, version: nat, username: string, sessionId: string, sessionVersion: nat,
                  addressType: string, address: string, name: string, start: nat, stop: nat, x: string)
    requires Lookup(info, "version") == Some(NumValue(version))
    requires Lookup(info, "username") == Some(Text(username))
    requires Lookup(info, "sessionId") == Some(Text(sessionId))
    requires Lookup(info, "sessionVersion") == Some(NumValue(sessionVersion))
    requires Lookup(info, "netType") == Some(Text("IN"))
    requires Lookup(info, "addressType") == Some(Text(addressType))
    requires Lookup(info, "address") == Some(Text(address))
    requires Lookup(info, "sessionName") == Some(Text(name))
    requires Lookup(info, "startTime") == Some(NumValue(start))
    requires Lookup(info, "stopTime") == Some(NumValue(stop))
    requires Lookup(info, "msidsemanticLine") == Some(Text(x))
    ensures Render(SdpTemplate(), info) ==
      Crlf(HeaderLines(version, username, sessionId, sessionVersion, addressType, address, name, start, stop)) + x
  {
    var lv := Template.Line(Lit("v=", Slot("", "version", "", End)));
    var ls := Template.Line(Lit("s=", Slot("", "sessionName", "", End)));
    var msid := Slot("", "msidsemanticLine", "", End);
    var rv, ro, rn, rt, rm := Render(lv, info), Render(Template.Line(OriginSlots()), info), Render(ls, info),
      Render(Template.Line(TimingSlots()), info), Render(msid, info);
    assert SdpTemplate() == Append(lv, OriginOn());
    RenderAppend(lv, OriginOn(), info);
    RenderAppend(Template.Line(OriginSlots()), NameOn(), info);
    RenderAppend(ls, TimingOn(), info);
    RenderAppend(Template.Line(TimingSlots()), msid, info);
    assert Render(SdpTemplate(), info) == rv + (ro + (rn + (rt + rm)));
    VersionRender(version, info);
    OriginRender(username, sessionId, sessionVersion, addressType, address, info);
    NameRender(name, info);
    TimingRender(start, stop, info);
    MsidSlotRender(x, info);
    FourLines(VersionText(version), OriginText(username, sessionId, sessionVersion, addressType, address),
      "s=" + name, TimingText(start, stop), x, rv, ro, rn, rt, rm);
  }

  /** Four rendered lines and a tail, joined, are the four lines each ended
      by CR LF and then the tail. */
  lemma FourLines(a: string, b: string, c: string, d: string, x: string,
                  ra: string, rb: string, rc: string, rd: string, rx: string)
    requires ra == a + "\r\n" && rb == b + "\r\n" && rc == c + "\r\n" && rd == d + "\r\n" && rx == x
    ensures ra + (rb + (rc + (rd + rx))) == Crlf([a, b, c, d]) + x
  {
    CrlfFour(a, b, c, d);
    assert ra + (rb + (rc + (rd + rx))) == a + "\r\n" + (b + "\r\n" + (c + "\r\n" + (d + "\r\n"))) + x;
  }

  /** The `sdp` template rendered with the session's objects: the four
      session lines, then the msid-semantic text. */
  lemma SessionRender(s: Session, sessionId: string, x: string)
    ensures Render(SdpTemplate(), SessionAll(s, sessionId, x)) == Crlf(HeadLines(s, sessionId)) + x
  {
    var o := s.originator.GetOr(NoOriginator);
    SessionLookups(s, sessionId, x);
    OriginLookups(s, sessionId, x);
    SdpRender(SessionAll(s, sessionId, x), s.version.GetOr(0), o.username.GetOr("-"), o.sessionId.GetOr(sessionId),
      o.sessionVersion.GetOr(1), o.addressType.GetOr("IP4"), o.address.GetOr("127.0.0.1"),
      s.sessionName.GetOr("-"), s.startTime.GetOr(0), s.stopTime.GetOr(0), x);
  }

  // ---------------------------------------------------------------------
  // The session block

  /** The text SDP.generate writes before the first media description: the
      four session lines with their defaults, then the msid-semantic line
      when some description names a stream, each ended by CR LF. */
  lemma SessionBlockText(s: Session, sessionId: string)
    requires SessionFieldsFree(s, sessionId) && IdsFree(s.media)
    ensures SessionBlock(s, sessionId) == Crlf(HeadLines(s, sessionId) + SemanticGroup(s.media))
  {
    var t := SdpTemplate();
    var a := SessionInfo(s);
    var b := OriginInfo(s.originator, sessionId);
    var x := MsidSemanticLine(s.media);
    var c := Entry("msidsemanticLine", Text(x), Done);
    SdpTemplateGood();
    SessionInfoGood(s);
    OriginInfoGood(s, sessionId);
    SemanticLineText(s.media);
    OriginWords();
    EntryGood("msidsemanticLine", Text(x), Done);
    DistinctSlotsOnce(t, a);
    FillTemplate(t, a);
    FillStep(t, a, b);
    FillStep(t, Concat(a, b), c);
    SessionRender(s, sessionId, x);
    CrlfAppend(HeadLines(s, sessionId), SemanticGroup(s.media));
  }
}
