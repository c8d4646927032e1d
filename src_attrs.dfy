/** The source attribute lines of a media block: `a=ssrc:<ssrc> cname:`
    (RFC 5576 section 4.1) and `a=msid:` (the WebRTC media stream
    identification attribute); the patterns that read them
    (bridge/client/webrtc.js:673-674) and the templates that write them
    (bridge/client/webrtc.js:727-728). */
module SourceAttrs {
  import opened Wrappers
  import opened Chars
  import opened Scan
  import opened Template

  // ---------------------------------------------------------------------
  // a=ssrc:<ssrc> cname:<cname>

  /** `^a=ssrc:(\d+) cname:([\w+/\-@\.\{\}]+)`: the ssrc digits and the
      canonical name. */
  function CnameMatch(line: string): (r: Option<(string, string)>)
    ensures r.Some? ==> StartsWith(line, "a=ssrc:")
    ensures r.Some? ==> (r.value.0 != [] && AllIn(r.value.0, Digit)
      && r.value.1 != [] && AllIn(r.value.1, CnameChar))
  {
    var r0 :- Expect(line, "a=ssrc:", false);
    var ssrc :- Run1(r0, Digit);
    var r1 :- Expect(ssrc.1, " cname:", false);
    var cname :- Run1(r1, CnameChar);
    Some((ssrc.0, cname.0))
  }

  function CnameText(ssrc: nat, cname: string): string {
    "a=ssrc:" + (Decimal(ssrc) + (" cname:" + cname))
  }

  lemma CnameRoundTrip(ssrc: nat, cname: string)
    requires cname != [] && AllIn(cname, CnameChar)
    ensures CnameMatch(CnameText(ssrc, cname)) == Some((Decimal(ssrc), cname))
  {
    ExpectOf("a=ssrc:", Decimal(ssrc) + (" cname:" + cname), false);
    Run1Of(Decimal(ssrc), " cname:" + cname, Digit);
    ExpectOf(" cname:", cname, false);
    Run1Of(cname, "", CnameChar);
    assert cname + "" == cname;
  }

  /** The object the generator fills both source templates with: the
      description's canonical name and stream ids (null when unset) and
      the ssrc of the line being written. */
  function SrcInfo(cname: Option<string>, streamId: Option<string>, trackId: Option<string>,
    ssrc: Option<nat>): Info
  {
    Entry("cname", OptText(cname), Entry("mediaStreamId", OptText(streamId),
      Entry("mediaStreamTrackId", OptText(trackId), Entry("ssrc", OptNum(ssrc), Done))))
  }

  predicate OptDollarFree(o: Option<string>) {
    o.Some? ==> DollarFree(o.value)
  }

  lemma SrcInfoGood(cname: Option<string>, streamId: Option<string>, trackId: Option<string>,
    ssrc: Option<nat>)
    requires OptDollarFree(cname) && OptDollarFree(streamId) && OptDollarFree(trackId)
    ensures InfoKeysGood(SrcInfo(cname, streamId, trackId, ssrc))
    ensures InfoDollarFree(SrcInfo(cname, streamId, trackId, ssrc))
  {
    Unfold();
    if ssrc.Some? { ClassDollarFree(Decimal(ssrc.value), Digit); }
  }

  /** The `cname` template of the generator. */
  function CnameTemplate(): Tmpl {
    Line(CnameSlots())
  }

  function CnameSlots(): Tmpl {
    Lit("a=ssrc:", Slot("", "ssrc", "", Lit(" cname:", Slot("", "cname", "", End))))
  }

  lemma CnameGood()
    ensures GoodTmpl(CnameSlots()) && DistinctSlots(CnameSlots())
  {
    assert GoodTmpl(CnameSlots()) by {
      assert DollarFree("a=ssrc:") && DollarFree(" cname:");
      assert GoodKey("ssrc") && GoodKey("cname");
    }
    assert "ssrc" != "cname" by {
      assert |"ssrc"| != |"cname"|;
    }
  }

  lemma CnameRender(cname: string, streamId: Option<string>, trackId: Option<string>, ssrc: nat)
    ensures Render(CnameSlots(), SrcInfo(Some(cname), streamId, trackId, Some(ssrc))) ==
      CnameText(ssrc, cname)
  {
    Unfold();
  }

  /** The generator's cname line for one ssrc of a description. */
  lemma CnameFill(cname: string, streamId: Option<string>, trackId: Option<string>, ssrc: nat)
    requires DollarFree(cname) && OptDollarFree(streamId) && OptDollarFree(trackId)
    ensures Fill(Flatten(CnameTemplate()), SrcInfo(Some(cname), streamId, trackId, Some(ssrc))) ==
      CnameText(ssrc, cname) + "\r\n"
  {
    CnameGood();
    SrcInfoGood(Some(cname), streamId, trackId, Some(ssrc));
    FillLine(CnameSlots(), SrcInfo(Some(cname), streamId, trackId, Some(ssrc)));
    CnameRender(cname, streamId, trackId, ssrc);
  }

  // ---------------------------------------------------------------------
  // a=msid:<stream> <track>

  /** `^a=(ssrc:\d+ )?msid:([\w+/\-=]+) +([\w+/\-=]+)`: the stream id and
      the track id. The optional group is tried first; when the rest does
      not match after it, the match is tried without it. */
  function MsidMatch(line: string): (r: Option<(string, string)>)
    ensures r.Some? ==> (r.value.0 != [] && AllIn(r.value.0, MsidChar)
      && r.value.1 != [] && AllIn(r.value.1, MsidChar))
    ensures r.Some? ==> StartsWith(line, "a=ssrc:") || StartsWith(line, "a=msid:")
  {
    var r0 :- Expect(line, "a=", false);
    MsidPrefix(line);
    var withGroup :=
      match SsrcGroup(r0)
      case Some(r1) => MsidTail(r1)
      case None => None;
    if withGroup.Some? then withGroup else MsidTail(r0)
  }

  /** The two forms the msid pattern accepts begin with `a=ssrc:` and
      `a=msid:`. */
  lemma MsidPrefix(line: string)
    requires Expect(line, "a=", false).Some?
    ensures SsrcGroup(line[2..]).Some? ==> StartsWith(line, "a=ssrc:")
    ensures MsidTail(line[2..]).Some? ==> StartsWith(line, "a=msid:")
  {
    if SsrcGroup(line[2..]).Some? {
      SsrcPrefix(line);
    }
    if MsidTail(line[2..]).Some? {
      MsidTailPrefix(line);
    }
  }

  lemma SsrcPrefix(line: string)
    requires StartsWith(line, "a=") && StartsWith(line[2..], "ssrc:")
    ensures StartsWith(line, "a=ssrc:")
  {
    StartsWithAfter(line, "a=", "ssrc:");
    assert "a=" + "ssrc:" == "a=ssrc:";
  }

  lemma MsidTailPrefix(line: string)
    requires StartsWith(line, "a=") && StartsWith(line[2..], "msid:")
    ensures StartsWith(line, "a=msid:")
  {
    StartsWithAfter(line, "a=", "msid:");
    assert "a=" + "msid:" == "a=msid:";
  }

  /** A text that begins with `p` and continues with `q` begins with
      `p + q`. */
  lemma StartsWithAfter(s: string, p: string, q: string)
    requires StartsWith(s, p) && StartsWith(s[|p|..], q)
    ensures StartsWith(s, p + q)
  {
    assert s[..|p + q|] == s[..|p|] + s[|p|..][..|q|];
  }

  /** `ssrc:\d+ `: the text after it. */
  function SsrcGroup(s: string): (r: Option<string>)
    ensures r.Some? ==> StartsWith(s, "ssrc:")
  {
    var r0 :- Expect(s, "ssrc:", false);
    var ssrc :- Run1(r0, Digit);
    Expect(ssrc.1, " ", false)
  }

  /** `msid:([\w+/\-=]+) +([\w+/\-=]+)`. */
  function MsidTail(s: string): (r: Option<(string, string)>)
    ensures r.Some? ==> (r.value.0 != [] && AllIn(r.value.0, MsidChar)
      && r.value.1 != [] && AllIn(r.value.1, MsidChar))
    ensures r.Some? ==> StartsWith(s, "msid:")
  {
    var r0 :- Expect(s, "msid:", false);
    var stream :- Run1(r0, MsidChar);
    var n := SpaceRun(stream.1);
    if n == 0 then None
    else
      var track :- Run1(stream.1[n..], MsidChar);
      Some((stream.0, track.0))
  }

  function MsidText(streamId: string, trackId: string): string {
    "a=msid:" + (streamId + (" " + trackId))
  }

  lemma MsidRoundTrip(streamId: string, trackId: string)
    requires streamId != [] && AllIn(streamId, MsidChar)
    requires trackId != [] && AllIn(trackId, MsidChar)
    ensures MsidMatch(MsidText(streamId, trackId)) == Some((streamId, trackId))
  {
    var r0 := "msid:" + (streamId + (" " + trackId));
    assert MsidText(streamId, trackId) == "a=" + r0;
    assert r0[0] == 'm';
    ExpectMismatch(r0, "ssrc:", false);
    MsidWithoutGroup(r0);
    MsidTailOf(streamId, trackId);
  }

  /** A cname line is not an msid line: after `a=ssrc:` and the ssrc comes
      `cname:`, not `msid:`. */
  lemma MsidNotCname(ssrc: nat, cname: string)
    ensures MsidMatch(CnameText(ssrc, cname)).None?
  {
    var r0 := "ssrc:" + (Decimal(ssrc) + (" cname:" + cname));
    assert CnameText(ssrc, cname) == "a=" + r0;
    ExpectOf("a=", r0, false);
    CnameSsrcGroup(ssrc, cname);
    ExpectMismatch("cname:" + cname, "msid:", false);
    ExpectMismatch(r0, "msid:", false);
  }

  /** The ssrc group of a cname line leaves `cname:` and the name. */
  lemma CnameSsrcGroup(ssrc: nat, cname: string)
    ensures SsrcGroup("ssrc:" + (Decimal(ssrc) + (" cname:" + cname))) == Some("cname:" + cname)
  {
    var d, t := Decimal(ssrc), "cname:" + cname;
    assert " cname:" + cname == " " + t;
    ExpectOf("ssrc:", d + (" " + t), false);
    Run1Of(d, " " + t, Digit);
    ExpectOf(" ", t, false);
  }

  /** A line whose attribute does not open with the ssrc group is matched
      from its `msid:`. */
  lemma MsidWithoutGroup(r0: string)
    requires Expect(r0, "ssrc:", false) == None
    ensures MsidMatch("a=" + r0) == MsidTail(r0)
  {
    ExpectOf("a=", r0, false);
  }

  lemma MsidTailOf(streamId: string, trackId: string)
    requires streamId != [] && AllIn(streamId, MsidChar)
    requires trackId != [] && AllIn(trackId, MsidChar)
    ensures MsidTail("msid:" + (streamId + (" " + trackId))) == Some((streamId, trackId))
  {
    ExpectOf("msid:", streamId + (" " + trackId), false);
    Run1Of(streamId, " " + trackId, MsidChar);
    SpaceThenTrack(trackId);
  }

  lemma SpaceThenTrack(trackId: string)
    requires trackId != [] && AllIn(trackId, MsidChar)
    ensures SpaceRun(" " + trackId) == 1
    ensures Run1((" " + trackId)[1..], MsidChar) == Some((trackId, ""))
  {
    var rest := " " + trackId;
    assert rest[1..] == trackId + "";
    assert InClass(trackId[0], MsidChar);
    assert SpaceRun(rest[1..]) == 0;
    Run1Of(trackId, "", MsidChar);
  }

  /** The `msid` template of the generator. */
  function MsidTemplate(): Tmpl {
    Line(MsidSlots())
  }

  function MsidSlots(): Tmpl {
    Lit("a=msid:", Slot("", "mediaStreamId", "", Lit(" ", Slot("", "mediaStreamTrackId", "", End))))
  }

  lemma MsidGood()
    ensures GoodTmpl(MsidSlots()) && DistinctSlots(MsidSlots())
  {
    assert GoodTmpl(MsidSlots()) by {
      assert DollarFree("a=msid:") && DollarFree(" ");
      assert GoodKey("mediaStreamId") && GoodKey("mediaStreamTrackId");
    }
    assert "mediaStreamId" != "mediaStreamTrackId" by {
      assert |"mediaStreamId"| != |"mediaStreamTrackId"|;
    }
  }

  lemma MsidRender(cname: Option<string>, streamId: string, trackId: string, ssrc: Option<nat>)
    ensures Render(MsidSlots(), SrcInfo(cname, Some(streamId), Some(trackId), ssrc)) ==
      MsidText(streamId, trackId)
  {
    Unfold();
  }

  /** The generator's msid line, whether written per ssrc or once. */
  lemma MsidFill(cname: Option<string>, streamId: string, trackId: string, ssrc: Option<nat>)
    requires OptDollarFree(cname) && DollarFree(streamId) && DollarFree(trackId)
    ensures Fill(Flatten(MsidTemplate()), SrcInfo(cname, Some(streamId), Some(trackId), ssrc)) ==
      MsidText(streamId, trackId) + "\r\n"
  {
    MsidGood();
    SrcInfoGood(cname, Some(streamId), Some(trackId), ssrc);
    FillLine(MsidSlots(), SrcInfo(cname, Some(streamId), Some(trackId), ssrc));
    MsidRender(cname, streamId, trackId, ssrc);
  }
}
