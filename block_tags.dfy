/** The tags of the lines SDP.generate writes (bridge/client/webrtc.js:1003-1160)
    and what each pattern of SDP.parse (bridge/client/webrtc.js:778-1002) can
    see of them. Every group of attribute lines in a block carries one tag
    (`a=rtpmap`, `a=ssrc`, ...), the connection line and the session lines
    carry tags that begin with their own letter, and each pattern the
    parser searches a block with matches only lines of one or two tags:
    so what a pattern finds in a generated block is what it finds in the
    groups of its tags. */
module BlockTags {
  import opened Wrappers
  import opened Chars
  import opened Template
  import opened Lines
  import opened LineTags
  import opened SdpTypes
  import opened SessionLines
  import opened RtpAttrs
  import opened SourceAttrs
  import opened IceAttrs
  import opened DtlsAttrs
  import opened SdpGenerate
  import opened SdpLines

  // ---------------------------------------------------------------------
  // The tags

  /** The tags of the attribute lines a block can hold. */
  const ReaderTags: set<string> := {"a=rtcp", "a=rtcp-mux", "a=sendrecv", "a=sendonly", "a=recvonly",
    "a=inactive", "a=rtpmap", "a=fmtp", "a=rtcp-fb", "a=ssrc", "a=msid", "a=ice-ufrag", "a=ice-pwd",
    "a=ice-options", "a=candidate", "a=fingerprint", "a=setup", "a=sctpmap"}

  /** A tag of a line the generator writes: an attribute tag, the
      msid-semantic tag, the empty line's, or a tag that begins with a
      letter other than `a` (the `c=`, `v=`, `o=`, `s=` and `t=` lines). */
  predicate Known(t: string) {
    t in ReaderTags || t == "a=msid-semantic" || t == "" || t[0] != 'a'
  }

  predicate TagsKnown(ls: seq<string>) {
    forall i :: 0 <= i < |ls| ==> Known(Tag(ls[i]))
  }

  /** The tag of a direction line. */
  function ModeTag(m: MediaDescription): string {
    ModeText(WrittenMode(m))
  }

  lemma TagWordsA()
    ensures NoColon("a=rtcp") && NoUpper("a=rtcp") && NoColon("a=rtcp-mux") && NoUpper("a=rtcp-mux")
    ensures NoColon("a=rtpmap") && NoUpper("a=rtpmap") && NoColon("a=fmtp") && NoUpper("a=fmtp")
    ensures NoColon("a=rtcp-fb") && NoUpper("a=rtcp-fb") && NoColon("a=ssrc") && NoUpper("a=ssrc")
  {
  }

  lemma TagWordsB()
    ensures NoColon("a=msid") && NoUpper("a=msid") && NoColon("a=ice-ufrag") && NoUpper("a=ice-ufrag")
    ensures NoColon("a=ice-pwd") && NoUpper("a=ice-pwd") && NoColon("a=ice-options") && NoUpper("a=ice-options")
  {
  }

  lemma TagWordsC()
    ensures NoColon("a=candidate") && NoUpper("a=candidate") && NoColon("a=fingerprint")
    ensures NoUpper("a=fingerprint") && NoColon("a=setup") && NoUpper("a=setup")
    ensures NoColon("a=sctpmap") && NoUpper("a=sctpmap")
  {
  }

  lemma ModeWords(m: Mode)
    ensures NoColon(ModeText(m)) && NoUpper(ModeText(m))
    ensures ModeText(m) in ReaderTags
  {
    match m
    case SendRecv => assert ModeText(m) == "a=sendrecv";
    case SendOnly => assert ModeText(m) == "a=sendonly";
    case RecvOnly => assert ModeText(m) == "a=recvonly";
    case Inactive => assert ModeText(m) == "a=inactive";
  }

  /** The session and connection lines begin with a letter other than `a`. */
  lemma LeadWords()
    ensures NoColon("c=") && NoUpper("c=") && NoColon("v=") && NoUpper("v=")
    ensures NoColon("o=") && NoUpper("o=") && NoColon("s=") && NoUpper("s=")
    ensures NoColon("t=") && NoUpper("t=")
  {
  }

  /** `k:` and any text after it is tagged `k`. */
  lemma TagAfter(k: string, rest: string)
    requires NoColon(k) && NoUpper(k)
    ensures Tag(k + ":" + rest) == k
  {
    var l := k + ":" + rest;
    assert l[..|k + ":"|] == k + ":";
    TagOf(l, k);
  }

  /** A line that begins with `p`, which has no colon, has a known tag
      when `p` begins with a letter other than `a`. */
  lemma LeadKnown(l: string, p: string)
    requires NoColon(p) && NoUpper(p) && p != [] && p[0] != 'a'
    requires StartsWith(l, p)
    ensures Known(Tag(l))
  {
    TagStarts(l, p);
  }

  // ---------------------------------------------------------------------
  // The tag of each group of lines

  lemma RtcpTagged(r: Rtcp)
    ensures Tagged(RtcpGroup(r), "a=rtcp") && Tagged(MuxGroup(r), "a=rtcp-mux")
  {
    TagWordsA();
    if TruthyNum(r.port) {
      var x := Decimal(r.port.value) + (if RtcpAddr(r).Some? then " IN " + (RtcpAddr(r).value.0 + (" " + RtcpAddr(r).value.1)) else "   ");
      assert RtcpText(r.port.value, RtcpAddr(r)) == "a=rtcp" + ":" + x;
      TagAfter("a=rtcp", x);
    }
    TagWhole(RtcpMuxText);
  }

  lemma ModeTagged(m: MediaDescription)
    ensures Tagged(ModeGroup(m), ModeTag(m))
  {
    ModeWords(WrittenMode(m));
    TagWhole(ModeTag(m));
  }

  lemma RtpmapTagged(p: Payload)
    ensures Tagged(PayloadRtpmap(p), "a=rtpmap")
  {
    TagWordsA();
    var x := NumText(p.payloadType) + " " + (p.encodingName.GetOr("") + ("/" + (Decimal(p.clockRate.GetOr(0))
      + PrefixedNum("/", WrittenChannels(p.channels)))));
    assert PayloadRtpmap(p)[0] == "a=rtpmap" + ":" + x;
    TagAfter("a=rtpmap", x);
  }

  lemma FmtpTagged(p: Payload)
    ensures Tagged(PayloadFmtp(p), "a=fmtp")
  {
    TagWordsA();
    if p.parameters.Some? {
      var x := NumText(p.payloadType) + " " + ParamsText(p.parameters.value);
      assert PayloadFmtp(p)[0] == "a=fmtp" + ":" + x;
      TagAfter("a=fmtp", x);
    }
  }

  lemma FeedbackTagged(p: Payload, on: bool, kind: string)
    ensures Tagged(FeedbackGroup(p, on, kind), "a=rtcp-fb")
  {
    TagWordsA();
    if on {
      var x := NumText(p.payloadType) + " " + kind;
      assert FeedbackGroup(p, on, kind)[0] == "a=rtcp-fb" + ":" + x;
      TagAfter("a=rtcp-fb", x);
    }
  }

  lemma PayloadTagged(ps: seq<Payload>)
    ensures Tagged(Flat(ps, PayloadRtpmap), "a=rtpmap") && Tagged(Flat(ps, PayloadFmtp), "a=fmtp")
    ensures Tagged(Flat(ps, PayloadNack), "a=rtcp-fb") && Tagged(Flat(ps, PayloadNackPli), "a=rtcp-fb")
    ensures Tagged(Flat(ps, PayloadCcmFir), "a=rtcp-fb") && Tagged(Flat(ps, PayloadEricScream), "a=rtcp-fb")
  {
    forall i | 0 <= i < |ps|
      ensures Tagged(PayloadRtpmap(ps[i]), "a=rtpmap") && Tagged(PayloadFmtp(ps[i]), "a=fmtp")
      ensures Tagged(PayloadNack(ps[i]), "a=rtcp-fb") && Tagged(PayloadNackPli(ps[i]), "a=rtcp-fb")
      ensures Tagged(PayloadCcmFir(ps[i]), "a=rtcp-fb") && Tagged(PayloadEricScream(ps[i]), "a=rtcp-fb")
    {
      RtpmapTagged(ps[i]);
      FmtpTagged(ps[i]);
      FeedbackTagged(ps[i], ps[i].nack, Nack);
      FeedbackTagged(ps[i], ps[i].nackpli, NackPli);
      FeedbackTagged(ps[i], ps[i].ccmfir, CcmFir);
      FeedbackTagged(ps[i], ps[i].ericscream, EricScream);
    }
    FlatTagged(ps, PayloadRtpmap, "a=rtpmap");
    FlatTagged(ps, PayloadFmtp, "a=fmtp");
    FlatTagged(ps, PayloadNack, "a=rtcp-fb");
    FlatTagged(ps, PayloadNackPli, "a=rtcp-fb");
    FlatTagged(ps, PayloadCcmFir, "a=rtcp-fb");
    FlatTagged(ps, PayloadEricScream, "a=rtcp-fb");
  }

  lemma SourceTagged(m: MediaDescription)
    ensures Tagged(CnameGroup(m), "a=ssrc") && Tagged(MsidGroup(m), "a=msid")
  {
    TagWordsA();
    TagWordsB();
    if Truthy(m.cname) && m.ssrcs.Some? {
      var ss := m.ssrcs.value;
      forall i | 0 <= i < |ss| ensures Tagged(CnameFn(m.cname.value)(ss[i]), "a=ssrc") {
        var x := Decimal(ss[i]) + (" cname:" + m.cname.value);
        assert CnameText(ss[i], m.cname.value) == "a=ssrc" + ":" + x;
        TagAfter("a=ssrc", x);
      }
      FlatTagged(ss, CnameFn(m.cname.value), "a=ssrc");
    }
    if HasStream(m) {
      var x := m.mediaStreamId.value + (" " + m.mediaStreamTrackId.value);
      var line := MsidText(m.mediaStreamId.value, m.mediaStreamTrackId.value);
      assert line == "a=msid" + ":" + x;
      TagAfter("a=msid", x);
      if Truthy(m.cname) && m.ssrcs.Some? {
        FlatTagged(m.ssrcs.value, LineFn(line), "a=msid");
      }
    }
  }

  lemma IceTagged(ice: Option<Ice>)
    ensures Tagged(UfragGroup(ice), "a=ice-ufrag") && Tagged(PwdGroup(ice), "a=ice-pwd")
    ensures Tagged(OptionGroup(ice), "a=ice-options") && Tagged(CandidateGroup(ice), "a=candidate")
  {
    if ice.Some? {
      CredentialTagged(ice.value.ufrag.GetOr(""), ice.value.password.GetOr(""));
      TrickleTagged();
    }
    CandidatesTagged(ice);
  }

  lemma CandidatesTagged(ice: Option<Ice>)
    ensures Tagged(CandidateGroup(ice), "a=candidate")
  {
    if ice.Some? && ice.value.candidates.Some? {
      var cs := ice.value.candidates.value;
      forall i | 0 <= i < |cs| ensures Tagged(CandidateFn()(cs[i]), "a=candidate") {
        CandidateTagged(cs[i]);
      }
      FlatTagged(cs, CandidateFn(), "a=candidate");
    }
  }

  lemma CredentialTagged(u: string, p: string)
    ensures Tag("a=ice-ufrag:" + u) == "a=ice-ufrag" && Tag("a=ice-pwd:" + p) == "a=ice-pwd"
  {
    TagWordsB();
    assert "a=ice-ufrag:" + u == "a=ice-ufrag" + ":" + u;
    TagAfter("a=ice-ufrag", u);
    assert "a=ice-pwd:" + p == "a=ice-pwd" + ":" + p;
    TagAfter("a=ice-pwd", p);
  }

  lemma TrickleTagged()
    ensures Tag(TrickleLine) == "a=ice-options"
  {
    TagWordsB();
    assert TrickleLine == "a=ice-options" + ":" + "trickle";
    TagAfter("a=ice-options", "trickle");
  }

  lemma CandidateTagged(c: Candidate)
    ensures Tag(CandidateText(c)) == "a=candidate"
  {
    TagWordsC();
    var x := c.foundation + (" " + (Decimal(c.componentId) + (" " + (c.transport
      + (" " + (NumText(c.priority) + (" " + (c.address + (" " + (NumText(c.port)
      + (" typ " + (c.typ + (Prefixed(" raddr ", c.relatedAddress)
      + (PrefixedNum(" rport ", c.relatedPort) + Prefixed(" tcptype ", c.tcpType)))))))))))))));
    assert CandidateText(c) == "a=candidate" + ":" + x;
    TagAfter("a=candidate", x);
  }

  lemma TransportTagged(m: MediaDescription)
    ensures Tagged(FingerprintGroup(m.dtls), "a=fingerprint") && Tagged(SetupGroup(m.dtls), "a=setup")
    ensures Tagged(SctpmapGroup(m.sctp), "a=sctpmap")
  {
    TagWordsC();
    if m.dtls.Some? {
      var d := m.dtls.value;
      if Truthy(d.fingerprint) {
        var x := d.hashFunction.GetOr("") + (" " + d.fingerprint.value);
        assert FingerprintText(d.hashFunction.GetOr(""), d.fingerprint.value) == "a=fingerprint" + ":" + x;
        TagAfter("a=fingerprint", x);
      }
      var y := SetupName(WrittenSetup(d));
      assert SetupText(WrittenSetup(d)) == "a=setup" + ":" + y;
      TagAfter("a=setup", y);
    }
    if m.sctp.Some? {
      var s := m.sctp.value;
      var x := NumText(s.port) + " " + (s.app.GetOr("") + PrefixedNum(" ", s.streams));
      assert SctpmapText(s.port, s.app.GetOr(""), s.streams) == "a=sctpmap" + ":" + x;
      TagAfter("a=sctpmap", x);
    }
  }

  // ---------------------------------------------------------------------
  // The lines of some tags in a block

  /** The group when its tag is among `ks`. */
  function Pick(g: seq<string>, t: string, ks: set<string>): seq<string> {
    if t in ks then g else []
  }

  /** The attribute groups of a block, in the order they are written. */
  datatype Groups = Groups(
    rtcp: seq<string>, mux: seq<string>, modeTag: string, mode: seq<string>,
    rtpmap: seq<string>, fmtp: seq<string>, nack: seq<string>, nackPli: seq<string>,
    ccmFir: seq<string>, ericScream: seq<string>, cname: seq<string>, msid: seq<string>,
    ufrag: seq<string>, pwd: seq<string>, options: seq<string>, candidates: seq<string>,
    fingerprint: seq<string>, setup: seq<string>, sctpmap: seq<string>)

  function GroupsOf(m: MediaDescription): Groups {
    var r, ps := WrittenRtcp(m), WrittenPayloads(m);
    Groups(RtcpGroup(r), MuxGroup(r), ModeTag(m), ModeGroup(m),
      Flat(ps, PayloadRtpmap), Flat(ps, PayloadFmtp), Flat(ps, PayloadNack), Flat(ps, PayloadNackPli),
      Flat(ps, PayloadCcmFir), Flat(ps, PayloadEricScream), CnameGroup(m), MsidGroup(m),
      UfragGroup(m.ice), PwdGroup(m.ice), OptionGroup(m.ice), CandidateGroup(m.ice),
      FingerprintGroup(m.dtls), SetupGroup(m.dtls), SctpmapGroup(m.sctp))
  }

  function PayloadPick(g: Groups, ks: set<string>): seq<string> {
    Pick(g.rtpmap, "a=rtpmap", ks) + (Pick(g.fmtp, "a=fmtp", ks)
    + (Pick(g.nack, "a=rtcp-fb", ks) + (Pick(g.nackPli, "a=rtcp-fb", ks)
    + (Pick(g.ccmFir, "a=rtcp-fb", ks) + Pick(g.ericScream, "a=rtcp-fb", ks)))))
  }

  function IcePick(g: Groups, ks: set<string>): seq<string> {
    (Pick(g.ufrag, "a=ice-ufrag", ks) + Pick(g.pwd, "a=ice-pwd", ks))
    + (Pick(g.options, "a=ice-options", ks) + Pick(g.candidates, "a=candidate", ks))
  }

  function TransportPick(g: Groups, ks: set<string>): seq<string> {
    Pick(g.fingerprint, "a=fingerprint", ks)
    + (Pick(g.setup, "a=setup", ks) + Pick(g.sctpmap, "a=sctpmap", ks))
  }

  /** The groups with a tag among `ks`, in order. */
  function GroupsPick(g: Groups, ks: set<string>): seq<string> {
    (Pick(g.rtcp, "a=rtcp", ks) + Pick(g.mux, "a=rtcp-mux", ks))
    + (Pick(g.mode, g.modeTag, ks)
    + (PayloadPick(g, ks)
    + ((Pick(g.cname, "a=ssrc", ks) + Pick(g.msid, "a=msid", ks))
    + (IcePick(g, ks)
    + TransportPick(g, ks)))))
  }

  /** The attribute lines of a block with a tag among `ks`, group by group. */
  function RestPick(m: MediaDescription, ks: set<string>): seq<string> {
    GroupsPick(GroupsOf(m), ks)
  }

  lemma KeepPick(g: seq<string>, t: string, ks: set<string>)
    requires Tagged(g, t)
    ensures Keep(g, ks) == Pick(g, t, ks)
  {
    KeepTagged(g, t, ks);
  }

  lemma KeepPayload(m: MediaDescription, ks: set<string>)
    ensures Keep(PayloadPiece(WrittenPayloads(m)), ks) == PayloadPick(GroupsOf(m), ks)
  {
    var ps := WrittenPayloads(m);
    PayloadTagged(ps);
    var a, b, c := Flat(ps, PayloadRtpmap), Flat(ps, PayloadFmtp), Flat(ps, PayloadNack);
    var d, e, f := Flat(ps, PayloadNackPli), Flat(ps, PayloadCcmFir), Flat(ps, PayloadEricScream);
    KeepAppend(a, b + (c + (d + (e + f))), ks);
    KeepAppend(b, c + (d + (e + f)), ks);
    KeepAppend(c, d + (e + f), ks);
    KeepAppend(d, e + f, ks);
    KeepAppend(e, f, ks);
    KeepPick(a, "a=rtpmap", ks);
    KeepPick(b, "a=fmtp", ks);
    KeepPick(c, "a=rtcp-fb", ks);
    KeepPick(d, "a=rtcp-fb", ks);
    KeepPick(e, "a=rtcp-fb", ks);
    KeepPick(f, "a=rtcp-fb", ks);
  }

  lemma KeepIce(m: MediaDescription, ks: set<string>)
    ensures Keep(IcePiece(m.ice), ks) == IcePick(GroupsOf(m), ks)
  {
    var ice := m.ice;
    IceTagged(ice);
    var a, b, c, d := UfragGroup(ice), PwdGroup(ice), OptionGroup(ice), CandidateGroup(ice);
    KeepAppend(a + b, c + d, ks);
    KeepAppend(a, b, ks);
    KeepAppend(c, d, ks);
    KeepPick(a, "a=ice-ufrag", ks);
    KeepPick(b, "a=ice-pwd", ks);
    KeepPick(c, "a=ice-options", ks);
    KeepPick(d, "a=candidate", ks);
  }

  lemma KeepTransport(m: MediaDescription, ks: set<string>)
    ensures Keep(TransportPiece(m), ks) == TransportPick(GroupsOf(m), ks)
  {
    TransportTagged(m);
    var a, b, c := FingerprintGroup(m.dtls), SetupGroup(m.dtls), SctpmapGroup(m.sctp);
    KeepAppend(a, b + c, ks);
    KeepAppend(b, c, ks);
    KeepPick(a, "a=fingerprint", ks);
    KeepPick(b, "a=setup", ks);
    KeepPick(c, "a=sctpmap", ks);
  }

  /** The attribute lines of some tags are the groups of those tags. */
  lemma KeepRest(m: MediaDescription, ks: set<string>)
    ensures Keep(Rest(m), ks) == RestPick(m, ks)
  {
    var r := WrittenRtcp(m);
    RtcpTagged(r);
    ModeTagged(m);
    SourceTagged(m);
    var a, b, c := RtcpGroup(r), MuxGroup(r), ModeGroup(m);
    var p, s, t := PayloadPiece(WrittenPayloads(m)), CnameGroup(m) + MsidGroup(m), IcePiece(m.ice) + TransportPiece(m);
    KeepAppend(a + b, c + (p + (s + t)), ks);
    KeepAppend(a, b, ks);
    KeepAppend(c, p + (s + t), ks);
    KeepAppend(p, s + t, ks);
    KeepAppend(s, t, ks);
    KeepAppend(CnameGroup(m), MsidGroup(m), ks);
    KeepAppend(IcePiece(m.ice), TransportPiece(m), ks);
    KeepPick(a, "a=rtcp", ks);
    KeepPick(b, "a=rtcp-mux", ks);
    KeepPick(c, ModeTag(m), ks);
    KeepPick(CnameGroup(m), "a=ssrc", ks);
    KeepPick(MsidGroup(m), "a=msid", ks);
    KeepPayload(m, ks);
    KeepIce(m, ks);
    KeepTransport(m, ks);
  }

  // ---------------------------------------------------------------------
  // Every line of a block carries a known tag

  /** The tags of the direction lines. */
  const ModeTags: set<string> := {"a=sendrecv", "a=sendonly", "a=recvonly", "a=inactive"}

  lemma ModeTagIn(m: Mode)
    ensures ModeText(m) in ModeTags
  {
    match m
    case SendRecv => assert ModeText(m) == "a=sendrecv";
    case SendOnly => assert ModeText(m) == "a=sendonly";
    case RecvOnly => assert ModeText(m) == "a=recvonly";
    case Inactive => assert ModeText(m) == "a=inactive";
  }

  /** Every attribute tag begins with `a`. */
  lemma ReaderTagsLead(t: string)
    requires t in ReaderTags
    ensures t != "" && t[0] == 'a'
  {
  }

  /** A tag the reader of a block never looks at. */
  predicate Foreign(t: string) {
    Known(t) && t !in ReaderTags
  }

  /** A line that begins with a lower-case letter other than `a` and `=`
      carries a foreign tag. */
  lemma LeadForeign(l: string, p: string)
    requires NoColon(p) && NoUpper(p) && |p| == 2 && p[0] != 'a' && p[1] == '='
    requires StartsWith(l, p)
    ensures Foreign(Tag(l))
  {
    TagStarts(l, p);
    if Tag(l) in ReaderTags {
      ReaderTagsLead(Tag(l));
    }
  }

  lemma EmptyForeign()
    ensures Foreign(Tag(""))
  {
    assert IndexOf("", ':').None?;
    assert Tag("") == "";
  }

  lemma {:induction false} KeepAllTagsIn(ls: seq<string>, ks: set<string>)
    requires Keep(ls, ks) == ls
    ensures TagsIn(ls, ks)
  {
    if ls != [] {
      assert Keep(ls, ks) == [ls[0]] + Keep(ls[1..], ks);
      assert Keep(ls[1..], ks) == ls[1..];
      KeepAllTagsIn(ls[1..], ks);
    }
  }

  /** Every attribute line of a block carries an attribute tag. */
  lemma RestTags(m: MediaDescription)
    ensures TagsIn(Rest(m), ReaderTags)
  {
    KeepRest(m, ReaderTags);
    ModeWords(WrittenMode(m));
    assert RestPick(m, ReaderTags) == Rest(m);
    KeepAllTagsIn(Rest(m), ReaderTags);
  }

  // ---------------------------------------------------------------------
  // The tags a pattern reads

  /** Pattern `f` matches only lines tagged in `ks` among lines with known
      tags. */
  ghost predicate ReadsKnown<T>(f: string -> Option<T>, ks: set<string>) {
    forall l :: Known(Tag(l)) && f(l).Some? ==> Tag(l) in ks
  }

  /** A pattern that begins with `k:` reads the lines tagged `k`. */
  lemma ColonReader<T>(f: string -> Option<T>, k: string)
    requires NoColon(k) && NoUpper(k)
    requires forall l :: f(l).Some? ==> StartsWithCI(l, k + ":")
    ensures ReadsKnown(f, {k})
  {
    forall l | Known(Tag(l)) && f(l).Some? ensures Tag(l) in {k} {
      TagOfCI(l, k);
    }
  }

  /** A known tag that begins with a direction's text is that text. */
  lemma ModePrefix(t: string, m: Mode)
    requires Known(t) && StartsWith(t, ModeText(m))
    ensures t == ModeText(m)
  {
    match m
    case SendRecv => PrefixOnly(t, "a=sendrecv");
    case SendOnly => PrefixOnly(t, "a=sendonly");
    case RecvOnly => PrefixOnly(t, "a=recvonly");
    case Inactive => PrefixOnly(t, "a=inactive");
  }

  /** A known tag that begins with the mux line is the mux line. */
  lemma MuxPrefix(t: string)
    requires Known(t) && StartsWith(t, RtcpMuxText)
    ensures t == RtcpMuxText
  {
    PrefixOnly(t, "a=rtcp-mux");
  }

  lemma PrefixOnly(t: string, p: string)
    requires p in {"a=sendrecv", "a=sendonly", "a=recvonly", "a=inactive", "a=rtcp-mux"}
    requires Known(t) && StartsWith(t, p)
    ensures t == p
  {
    assert t[..|p|] == p;
    assert |t| >= 10 && t[0] == 'a' && t[1] == '=' && t[2] == p[2] && t[3] == p[3] && t[4] == p[4];
    assert t[5] == p[5] && t[6] == p[6] && t[7] == p[7] && t[8] == p[8] && t[9] == p[9];
    assert t in ReaderTags;
  }

  // ---------------------------------------------------------------------
  // The lines of the tags each pattern reads

  /** Every direction tag differs from the other attribute tags. */
  lemma ModeTagApart(t: string)
    requires t in ModeTags
    ensures t !in {"a=rtcp", "a=rtcp-mux", "a=rtpmap", "a=fmtp", "a=rtcp-fb", "a=ssrc", "a=msid"}
    ensures t !in {"a=ice-ufrag", "a=ice-pwd", "a=ice-options", "a=candidate"}
    ensures t !in {"a=fingerprint", "a=setup", "a=sctpmap"}
  {
  }

  lemma GroupsMode(g: Groups)
    requires g.modeTag in ModeTags
    ensures GroupsPick(g, ModeTags) == g.mode
  {
  }

  lemma GroupsRtcp(g: Groups)
    requires g.modeTag in ModeTags
    ensures GroupsPick(g, {"a=rtcp"}) == g.rtcp
    ensures GroupsPick(g, {"a=rtcp-mux"}) == g.mux
  {
    ModeTagApart(g.modeTag);
  }

  lemma GroupsPayload(g: Groups)
    requires g.modeTag in ModeTags
    ensures GroupsPick(g, {"a=rtpmap"}) == g.rtpmap
    ensures GroupsPick(g, {"a=fmtp"}) == g.fmtp
    ensures GroupsPick(g, {"a=rtcp-fb"}) == g.nack + (g.nackPli + (g.ccmFir + g.ericScream))
  {
    ModeTagApart(g.modeTag);
  }

  lemma GroupsSources(g: Groups)
    requires g.modeTag in ModeTags
    ensures GroupsPick(g, {"a=ssrc"}) == g.cname
    ensures GroupsPick(g, {"a=ssrc", "a=msid"}) == g.cname + g.msid
  {
    ModeTagApart(g.modeTag);
  }

  lemma GroupsIce(g: Groups)
    requires g.modeTag in ModeTags
    ensures GroupsPick(g, {"a=ice-ufrag"}) == g.ufrag
    ensures GroupsPick(g, {"a=ice-pwd"}) == g.pwd
    ensures GroupsPick(g, {"a=ice-options"}) == g.options
    ensures GroupsPick(g, {"a=candidate"}) == g.candidates
  {
    ModeTagApart(g.modeTag);
  }

  lemma GroupsTransport(g: Groups)
    requires g.modeTag in ModeTags
    ensures GroupsPick(g, {"a=fingerprint"}) == g.fingerprint
    ensures GroupsPick(g, {"a=setup"}) == g.setup
    ensures GroupsPick(g, {"a=sctpmap"}) == g.sctpmap
  {
    ModeTagApart(g.modeTag);
  }

  /** The direction tag of a block is a direction tag. */
  lemma GroupsOfMode(m: MediaDescription)
    ensures GroupsOf(m).modeTag in ModeTags
  {
    ModeTagIn(WrittenMode(m));
  }
}
