/** What SDP.parse (bridge/client/webrtc.js:809-998) reads back from a media
    block that SDP.generate (bridge/client/webrtc.js:1025-1160) wrote: field
    by field, the first line a pattern matches in the block is the first
    line it matches in the groups of the tags it reads, and the session
    block that the parser falls back to holds none of those tags. */
module BlockRead {
  import opened Wrappers
  import opened Chars
  import opened Template
  import opened Lines
  import opened Seqs
  import opened LineTags
  import opened SdpTypes
  import opened SessionLines
  import opened RtpAttrs
  import opened SourceAttrs
  import opened IceAttrs
  import opened DtlsAttrs
  import opened SdpGenerate
  import opened SdpLines
  import opened BlockTags
  import opened SdpParse
  import MediaFormats
  import SdpText

  // ---------------------------------------------------------------------
  // Lines no pattern of a block reads

  /** Lines whose tags are known and none of them an attribute tag: the
      session lines, the connection line and the empty last line. */
  predicate ForeignLines(ls: seq<string>) {
    forall i :: 0 <= i < |ls| ==> Foreign(Tag(ls[i]))
  }

  lemma ForeignAppend(a: seq<string>, b: seq<string>)
    requires ForeignLines(a) && ForeignLines(b)
    ensures ForeignLines(a + b)
  {
    forall i | 0 <= i < |a + b| ensures Foreign(Tag((a + b)[i])) {
      if i >= |a| { assert (a + b)[i] == b[i - |a|]; }
    }
  }

  lemma {:induction false} KeepForeign(ls: seq<string>, ks: set<string>)
    requires ks <= ReaderTags && ForeignLines(ls)
    ensures Keep(ls, ks) == []
  {
    if ls != [] {
      assert Foreign(Tag(ls[0]));
      KeepForeign(ls[1..], ks);
    }
  }

  /** A pattern that reads only attribute tags finds nothing in foreign
      lines. */
  lemma ForeignNone<T>(ls: seq<string>, f: string -> Option<T>, ks: set<string>)
    requires ks <= ReaderTags && ReadsKnown(f, ks) && ForeignLines(ls)
    ensures First(ls, f).None?
    ensures All(ls, f) == []
  {
    assert Reads(ls, f, ks) by {
      forall i | 0 <= i < |ls| && f(ls[i]).Some? ensures Tag(ls[i]) in ks {
        assert Known(Tag(ls[i]));
      }
    }
    FirstKeep(ls, f, ks);
    KeepForeign(ls, ks);
  }

  /** The connection line's tag begins with `c`. */
  lemma ConnForeign(m: MediaDescription)
    ensures Foreign(Tag(ConnectionLine(m)))
  {
    var x := WrittenAddressType(m) + " " + WrittenAddress(m);
    assert ConnectionLine(m) == "c=" + ("IN " + x);
    assert "c=" == ['c', '='];
    LeadForeign(ConnectionLine(m), "c=");
  }

  // ---------------------------------------------------------------------
  // A block as the patterns see it

  /** The lines of a block with some attribute tags are the groups of
      those tags, whatever foreign lines follow the block. */
  lemma BlockKeep(m: MediaDescription, extra: seq<string>, ks: set<string>)
    requires ks <= ReaderTags && ForeignLines(extra)
    ensures Keep(Body(m) + extra, ks) == RestPick(m, ks)
  {
    var c := [ConnectionLine(m)];
    ConnForeign(m);
    assert ForeignLines(c);
    assert Body(m) + extra == c + (Rest(m) + extra);
    KeepAppend(c, Rest(m) + extra, ks);
    KeepAppend(Rest(m), extra, ks);
    KeepForeign(c, ks);
    KeepForeign(extra, ks);
    KeepRest(m, ks);
  }

  /** A line with a foreign tag, lines with reader tags and foreign lines
      all have known tags. */
  lemma KnownJoin(c: string, r: seq<string>, e: seq<string>)
    requires Foreign(Tag(c)) && TagsIn(r, ReaderTags) && ForeignLines(e)
    ensures TagsKnown(([c] + r) + e)
  {
    var ls := ([c] + r) + e;
    forall i | 0 <= i < |ls| ensures Known(Tag(ls[i])) {
      if i == 0 {
      } else if i <= |r| {
        assert ls[i] == r[i - 1];
      } else {
        assert ls[i] == e[i - 1 - |r|];
      }
    }
  }

  /** Every line of a block followed by foreign lines has a known tag. */
  lemma BlockKnown(m: MediaDescription, extra: seq<string>)
    requires ForeignLines(extra)
    ensures TagsKnown(Body(m) + extra)
  {
    RestTags(m);
    ConnForeign(m);
    KnownJoin(ConnectionLine(m), Rest(m), extra);
  }

  /** What a pattern finds in a block is what it finds in the groups of
      the tags it reads. */
  lemma BlockFirst<T>(m: MediaDescription, extra: seq<string>, f: string -> Option<T>, ks: set<string>)
    requires ks <= ReaderTags && ReadsKnown(f, ks) && ForeignLines(extra)
    ensures First(Body(m) + extra, f) == First(RestPick(m, ks), f)
    ensures All(Body(m) + extra, f) == All(RestPick(m, ks), f)
  {
    var ls := Body(m) + extra;
    BlockKnown(m, extra);
    assert Reads(ls, f, ks) by {
      forall i | 0 <= i < |ls| && f(ls[i]).Some? ensures Tag(ls[i]) in ks {
        assert Known(Tag(ls[i]));
      }
    }
    FirstKeep(ls, f, ks);
    BlockKeep(m, extra, ks);
  }

  /** The fallback to the session block finds nothing there. */
  lemma BlockFirstOr<T>(m: MediaDescription, extra: seq<string>, sb: seq<string>,
    f: string -> Option<T>, ks: set<string>)
    requires ks <= ReaderTags && ReadsKnown(f, ks) && ForeignLines(extra) && ForeignLines(sb)
    ensures FirstOr(Body(m) + extra, sb, f) == First(RestPick(m, ks), f)
  {
    BlockFirst(m, extra, f, ks);
    ForeignNone(sb, f, ks);
  }

  // ---------------------------------------------------------------------
  // The tags each pattern reads

  /** A pattern that begins with `k:`, in the case it is written in. */
  lemma ExactReader<T>(f: string -> Option<T>, k: string)
    requires NoColon(k) && NoUpper(k)
    requires forall l :: f(l).Some? ==> StartsWith(l, k + ":")
    ensures ReadsKnown(f, {k})
  {
    assert NoUpper(k + ":");
    forall l | f(l).Some? ensures StartsWithCI(l, k + ":") {
      CaseSensitive(l, k + ":");
    }
    ColonReader(f, k);
  }

  lemma RtcpReads()
    ensures ReadsKnown(RtcpMatch, {"a=rtcp"})
  {
    TagWordsA();
    assert "a=rtcp" + ":" == "a=rtcp:";
    ExactReader(RtcpMatch, "a=rtcp");
  }

  lemma MuxReads()
    ensures ReadsKnown(RtcpMuxMatch, {"a=rtcp-mux"})
  {
    TagWordsA();
    forall l | Known(Tag(l)) && RtcpMuxMatch(l).Some? ensures Tag(l) in {"a=rtcp-mux"} {
      TagStarts(l, "a=rtcp-mux");
      MuxPrefix(Tag(l));
    }
  }

  lemma ModeReads()
    ensures ReadsKnown(ModeMatch, ModeTags)
  {
    forall l | Known(Tag(l)) && ModeMatch(l).Some? ensures Tag(l) in ModeTags {
      var r := ModeMatch(l).value;
      ModeWords(r);
      TagStarts(l, ModeText(r));
      ModePrefix(Tag(l), r);
      ModeTagIn(r);
    }
  }

  lemma RtpmapReads(pt: Option<nat>)
    ensures ReadsKnown(RtpmapAt(pt), {"a=rtpmap"})
  {
    TagWordsA();
    forall l | RtpmapAt(pt)(l).Some? ensures StartsWith(l, "a=rtpmap" + ":") {
      RtpmapStarts(l, pt);
    }
    ExactReader(RtpmapAt(pt), "a=rtpmap");
  }

  lemma RtpmapStarts(l: string, pt: Option<nat>)
    requires StartsWith(l, "a=rtpmap:" + NumText(pt) + " ")
    ensures StartsWith(l, "a=rtpmap" + ":")
  {
    assert "a=rtpmap:" + NumText(pt) + " " == "a=rtpmap" + ":" + (NumText(pt) + " ");
    StartsWithPrefix(l, "a=rtpmap" + ":", NumText(pt) + " ");
  }

  lemma FmtpReads(pt: Option<nat>)
    ensures ReadsKnown(FmtpAt(pt), {"a=fmtp"})
  {
    TagWordsA();
    forall l | FmtpAt(pt)(l).Some? ensures StartsWith(l, "a=fmtp" + ":") {
      assert "a=fmtp:" + NumText(pt) + " " == "a=fmtp" + ":" + (NumText(pt) + " ");
      StartsWithPrefix(l, "a=fmtp" + ":", NumText(pt) + " ");
    }
    ExactReader(FmtpAt(pt), "a=fmtp");
  }

  lemma SctpmapReads(port: Option<nat>)
    ensures ReadsKnown(SctpmapAt(port), {"a=sctpmap"})
  {
    TagWordsC();
    forall l | SctpmapAt(port)(l).Some? ensures StartsWith(l, "a=sctpmap" + ":") {
      assert "a=sctpmap:" + NumText(port) + " " == "a=sctpmap" + ":" + (NumText(port) + " ");
      StartsWithPrefix(l, "a=sctpmap" + ":", NumText(port) + " ");
    }
    ExactReader(SctpmapAt(port), "a=sctpmap");
  }

  lemma CnameReads()
    ensures ReadsKnown(CnameMatch, {"a=ssrc"})
  {
    TagWordsA();
    assert "a=ssrc" + ":" == "a=ssrc:";
    ExactReader(CnameMatch, "a=ssrc");
  }

  /** The msid pattern reads both the per-source and the plain msid lines. */
  lemma MsidReads()
    ensures ReadsKnown(MsidMatch, {"a=ssrc", "a=msid"})
  {
    TagWordsA();
    TagWordsB();
    assert "a=ssrc" + ":" == "a=ssrc:" && "a=msid" + ":" == "a=msid:";
    forall l | Known(Tag(l)) && MsidMatch(l).Some? ensures Tag(l) in {"a=ssrc", "a=msid"} {
      if StartsWith(l, "a=ssrc:") {
        TagOf(l, "a=ssrc");
      } else {
        TagOf(l, "a=msid");
      }
    }
  }

  lemma IceReads()
    ensures ReadsKnown(UfragMatch, {"a=ice-ufrag"})
    ensures ReadsKnown(PwdMatch, {"a=ice-pwd"})
    ensures ReadsKnown(IceOptionsMatch, {"a=ice-options"})
  {
    TagWordsB();
    assert "a=ice-ufrag" + ":" == "a=ice-ufrag:";
    assert "a=ice-pwd" + ":" == "a=ice-pwd:";
    assert "a=ice-options" + ":" == "a=ice-options:";
    ExactReader(UfragMatch, "a=ice-ufrag");
    ExactReader(PwdMatch, "a=ice-pwd");
    ExactReader(IceOptionsMatch, "a=ice-options");
  }

  lemma CandidateReads()
    ensures ReadsKnown(CandidateMatch, {"a=candidate"})
  {
    TagWordsC();
    assert "a=candidate" + ":" == "a=candidate:";
    ColonReader(CandidateMatch, "a=candidate");
  }

  lemma DtlsReads()
    ensures ReadsKnown(FingerprintMatch, {"a=fingerprint"})
    ensures ReadsKnown(SetupMatch, {"a=setup"})
  {
    TagWordsC();
    assert "a=fingerprint" + ":" == "a=fingerprint:";
    ColonReader(FingerprintMatch, "a=fingerprint");
    forall l | SetupMatch(l).Some? ensures StartsWith(l, "a=setup" + ":") {
      assert "a=setup:" == "a=setup" + ":";
      StartsWithPrefix(l, "a=setup:", SetupName(SetupMatch(l).value));
    }
    ExactReader(SetupMatch, "a=setup");
  }

  // ---------------------------------------------------------------------
  // The connection line and the direction

  /** The connection line heads the block, so the block's own address is
      read and the session block is never consulted. */
  lemma ConnRead(m: MediaDescription, extra: seq<string>, sb: seq<string>)
    requires WrittenAddressType(m) == "IP4" || WrittenAddressType(m) == "IP6"
    requires WrittenAddress(m) != [] && AllIn(WrittenAddress(m), Address)
    ensures FirstOr(Body(m) + extra, sb, ConnectionMatch) == Some((WrittenAddressType(m), WrittenAddress(m)))
  {
    ConnectionRoundTrip(WrittenAddressType(m), WrittenAddress(m));
    assert (Body(m) + extra)[0] == ConnectionLine(m);
  }

  /** The direction written, the default `sendrecv` included, is read. */
  lemma ModeRead(m: MediaDescription, extra: seq<string>, sb: seq<string>)
    requires ForeignLines(extra) && ForeignLines(sb)
    ensures FirstOr(Body(m) + extra, sb, ModeMatch) == Some(WrittenMode(m))
  {
    ModeReads();
    BlockFirstOr(m, extra, sb, ModeMatch, ModeTags);
    GroupsOfMode(m);
    GroupsMode(GroupsOf(m));
    ModeRoundTrip(WrittenMode(m));
  }

  // ---------------------------------------------------------------------
  // RTCP

  /** What the parser makes of the rtcp fields the generator writes: a
      record when there is a non-zero port or mux, with the port and, when
      it is set, the address and its type (`IP4` when unset). */
  function NormalRtcp(r: Rtcp): Option<Rtcp> {
    var own :=
      if TruthyNum(r.port) then
        Some(Rtcp(r.port, if Truthy(r.address) then Some(r.addressType.GetOr("IP4")) else None,
          if Truthy(r.address) then r.address else None, false))
      else None;
    if r.mux then Some(own.GetOr(SdpParse.NoRtcp).(mux := true)) else own
  }

  lemma RtcpLineRead(r: Rtcp)
    requires RtcpWritable(r)
    ensures First(RtcpGroup(r), RtcpMatch) ==
      if TruthyNum(r.port) then Some((Decimal(r.port.value), RtcpAddr(r))) else None
  {
    if TruthyNum(r.port) {
      RtcpRoundTrip(r.port.value, RtcpAddr(r));
    }
  }

  /** The rtcp fields read from lines where the rtcp pattern finds the
      generator's rtcp line, if any, and the mux pattern finds a line
      exactly when mux is on. */
  lemma RtcpFrom(lines: seq<string>, sb: seq<string>, r: Rtcp)
    requires First(lines, RtcpMatch) ==
      if TruthyNum(r.port) then Some((Decimal(r.port.value), RtcpAddr(r))) else None
    requires FirstOr(lines, sb, RtcpMuxMatch).Some? == r.mux
    ensures RtcpOf(lines, sb) == NormalRtcp(r)
  {
    if TruthyNum(r.port) {
      ParseIntDecimal(r.port.value, "");
      assert Decimal(r.port.value) + "" == Decimal(r.port.value);
    }
  }

  lemma RtcpRead(m: MediaDescription, extra: seq<string>, sb: seq<string>)
    requires RtcpWritable(WrittenRtcp(m))
    requires ForeignLines(extra) && ForeignLines(sb)
    ensures RtcpOf(Body(m) + extra, sb) == NormalRtcp(WrittenRtcp(m))
  {
    var g := GroupsOf(m);
    RtcpReads();
    MuxReads();
    GroupsOfMode(m);
    GroupsRtcp(g);
    BlockFirst(m, extra, RtcpMatch, {"a=rtcp"});
    BlockFirstOr(m, extra, sb, RtcpMuxMatch, {"a=rtcp-mux"});
    RtcpLineRead(WrittenRtcp(m));
    RtcpFrom(Body(m) + extra, sb, WrittenRtcp(m));
  }

  // ---------------------------------------------------------------------
  // Sources and stream ids

  /** The ssrcs and cname read back: set when the cname and a non-empty
      ssrc list are. */
  function NormalSources(m: MediaDescription): (Option<seq<nat>>, Option<string>) {
    if Truthy(m.cname) && m.ssrcs.Some? && m.ssrcs.value != [] then (m.ssrcs, m.cname) else (None, None)
  }

  /** What the cname pattern captures from the cname line of an ssrc. */
  function CnameFound(cname: string): nat -> (string, string) {
    (ssrc: nat) => (Decimal(ssrc), cname)
  }

  lemma CnameAll(m: MediaDescription)
    requires SourcesWritable(m)
    ensures All(CnameGroup(m), CnameMatch) ==
      if Truthy(m.cname) && m.ssrcs.Some? then Map(m.ssrcs.value, CnameFound(m.cname.value)) else []
  {
    if Truthy(m.cname) && m.ssrcs.Some? {
      var ss, c := m.ssrcs.value, m.cname.value;
      forall i | 0 <= i < |ss| ensures All(CnameFn(c)(ss[i]), CnameMatch) == [CnameFound(c)(ss[i])] {
        CnameRoundTrip(ss[i], c);
      }
      AllFlat(ss, CnameFn(c), CnameMatch, CnameFound(c));
    }
  }

  lemma SsrcValuesOf(ss: seq<nat>, c: string)
    ensures SsrcDigits(Map(ss, CnameFound(c)))
    ensures SsrcValues(Map(ss, CnameFound(c))) == ss
  {
    var found := Map(ss, CnameFound(c));
    forall k | 0 <= k < |ss| ensures ParseInt(found[k].0) == Some(ss[k]) {
      ParseIntDecimal(ss[k], "");
      assert Decimal(ss[k]) + "" == Decimal(ss[k]);
    }
  }

  lemma SourcesFrom(lines: seq<string>, m: MediaDescription)
    requires All(lines, CnameMatch) ==
      if Truthy(m.cname) && m.ssrcs.Some? then Map(m.ssrcs.value, CnameFound(m.cname.value)) else []
    ensures SourcesOf(lines) == NormalSources(m)
  {
    if Truthy(m.cname) && m.ssrcs.Some? {
      SsrcValuesOf(m.ssrcs.value, m.cname.value);
    }
  }

  lemma SourcesRead(m: MediaDescription, extra: seq<string>)
    requires SourcesWritable(m) && ForeignLines(extra)
    ensures SourcesOf(Body(m) + extra) == NormalSources(m)
  {
    CnameReads();
    GroupsOfMode(m);
    GroupsSources(GroupsOf(m));
    BlockFirst(m, extra, CnameMatch, {"a=ssrc"});
    CnameAll(m);
    SourcesFrom(Body(m) + extra, m);
  }

  /** The stream ids read back: set when the session groups streams and
      the description has both ids, unless it has a cname with no ssrcs,
      for which the generator writes no msid line. */
  function NormalIds(m: MediaDescription, msid: bool): Option<(string, string)> {
    if msid && HasStream(m) && !(Truthy(m.cname) && m.ssrcs == Some([])) then
      Some((m.mediaStreamId.value, m.mediaStreamTrackId.value))
    else None
  }

  /** The first match in the same line repeated. */
  lemma {:induction false} FirstRepeated<T>(xs: seq<nat>, line: string, f: string -> Option<T>)
    ensures First(Flat(xs, LineFn(line)), f) == if xs == [] then None else f(line)
    decreases |xs|
  {
    if xs != [] {
      var init := xs[..|xs| - 1];
      assert xs == init + [xs[|xs| - 1]];
      FlatSnoc(init, xs[|xs| - 1], LineFn(line));
      FirstAppend(Flat(init, LineFn(line)), [line], f);
      FirstRepeated(init, line, f);
    }
  }

  lemma CnameNoMsid(m: MediaDescription)
    ensures First(CnameGroup(m), MsidMatch).None?
  {
    if Truthy(m.cname) && m.ssrcs.Some? {
      var ss, c := m.ssrcs.value, m.cname.value;
      forall j | 0 <= j < |ss| ensures First(CnameFn(c)(ss[j]), MsidMatch).None? {
        MsidNotCname(ss[j], c);
      }
      FirstFlatNone(ss, CnameFn(c), MsidMatch);
    }
  }

  lemma MsidGroupRead(m: MediaDescription)
    requires SourcesWritable(m)
    ensures First(MsidGroup(m), MsidMatch) == NormalIds(m, true)
  {
    if HasStream(m) {
      var line := MsidText(m.mediaStreamId.value, m.mediaStreamTrackId.value);
      MsidRoundTrip(m.mediaStreamId.value, m.mediaStreamTrackId.value);
      if Truthy(m.cname) && m.ssrcs.Some? {
        FirstRepeated(m.ssrcs.value, line, MsidMatch);
      }
    }
  }

  lemma IdsRead(m: MediaDescription, extra: seq<string>, msid: bool)
    requires SourcesWritable(m) && ForeignLines(extra)
    ensures (if msid then First(Body(m) + extra, MsidMatch) else None) == NormalIds(m, msid)
  {
    MsidReads();
    GroupsOfMode(m);
    GroupsSources(GroupsOf(m));
    BlockFirst(m, extra, MsidMatch, {"a=ssrc", "a=msid"});
    CnameNoMsid(m);
    FirstAppend(CnameGroup(m), MsidGroup(m), MsidMatch);
    MsidGroupRead(m);
  }

  // ---------------------------------------------------------------------
  // ICE

  /** The ICE fields read back: the credentials, the trickle option, and
      the candidates when there is at least one; the parser never sets the
      end of gathering. */
  function NormalIce(ice: Option<Ice>): Option<Ice> {
    if ice.None? then None
    else
      var i := ice.value;
      Some(Ice(i.ufrag, i.password, i.trickle,
        if i.candidates.Some? && i.candidates.value != [] then i.candidates else None, false))
  }

  /** Groups of one line each, every line read by `f` into something `h`
      takes back to the element it was written from. */
  lemma {:induction false} AllAllFlat<T, U>(xs: seq<T>, g: T -> seq<string>, f: string -> Option<U>,
    h: U -> Option<T>)
    requires forall i :: 0 <= i < |xs| ==>
      |All(g(xs[i]), f)| == 1 && h(All(g(xs[i]), f)[0]) == Some(xs[i])
    ensures |All(Flat(xs, g), f)| == |xs|
    ensures All(All(Flat(xs, g), f), h) == xs
    decreases |xs|
  {
    if xs != [] {
      var init, x := xs[..|xs| - 1], xs[|xs| - 1];
      assert xs == init + [x];
      FlatSnoc(init, x, g);
      AllAppend(Flat(init, g), g(x), f);
      var found := All(Flat(init, g), f);
      var one := All(g(x), f);
      assert one == [one[0]];
      AllAppend(found, one, h);
      AllAllFlat(init, g, f, h);
    }
  }

  lemma CandidateOne(c: Candidate)
    requires CandidateWellFormed(c)
    ensures |All(CandidateFn()(c), CandidateMatch)| == 1
    ensures Accept(All(CandidateFn()(c), CandidateMatch)[0]) == Some(c)
  {
    CandidateMatchText(c);
    AcceptFieldsOf(c);
  }

  /** Every candidate line written is read and kept, in order. */
  lemma CandidatesFound(cs: seq<Candidate>)
    requires forall k :: 0 <= k < |cs| ==> CandidateWellFormed(cs[k])
    ensures |All(Flat(cs, CandidateFn()), CandidateMatch)| == |cs|
    ensures Accepted(All(Flat(cs, CandidateFn()), CandidateMatch)) == cs
  {
    forall i | 0 <= i < |cs| ensures |All(CandidateFn()(cs[i]), CandidateMatch)| == 1
      && Accept(All(CandidateFn()(cs[i]), CandidateMatch)[0]) == Some(cs[i])
    {
      CandidateOne(cs[i]);
    }
    AllAllFlat(cs, CandidateFn(), CandidateMatch, Accept);
  }

  lemma IceFrom(lines: seq<string>, sb: seq<string>, ice: Option<Ice>)
    requires ice.Some? ==> ice.value.ufrag.Some? && ice.value.password.Some?
    requires FirstOr(lines, sb, UfragMatch) == if ice.Some? then ice.value.ufrag else None
    requires FirstOr(lines, sb, PwdMatch) == if ice.Some? then ice.value.password else None
    requires var o := FirstOr(lines, sb, IceOptionsMatch);
      (o.Some? && CanTrickle(o.value)) == (ice.Some? && ice.value.trickle)
    requires var found := All(lines, CandidateMatch);
      (found == []) == !(ice.Some? && ice.value.candidates.Some? && ice.value.candidates.value != [])
      && (found != [] ==> Accepted(found) == ice.value.candidates.value)
    ensures IceOf(lines, sb) == NormalIce(ice)
  {
  }

  lemma IceLinesRead(ice: Option<Ice>)
    requires IceWritable(ice)
    ensures First(UfragGroup(ice), UfragMatch) == if ice.Some? then ice.value.ufrag else None
    ensures First(PwdGroup(ice), PwdMatch) == if ice.Some? then ice.value.password else None
    ensures var o := First(OptionGroup(ice), IceOptionsMatch);
      (o.Some? && CanTrickle(o.value)) == (ice.Some? && ice.value.trickle)
    ensures var found := All(CandidateGroup(ice), CandidateMatch);
      (found == []) == !(ice.Some? && ice.value.candidates.Some? && ice.value.candidates.value != [])
      && (found != [] ==> Accepted(found) == ice.value.candidates.value)
  {
    if ice.Some? {
      UfragRoundTrip(ice.value.ufrag.value);
      PwdRoundTrip(ice.value.password.value);
      TrickleLineTrickles();
      if ice.value.candidates.Some? {
        CandidatesFound(ice.value.candidates.value);
      }
    }
  }

  lemma IceRead(m: MediaDescription, extra: seq<string>, sb: seq<string>)
    requires IceWritable(m.ice) && ForeignLines(extra) && ForeignLines(sb)
    ensures IceOf(Body(m) + extra, sb) == NormalIce(m.ice)
  {
    IceReads();
    CandidateReads();
    GroupsOfMode(m);
    GroupsIce(GroupsOf(m));
    BlockFirstOr(m, extra, sb, UfragMatch, {"a=ice-ufrag"});
    BlockFirstOr(m, extra, sb, PwdMatch, {"a=ice-pwd"});
    BlockFirstOr(m, extra, sb, IceOptionsMatch, {"a=ice-options"});
    BlockFirst(m, extra, CandidateMatch, {"a=candidate"});
    IceLinesRead(m.ice);
    IceFrom(Body(m) + extra, sb, m.ice);
  }

  // ---------------------------------------------------------------------
  // DTLS and SCTP

  /** The DTLS fields read back: the hash function and the fingerprint in
      upper case when a fingerprint is set, and the role, `actpass` when
      unset. */
  function NormalDtls(dtls: Option<Dtls>): Option<Dtls> {
    if dtls.None? then None
    else
      var d := dtls.value;
      var fp := Truthy(d.fingerprint);
      Some(Dtls(if fp then d.hashFunction else None,
        if fp then Some(UpperString(d.fingerprint.value)) else None,
        Some(WrittenSetup(d))))
  }

  lemma DtlsFrom(lines: seq<string>, sb: seq<string>, dtls: Option<Dtls>)
    requires var fp := dtls.Some? && Truthy(dtls.value.fingerprint);
      (fp ==> dtls.value.hashFunction.Some? && LowerString(dtls.value.hashFunction.value) == dtls.value.hashFunction.value)
      && FirstOr(lines, sb, FingerprintMatch) ==
        if fp then Some((dtls.value.hashFunction.value, dtls.value.fingerprint.value)) else None
    requires FirstOr(lines, sb, SetupMatch) == if dtls.Some? then Some(WrittenSetup(dtls.value)) else None
    ensures DtlsOf(lines, sb) == NormalDtls(dtls)
  {
  }

  lemma DtlsLinesRead(dtls: Option<Dtls>)
    requires DtlsWritable(dtls)
    ensures var fp := dtls.Some? && Truthy(dtls.value.fingerprint);
      (fp ==> dtls.value.hashFunction.Some? && LowerString(dtls.value.hashFunction.value) == dtls.value.hashFunction.value)
      && First(FingerprintGroup(dtls), FingerprintMatch) ==
        if fp then Some((dtls.value.hashFunction.value, dtls.value.fingerprint.value)) else None
    ensures First(SetupGroup(dtls), SetupMatch) == if dtls.Some? then Some(WrittenSetup(dtls.value)) else None
  {
    if dtls.Some? {
      var d := dtls.value;
      if Truthy(d.fingerprint) {
        FingerprintRoundTrip(d.hashFunction.value, d.fingerprint.value);
      }
      SetupRoundTrip(WrittenSetup(d));
    }
  }

  lemma DtlsRead(m: MediaDescription, extra: seq<string>, sb: seq<string>)
    requires DtlsWritable(m.dtls) && ForeignLines(extra) && ForeignLines(sb)
    ensures DtlsOf(Body(m) + extra, sb) == NormalDtls(m.dtls)
  {
    DtlsReads();
    GroupsOfMode(m);
    GroupsTransport(GroupsOf(m));
    BlockFirstOr(m, extra, sb, FingerprintMatch, {"a=fingerprint"});
    BlockFirstOr(m, extra, sb, SetupMatch, {"a=setup"});
    DtlsLinesRead(m.dtls);
    DtlsFrom(Body(m) + extra, sb, m.dtls);
  }

  lemma SctpmapLineRead(sctp: Option<Sctp>)
    requires SctpWritable(sctp) && sctp.Some?
    ensures First(SctpmapGroup(sctp), SctpmapAt(sctp.value.port)) ==
      Some((sctp.value.app.value,
        if sctp.value.streams.Some? then Some(Decimal(sctp.value.streams.value)) else None))
  {
    var s := sctp.value;
    SctpmapRoundTrip(s.port, s.app.value, s.streams);
  }

  /** A data line's association is read back whole, its port being the
      line's format. */
  lemma SctpRead(m: MediaDescription, extra: seq<string>)
    requires SctpWritable(m.sctp) && m.sctp.Some? && ForeignLines(extra)
    ensures SctpOf(SctpProtocol, m.sctp.value.port, Body(m) + extra) == m.sctp
  {
    var s := m.sctp.value;
    SctpmapReads(s.port);
    GroupsOfMode(m);
    GroupsTransport(GroupsOf(m));
    BlockFirst(m, extra, SctpmapAt(s.port), {"a=sctpmap"});
    SctpmapLineRead(m.sctp);
    if s.streams.Some? {
      ParseIntDecimal(s.streams.value, "");
      assert Decimal(s.streams.value) + "" == Decimal(s.streams.value);
    }
  }

  // ---------------------------------------------------------------------
  // Payloads

  /** Two payload types each followed by a space cannot begin the same
      text unless they are the same type. */
  lemma TypePrefixApart(pre: string, a: nat, b: nat, x: string)
    requires StartsWith(pre + Decimal(a) + " " + x, pre + Decimal(b) + " ")
    ensures a == b
  {
    var da, db := Decimal(a), Decimal(b);
    var s := pre + da + " " + x;
    var p := pre + db + " ";
    assert s[..|p|] == p;
    var k := if |da| <= |db| then |da| else |db|;
    assert s[|pre| + k] == p[|pre| + k];
    assert s[|pre| + k] == (da + " ")[k];
    assert p[|pre| + k] == (db + " ")[k];
    assert |da| == |db|;
    assert da == s[|pre|..|pre| + |da|] == p[|pre|..|pre| + |db|] == db;
    DecimalInjective(a, b);
  }

  /** A feedback line names one payload type and one kind. */
  lemma FeedbackApart(a: nat, b: nat, k1: string, k2: string)
    requires FeedbackText(Some(a), k1) == FeedbackText(Some(b), k2)
    ensures a == b && k1 == k2
  {
    var pre := "a=rtcp-fb:";
    assert FeedbackText(Some(a), k1) == pre + Decimal(a) + " " + k1;
    assert FeedbackText(Some(b), k2) == pre + Decimal(b) + " " + k2;
    TypePrefixApart(pre, a, b, k1);
    var n := |pre + Decimal(a) + " "|;
    assert k1 == FeedbackText(Some(a), k1)[n..];
    assert k2 == FeedbackText(Some(b), k2)[n..];
  }

  /** What the parser makes of a payload the generator wrote: its type,
      name, clock rate and parameters; for audio the channel count, one
      when unset or zero; for video the feedback flags; no feedback and no
      channels for other kinds. */
  function NormalPayload(t: MediaType, p: Payload): Payload {
    Payload(p.payloadType, p.encodingName, p.clockRate,
      if t.Audio? then Some(if p.channels.Some? && p.channels.value != 0 then p.channels.value else 1) else None,
      t.Video? && p.nack, t.Video? && p.nackpli, t.Video? && p.ccmfir, t.Video? && p.ericscream,
      p.parameters)
  }

  function NormalPayloadFn(t: MediaType): Payload -> Payload {
    p => NormalPayload(t, p)
  }

  /** The fields the rtpmap pattern captures from a payload's line. */
  function RtpmapFieldsOf(p: Payload): RtpmapFields
    requires PayloadWritable(p)
  {
    var ch := WrittenChannels(p.channels);
    RtpmapFields(p.encodingName.value, Decimal(p.clockRate.value), if ch.Some? then Some(Decimal(ch.value)) else None)
  }

  /** The parameter text the fmtp pattern captures from a payload's line. */
  function FmtpFieldsOf(p: Payload): Option<string> {
    if p.parameters.Some? then Some(ParamsText(p.parameters.value)) else None
  }

  lemma RtpmapApart(p: Payload, q: Payload)
    requires p.payloadType.Some? && q.payloadType.Some? && p.payloadType != q.payloadType
    ensures First(PayloadRtpmap(q), RtpmapAt(p.payloadType)).None?
  {
    var l := PayloadRtpmap(q)[0];
    if RtpmapMatch(l, p.payloadType).Some? {
      var x := q.encodingName.GetOr("") + ("/" + (Decimal(q.clockRate.GetOr(0)) + PrefixedNum("/", WrittenChannels(q.channels))));
      assert l == "a=rtpmap:" + Decimal(q.payloadType.value) + " " + x;
      TypePrefixApart("a=rtpmap:", q.payloadType.value, p.payloadType.value, x);
    }
  }

  lemma FmtpApart(p: Payload, q: Payload)
    requires p.payloadType.Some? && q.payloadType.Some? && p.payloadType != q.payloadType
    ensures First(PayloadFmtp(q), FmtpAt(p.payloadType)).None?
  {
    if q.parameters.Some? {
      var x := ParamsText(q.parameters.value);
      var l := PayloadFmtp(q)[0];
      if FmtpMatch(l, p.payloadType).Some? {
        assert l == "a=fmtp:" + Decimal(q.payloadType.value) + " " + x;
        TypePrefixApart("a=fmtp:", q.payloadType.value, p.payloadType.value, x);
      }
    }
  }

  /** The rtpmap pattern of a payload's type finds that payload's line
      among the rtpmap lines of all payloads. */
  lemma RtpmapInFlat(ps: seq<Payload>, i: nat)
    requires PayloadsWritable(ps) && i < |ps|
    ensures First(Flat(ps, PayloadRtpmap), RtpmapAt(ps[i].payloadType)) == Some(RtpmapFieldsOf(ps[i]))
  {
    var p := ps[i];
    forall j | 0 <= j < |ps| && j != i ensures First(PayloadRtpmap(ps[j]), RtpmapAt(p.payloadType)).None? {
      assert PayloadWritable(ps[j]);
      RtpmapApart(p, ps[j]);
    }
    FirstFlat(ps, PayloadRtpmap, RtpmapAt(p.payloadType), i);
    RtpmapRoundTrip(p.payloadType, p.encodingName.value, p.clockRate.value, WrittenChannels(p.channels));
  }

  lemma FmtpInFlat(ps: seq<Payload>, i: nat)
    requires PayloadsWritable(ps) && i < |ps|
    ensures First(Flat(ps, PayloadFmtp), FmtpAt(ps[i].payloadType)) == FmtpFieldsOf(ps[i])
  {
    var p := ps[i];
    forall j | 0 <= j < |ps| && j != i ensures First(PayloadFmtp(ps[j]), FmtpAt(p.payloadType)).None? {
      assert PayloadWritable(ps[j]);
      FmtpApart(p, ps[j]);
    }
    FirstFlat(ps, PayloadFmtp, FmtpAt(p.payloadType), i);
    if p.parameters.Some? {
      ParamsTextChars(p.parameters.value);
      FmtpRoundTrip(p.payloadType, ParamsText(p.parameters.value));
    }
  }

  lemma FeedbackMember(p: Payload, pt: nat, k: string, k2: string, on: bool)
    requires p.payloadType.Some?
    ensures FeedbackText(Some(pt), k) in FeedbackGroup(p, on, k2) <==> on && k == k2 && p.payloadType == Some(pt)
  {
    if FeedbackText(Some(pt), k) in FeedbackGroup(p, on, k2) {
      FeedbackApart(p.payloadType.value, pt, k2, k);
    }
  }

  /** A payload's feedback line of one kind is among the lines of a
      feedback group exactly when the group is of that kind and the
      payload has the flag. */
  lemma FeedbackIn(ps: seq<Payload>, i: nat, k: string, k2: string, g: Payload -> seq<string>, on: Payload -> bool)
    requires PayloadsWritable(ps) && i < |ps|
    requires forall p :: g(p) == FeedbackGroup(p, on(p), k2)
    ensures FeedbackText(ps[i].payloadType, k) in Flat(ps, g) <==> k == k2 && on(ps[i])
  {
    var pt := ps[i].payloadType.value;
    assert PayloadWritable(ps[i]);
    InFlat(ps, g, FeedbackText(Some(pt), k));
    forall j | 0 <= j < |ps|
      ensures FeedbackText(Some(pt), k) in g(ps[j]) <==> j == i && k == k2 && on(ps[i])
    {
      assert PayloadWritable(ps[j]);
      FeedbackMember(ps[j], pt, k, k2, on(ps[j]));
    }
  }

  /** The payload the parser builds from lines that carry a written
      payload's rtpmap and fmtp values and, for video, its feedback lines. */
  lemma PayloadFrom(t: MediaType, lines: seq<string>, p: Payload)
    requires PayloadWritable(p)
    requires RtpmapOf(lines, p.payloadType) == Some(RtpmapFieldsOf(p))
    requires FmtpOf(lines, p.payloadType) == FmtpFieldsOf(p)
    requires t.Video? ==>
      HasLine(lines, FeedbackText(p.payloadType, Nack)) == p.nack
      && HasLine(lines, FeedbackText(p.payloadType, NackPli)) == p.nackpli
      && HasLine(lines, FeedbackText(p.payloadType, CcmFir)) == p.ccmfir
      && HasLine(lines, FeedbackText(p.payloadType, EricScream)) == p.ericscream
    ensures PayloadOf(t, p.payloadType, lines) == NormalPayload(t, p)
  {
    DecimalRead(p.clockRate.value);
    ChannelsRead(p.channels);
    if p.parameters.Some? {
      ParamsRoundTrip(p.parameters.value);
    }
  }

  lemma DecimalRead(n: nat)
    ensures ParseInt(Decimal(n)) == Some(n)
  {
    ParseIntDecimal(n, "");
    assert Decimal(n) + "" == Decimal(n);
  }

  /** The channel count the rtpmap line carries reads back as the count,
      one when it was unset, zero or one. */
  lemma ChannelsRead(ch: Option<nat>)
    ensures AudioChannels(if WrittenChannels(ch).Some? then Some(Decimal(WrittenChannels(ch).value)) else None)
      == if ch.Some? && ch.value != 0 then ch.value else 1
  {
    if WrittenChannels(ch).Some? {
      DecimalRead(ch.value);
    }
  }

  /** The tag of every feedback line. */
  lemma FeedbackTag(pt: Option<nat>, kind: string)
    ensures Tag(FeedbackText(pt, kind)) == "a=rtcp-fb"
  {
    TagWordsA();
    var x := NumText(pt) + " " + kind;
    assert FeedbackText(pt, kind) == "a=rtcp-fb" + ":" + x;
    TagAfter("a=rtcp-fb", x);
  }

  /** Every payload of a written block reads back as NormalPayload. */
  lemma PayloadRead(m: MediaDescription, extra: seq<string>, i: nat)
    requires PayloadsWritable(WrittenPayloads(m)) && i < |WrittenPayloads(m)| && ForeignLines(extra)
    ensures PayloadOf(m.media, WrittenPayloads(m)[i].payloadType, Body(m) + extra) == NormalPayload(m.media, WrittenPayloads(m)[i])
  {
    var ps, lines := WrittenPayloads(m), Body(m) + extra;
    var p := ps[i];
    var g := GroupsOf(m);
    GroupsOfMode(m);
    GroupsPayload(g);
    RtpmapReads(p.payloadType);
    BlockFirst(m, extra, RtpmapAt(p.payloadType), {"a=rtpmap"});
    RtpmapInFlat(ps, i);
    FmtpReads(p.payloadType);
    BlockFirst(m, extra, FmtpAt(p.payloadType), {"a=fmtp"});
    FmtpInFlat(ps, i);
    BlockKeep(m, extra, {"a=rtcp-fb"});
    assert Keep(lines, {"a=rtcp-fb"}) == Flat(ps, PayloadNack) + (Flat(ps, PayloadNackPli) + (Flat(ps, PayloadCcmFir) + Flat(ps, PayloadEricScream)));
    FeedbackKinds(ps, i, lines);
    PayloadFrom(m.media, lines, p);
  }

  lemma FeedbackKinds(ps: seq<Payload>, i: nat, lines: seq<string>)
    requires PayloadsWritable(ps) && i < |ps|
    requires Keep(lines, {"a=rtcp-fb"}) == Flat(ps, PayloadNack) + (Flat(ps, PayloadNackPli) + (Flat(ps, PayloadCcmFir) + Flat(ps, PayloadEricScream)))
    ensures HasLine(lines, FeedbackText(ps[i].payloadType, Nack)) == ps[i].nack
    ensures HasLine(lines, FeedbackText(ps[i].payloadType, NackPli)) == ps[i].nackpli
    ensures HasLine(lines, FeedbackText(ps[i].payloadType, CcmFir)) == ps[i].ccmfir
    ensures HasLine(lines, FeedbackText(ps[i].payloadType, EricScream)) == ps[i].ericscream
  {
    forall k | k in FeedbackKindNames
      ensures HasLine(lines, FeedbackText(ps[i].payloadType, k)) ==
        ((k == Nack && ps[i].nack) || (k == NackPli && ps[i].nackpli) || (k == CcmFir && ps[i].ccmfir) || (k == EricScream && ps[i].ericscream))
    {
      var x := FeedbackText(ps[i].payloadType, k);
      FeedbackTag(ps[i].payloadType, k);
      InKeep(lines, x, {"a=rtcp-fb"});
      FeedbackIn(ps, i, k, Nack, PayloadNack, (p: Payload) => p.nack);
      FeedbackIn(ps, i, k, NackPli, PayloadNackPli, (p: Payload) => p.nackpli);
      FeedbackIn(ps, i, k, CcmFir, PayloadCcmFir, (p: Payload) => p.ccmfir);
      FeedbackIn(ps, i, k, EricScream, PayloadEricScream, (p: Payload) => p.ericscream);
    }
    KindsApart();
  }

  const FeedbackKindNames: set<string> := {Nack, NackPli, CcmFir, EricScream}

  lemma KindsApart()
    ensures Nack != NackPli && Nack != CcmFir && Nack != EricScream
    ensures NackPli != CcmFir && NackPli != EricScream && CcmFir != EricScream
  {
  }

  /** Every payload of a written RTP block reads back, in order. */
  lemma PayloadsRead(m: MediaDescription, extra: seq<string>)
    requires PayloadsWritable(WrittenPayloads(m)) && ForeignLines(extra)
    ensures PayloadsOf(m.media, Types(WrittenPayloads(m)), Body(m) + extra) == Map(WrittenPayloads(m), NormalPayloadFn(m.media))
  {
    var ps := WrittenPayloads(m);
    forall i | 0 <= i < |ps|
      ensures PayloadOf(m.media, ps[i].payloadType, Body(m) + extra) == NormalPayloadFn(m.media)(ps[i])
    {
      PayloadRead(m, extra, i);
    }
  }

  // ---------------------------------------------------------------------
  // The media line

  /** The data protocol is not an RTP profile. */
  lemma SctpNotRtp()
    ensures !IsRtp(SctpProtocol)
  {
    var s := SctpProtocol;
    forall i | 0 <= i <= |s| ensures !StartsWith(s[i..], "RTP/AVP") && !StartsWith(s[i..], "RTP/SAVP") {
      if i < |s| {
        assert s[i..][0] == s[i] != 'R';
      }
    }
  }

  /** The fields of a written media line. */
  function HeadOf(m: MediaDescription): MediaFields {
    MediaFields(m.media, Decimal(WrittenPort(m)), WrittenProtocol(m), " " + FmtText(m))
  }

  /** The format list of a written media line reads back as the payload
      types, or as the SCTP port of a data line. */
  lemma FormatsRead(m: MediaDescription)
    requires MediaWritable(m)
    ensures AllIn(FmtText(m), FmtChar)
    ensures MediaFormats.FmtTypes(" " + FmtText(m)) ==
      if WrittenProtocol(m) == SctpProtocol then [m.sctp.value.port] else Types(WrittenPayloads(m))
  {
    if WrittenProtocol(m) == SctpProtocol {
      var port := m.sctp.value.port.value;
      var ns := [port];
      MediaFormats.FmtRoundTrip(ns);
      MediaFormats.FoldText(MediaFormats.Somes(ns));
      assert MediaFormats.Somes(ns) == [Some(port)];
      assert MediaFormats.TypeTexts([Some(port)]) == [Decimal(port)];
      SdpText.JoinedDigits(ns);
      assert MediaFormats.Decimals(ns) == [Decimal(port)];
    } else {
      var ps := WrittenPayloads(m);
      SdpText.PayloadFmt(ps);
      MediaFormats.FmtRoundTrip(SdpText.TypeNums(ps));
    }
  }

  /** The media line of a written block matches the media line pattern,
      with the kind, port, protocol and format list the generator wrote. */
  lemma HeadRead(m: MediaDescription)
    requires MediaWritable(m)
    ensures MediaLineMatch(MediaLine(m)) == Some(HeadOf(m))
  {
    FormatsRead(m);
    MediaLineRoundTrip(m.media, WrittenPort(m), WrittenProtocol(m), FmtText(m));
  }

  // ---------------------------------------------------------------------
  // A whole media block

  /** What the parser makes of a media description the generator wrote:
      the defaults the generator filled in become values, the preset format
      is gone, payloads, sources, stream ids, ICE and DTLS take their
      normal forms, and only a data line keeps its SCTP association. */
  function NormalMedia(m: MediaDescription, msid: bool): MediaDescription {
    var data := WrittenProtocol(m) == SctpProtocol;
    var src := NormalSources(m);
    var ids := NormalIds(m, msid);
    MediaDescription(
      m.media, Some(WrittenPort(m)), Some(WrittenProtocol(m)), None,
      Some(WrittenAddressType(m)), Some(WrittenAddress(m)), Some(WrittenMode(m)),
      if data then None else Some(Map(WrittenPayloads(m), NormalPayloadFn(m.media))),
      NormalRtcp(WrittenRtcp(m)),
      src.0, src.1,
      if ids.Some? then Some(ids.value.0) else None,
      if ids.Some? then Some(ids.value.1) else None,
      NormalIce(m.ice), NormalDtls(m.dtls),
      if data then m.sctp else None)
  }

  function NormalMediaFn(msid: bool): MediaDescription -> MediaDescription {
    m => NormalMedia(m, msid)
  }

  /** A block headed by a written media line and holding the written body,
      followed by lines no reader takes, parses back as NormalMedia. */
  lemma MediaReadBack(b: Block, m: MediaDescription, extra: seq<string>, sb: seq<string>, msid: bool)
    requires MediaWritable(m) && ForeignLines(extra) && ForeignLines(sb)
    requires b.head == HeadOf(m) && b.lines == Body(m) + extra
    ensures MediaOf(b, sb, msid) == NormalMedia(m, msid)
  {
    var lines := b.lines;
    FormatsRead(m);
    DecimalRead(WrittenPort(m));
    ConnRead(m, extra, sb);
    ModeRead(m, extra, sb);
    RtcpRead(m, extra, sb);
    SourcesRead(m, extra);
    IdsRead(m, extra, msid);
    IceRead(m, extra, sb);
    DtlsRead(m, extra, sb);
    if WrittenProtocol(m) == SctpProtocol {
      SctpNotRtp();
      SctpRead(m, extra);
    } else {
      PayloadsRead(m, extra);
    }
  }
}
