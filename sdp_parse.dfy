/** SDP.parse (bridge/client/webrtc.js:778-1002) as functions: the text cut
    into a session block and one block per media line, then every field
    read from the first line of its block that the field's pattern
    matches, some of them falling back to the session block. The loops of
    the source are the methods of module SdpReader, proved to compute
    these functions. */
module SdpParse {
  import opened Wrappers
  import opened Chars
  import opened Lines
  import opened Seqs
  import opened SdpTypes
  import opened SessionLines
  import opened RtpAttrs
  import opened SourceAttrs
  import opened IceAttrs
  import opened DtlsAttrs
  import MediaFormats

  // ---------------------------------------------------------------------
  // Numbers

  /** `parseInt` of a captured run of digits, which is never NaN. */
  function Integer(d: string): (n: nat)
    requires d != [] && AllIn(d, Digit)
    ensures ParseInt(d) == Some(n)
  {
    assert d[0] != ' ';
    SpanOf(d, "", Digit);
    assert d + "" == d;
    assert d[..|d|] == d;
    DigitsValue(d)
  }

  // ---------------------------------------------------------------------
  // Cutting the text at its media lines (bridge/client/webrtc.js:781-782, 808-819)

  /** What the split pattern `^m=…$\r?\n` consumes: a media line ended by
      LF or CR LF, with the media line pattern's captures. */
  function SplitPoint(l: Line): Option<MediaFields> {
    if l.term.LF? || l.term.CRLF? then MediaLineMatch(l.text) else None
  }

  /** The five parts per media line: the line's captures (kind, port,
      protocol, formats) and the lines that follow it up to the next media
      line. `mline` is the media line itself. */
  datatype Block = Block(mline: string, head: MediaFields, lines: seq<string>)

  function Texts(ls: seq<Line>): (r: seq<string>)
    ensures |r| == |ls|
  {
    seq(|ls|, i requires 0 <= i < |ls| => ls[i].text)
  }

  /** The lines of the blocks, each after its media line. */
  function Rejoin(bs: seq<Block>): seq<string> {
    if bs == [] then [] else [bs[0].mline] + bs[0].lines + Rejoin(bs[1..])
  }

  function CountSplits(ls: seq<Line>): nat {
    if ls == [] then 0 else (if SplitPoint(ls[0]).Some? then 1 else 0) + CountSplits(ls[1..])
  }

  /** The session block's lines and the media blocks. */
  function Split(ls: seq<Line>): (r: (seq<string>, seq<Block>))
    // nothing is lost, nothing is reordered
    ensures r.0 + Rejoin(r.1) == Texts(ls)
    // one block per media line, each headed by its media line
    ensures |r.1| == CountSplits(ls)
    ensures forall k :: 0 <= k < |r.1| ==> MediaLineMatch(r.1[k].mline) == Some(r.1[k].head)
    decreases |ls|
  {
    if ls == [] then ([], [])
    else
      var rest := Split(ls[1..]);
      SplitStep(ls, rest);
      SplitOnce(ls[0], rest)
  }

  /** One line more: a media line that the split pattern consumes opens a
      block holding what was read after it; any other line joins the part
      before the first block. */
  function SplitOnce(l: Line, rest: (seq<string>, seq<Block>)): (seq<string>, seq<Block>) {
    match SplitPoint(l)
    case Some(f) => ([], [Block(l.text, f, rest.0)] + rest.1)
    case None => ([l.text] + rest.0, rest.1)
  }

  lemma SplitStep(ls: seq<Line>, rest: (seq<string>, seq<Block>))
    requires ls != []
    requires rest.0 + Rejoin(rest.1) == Texts(ls[1..])
    requires |rest.1| == CountSplits(ls[1..])
    requires forall k :: 0 <= k < |rest.1| ==> MediaLineMatch(rest.1[k].mline) == Some(rest.1[k].head)
    ensures SplitOnce(ls[0], rest).0 + Rejoin(SplitOnce(ls[0], rest).1) == Texts(ls)
    ensures |SplitOnce(ls[0], rest).1| == CountSplits(ls)
    ensures forall k :: 0 <= k < |SplitOnce(ls[0], rest).1| ==>
      MediaLineMatch(SplitOnce(ls[0], rest).1[k].mline) == Some(SplitOnce(ls[0], rest).1[k].head)
  {
    TextsCons(ls);
    match SplitPoint(ls[0])
    case Some(f) =>
      var b := Block(ls[0].text, f, rest.0);
      var bs := [b] + rest.1;
      RejoinCons(b, rest.1);
      assert [] + Rejoin(bs) == [ls[0].text] + (rest.0 + Rejoin(rest.1));
    case None =>
      assert ([ls[0].text] + rest.0) + Rejoin(rest.1) == [ls[0].text] + (rest.0 + Rejoin(rest.1));
  }

  lemma TextsCons(ls: seq<Line>)
    requires ls != []
    ensures Texts(ls) == [ls[0].text] + Texts(ls[1..])
  {
  }

  lemma RejoinCons(b: Block, bs: seq<Block>)
    ensures Rejoin([b] + bs) == [b.mline] + b.lines + Rejoin(bs)
  {
    assert ([b] + bs)[1..] == bs;
  }

  /** The session block runs up to the first media line, which heads the
      first block. */
  predicate SessionPrefix(ls: seq<Line>, r: (seq<string>, seq<Block>)) {
    |r.0| <= |ls|
    && (forall i :: 0 <= i < |r.0| ==> SplitPoint(ls[i]).None?)
    && (|r.0| < |ls| ==> r.1 != [] && SplitPoint(ls[|r.0|]) == Some(r.1[0].head))
  }

  lemma {:induction false} SplitSessionBlock(ls: seq<Line>)
    ensures SessionPrefix(ls, Split(ls))
    decreases |ls|
  {
    var r := Split(ls);
    if ls != [] {
      var tail := ls[1..];
      var rt := Split(tail);
      assert r == SplitOnce(ls[0], rt);
      if SplitPoint(ls[0]).None? {
        SplitSessionBlock(tail);
        var pre := rt.0;
        assert r.0 == [ls[0].text] + pre && r.1 == rt.1;
        forall i | 0 <= i < |r.0|
          ensures SplitPoint(ls[i]).None?
        {
          if i > 0 {
            assert SplitPoint(tail[i - 1]).None?;
            assert ls[i] == tail[i - 1];
          }
        }
        if |r.0| < |ls| {
          assert ls[|r.0|] == tail[|pre|];
        }
      }
    }
  }

  // ---------------------------------------------------------------------
  // Looking lines up

  /** `match(block, pattern, "m", sblock)` reads the session block after the
      media block: the fallback is the first match in the two one after
      the other. */
  lemma {:induction false} FallbackReadsSessionLast<T>(ls: seq<string>, alt: seq<string>, f: string -> Option<T>)
    ensures FirstOr(ls, alt, f) == First(ls + alt, f)
  {
    FirstAppend(ls, alt, f);
  }

  /** A pattern anchored at both ends with nothing to capture: some line is
      that text exactly. */
  predicate HasLine(ls: seq<string>, text: string) {
    text in ls
  }

  /** `!!match(sblock, regexps.msidsemantic, "m")`. */
  predicate GroupsStreams(sb: seq<string>) {
    exists i :: 0 <= i < |sb| && MsidSemanticMatch(sb[i])
  }

  // ---------------------------------------------------------------------
  // The session fields (bridge/client/webrtc.js:783-805)

  function OriginOf(f: OriginFields): Originator {
    Originator(Some(f.username), Some(f.sessionId), ParseInt(f.sessionVersion),
      Some(f.addressType), Some(f.address))
  }

  /** The session record before its media descriptions. */
  function Header(sb: seq<string>): (s: Session)
    ensures s.media == []
  {
    var version := match First(sb, VersionMatch) case Some(v) => ParseInt(v) case None => None;
    var origin := match First(sb, OriginMatch) case Some(f) => Some(OriginOf(f)) case None => None;
    var times := First(sb, TimingMatch);
    Session(version, origin, First(sb, SessionNameMatch),
      if times.Some? then ParseInt(times.value.0) else None,
      if times.Some? then ParseInt(times.value.1) else None,
      [])
  }

  // ---------------------------------------------------------------------
  // Payloads (bridge/client/webrtc.js:831-873)

  /** `match(protocol, "(UDP/TLS)?RTP/S?AVPF?")`: the pattern is not
      anchored, so it finds `RTP/AVP` or `RTP/SAVP` anywhere in the
      protocol. */
  predicate Contains(s: string, p: string) {
    exists i :: 0 <= i <= |s| && StartsWith(s[i..], p)
  }

  predicate IsRtp(protocol: string) {
    Contains(protocol, "RTP/AVP") || Contains(protocol, "RTP/SAVP")
  }

  /** The patterns filled with a payload type or a port. */
  function RtpmapAt(pt: Option<nat>): string -> Option<RtpmapFields> {
    l => RtpmapMatch(l, pt)
  }

  function FmtpAt(pt: Option<nat>): string -> Option<string> {
    l => FmtpMatch(l, pt)
  }

  function SctpmapAt(port: Option<nat>): string -> Option<(string, Option<string>)> {
    l => SctpmapMatch(l, port)
  }

  /** The first line each of those patterns matches. */
  function RtpmapOf(lines: seq<string>, pt: Option<nat>): Option<RtpmapFields> {
    First(lines, RtpmapAt(pt))
  }

  function FmtpOf(lines: seq<string>, pt: Option<nat>): Option<string> {
    First(lines, FmtpAt(pt))
  }

  function SctpmapOf(lines: seq<string>, port: Option<nat>): Option<(string, Option<string>)> {
    First(lines, SctpmapAt(port))
  }

  /** `parseInt(channels) || 1`: a missing or zero channel count is one. */
  function AudioChannels(ch: Option<string>): (n: nat)
    ensures n >= 1
  {
    match ch
    case None => 1
    case Some(d) =>
      match ParseInt(d)
      case Some(n) => if n == 0 then 1 else n
      case None => 1
  }

  /** The payload of one format: its rtpmap line, else the static types 0
      and 8 of RFC 3551 section 6, then its fmtp line. */
  function PayloadOf(t: MediaType, pt: Option<nat>, lines: seq<string>): (p: Payload)
    ensures p.payloadType == pt
    ensures p.channels.Some? ==> p.channels.value >= 1
  {
    var base := Payload(pt, None, None, None, false, false, false, false, None);
    var named :=
      match RtpmapOf(lines, pt)
      case Some(f) =>
        var q := base.(encodingName := Some(f.name), clockRate := ParseInt(f.clockRate));
        if t.Audio? then q.(channels := Some(AudioChannels(f.channels)))
        else if t.Video? then
          q.(nack := HasLine(lines, FeedbackText(pt, Nack)),
             nackpli := HasLine(lines, FeedbackText(pt, NackPli)),
             ccmfir := HasLine(lines, FeedbackText(pt, CcmFir)),
             ericscream := HasLine(lines, FeedbackText(pt, EricScream)))
        else q
      case None =>
        if pt == Some(0) || pt == Some(8) then
          base.(encodingName := Some(if pt == Some(8) then "PCMA" else "PCMU"),
                clockRate := Some(8000), channels := Some(1))
        else base;
    match FmtpOf(lines, pt)
    case Some(text) => named.(parameters := Some(ParseParams(text)))
    case None => named
  }

  /** One payload per format of the media line, in the line's order. */
  function PayloadsOf(t: MediaType, pts: seq<Option<nat>>, lines: seq<string>): (ps: seq<Payload>)
    ensures |ps| == |pts|
    ensures forall i :: 0 <= i < |pts| ==> ps[i].payloadType == pts[i]
  {
    seq(|pts|, i requires 0 <= i < |pts| => PayloadOf(t, pts[i], lines))
  }

  // ---------------------------------------------------------------------
  // RTCP (bridge/client/webrtc.js:875-891)

  const NoRtcp: Rtcp := Rtcp(None, None, None, false)

  function RtcpOf(lines: seq<string>, sb: seq<string>): Option<Rtcp> {
    var own :=
      match First(lines, RtcpMatch)
      case Some(r) =>
        Some(Rtcp(ParseInt(r.0), if r.1.Some? then Some(r.1.value.0) else None,
          if r.1.Some? then Some(r.1.value.1) else None, false))
      case None => None;
    if FirstOr(lines, sb, RtcpMuxMatch).Some? then Some(own.GetOr(NoRtcp).(mux := true))
    else own
  }

  // ---------------------------------------------------------------------
  // Sources (bridge/client/webrtc.js:893-910)

  /** The ssrc of every cname line in order, and the first line's name. */
  function SourcesOf(lines: seq<string>): (r: (Option<seq<nat>>, Option<string>))
    ensures r.0.Some? <==> r.1.Some?
  {
    var found := All(lines, CnameMatch);
    if found == [] then (None, None)
    else
      CnameDigits(lines);
      (Some(SsrcValues(found)), Some(found[0].1))
  }

  /** Every ssrc the cname pattern captures is a run of digits. */
  predicate SsrcDigits(found: seq<(string, string)>) {
    forall k :: 0 <= k < |found| ==> found[k].0 != [] && AllIn(found[k].0, Digit)
  }

  lemma CnameDigits(lines: seq<string>)
    ensures SsrcDigits(All(lines, CnameMatch))
  {
  }

  function SsrcValues(found: seq<(string, string)>): (r: seq<nat>)
    requires SsrcDigits(found)
    ensures |r| == |found|
    ensures forall k :: 0 <= k < |found| ==> ParseInt(found[k].0) == Some(r[k])
  {
    seq(|found|, k requires 0 <= k < |found| && SsrcDigits(found) => Integer(found[k].0))
  }

  // ---------------------------------------------------------------------
  // ICE (bridge/client/webrtc.js:912-969)

  const NoIce: Ice := Ice(None, None, false, None, false)

  /** The candidates kept from the candidate lines, in order. */
  function Accepted(fs: seq<CandidateFields>): (cs: seq<Candidate>)
    ensures |cs| <= |fs|
  {
    All(fs, Accept)
  }

  function IceOf(lines: seq<string>, sb: seq<string>): Option<Ice> {
    var creds :=
      match (FirstOr(lines, sb, UfragMatch), FirstOr(lines, sb, PwdMatch))
      case (Some(u), Some(p)) => Some(Ice(Some(u), Some(p), false, None, false))
      case _ => None;
    var options :=
      match FirstOr(lines, sb, IceOptionsMatch)
      case Some(o) => if CanTrickle(o) then Some(creds.GetOr(NoIce).(trickle := true)) else creds
      case None => creds;
    var found := All(lines, CandidateMatch);
    if found == [] then options
    else Some(options.GetOr(NoIce).(candidates := Some(Accepted(found))))
  }

  // ---------------------------------------------------------------------
  // DTLS and SCTP (bridge/client/webrtc.js:971-996)

  const NoDtls: Dtls := Dtls(None, None, None)

  function DtlsOf(lines: seq<string>, sb: seq<string>): Option<Dtls> {
    var fp :=
      match FirstOr(lines, sb, FingerprintMatch)
      case Some(f) => Some(Dtls(Some(LowerString(f.0)), Some(UpperString(f.1)), None))
      case None => None;
    match FirstOr(lines, sb, SetupMatch)
    case Some(s) => Some(fp.GetOr(NoDtls).(setup := Some(s)))
    case None => fp
  }

  /** A data line's association: its port is the first format. */
  function SctpOf(protocol: string, port: Option<nat>, lines: seq<string>): Option<Sctp> {
    if protocol != "DTLS/SCTP" then None
    else
      match SctpmapOf(lines, port)
      case Some(m) =>
        Some(Sctp(port, Some(m.0), if m.1.Some? then ParseInt(m.1.value) else None))
      case None => Some(Sctp(port, None, None))
  }

  // ---------------------------------------------------------------------
  // A media description (bridge/client/webrtc.js:809-998)

  function MediaOf(b: Block, sb: seq<string>, msid: bool): MediaDescription {
    var lines := b.lines;
    var pts := MediaFormats.FmtTypes(b.head.fmt);
    var conn := FirstOr(lines, sb, ConnectionMatch);
    var ids := if msid then First(lines, MsidMatch) else None;
    var sources := SourcesOf(lines);
    MediaDescription(
      b.head.media, ParseInt(b.head.port), Some(b.head.protocol), None,
      if conn.Some? then Some(conn.value.0) else None,
      if conn.Some? then Some(conn.value.1) else None,
      FirstOr(lines, sb, ModeMatch),
      if IsRtp(b.head.protocol) then Some(PayloadsOf(b.head.media, pts, lines)) else None,
      RtcpOf(lines, sb),
      sources.0, sources.1,
      if ids.Some? then Some(ids.value.0) else None,
      if ids.Some? then Some(ids.value.1) else None,
      IceOf(lines, sb),
      DtlsOf(lines, sb),
      SctpOf(b.head.protocol, pts[0], lines))
  }

  function MediaFn(sb: seq<string>, msid: bool): Block -> MediaDescription {
    b => MediaOf(b, sb, msid)
  }

  /** The media descriptions of the blocks, in order. */
  function MediaOfAll(bs: seq<Block>, sb: seq<string>, msid: bool): (ms: seq<MediaDescription>)
    ensures |ms| == |bs|
  {
    Map(bs, MediaFn(sb, msid))
  }

  /** What SDP.parse returns for a text. */
  function ParseSpec(text: string): Session {
    var (sb, blocks) := Split(SplitLines(text));
    Header(sb).(media := MediaOfAll(blocks, sb, GroupsStreams(sb)))
  }

  // ---------------------------------------------------------------------
  // Properties

  /** One media description per media line ended by LF or CR LF, in the
      order of the lines. */
  lemma ParseCountsMediaLines(text: string)
    ensures |ParseSpec(text).media| == CountSplits(SplitLines(text))
  {
  }

  /** The payloads of an RTP line follow its format list one for one; a
      line of any other protocol has none. */
  lemma PayloadsFollowFormats(b: Block, sb: seq<string>, msid: bool)
    ensures IsRtp(b.head.protocol) ==> (MediaOf(b, sb, msid).payloads.Some?
      && |MediaOf(b, sb, msid).payloads.value| == |MediaFormats.FmtTypes(b.head.fmt)|
      && forall i :: 0 <= i < |MediaFormats.FmtTypes(b.head.fmt)| ==>
           MediaOf(b, sb, msid).payloads.value[i].payloadType == MediaFormats.FmtTypes(b.head.fmt)[i])
    ensures !IsRtp(b.head.protocol) ==> MediaOf(b, sb, msid).payloads.None?
  {
  }

  /** Without an rtpmap line, types 0 and 8 are the static PCMU and PCMA
      codecs at 8000 Hz, one channel, and any other type stays nameless. */
  lemma StaticPayloadTypes(t: MediaType, pt: Option<nat>, lines: seq<string>)
    requires forall i :: 0 <= i < |lines| ==> RtpmapMatch(lines[i], pt).None?
    ensures pt == Some(0) ==> PayloadOf(t, pt, lines).encodingName == Some("PCMU")
    ensures pt == Some(8) ==> PayloadOf(t, pt, lines).encodingName == Some("PCMA")
    ensures pt == Some(0) || pt == Some(8) ==>
      PayloadOf(t, pt, lines).clockRate == Some(8000) && PayloadOf(t, pt, lines).channels == Some(1)
    ensures pt != Some(0) && pt != Some(8) ==> PayloadOf(t, pt, lines).encodingName.None?
  {
    assert forall i :: 0 <= i < |lines| ==> RtpmapAt(pt)(lines[i]).None?;
  }

  /** The candidates kept are exactly the images of the lines `Accept`
      keeps, in order. */
  lemma AcceptedMembers(fs: seq<CandidateFields>, c: Candidate)
    ensures c in Accepted(fs) <==> exists f :: f in fs && Accept(f) == Some(c)
  {
    FoundMembers(fs, Accept, c);
  }

  /** What a global match finds is exactly what its lines yield. */
  lemma {:induction false} FoundMembers<A, T>(xs: seq<A>, f: A -> Option<T>, y: T)
    ensures y in All(xs, f) <==> exists x :: x in xs && f(x) == Some(y)
  {
    if xs != [] {
      FoundMembers(xs[1..], f, y);
      assert forall x :: x in xs <==> x == xs[0] || x in xs[1..];
    }
  }

  /** The tcptype rule of RFC 6544 section 4.5 as the parser applies it: a
      TCP candidate without a role is kept, as active on port 9, only when
      its port is 0 or 9; every kept TCP candidate has a role; UDP
      candidates are never dropped. */
  lemma TcpCandidateRule(fs: seq<CandidateFields>)
    ensures forall c :: c in Accepted(fs) && c.transport == "TCP" ==> c.tcpType.Some?
    ensures forall f :: (f in fs && f.tcpType.None? && UpperString(f.transport) == "TCP"
      && (ParseInt(f.port) == Some(0) || ParseInt(f.port) == Some(9))) ==>
      exists c :: c in Accepted(fs) && c.tcpType == Some("active") && c.port == Some(9)
    ensures forall f :: f in fs && UpperString(f.transport) != "TCP" ==>
      Accept(f).Some? && Accept(f).value in Accepted(fs)
  {
    forall c | c in Accepted(fs) && c.transport == "TCP"
      ensures c.tcpType.Some?
    {
      AcceptedMembers(fs, c);
    }
    forall f | f in fs && Accept(f).Some?
      ensures Accept(f).value in Accepted(fs)
    {
      AcceptedMembers(fs, Accept(f).value);
    }
  }

  /** A block holding a candidate line the generator wrote reads back
      that candidate. */
  lemma CandidateLineReadBack(lines: seq<string>, sb: seq<string>, c: Candidate)
    requires CandidateWellFormed(c)
    requires forall i :: 0 <= i < |lines| ==> CandidateMatch(lines[i]).None?
    ensures IceOf(lines + [CandidateText(c)], sb).Some?
    ensures IceOf(lines + [CandidateText(c)], sb).value.candidates == Some([c])
  {
    CandidateRoundTrip(c);
    var f := CandidateMatch(CandidateText(c)).value;
    AllAppend(lines, [CandidateText(c)], CandidateMatch);
    NoneFound(lines, CandidateMatch);
    assert All([CandidateText(c)], CandidateMatch) == [f];
    assert Accepted([f]) == [c];
  }

  lemma {:induction false} NoneFound<T>(ls: seq<string>, f: string -> Option<T>)
    requires forall i :: 0 <= i < |ls| ==> f(ls[i]).None?
    ensures All(ls, f) == []
  {
    if ls != [] {
      NoneFound(ls[1..], f);
    }
  }

  /** The ssrcs are the numbers of the cname lines in order, and the
      canonical name is the first line's. */
  lemma SourcesFollowCnameLines(lines: seq<string>)
    ensures SourcesOf(lines).0.Some? <==> All(lines, CnameMatch) != []
    ensures SourcesOf(lines).0.Some? ==>
      |SourcesOf(lines).0.value| == |All(lines, CnameMatch)|
      && (forall k :: 0 <= k < |All(lines, CnameMatch)| ==>
            ParseInt(All(lines, CnameMatch)[k].0) == Some(SourcesOf(lines).0.value[k]))
      && SourcesOf(lines).1 == Some(First(lines, CnameMatch).value.1)
  {
    FirstIsHeadOfAll(lines, CnameMatch);
  }

  /** The four session lines the generator's `sdp` template writes. */
  function HeaderLines(version: nat, username: string, sessionId: string, sessionVersion: nat,
    addressType: string, address: string, name: string, start: nat, stop: nat): seq<string>
  {
    [VersionText(version), OriginText(username, sessionId, sessionVersion, addressType, address),
     "s=" + name, TimingText(start, stop)]
  }

  /** The session lines the generator writes read back as the session's
      fields. */
  lemma HeaderReadBack(version: nat, username: string, sessionId: string, sessionVersion: nat,
    addressType: string, address: string, name: string, start: nat, stop: nat)
    requires OriginReadable(username, sessionId, addressType, address)
    ensures Header(HeaderLines(version, username, sessionId, sessionVersion, addressType, address,
                               name, start, stop))
      == Session(Some(version), Some(Originator(Some(username), Some(sessionId), Some(sessionVersion),
           Some(addressType), Some(address))), Some(name), Some(start), Some(stop), [])
  {
    var sb := HeaderLines(version, username, sessionId, sessionVersion, addressType, address,
      name, start, stop);
    VersionRoundTrip(version);
    OriginLineRead(sb, username, sessionId, sessionVersion, addressType, address);
    NameLineRead(sb, name);
    TimingLineRead(sb, start, stop);
  }

  lemma OriginLineRead(sb: seq<string>, username: string, sessionId: string, sessionVersion: nat,
    addressType: string, address: string)
    requires |sb| == 4 && StartsWith(sb[0], "v=") && sb[1] == OriginText(username, sessionId, sessionVersion, addressType, address)
    requires OriginReadable(username, sessionId, addressType, address)
    ensures First(sb, OriginMatch).Some?
    ensures OriginOf(First(sb, OriginMatch).value) ==
      Originator(Some(username), Some(sessionId), Some(sessionVersion), Some(addressType), Some(address))
  {
    OriginRoundTrip(username, sessionId, sessionVersion, addressType, address);
    ParseIntDecimal(sessionVersion, "");
    assert Decimal(sessionVersion) + "" == Decimal(sessionVersion);
    assert !StartsWith(sb[0], "o=");
    FirstSkip(sb, OriginMatch);
  }

  lemma NameLineRead(sb: seq<string>, name: string)
    requires |sb| == 4 && StartsWith(sb[0], "v=") && StartsWith(sb[1], "o=") && sb[2] == "s=" + name
    ensures First(sb, SessionNameMatch) == Some(name)
  {
    SessionNameRoundTrip(name);
    assert sb[0][..2] != "s=" && sb[1][..2] != "s=";
    FirstSkip(sb, SessionNameMatch);
    FirstSkip(sb[1..], SessionNameMatch);
  }

  lemma TimingLineRead(sb: seq<string>, start: nat, stop: nat)
    requires |sb| == 4 && StartsWith(sb[0], "v=") && StartsWith(sb[1], "o=") && StartsWith(sb[2], "s=")
    requires sb[3] == TimingText(start, stop)
    ensures First(sb, TimingMatch).Some?
    ensures ParseInt(First(sb, TimingMatch).value.0) == Some(start)
    ensures ParseInt(First(sb, TimingMatch).value.1) == Some(stop)
  {
    TimingRoundTrip(start, stop);
    ParseIntDecimal(start, "");
    ParseIntDecimal(stop, "");
    assert Decimal(start) + "" == Decimal(start);
    assert Decimal(stop) + "" == Decimal(stop);
    assert !StartsWith(sb[0], "t=") && !StartsWith(sb[1], "t=") && !StartsWith(sb[2], "t=");
    FirstSkip(sb, TimingMatch);
    FirstSkip(sb[1..], TimingMatch);
    FirstSkip(sb[1..][1..], TimingMatch);
  }

  lemma FirstSkip<T>(ls: seq<string>, f: string -> Option<T>)
    requires ls != [] && f(ls[0]).None?
    ensures First(ls, f) == First(ls[1..], f)
  {
  }
}
