/** SDP.parse reads back what SDP.generate writes (bridge/client/webrtc.js:
    778-1161): the generated text splits into the session block and one
    block per description, each block's media line and body read back
    field by field, and the whole session parses to the session with the
    generator's defaults filled in and each description in its normal
    form. */
module SdpRoundTrip {
  import opened Wrappers
  import opened Chars
  import opened Lines
  import opened LineTags
  import opened Seqs
  import opened SdpTypes
  import opened SessionLines
  import opened RtpAttrs
  import opened SdpGenerate
  import opened SdpLines
  import opened SdpText
  import opened SdpSession
  import opened BlockTags
  import opened BlockRead
  import opened SdpParse
  import MediaFormats
  import opened Scan
  import opened Template

  // ---------------------------------------------------------------------
  // Splitting generated text

  /** A line that does not begin with `m` is no media line. */
  lemma LeadNotMedia(l: string)
    requires l != [] && l[0] != 'm'
    ensures MediaLineMatch(l).None?
  {
  }

  /** An attribute line a block reader looks at is no media line. */
  lemma ReaderNotMedia(l: string)
    requires Tag(l) in ReaderTags
    ensures MediaLineMatch(l).None?
  {
    if MediaLineMatch(l).Some? {
      TagStarts(l, "m=");
      ReaderTagsLead(Tag(l));
    }
  }

  /** Lines of plain text none of which is a media line. */
  predicate Between(ls: seq<string>) {
    forall i :: 0 <= i < |ls| ==> NoTerm(ls[i]) && MediaLineMatch(ls[i]).None?
  }


  /** The parser's split, unfolded line by line without its
      postconditions: proofs about long line lists reason about this one
      and carry the result over by SplitUnfolds. */
  function SplitLineByLine(ls: seq<Line>): (seq<string>, seq<Block>) {
    if ls == [] then ([], []) else SplitOnce(ls[0], SplitLineByLine(ls[1..]))
  }

  lemma {:induction false} SplitUnfolds(ls: seq<Line>)
    ensures Split(ls) == SplitLineByLine(ls)
  {
    if ls != [] {
      SplitUnfolds(ls[1..]);
    }
  }

  /** Lines that are no split points join the part before the next
      media line. */
  lemma {:induction false} SplitBetween(pre: seq<Line>, tail: seq<Line>)
    requires forall i :: 0 <= i < |pre| ==> SplitPoint(pre[i]).None?
    ensures SplitLineByLine(pre + tail) == (Texts(pre) + SplitLineByLine(tail).0, SplitLineByLine(tail).1)
  {
    var x := SplitLineByLine(tail).0;
    if pre == [] {
      assert pre + tail == tail;
      assert Texts(pre) + x == x;
    } else {
      var rest := pre[1..] + tail;
      assert (pre + tail)[1..] == rest;
      SplitBetween(pre[1..], tail);
      TextsCons(pre);
      assert [pre[0].text] + (Texts(pre[1..]) + x) == Texts(pre) + x;
    }
  }

  // ---------------------------------------------------------------------
  // The lines of a block are plain

  lemma MediaTextPlain(t: MediaType, port: nat, protocol: string, fmt: string)
    requires Plain(protocol) && Plain(fmt)
    ensures NoTerm(MediaLineText(t, port, protocol, fmt))
  {
    DecimalPlain(port);
    WordPlain("m=");
    WordPlain(" ");
    WordPlain(MediaTypeName(t));
    var a := " " + (protocol + (" " + fmt));
    PlainCat(" ", fmt);
    PlainCat(protocol, " " + fmt);
    PlainCat(" ", protocol + (" " + fmt));
    PlainCat(Decimal(port), a);
    PlainCat(" ", Decimal(port) + a);
    PlainCat(MediaTypeName(t), " " + (Decimal(port) + a));
    PlainCat("m=", MediaTypeName(t) + (" " + (Decimal(port) + a)));
    PlainFacts(MediaLineText(t, port, protocol, fmt));
  }

  lemma MediaLinePlain(m: MediaDescription)
    requires MediaWritable(m)
    ensures NoTerm(MediaLine(m))
  {
    FormatsRead(m);
    ClassPlain(WrittenProtocol(m), ProtoChar);
    ClassPlain(FmtText(m), FmtChar);
    MediaTextPlain(m.media, WrittenPort(m), WrittenProtocol(m), FmtText(m));
  }

  lemma ConnectionPlain(m: MediaDescription)
    requires WrittenAddressType(m) == "IP4" || WrittenAddressType(m) == "IP6"
    requires AllIn(WrittenAddress(m), Address)
    ensures NoTerm(ConnectionLine(m))
  {
    ClassPlain(WrittenAddress(m), Address);
    WordPlain("c=IN ");
    WordPlain(" ");
    WordPlain(WrittenAddressType(m));
    PlainCat(" ", WrittenAddress(m));
    PlainCat(WrittenAddressType(m), " " + WrittenAddress(m));
    PlainCat("c=IN ", WrittenAddressType(m) + (" " + WrittenAddress(m)));
    PlainFacts(ConnectionLine(m));
  }

  lemma AllPlainSix(a: seq<string>, b: seq<string>, c: seq<string>, d: seq<string>, e: seq<string>, f: seq<string>)
    requires AllPlain(a) && AllPlain(b) && AllPlain(c) && AllPlain(d) && AllPlain(e) && AllPlain(f)
    ensures AllPlain(a + (b + (c + (d + (e + f)))))
    ensures AllPlain((a + b) + (c + (d + ((e + f)))))
  {
  }

  /** The parts of a writable description the attribute lines come
      from. */
  lemma WritableParts(m: MediaDescription)
    requires MediaWritable(m)
    ensures RtcpWritable(WrittenRtcp(m)) && AllWritable(WrittenPayloads(m)) && SourcesWritable(m)
    ensures IceWritable(m.ice) && DtlsWritable(m.dtls) && SctpWritable(m.sctp)
    ensures WrittenAddressType(m) == "IP4" || WrittenAddressType(m) == "IP6"
    ensures AllIn(WrittenAddress(m), Address)
  {
  }

  lemma PayloadLinesPlain(ps: seq<Payload>)
    requires AllWritable(ps)
    ensures AllPlain(PayloadPiece(ps))
  {
    PayloadPiecePlain(ps);
    AllPlainSix(Flat(ps, PayloadRtpmap), Flat(ps, PayloadFmtp), Flat(ps, PayloadNack),
      Flat(ps, PayloadNackPli), Flat(ps, PayloadCcmFir), Flat(ps, PayloadEricScream));
  }

  lemma TransportLinesPlain(m: MediaDescription)
    requires IceWritable(m.ice) && DtlsWritable(m.dtls) && SctpWritable(m.sctp)
    ensures AllPlain(IcePiece(m.ice) + TransportPiece(m))
  {
    IcePlain(m.ice);
    TransportPlain(m);
    AllPlainSix(UfragGroup(m.ice), PwdGroup(m.ice), OptionGroup(m.ice), CandidateGroup(m.ice),
      FingerprintGroup(m.dtls), SetupGroup(m.dtls) + SctpmapGroup(m.sctp));
  }

  lemma ModeWordPlain(md: Mode)
    ensures Plain(ModeText(md))
  {
    match md
    case SendRecv => WordPlain("a=sendrecv");
    case SendOnly => WordPlain("a=sendonly");
    case RecvOnly => WordPlain("a=recvonly");
    case Inactive => WordPlain("a=inactive");
  }

  lemma ModeLinePlain(m: MediaDescription)
    ensures AllPlain(ModeGroup(m))
  {
    ModeWordPlain(WrittenMode(m));
  }

  lemma RestPlain(m: MediaDescription)
    requires RtcpWritable(WrittenRtcp(m)) && AllWritable(WrittenPayloads(m)) && SourcesWritable(m)
    requires IceWritable(m.ice) && DtlsWritable(m.dtls) && SctpWritable(m.sctp)
    ensures AllPlain(Rest(m))
  {
    var r := WrittenRtcp(m);
    RtcpPlain(r);
    ModeLinePlain(m);
    PayloadLinesPlain(WrittenPayloads(m));
    SourcesPlain(m);
    TransportLinesPlain(m);
    AllPlainSix(RtcpGroup(r), MuxGroup(r), ModeGroup(m), PayloadPiece(WrittenPayloads(m)),
      CnameGroup(m) + MsidGroup(m), IcePiece(m.ice) + TransportPiece(m));
  }

  /** Plain attribute lines are no media lines. */
  lemma AttributesBetween(ls: seq<string>)
    requires AllPlain(ls) && TagsIn(ls, ReaderTags)
    ensures Between(ls)
  {
    forall i | 0 <= i < |ls| ensures NoTerm(ls[i]) && MediaLineMatch(ls[i]).None? {
      assert ls[i] in ls;
      PlainFacts(ls[i]);
      ReaderNotMedia(ls[i]);
    }
  }

  lemma BetweenCons(x: string, ls: seq<string>)
    requires NoTerm(x) && MediaLineMatch(x).None? && Between(ls)
    ensures Between([x] + ls)
  {
    assert forall i :: 0 < i < |[x] + ls| ==> ([x] + ls)[i] == ls[i - 1];
  }

  /** The body of a written block: plain lines, none a media line. */
  lemma BodyBetween(m: MediaDescription)
    requires MediaWritable(m)
    ensures Between(Body(m))
  {
    WritableParts(m);
    ConnectionPlain(m);
    RestPlain(m);
    RestTags(m);
    AttributesBetween(Rest(m));
    var c := ConnectionLine(m);
    assert c[0] == 'c';
    LeadNotMedia(c);
    BetweenCons(c, Rest(m));
  }

  // ---------------------------------------------------------------------
  // Splitting the generated lines into blocks

  lemma {:induction false} CrlfLinesAppend(a: seq<string>, b: seq<string>)
    ensures CrlfLines(a + b) == CrlfLines(a) + CrlfLines(b)
  {
    if a == [] {
      assert a + b == b;
    } else {
      CrlfLinesAppend(a[1..], b);
      assert (a + b)[1..] == a[1..] + b;
      CrlfLinesCons(a + b);
      CrlfLinesCons(a);
    }
  }

  lemma {:induction false} CrlfLinesAt(ls: seq<string>)
    ensures forall i :: 0 <= i < |ls| ==> CrlfLines(ls)[i] == Line(ls[i], CRLF)
    ensures Texts(CrlfLines(ls)) == ls
  {
    if ls != [] {
      CrlfLinesAt(ls[1..]);
      CrlfLinesCons(ls);
    }
  }

  /** Lines none of which is a media line hold no split point once each
      is ended by CR LF. */
  lemma BetweenPoints(ls: seq<string>)
    requires Between(ls)
    ensures forall i :: 0 <= i < |CrlfLines(ls)| ==> SplitPoint(CrlfLines(ls)[i]).None?
    ensures Texts(CrlfLines(ls)) == ls
  {
    CrlfLinesAt(ls);
  }

  /** A split point before further lines opens a block holding what
      precedes the next split point. */
  lemma SplitHead(l: Line, f: MediaFields, u: seq<Line>)
    requires SplitPoint(l) == Some(f)
    ensures SplitLineByLine([l] + u) == ([], [Block(l.text, f, SplitLineByLine(u).0)] + SplitLineByLine(u).1)
  {
    assert ([l] + u)[1..] == u;
  }

  /** A split point, then lines that are none, then the rest. */
  lemma SplitPointThen(l: Line, f: MediaFields, pre: seq<Line>, tail: seq<Line>)
    requires SplitPoint(l) == Some(f)
    requires forall i :: 0 <= i < |pre| ==> SplitPoint(pre[i]).None?
    ensures SplitLineByLine([l] + (pre + tail)) ==
      ([], [Block(l.text, f, Texts(pre) + SplitLineByLine(tail).0)] + SplitLineByLine(tail).1)
  {
    SplitBetween(pre, tail);
    SplitHead(l, f, pre + tail);
  }

  /** A media line and lines none of which is one split off as one
      block: the media line heads it and the lines, then whatever precedes
      the next media line, are its lines. */
  lemma SplitHeaded(x: string, f: MediaFields, body: seq<string>, tail: seq<Line>)
    requires MediaLineMatch(x) == Some(f) && Between(body)
    ensures SplitLineByLine(CrlfLines([x] + body) + tail) ==
      ([], [Block(x, f, body + SplitLineByLine(tail).0)] + SplitLineByLine(tail).1)
  {
    BetweenPoints(body);
    CrlfLinesCons([x] + body);
    assert ([x] + body)[1..] == body;
    var l, pre := Line(x, CRLF), CrlfLines(body);
    assert CrlfLines([x] + body) == [l] + pre;
    ConsAssoc(l, pre, tail);
    SplitPointThen(l, f, pre, tail);
  }

  // ---------------------------------------------------------------------
  // The blocks of every description

  lemma {:induction false} FlatCons<T>(x: T, xs: seq<T>, g: T -> seq<string>)
    ensures Flat([x] + xs, g) == g(x) + Flat(xs, g)
    decreases |xs|
  {
    if xs == [] {
      assert [x] + xs == [] + [x];
      FlatSnoc([], x, g);
    } else {
      var n := |xs| - 1;
      FlatCons(x, xs[..n], g);
      assert [x] + xs == ([x] + xs[..n]) + [xs[n]];
      assert xs == xs[..n] + [xs[n]];
      FlatSnoc([x] + xs[..n], xs[n], g);
      FlatSnoc(xs[..n], xs[n], g);
    }
  }

  predicate AllWritableMedia(media: seq<MediaDescription>) {
    forall i :: 0 <= i < |media| ==> MediaWritable(media[i])
  }

  /** The descriptions' blocks are their lines, each ended by CR LF. */
  lemma {:induction false} BlocksText(media: seq<MediaDescription>)
    requires AllWritableMedia(media)
    ensures Blocks(media) == Crlf(Flat(media, BlockLines))
  {
    if media != [] {
      var n := |media| - 1;
      BlocksText(media[..n]);
      BlockText(media[n]);
      CrlfAppend(Flat(media[..n], BlockLines), BlockLines(media[n]));
    }
  }

  /** The final empty line of a text ended by CR LF. */
  const EndLine: seq<Line> := [Line("", EOT)]

  lemma EndLineSplit()
    ensures SplitLineByLine(EndLine) == ([""], [])
  {
    var l := Line("", EOT);
    assert EndLine == [l] && EndLine[1..] == [];
    assert SplitPoint(l).None?;
    assert SplitLineByLine(EndLine) == SplitOnce(l, SplitLineByLine([]));
    assert [l.text] + [] == [""];
  }

  lemma FlatFront<T>(xs: seq<T>, g: T -> seq<string>)
    requires xs != []
    ensures Flat(xs, g) == g(xs[0]) + Flat(xs[1..], g)
  {
    assert xs == [xs[0]] + xs[1..];
    FlatCons(xs[0], xs[1..], g);
  }

  /** The lines of the first group, then those of the rest. */
  lemma CrlfFlatCons<T>(xs: seq<T>, g: T -> seq<string>, e: seq<Line>)
    requires xs != []
    ensures CrlfLines(Flat(xs, g)) + e == CrlfLines(g(xs[0])) + (CrlfLines(Flat(xs[1..], g)) + e)
  {
    FlatFront(xs, g);
    CrlfLinesAppend(g(xs[0]), Flat(xs[1..], g));
    LinesAssoc(CrlfLines(g(xs[0])), CrlfLines(Flat(xs[1..], g)), e);
  }

  /** The block the parser finds for a group of lines that begins with
      a media line, followed by the lines `extra`. */
  function GroupBlock(l: seq<string>, f: MediaFields, extra: seq<string>): Block {
    if l == [] then Block("", f, extra) else Block(l[0], f, l[1..] + extra)
  }

  /** Groups of lines, each line ended by CR LF, then the final empty
      line. */
  function Framed(gs: seq<seq<string>>): seq<Line> {
    if gs == [] then EndLine else CrlfLines(gs[0]) + Framed(gs[1..])
  }

  /** The blocks of groups of lines whose media lines capture `hs`: the
      last one also holds the empty line after the final line end. */
  function GroupBlocks(gs: seq<seq<string>>, hs: seq<MediaFields>): (bs: seq<Block>)
    requires |gs| == |hs|
    ensures |bs| == |gs|
  {
    if gs == [] then []
    else if |gs| == 1 then [GroupBlock(gs[0], hs[0], [""])]
    else [GroupBlock(gs[0], hs[0], [])] + GroupBlocks(gs[1..], hs[1..])
  }

  lemma {:induction false} GroupAt(gs: seq<seq<string>>, hs: seq<MediaFields>, i: nat)
    requires |gs| == |hs| && i < |gs|
    ensures GroupBlocks(gs, hs)[i] == GroupBlock(gs[i], hs[i], if i == |gs| - 1 then [""] else [])
  {
    if i > 0 {
      GroupAt(gs[1..], hs[1..], i - 1);
    }
  }

  /** The lines of a group: a media line with captures `f`, then lines
      none of which is one. */
  predicate HeadedLines(l: seq<string>, f: MediaFields) {
    l != [] && MediaLineMatch(l[0]) == Some(f) && Between(l[1..])
  }

  /** Every group begins with a media line and holds no other. */
  predicate Headed(gs: seq<seq<string>>, hs: seq<MediaFields>)
    requires |gs| == |hs|
  {
    gs != [] ==> HeadedLines(gs[0], hs[0]) && Headed(gs[1..], hs[1..])
  }

  /** A group that begins with a media line splits off as its block. */
  lemma SplitGroup(l: seq<string>, f: MediaFields, rest: seq<Line>)
    requires HeadedLines(l, f)
    ensures SplitLineByLine(CrlfLines(l) + rest) ==
      ([], [GroupBlock(l, f, SplitLineByLine(rest).0)] + SplitLineByLine(rest).1)
  {
    var x, body := l[0], l[1..];
    assert l == [x] + body;
    SplitHeaded(x, f, body, rest);
  }

  /** Groups of lines that each begin with a media line, each line ended
      by CR LF, then the final empty line, split into one block per group. */
  lemma {:induction false} SplitGroups(gs: seq<seq<string>>, hs: seq<MediaFields>)
    requires |gs| == |hs| && Headed(gs, hs)
    ensures gs == [] ==> SplitLineByLine(Framed(gs)) == ([""], [])
    ensures gs != [] ==> SplitLineByLine(Framed(gs)) == ([], GroupBlocks(gs, hs))
  {
    EndLineSplit();
    if gs != [] {
      SplitGroup(gs[0], hs[0], Framed(gs[1..]));
      SplitGroups(gs[1..], hs[1..]);
      if |gs| == 1 {
        assert gs[1..] == [];
        var b := GroupBlock(gs[0], hs[0], [""]);
        assert [b] + [] == [b];
      }
    } else {
      assert Framed(gs) == EndLine;
    }
  }

  lemma MapTail<A, B>(xs: seq<A>, f: A -> B)
    requires xs != []
    ensures Map(xs, f)[1..] == Map(xs[1..], f)
  {
  }

  /** The lines of the descriptions' blocks, framed. */
  lemma {:induction false} FramedFlat<T>(xs: seq<T>, g: T -> seq<string>)
    ensures CrlfLines(Flat(xs, g)) + EndLine == Framed(Map(xs, g))
  {
    if xs == [] {
      assert CrlfLines(Flat(xs, g)) + EndLine == EndLine;
    } else {
      CrlfFlatCons(xs, g, EndLine);
      FramedFlat(xs[1..], g);
      MapTail(xs, g);
    }
  }

  /** A written block begins with its media line and holds no other. */
  lemma BlockHeaded(m: MediaDescription)
    requires MediaWritable(m)
    ensures HeadedLines(BlockLines(m), HeadOf(m))
  {
    assert BlockLines(m)[0] == MediaLine(m);
    assert BlockLines(m)[1..] == Body(m);
    HeadRead(m);
    BodyBetween(m);
  }

  lemma {:induction false} MediaHeaded(media: seq<MediaDescription>)
    requires AllWritableMedia(media)
    ensures Headed(Map(media, BlockLines), Map(media, HeadOf))
  {
    if media != [] {
      BlockHeaded(media[0]);
      MapTail(media, BlockLines);
      MapTail(media, HeadOf);
      MediaHeaded(media[1..]);
    }
  }

  // ---------------------------------------------------------------------
  // The session lines

  /** A session the generator writes so that the parser reads it back: the
      originator fields after their defaults are readable, the name holds
      no `$` and no line end, and every description is writable. */
  predicate SessionWritable(s: Session, sessionId: string) {
    var o := s.originator.GetOr(NoOriginator);
    OriginReadable(o.username.GetOr("-"), o.sessionId.GetOr(sessionId), o.addressType.GetOr("IP4"),
      o.address.GetOr("127.0.0.1"))
    && Plain(s.sessionName.GetOr("-"))
    && AllWritableMedia(s.media)
  }

  /** The session lines the generator writes. */
  function SessionLinesOf(s: Session, sessionId: string): seq<string> {
    HeadLines(s, sessionId) + SemanticGroup(s.media)
  }

  lemma OriginPlain(username: string, sessionId: string, sessionVersion: nat, addressType: string, address: string)
    requires OriginReadable(username, sessionId, addressType, address)
    ensures Plain(OriginText(username, sessionId, sessionVersion, addressType, address))
  {
    ClassPlain(username, UserChar);
    ClassPlain(sessionId, Digit);
    ClassPlain(address, Address);
    DecimalPlain(sessionVersion);
    WordPlain("o=");
    WordPlain(" ");
    WordPlain(" IN ");
    WordPlain(addressType);
    var a := " " + address;
    PlainCat(" ", address);
    PlainCat(addressType, a);
    PlainCat(" IN ", addressType + a);
    var b := Decimal(sessionVersion) + (" IN " + (addressType + a));
    PlainCat(Decimal(sessionVersion), " IN " + (addressType + a));
    PlainCat(" ", b);
    PlainCat(sessionId, " " + b);
    PlainCat(" ", sessionId + (" " + b));
    PlainCat(username, " " + (sessionId + (" " + b)));
    PlainCat("o=", username + (" " + (sessionId + (" " + b))));
  }

  lemma {:induction false} JoinSpacedPlain(ws: seq<string>)
    requires AllPlain(ws)
    ensures Plain(MediaFormats.JoinSpaced(ws))
  {
    if ws != [] {
      assert ws[0] in ws;
      if |ws| > 1 {
        assert forall w | w in ws[1..] :: w in ws;
        JoinSpacedPlain(ws[1..]);
        WordPlain(" ");
        PlainCat(" ", MediaFormats.JoinSpaced(ws[1..]));
        PlainCat(ws[0], " " + MediaFormats.JoinSpaced(ws[1..]));
      } else {
        assert ws[0] + "" == ws[0];
      }
    }
  }

  /** The listed stream ids are those of writable descriptions. */
  lemma StreamIdsPlain(media: seq<MediaDescription>)
    requires AllWritableMedia(media)
    ensures AllPlain(StreamIds(media))
  {
    forall id | id in StreamIds(media) ensures Plain(id) {
      StreamIdsMembers(media, id);
      var k :| 0 <= k < |media| && HasStream(media[k]) && media[k].mediaStreamId.value == id;
      assert MediaWritable(media[k]);
      ClassPlain(id, MsidChar);
    }
  }

  lemma SemanticPlain(media: seq<MediaDescription>)
    requires AllWritableMedia(media)
    ensures AllPlain(SemanticGroup(media))
  {
    var ids := StreamIds(media);
    if ids != [] {
      StreamIdsPlain(media);
      JoinSpacedPlain(ids);
      WordPlain("a=msid-semantic:WMS ");
      PlainCat("a=msid-semantic:WMS ", MediaFormats.JoinSpaced(ids));
    }
  }

  lemma HeadPlain(s: Session, sessionId: string)
    requires SessionWritable(s, sessionId)
    ensures AllPlain(HeadLines(s, sessionId))
  {
    var o := s.originator.GetOr(NoOriginator);
    var start, stop := s.startTime.GetOr(0), s.stopTime.GetOr(0);
    DecimalPlain(s.version.GetOr(0));
    WordPlain("v=");
    PlainCat("v=", Decimal(s.version.GetOr(0)));
    OriginPlain(o.username.GetOr("-"), o.sessionId.GetOr(sessionId), o.sessionVersion.GetOr(1),
      o.addressType.GetOr("IP4"), o.address.GetOr("127.0.0.1"));
    WordPlain("s=");
    PlainCat("s=", s.sessionName.GetOr("-"));
    DecimalPlain(start);
    DecimalPlain(stop);
    WordPlain("t=");
    WordPlain(" ");
    PlainCat(" ", Decimal(stop));
    PlainCat(Decimal(start), " " + Decimal(stop));
    PlainCat("t=", Decimal(start) + (" " + Decimal(stop)));
  }

  /** The leading words of the four session lines. */
  lemma HeadLeads(s: Session, sessionId: string)
    ensures |HeadLines(s, sessionId)| == 4
    ensures StartsWith(HeadLines(s, sessionId)[0], "v=") && StartsWith(HeadLines(s, sessionId)[1], "o=")
    ensures StartsWith(HeadLines(s, sessionId)[2], "s=") && StartsWith(HeadLines(s, sessionId)[3], "t=")
  {
  }

  lemma LeadWords()
    ensures NoColon("v=") && NoUpper("v=") && NoColon("o=") && NoUpper("o=")
    ensures NoColon("s=") && NoUpper("s=") && NoColon("t=") && NoUpper("t=")
    ensures NoColon("a=msid-semantic") && NoUpper("a=msid-semantic")
  {
  }

  /** A line that begins with the two letters `p` begins with `p[0]`. */
  lemma Leads(l: string, p: string)
    requires |p| == 2 && StartsWith(l, p)
    ensures l != [] && l[0] == p[0]
  {
    assert l[..2][0] == l[0];
  }

  /** The session lines: plain, and none a media line. */
  lemma SessionBetween(s: Session, sessionId: string)
    requires SessionWritable(s, sessionId)
    ensures Between(SessionLinesOf(s, sessionId))
  {
    var hl, sg := HeadLines(s, sessionId), SemanticGroup(s.media);
    var sl := hl + sg;
    HeadPlain(s, sessionId);
    SemanticPlain(s.media);
    AllPlainCat(hl, sg);
    HeadLeads(s, sessionId);
    forall i | 0 <= i < |sl| ensures NoTerm(sl[i]) && MediaLineMatch(sl[i]).None? {
      assert sl[i] in sl;
      PlainFacts(sl[i]);
      if i < 4 {
        var p := ["v=", "o=", "s=", "t="][i];
        Leads(sl[i], p);
      } else {
        assert sl[i] == MsidSemanticText(MediaFormats.JoinSpaced(StreamIds(s.media)));
      }
      LeadNotMedia(sl[i]);
    }
  }

  /** The msid-semantic line's tag. */
  lemma SemanticTag(w: string)
    ensures Foreign(Tag(MsidSemanticText(w)))
  {
    LeadWords();
    assert MsidSemanticText(w) == "a=msid-semantic" + ":" + ("WMS " + w);
    TagAfter("a=msid-semantic", "WMS " + w);
  }

  /** No block reader takes a session line. */
  lemma SessionForeign(s: Session, sessionId: string)
    ensures ForeignLines(SessionLinesOf(s, sessionId))
  {
    var sl := SessionLinesOf(s, sessionId);
    HeadLeads(s, sessionId);
    LeadWords();
    forall i | 0 <= i < |sl| ensures Foreign(Tag(sl[i])) {
      if i < 4 {
        LeadForeign(sl[i], ["v=", "o=", "s=", "t="][i]);
      } else {
        SemanticTag(MediaFormats.JoinSpaced(StreamIds(s.media)));
      }
    }
  }

  /** A line that is empty or does not begin with `a` is no msid-semantic
      line. */
  lemma NotSemantic(l: string)
    requires l == [] || l[0] != 'a'
    ensures !MsidSemanticMatch(l)
  {
    if |l| >= 16 {
      assert l[..16][0] == l[0];
    }
  }

  /** The parser groups tracks into streams exactly when the generator
      wrote the msid-semantic line. */
  lemma SessionGroups(s: Session, sessionId: string, extra: seq<string>)
    requires extra == [] || extra == [""]
    ensures GroupsStreams(SessionLinesOf(s, sessionId) + extra) <==> StreamIds(s.media) != []
  {
    var sb := SessionLinesOf(s, sessionId) + extra;
    HeadLeads(s, sessionId);
    if StreamIds(s.media) != [] {
      MsidSemanticRoundTrip(MediaFormats.JoinSpaced(StreamIds(s.media)));
      assert MsidSemanticMatch(sb[4]);
    } else {
      forall i | 0 <= i < |sb| ensures !MsidSemanticMatch(sb[i]) {
        if i < 4 {
          Leads(sb[i], ["v=", "o=", "s=", "t="][i]);
        }
        NotSemantic(sb[i]);
      }
    }
  }

  /** Lines after the four session lines change none of the session
      fields. */
  lemma HeaderPrefix(a: seq<string>, b: seq<string>)
    requires Header(a).version.Some? && Header(a).originator.Some?
    requires Header(a).sessionName.Some? && Header(a).startTime.Some?
    ensures Header(a + b) == Header(a)
  {
    FirstAppend(a, b, VersionMatch);
    FirstAppend(a, b, OriginMatch);
    FirstAppend(a, b, SessionNameMatch);
    FirstAppend(a, b, TimingMatch);
  }

  // ---------------------------------------------------------------------
  // The whole text

  /** A writable session meets what the session block's fills need. */
  lemma SessionFree(s: Session, sessionId: string)
    requires SessionWritable(s, sessionId)
    ensures SessionFieldsFree(s, sessionId) && IdsFree(s.media)
  {
    var o := s.originator.GetOr(NoOriginator);
    ClassPlain(o.username.GetOr("-"), UserChar);
    ClassPlain(o.sessionId.GetOr(sessionId), Digit);
    ClassPlain(o.address.GetOr("127.0.0.1"), Address);
    WordPlain(o.addressType.GetOr("IP4"));
    PlainFacts(o.username.GetOr("-"));
    PlainFacts(o.sessionId.GetOr(sessionId));
    PlainFacts(o.address.GetOr("127.0.0.1"));
    PlainFacts(o.addressType.GetOr("IP4"));
    PlainFacts(s.sessionName.GetOr("-"));
    var ids := StreamIds(s.media);
    StreamIdsPlain(s.media);
    forall i | 0 <= i < |ids| ensures DollarFree(ids[i]) {
      assert ids[i] in ids;
      PlainFacts(ids[i]);
    }
  }

  /** No line of a written block holds a line end. */
  lemma BlockNoTerm(m: MediaDescription)
    requires MediaWritable(m)
    ensures forall y :: y in BlockLines(m) ==> NoTerm(y)
  {
    MediaLinePlain(m);
    BodyBetween(m);
    forall y | y in BlockLines(m) ensures NoTerm(y) {
      var i :| 0 <= i < |BlockLines(m)| && BlockLines(m)[i] == y;
      if i > 0 {
        assert y == Body(m)[i - 1];
      }
    }
  }

  /** No generated line holds a line end. */
  lemma LinesNoTerm(s: Session, sessionId: string)
    requires SessionWritable(s, sessionId)
    ensures forall i :: 0 <= i < |SessionLinesOf(s, sessionId) + Flat(s.media, BlockLines)| ==>
      NoTerm((SessionLinesOf(s, sessionId) + Flat(s.media, BlockLines))[i])
  {
    var sl, fl := SessionLinesOf(s, sessionId), Flat(s.media, BlockLines);
    SessionBetween(s, sessionId);
    forall i | 0 <= i < |sl + fl| ensures NoTerm((sl + fl)[i]) {
      if i >= |sl| {
        var y := fl[i - |sl|];
        InFlat(s.media, BlockLines, y);
        var k :| 0 <= k < |s.media| && y in BlockLines(s.media[k]);
        BlockNoTerm(s.media[k]);
      }
    }
  }

  /** The generated text split into lines: the session lines and the
      blocks' lines, each ended by CR LF, then the empty final line. */
  lemma GenerateLines(s: Session, sessionId: string)
    requires SessionWritable(s, sessionId)
    ensures SplitLines(GenerateSpec(s, sessionId)) ==
      CrlfLines(SessionLinesOf(s, sessionId)) + Framed(Map(s.media, BlockLines))
  {
    var sl, fl := SessionLinesOf(s, sessionId), Flat(s.media, BlockLines);
    SessionFree(s, sessionId);
    SessionBlockText(s, sessionId);
    BlocksText(s.media);
    CrlfAppend(sl, fl);
    LinesNoTerm(s, sessionId);
    SplitCrlf(sl + fl, "");
    assert Crlf(sl + fl) + "" == Crlf(sl + fl);
    assert SplitLines("") == EndLine;
    CrlfLinesAppend(sl, fl);
    FramedFlat(s.media, BlockLines);
    LinesAssoc(CrlfLines(sl), CrlfLines(fl), EndLine);
  }

  lemma LinesAssoc(a: seq<Line>, b: seq<Line>, c: seq<Line>)
    ensures (a + b) + c == a + (b + c)
  {
  }

  /** The generated text splits into the session lines and one block per
      description; without descriptions the empty final line stays with
      the session lines. */
  lemma SplitGenerated(s: Session, sessionId: string)
    requires SessionWritable(s, sessionId)
    ensures s.media == [] ==> Split(SplitLines(GenerateSpec(s, sessionId))) == (SessionLinesOf(s, sessionId) + [""], [])
    ensures s.media != [] ==> (Split(SplitLines(GenerateSpec(s, sessionId))) ==
      (SessionLinesOf(s, sessionId), GroupBlocks(Map(s.media, BlockLines), Map(s.media, HeadOf))))
  {
    var ls := SplitLines(GenerateSpec(s, sessionId));
    GenerateLines(s, sessionId);
    SplitUnfolds(ls);
    SessionBetween(s, sessionId);
    MediaHeaded(s.media);
    SplitFramed(SessionLinesOf(s, sessionId), Map(s.media, BlockLines), Map(s.media, HeadOf));
  }

  /** Lines none of which is a media line, then groups that each begin
      with one, split into the former and one block per group. */
  lemma SplitFramed(sl: seq<string>, gs: seq<seq<string>>, hs: seq<MediaFields>)
    requires Between(sl) && |gs| == |hs| && Headed(gs, hs)
    ensures gs == [] ==> SplitLineByLine(CrlfLines(sl) + Framed(gs)) == (sl + [""], [])
    ensures gs != [] ==> SplitLineByLine(CrlfLines(sl) + Framed(gs)) == (sl, GroupBlocks(gs, hs))
  {
    BetweenPoints(sl);
    SplitBetween(CrlfLines(sl), Framed(gs));
    SplitGroups(gs, hs);
    if gs != [] {
      assert sl + [] == sl;
    }
  }

  /** A written block parses back as its description in normal form. */
  lemma ReadGroupBlock(m: MediaDescription, extra: seq<string>, sb: seq<string>, msid: bool)
    requires MediaWritable(m) && ForeignLines(extra) && ForeignLines(sb)
    ensures MediaOf(GroupBlock(BlockLines(m), HeadOf(m), extra), sb, msid) == NormalMedia(m, msid)
  {
    assert BlockLines(m) != [] && BlockLines(m)[1..] == Body(m);
    MediaReadBack(GroupBlock(BlockLines(m), HeadOf(m), extra), m, extra, sb, msid);
  }

  /** Mapping the blocks of groups is mapping what the groups come from,
      when each block maps to what its group comes from. */
  lemma MapGroups<T, U>(xs: seq<T>, gs: seq<seq<string>>, hs: seq<MediaFields>, f: Block -> U, g: T -> U)
    requires |gs| == |xs| && |hs| == |xs|
    requires forall i :: 0 <= i < |xs| ==>
      f(GroupBlock(gs[i], hs[i], if i == |xs| - 1 then [""] else [])) == g(xs[i])
    ensures Map(GroupBlocks(gs, hs), f) == Map(xs, g)
  {
    forall i | 0 <= i < |xs| ensures Map(GroupBlocks(gs, hs), f)[i] == Map(xs, g)[i] {
      GroupAt(gs, hs, i);
    }
  }

  /** Each block parses back as its description in normal form. */
  lemma ReadBlocks(media: seq<MediaDescription>, sb: seq<string>, msid: bool)
    requires AllWritableMedia(media) && ForeignLines(sb)
    ensures MediaOfAll(GroupBlocks(Map(media, BlockLines), Map(media, HeadOf)), sb, msid) ==
      Map(media, NormalMediaFn(msid))
  {
    var gs, hs := Map(media, BlockLines), Map(media, HeadOf);
    var f, g := MediaFn(sb, msid), NormalMediaFn(msid);
    EmptyForeign();
    forall i | 0 <= i < |media|
      ensures f(GroupBlock(gs[i], hs[i], if i == |media| - 1 then [""] else [])) == g(media[i])
    {
      var extra: seq<string> := if i == |media| - 1 then [""] else [];
      ReadGroupBlock(media[i], extra, sb, msid);
    }
    MapGroups(media, gs, hs, f, g);
  }

  /** The parse of a text from the parts its lines split into. */
  lemma ParseOf(text: string, sb: seq<string>, bs: seq<Block>, msid: bool, r: Session)
    requires Split(SplitLines(text)) == (sb, bs)
    requires GroupsStreams(sb) == msid && MediaOfAll(bs, sb, msid) == r.media
    requires Header(sb) == r.(media := [])
    ensures ParseSpec(text) == r
  {
  }

  /** What the parser returns for a generated text: the session fields
      after the generator's defaults, and each description in its normal
      form, its stream ids read when some description carries any. */
  function NormalSession(s: Session, sessionId: string): Session {
    var o := s.originator.GetOr(NoOriginator);
    Session(Some(s.version.GetOr(0)),
      Some(Originator(Some(o.username.GetOr("-")), Some(o.sessionId.GetOr(sessionId)),
        Some(o.sessionVersion.GetOr(1)), Some(o.addressType.GetOr("IP4")), Some(o.address.GetOr("127.0.0.1")))),
      Some(s.sessionName.GetOr("-")), Some(s.startTime.GetOr(0)), Some(s.stopTime.GetOr(0)),
      Map(s.media, NormalMediaFn(StreamIds(s.media) != [])))
  }

  lemma StringsAssoc(a: seq<string>, b: seq<string>, c: seq<string>)
    ensures (a + b) + c == a + (b + c)
  {
  }

  /** The session lines, and the empty final line when no block follows,
      read back as the session fields after the generator's defaults. */
  lemma ReadSessionLines(s: Session, sessionId: string, extra: seq<string>)
    requires SessionWritable(s, sessionId)
    requires extra == [] || extra == [""]
    ensures Header(SessionLinesOf(s, sessionId) + extra) == NormalSession(s, sessionId).(media := [])
  {
    var o := s.originator.GetOr(NoOriginator);
    var hl := HeadLines(s, sessionId);
    HeaderReadBack(s.version.GetOr(0), o.username.GetOr("-"), o.sessionId.GetOr(sessionId),
      o.sessionVersion.GetOr(1), o.addressType.GetOr("IP4"), o.address.GetOr("127.0.0.1"),
      s.sessionName.GetOr("-"), s.startTime.GetOr(0), s.stopTime.GetOr(0));
    StringsAssoc(hl, SemanticGroup(s.media), extra);
    HeaderPrefix(hl, SemanticGroup(s.media) + extra);
  }

  /** A text that splits as the generator's text does parses back as the
      session in normal form. */
  lemma ParseSplit(text: string, s: Session, sessionId: string)
    requires SessionWritable(s, sessionId)
    requires s.media == [] ==> Split(SplitLines(text)) == (SessionLinesOf(s, sessionId) + [""], [])
    requires s.media != [] ==> (Split(SplitLines(text)) ==
      (SessionLinesOf(s, sessionId), GroupBlocks(Map(s.media, BlockLines), Map(s.media, HeadOf))))
    ensures ParseSpec(text) == NormalSession(s, sessionId)
  {
    var sl := SessionLinesOf(s, sessionId);
    var extra: seq<string> := if s.media == [] then [""] else [];
    var sb := sl + extra;
    var msid := StreamIds(s.media) != [];
    ReadSessionLines(s, sessionId, extra);
    SessionGroups(s, sessionId, extra);
    var r := NormalSession(s, sessionId);
    if s.media == [] {
      ParseOf(text, sb, [], msid, r);
    } else {
      assert sb == sl;
      SessionForeign(s, sessionId);
      ReadBlocks(s.media, sb, msid);
      ParseOf(text, sb, GroupBlocks(Map(s.media, BlockLines), Map(s.media, HeadOf)), msid, r);
    }
  }

  /** SDP.parse reads back what SDP.generate writes. */
  lemma GenerateParse(s: Session, sessionId: string)
    requires SessionWritable(s, sessionId)
    ensures ParseSpec(GenerateSpec(s, sessionId)) == NormalSession(s, sessionId)
  {
    SplitGenerated(s, sessionId);
    ParseSplit(GenerateSpec(s, sessionId), s, sessionId);
  }
}
