/** The loops of SDP.parse (bridge/client/webrtc.js:778-1002): the walk over
    the media blocks, the `forEach` over a line's payload types, its cname
    lines and its candidate lines, and the replace callback over an fmtp
    line's parameters. Each method builds its record field by field, as
    the source does, and is proved to compute the function of module
    SdpParse that says what the field is. */
module SdpReader {
  import opened Wrappers
  import opened Chars
  import opened Lines
  import opened Seqs
  import opened SdpTypes
  import opened SessionLines
  import opened RtpAttrs
  import opened SourceAttrs
  import opened IceAttrs
  import opened DtlsAttrs
  import MediaFormats
  import opened SdpParse

  /** SDP.parse. */
  method Parse(text: string) returns (s: Session)
    ensures s == ParseSpec(text)
  {
    var parts := Split(SplitLines(text));
    var sb := parts.0;
    var msid := GroupsStreams(sb);
    s := Header(sb);
    var media := ReadBlocks(parts.1, sb, msid);
    s := s.(media := media);
  }

  /** The loop over the media blocks, five parts at a time. */
  method ReadBlocks(blocks: seq<Block>, sb: seq<string>, msid: bool) returns (media: seq<MediaDescription>)
    ensures media == MediaOfAll(blocks, sb, msid)
  {
    media := [];
    var f := MediaFn(sb, msid);
    for i := 0 to |blocks|
      invariant media == Map(blocks, f)[..i]
    {
      var m := ReadMedia(blocks[i], sb, msid);
      MapSnoc(blocks, f, i);
      assert m == f(blocks[i]);
      media := media + [m];
    }
    assert Map(blocks, f)[..|blocks|] == Map(blocks, f);
  }

  /** One turn of the loop over the blocks: the media description built
      by assignments to its fields. */
  method ReadMedia(b: Block, sb: seq<string>, msid: bool) returns (m: MediaDescription)
    ensures m == MediaOf(b, sb, msid)
  {
    var lines := b.lines;
    var pts := MediaFormats.FmtTypes(b.head.fmt);
    m := EmptyMedia(b.head.media).(port := ParseInt(b.head.port), protocol := Some(b.head.protocol));
    var conn := FirstOr(lines, sb, ConnectionMatch);
    if conn.Some? {
      m := m.(addressType := Some(conn.value.0), address := Some(conn.value.1));
    }
    m := m.(mode := FirstOr(lines, sb, ModeMatch));
    if IsRtp(b.head.protocol) {
      var ps := ReadPayloads(b.head.media, pts, lines);
      m := m.(payloads := Some(ps));
    }
    m := m.(rtcp := RtcpOf(lines, sb));
    var ssrcs, cname := ReadSources(lines);
    m := m.(ssrcs := ssrcs, cname := cname);
    if msid {
      var ids := First(lines, MsidMatch);
      if ids.Some? {
        m := m.(mediaStreamId := Some(ids.value.0), mediaStreamTrackId := Some(ids.value.1));
      }
    }
    var ice := ReadIce(lines, sb);
    m := m.(ice := ice, dtls := DtlsOf(lines, sb), sctp := SctpOf(b.head.protocol, pts[0], lines));
  }

  /** `payloadTypes.forEach(…)`: one payload pushed per format. */
  method ReadPayloads(t: MediaType, pts: seq<Option<nat>>, lines: seq<string>) returns (ps: seq<Payload>)
    ensures ps == PayloadsOf(t, pts, lines)
  {
    ps := [];
    for i := 0 to |pts|
      invariant ps == PayloadsOf(t, pts, lines)[..i]
    {
      var p := ReadPayload(t, pts[i], lines);
      ps := ps + [p];
    }
    assert PayloadsOf(t, pts, lines)[..|pts|] == PayloadsOf(t, pts, lines);
  }

  /** The body of that `forEach`. */
  method ReadPayload(t: MediaType, pt: Option<nat>, lines: seq<string>) returns (p: Payload)
    ensures p == PayloadOf(t, pt, lines)
  {
    p := Payload(pt, None, None, None, false, false, false, false, None);
    var rtpmap := RtpmapOf(lines, pt);
    if rtpmap.Some? {
      p := p.(encodingName := Some(rtpmap.value.name), clockRate := ParseInt(rtpmap.value.clockRate));
      if t.Audio? {
        p := p.(channels := Some(AudioChannels(rtpmap.value.channels)));
      } else if t.Video? {
        p := p.(nack := HasLine(lines, FeedbackText(pt, Nack)));
        p := p.(nackpli := HasLine(lines, FeedbackText(pt, NackPli)));
        p := p.(ccmfir := HasLine(lines, FeedbackText(pt, CcmFir)));
        p := p.(ericscream := HasLine(lines, FeedbackText(pt, EricScream)));
      }
    } else if pt == Some(0) || pt == Some(8) {
      p := p.(encodingName := Some(if pt == Some(8) then "PCMA" else "PCMU"));
      p := p.(clockRate := Some(8000), channels := Some(1));
    }
    var fmtp := FmtpOf(lines, pt);
    if fmtp.Some? {
      var params := ReadParams(fmtp.value);
      p := p.(parameters := Some(params));
    }
  }

  /** The replace callback over the `key=value` pairs of an fmtp line: each
      dash-case key stored in camel case, a later value for the same key
      replacing the earlier one. */
  method ReadParams(text: string) returns (ps: Params)
    ensures ps == ParseParams(text)
  {
    var pairs := ParamScan(text);
    ps := [];
    for i := 0 to |pairs|
      invariant Collect(ps, pairs[i..]) == ParseParams(text)
    {
      assert pairs[i..][0] == pairs[i] && pairs[i..][1..] == pairs[i + 1..];
      ps := Put(ps, Camel(pairs[i].0), ParamValueOf(pairs[i].1));
    }
    assert pairs[|pairs|..] == [];
  }

  /** The cname lines of a block: none gives neither field. */
  method ReadSources(lines: seq<string>) returns (ssrcs: Option<seq<nat>>, cname: Option<string>)
    ensures (ssrcs, cname) == SourcesOf(lines)
  {
    var found := All(lines, CnameMatch);
    if found == [] {
      return None, None;
    }
    CnameDigits(lines);
    var list;
    list, cname := ReadCnameLines(found);
    ssrcs := Some(list);
  }

  /** `cnameLines.forEach(…)`: every ssrc pushed, the first name kept. */
  method ReadCnameLines(found: seq<(string, string)>) returns (list: seq<nat>, cname: Option<string>)
    requires found != [] && SsrcDigits(found)
    ensures list == SsrcValues(found)
    ensures cname == Some(found[0].1)
  {
    list := [];
    cname := None;
    ghost var all := SsrcValues(found);
    for i := 0 to |found|
      invariant list == all[..i]
      invariant cname == if i == 0 then None else Some(found[0].1)
    {
      TakeSnoc(all, i);
      list := list + [Integer(found[i].0)];
      if cname.None? {
        cname := Some(found[i].1);
      }
    }
    assert all[..|found|] == all;
  }

  /** The ICE fields: the credentials, the trickle option and the
      candidate lines. */
  method ReadIce(lines: seq<string>, sb: seq<string>) returns (ice: Option<Ice>)
    ensures ice == IceOf(lines, sb)
  {
    var ufrag := FirstOr(lines, sb, UfragMatch);
    var pwd := FirstOr(lines, sb, PwdMatch);
    ice := None;
    if ufrag.Some? && pwd.Some? {
      ice := Some(Ice(Some(ufrag.value), Some(pwd.value), false, None, false));
    }
    var options := FirstOr(lines, sb, IceOptionsMatch);
    if options.Some? && CanTrickle(options.value) {
      ice := Some(ice.GetOr(NoIce).(trickle := true));
    }
    var found := All(lines, CandidateMatch);
    if found != [] {
      var cs := ReadCandidates(found);
      ice := Some(ice.GetOr(NoIce).(candidates := Some(cs)));
    }
  }

  /** `candidateLines.forEach(…)`: the candidates `Accept` keeps, pushed
      in order. */
  method ReadCandidates(found: seq<CandidateFields>) returns (cs: seq<Candidate>)
    ensures cs == Accepted(found)
  {
    cs := [];
    for i := 0 to |found|
      invariant cs == All(found[..i], Accept)
    {
      var c := Accept(found[i]);
      TakeSnoc(found, i);
      AllAppend(found[..i], [found[i]], Accept);
      if c.Some? {
        cs := cs + [c.value];
      }
    }
    assert found[..|found|] == found;
  }
}
