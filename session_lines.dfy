/** The session-level lines of a description and its media lines: `v=`
    (RFC 4566 section 5.1), `o=` (section 5.2), `s=` (section 5.3), `t=`
    (section 5.9), `c=` (section 5.7), `a=msid-semantic` and `m=`
    (section 5.14); the pattern that reads each (bridge/client/webrtc.js:655-661)
    and the text the generator writes for it (bridge/client/webrtc.js:688-697). */
module SessionLines {
  import opened Wrappers
  import opened Chars
  import opened Scan
  import opened SdpTypes

  /** `^v=([\d]+)`: the version digits. */
  function VersionMatch(line: string): (r: Option<string>)
    ensures r.Some? ==> StartsWith(line, "v=") && r.value != [] && AllIn(r.value, Digit)
  {
    var rest :- Expect(line, "v=", false);
    var d :- Run1(rest, Digit);
    Some(d.0)
  }

  function VersionText(version: nat): string {
    "v=" + Decimal(version)
  }

  lemma VersionRoundTrip(version: nat)
    ensures VersionMatch(VersionText(version)) == Some(Decimal(version))
    ensures ParseInt(VersionMatch(VersionText(version)).value) == Some(version)
  {
    ExpectOf("v=", Decimal(version), false);
    Run1Of(Decimal(version), "", Digit);
    assert Decimal(version) + "" == Decimal(version);
    ParseIntDecimal(version, "");
  }

  /** What the originator pattern captures. */
  datatype OriginFields = OriginFields(
    username: string, sessionId: string, sessionVersion: string,
    addressType: string, address: string)

  /** `^o=([\w\-@\.]+) ([\d]+) ([\d]+) IN (IP[46]) ([\d\.a-f\:]+)`. */
  function OriginMatch(line: string): (r: Option<OriginFields>)
    ensures r.Some? ==> StartsWith(line, "o=")
    ensures r.Some? ==> r.value.addressType == "IP4" || r.value.addressType == "IP6"
  {
    var r0 :- Expect(line, "o=", false);
    OriginFieldsMatch(r0)
  }

  /** The originator pattern after its `o=`. */
  function OriginFieldsMatch(r0: string): (r: Option<OriginFields>)
    ensures r.Some? ==> r.value.addressType == "IP4" || r.value.addressType == "IP6"
  {
    var user :- Run1(r0, UserChar);
    var r1 :- Expect(user.1, " ", false);
    var id :- Run1(r1, Digit);
    var r2 :- Expect(id.1, " ", false);
    var ver :- Run1(r2, Digit);
    var r3 :- Expect(ver.1, " IN ", false);
    var at :- OriginAddressMatch(r3);
    Some(OriginFields(user.0, id.0, ver.0, at.0, at.1))
  }

  /** `(IP[46]) ([\d\.a-f\:]+)`: the address type and the address. */
  function OriginAddressMatch(r3: string): (r: Option<(string, string)>)
    ensures r.Some? ==> r.value.0 == "IP4" || r.value.0 == "IP6"
  {
    var at :- Alt(r3, ["IP4", "IP6"], false);
    AltChoice(r3, ["IP4", "IP6"]);
    var r4 :- Expect(at.1, " ", false);
    var addr :- Run1(r4, Address);
    Some((at.0, addr.0))
  }

  /** The originator line as the `sdp` template writes it. */
  function OriginText(username: string, sessionId: string, sessionVersion: nat,
    addressType: string, address: string): string
  {
    "o=" + (username + (" " + (sessionId + (" " + (Decimal(sessionVersion)
      + (" IN " + (addressType + (" " + address))))))))
  }

  /** An originator whose fields lie inside the characters the pattern
      reads. */
  predicate OriginReadable(username: string, sessionId: string, addressType: string, address: string) {
    username != [] && AllIn(username, UserChar)
    && sessionId != [] && AllIn(sessionId, Digit)
    && (addressType == "IP4" || addressType == "IP6")
    && address != [] && AllIn(address, Address)
  }

  lemma OriginRoundTrip(username: string, sessionId: string, sessionVersion: nat,
    addressType: string, address: string)
    requires OriginReadable(username, sessionId, addressType, address)
    ensures OriginMatch(OriginText(username, sessionId, sessionVersion, addressType, address))
      == Some(OriginFields(username, sessionId, Decimal(sessionVersion), addressType, address))
  {
    var r4 := address;
    var r3 := addressType + (" " + r4);
    var r2 := Decimal(sessionVersion) + (" IN " + r3);
    var r1 := sessionId + (" " + r2);
    var r0 := username + (" " + r1);
    ExpectOf("o=", r0, false);
    Run1Of(username, " " + r1, UserChar);
    ExpectOf(" ", r1, false);
    Run1Of(sessionId, " " + r2, Digit);
    ExpectOf(" ", r2, false);
    Run1Of(Decimal(sessionVersion), " IN " + r3, Digit);
    ExpectOf(" IN ", r3, false);
    AltIp(addressType, " " + r4);
    ExpectOf(" ", r4, false);
    Run1Of(address, "", Address);
    assert address + "" == address;
  }

  lemma AltIp(addressType: string, rest: string)
    requires addressType == "IP4" || addressType == "IP6"
    ensures Alt(addressType + rest, ["IP4", "IP6"], false) == Some((addressType, rest))
  {
    var s := addressType + rest;
    assert s[..3] == addressType && s[3..] == rest;
    if addressType == "IP6" {
      assert s[2] == '6';
      assert !StartsWith(s, "IP4");
    }
  }

  /** `^s=(.*)$`: the rest of the line. */
  function SessionNameMatch(line: string): (r: Option<string>)
    ensures r.Some? ==> line == "s=" + r.value
  {
    Expect(line, "s=", false)
  }

  lemma SessionNameRoundTrip(name: string)
    ensures SessionNameMatch("s=" + name) == Some(name)
  {
    ExpectOf("s=", name, false);
  }

  /** `^t=([\d]+) ([\d]+)`: the start and stop digits. */
  function TimingMatch(line: string): (r: Option<(string, string)>)
    ensures r.Some? ==> StartsWith(line, "t=") && AllIn(r.value.0, Digit) && AllIn(r.value.1, Digit)
    ensures r.Some? ==> r.value.0 != [] && r.value.1 != []
  {
    var r0 :- Expect(line, "t=", false);
    var start :- Run1(r0, Digit);
    var r1 :- Expect(start.1, " ", false);
    var stop :- Run1(r1, Digit);
    Some((start.0, stop.0))
  }

  function TimingText(start: nat, stop: nat): string {
    "t=" + (Decimal(start) + (" " + Decimal(stop)))
  }

  lemma TimingRoundTrip(start: nat, stop: nat)
    ensures TimingMatch(TimingText(start, stop)) == Some((Decimal(start), Decimal(stop)))
  {
    ExpectOf("t=", Decimal(start) + (" " + Decimal(stop)), false);
    Run1Of(Decimal(start), " " + Decimal(stop), Digit);
    ExpectOf(" ", Decimal(stop), false);
    Run1Of(Decimal(stop), "", Digit);
    assert Decimal(stop) + "" == Decimal(stop);
  }

  /** `^c=IN (IP[46]) ([\d\.a-f\:]+)`: the address type and the address. */
  function ConnectionMatch(line: string): (r: Option<(string, string)>)
    ensures r.Some? ==> StartsWith(line, "c=IN ")
    ensures r.Some? ==> (r.value.0 == "IP4" || r.value.0 == "IP6") && r.value.1 != [] && AllIn(r.value.1, Address)
  {
    var r0 :- Expect(line, "c=IN ", false);
    var at :- Alt(r0, ["IP4", "IP6"], false);
    var r1 :- Expect(at.1, " ", false);
    var addr :- Run1(r1, Address);
    assert at.0 == "IP4" || at.0 == "IP6" by { AltChoice(r0, ["IP4", "IP6"]); }
    Some((at.0, addr.0))
  }

  function ConnectionText(addressType: string, address: string): string {
    "c=IN " + (addressType + (" " + address))
  }

  lemma ConnectionRoundTrip(addressType: string, address: string)
    requires addressType == "IP4" || addressType == "IP6"
    requires address != [] && AllIn(address, Address)
    ensures ConnectionMatch(ConnectionText(addressType, address)) == Some((addressType, address))
  {
    ExpectOf("c=IN ", addressType + (" " + address), false);
    AltIp(addressType, " " + address);
    ExpectOf(" ", address, false);
    Run1Of(address, "", Address);
    assert address + "" == address;
  }

  /** `^a=msid-semantic: *WMS `: the description groups its tracks into
      streams. */
  predicate MsidSemanticMatch(line: string) {
    match Expect(line, "a=msid-semantic:", false)
    case None => false
    case Some(rest) => StartsWith(rest[SpaceRun(rest)..], "WMS ")
  }

  /** The `msidsemantic` template's line for the given stream ids. */
  function MsidSemanticText(ids: string): string {
    "a=msid-semantic:WMS " + ids
  }

  lemma MsidSemanticRoundTrip(ids: string)
    ensures MsidSemanticMatch(MsidSemanticText(ids))
  {
    ExpectOf("a=msid-semantic:", "WMS " + ids, false);
    assert "a=msid-semantic:WMS " + ids == "a=msid-semantic:" + ("WMS " + ids);
  }

  /** What the media-line pattern captures: the kind, the port digits, the
      protocol and the format list. */
  datatype MediaFields = MediaFields(media: MediaType, port: string, protocol: string, fmt: string)

  /** `^m=(audio|video|application) ([\d]+) ([A-Z/]+)([\d ]*)$`, the whole
      line: the separator the parser splits the description on. */
  function MediaLineMatch(line: string): (r: Option<MediaFields>)
    ensures r.Some? ==> StartsWith(line, "m=")
    ensures r.Some? ==> (AllIn(r.value.port, Digit) && AllIn(r.value.protocol, ProtoChar)
      && AllIn(r.value.fmt, FmtChar))
  {
    var r0 :- Expect(line, "m=", false);
    var kind :- MediaKind(r0);
    var tail :- MediaTail(kind.1);
    Some(MediaFields(kind.0, tail.0, tail.1, tail.2))
  }

  /** `(audio|video|application) `. */
  function MediaKind(s: string): Option<(MediaType, string)> {
    var kind :- Alt(s, ["audio", "video", "application"], false);
    var media := if kind.0 == "audio" then Audio else if kind.0 == "video" then Video else Application;
    var r1 :- Expect(kind.1, " ", false);
    Some((media, r1))
  }

  /** `([\d]+) ([A-Z/]+)([\d ]*)$`. */
  function MediaTail(s: string): (r: Option<(string, string, string)>)
    ensures r.Some? ==> (AllIn(r.value.0, Digit) && AllIn(r.value.1, ProtoChar)
      && AllIn(r.value.2, FmtChar))
  {
    var port :- Run1(s, Digit);
    var r2 :- Expect(port.1, " ", false);
    var proto :- Run1(r2, ProtoChar);
    var (fmt, r3) := Run(proto.1, FmtChar);
    if r3 != [] then None else Some((port.0, proto.0, fmt))
  }

  /** The media line the `mblock` template writes. */
  function MediaLineText(media: MediaType, port: nat, protocol: string, fmt: string): string {
    "m=" + (MediaTypeName(media) + (" " + (Decimal(port) + (" " + (protocol + (" " + fmt))))))
  }

  lemma MediaLineRoundTrip(media: MediaType, port: nat, protocol: string, fmt: string)
    requires protocol != [] && AllIn(protocol, ProtoChar) && AllIn(fmt, FmtChar)
    ensures MediaLineMatch(MediaLineText(media, port, protocol, fmt))
      == Some(MediaFields(media, Decimal(port), protocol, " " + fmt))
  {
    var r2 := protocol + (" " + fmt);
    var r1 := Decimal(port) + (" " + r2);
    var r0 := MediaTypeName(media) + (" " + r1);
    ExpectOf("m=", r0, false);
    MediaKindOf(media, r1);
    MediaTailOf(port, protocol, fmt);
  }

  lemma MediaKindOf(media: MediaType, rest: string)
    ensures MediaKind(MediaTypeName(media) + (" " + rest)) == Some((media, rest))
  {
    AltMedia(media, " " + rest);
    ExpectOf(" ", rest, false);
  }

  lemma MediaTailOf(port: nat, protocol: string, fmt: string)
    requires protocol != [] && AllIn(protocol, ProtoChar) && AllIn(fmt, FmtChar)
    ensures MediaTail(Decimal(port) + (" " + (protocol + (" " + fmt))))
      == Some((Decimal(port), protocol, " " + fmt))
  {
    var r2 := protocol + (" " + fmt);
    assert (" " + r2)[0] == ' ';
    Run1Of(Decimal(port), " " + r2, Digit);
    ExpectOf(" ", r2, false);
    assert (" " + fmt)[0] == ' ';
    Run1Of(protocol, " " + fmt, ProtoChar);
    SpacedFormats(fmt);
  }

  lemma SpacedFormats(fmt: string)
    requires AllIn(fmt, FmtChar)
    ensures Run(" " + fmt, FmtChar) == (" " + fmt, "")
  {
    assert AllIn(" " + fmt, FmtChar);
    RunOf(" " + fmt, "", FmtChar);
    assert " " + fmt + "" == " " + fmt;
  }

  lemma AltMedia(media: MediaType, rest: string)
    ensures Alt(MediaTypeName(media) + rest, ["audio", "video", "application"], false)
      == Some((MediaTypeName(media), rest))
  {
    var n := MediaTypeName(media);
    var s := n + rest;
    assert s[..|n|] == n && s[|n|..] == rest;
    assert s[0] == n[0] && s[1] == n[1];
    if media == Video {
      assert !StartsWith(s, "audio");
    }
    if media == Application {
      var alts: seq<string> := ["audio", "video", "application"];
      assert Alt(s, alts[2..], false) == Some((n, rest));
      assert !StartsWith(s, "video");
      assert alts[1..][1..] == alts[2..];
      assert Alt(s, alts[1..], false) == Some((n, rest));
      assert !StartsWith(s, "audio");
    }
  }
}
