/** The RTP attribute lines of a media block: the direction line, `a=rtcp`
    (RFC 3605 section 2.1), `a=rtcp-mux` (RFC 5761 section 5.1.1),
    `a=rtpmap` and `a=fmtp` (RFC 4566 section 6) and `a=rtcp-fb` (RFC 4585
    section 4.2); the pattern that reads each (bridge/client/webrtc.js:662-672)
    and the template that writes it (bridge/client/webrtc.js:698-725). */
module RtpAttrs {
  import opened Wrappers
  import opened Chars
  import opened Scan
  import opened Template
  import opened SdpTypes

  // ---------------------------------------------------------------------
  // a=<direction>

  const ModeNames: seq<string> := ["sendrecv", "sendonly", "recvonly", "inactive"]

  /** `^a=(sendrecv|sendonly|recvonly|inactive)`. */
  function ModeMatch(line: string): (r: Option<Mode>)
    ensures r.Some? ==> StartsWith(line, "a=" + ModeName(r.value))
  {
    var rest :- Expect(line, "a=", false);
    var m :- Alt(rest, ModeNames, false);
    AltChoice(rest, ModeNames);
    var mode := if m.0 == "sendrecv" then SendRecv else if m.0 == "sendonly" then SendOnly
      else if m.0 == "recvonly" then RecvOnly else Inactive;
    assert line == "a=" + ModeName(mode) + m.1;
    Some(mode)
  }

  function ModeText(m: Mode): string {
    "a=" + ModeName(m)
  }

  lemma ModeRoundTrip(m: Mode)
    ensures ModeMatch(ModeText(m)) == Some(m)
  {
    var n := ModeName(m);
    ExpectOf("a=", n, false);
    var i := if m == SendRecv then 0 else if m == SendOnly then 1 else if m == RecvOnly then 2 else 3;
    assert ModeNames[i] == n;
    assert n[..|n|] == n && n[|n|..] == "";
    forall j | 0 <= j < i ensures !Hits(n, ModeNames[j], false) {
      assert n[..|ModeNames[j]|] != ModeNames[j] by {
        assert n[4] != ModeNames[j][4] || n[0] != ModeNames[j][0];
      }
    }
    AltAt(n, ModeNames, false, i);
  }

  // ---------------------------------------------------------------------
  // a=rtcp

  /** `^a=rtcp:([\d]+)( IN (IP[46]) ([\d\.a-f\:]+))?`: the port digits and
      the optional address. */
  function RtcpMatch(line: string): (r: Option<(string, Option<(string, string)>)>)
    ensures r.Some? ==> StartsWith(line, "a=rtcp:") && r.value.0 != [] && AllIn(r.value.0, Digit)
  {
    var rest :- Expect(line, "a=rtcp:", false);
    var port :- Run1(rest, Digit);
    Some((port.0, RtcpAddress(port.1)))
  }

  /** The optional group ` IN (IP[46]) ([\d\.a-f\:]+)`. */
  function RtcpAddress(s: string): Option<(string, string)> {
    var r0 :- Expect(s, " IN ", false);
    var at :- Alt(r0, ["IP4", "IP6"], false);
    var r1 :- Expect(at.1, " ", false);
    var addr :- Run1(r1, Address);
    Some((at.0, addr.0))
  }

  /** The `rtcp` line: with an address, or with three blanks when the
      address is empty, as the template renders the emptied fields. */
  function RtcpText(port: nat, addr: Option<(string, string)>): string {
    "a=rtcp:" + (Decimal(port) + (if addr.Some? then " IN " + (addr.value.0 + (" " + addr.value.1)) else "   "))
  }

  lemma RtcpRoundTrip(port: nat, addr: Option<(string, string)>)
    requires addr.Some? ==> ((addr.value.0 == "IP4" || addr.value.0 == "IP6")
      && addr.value.1 != [] && AllIn(addr.value.1, Address))
    ensures RtcpMatch(RtcpText(port, addr)) == Some((Decimal(port), addr))
  {
    var tail := if addr.Some? then " IN " + (addr.value.0 + (" " + addr.value.1)) else "   ";
    ExpectOf("a=rtcp:", Decimal(port) + tail, false);
    Run1Of(Decimal(port), tail, Digit);
    if addr.Some? {
      var (at, a) := addr.value;
      ExpectOf(" IN ", at + (" " + a), false);
      AltAt4or6(at, " " + a);
      ExpectOf(" ", a, false);
      Run1Of(a, "", Address);
      assert a + "" == a;
    }
  }

  lemma AltAt4or6(at: string, rest: string)
    requires at == "IP4" || at == "IP6"
    ensures Alt(at + rest, ["IP4", "IP6"], false) == Some((at, rest))
  {
    var s := at + rest;
    assert s[..3] == at && s[3..] == rest;
    if at == "IP6" {
      assert s[2] == '6';
      assert !Hits(s, "IP4", false);
    }
  }

  /** The `rtcp` template of the generator. */
  function RtcpTemplate(): Tmpl {
    Line(RtcpSlots())
  }

  function RtcpSlots(): Tmpl {
    Lit("a=rtcp:", Slot("", "port", "", Slot(" ", "netType", "", Slot(" ", "addressType", "",
      Slot(" ", "address", "", End)))))
  }

  /** The rtcp object after the generator's defaults: the network and
      address types are emptied when the address is. */
  function RtcpInfo(port: nat, addressType: Option<string>, address: Option<string>): Info {
    var a := address.GetOr("");
    var at := addressType.GetOr("IP4");
    Entry("port", NumValue(port), Entry("netType", Text(if a == "" then "" else "IN"),
      Entry("addressType", Text(if a == "" then "" else at), Entry("address", Text(a), Done))))
  }

  lemma RtcpFill(port: nat, addressType: Option<string>, address: Option<string>)
    requires DollarFree(addressType.GetOr("IP4")) && DollarFree(address.GetOr(""))
    ensures Fill(Flatten(RtcpTemplate()), RtcpInfo(port, addressType, address)) ==
      (if address.GetOr("") == "" then RtcpText(port, None)
       else RtcpText(port, Some((addressType.GetOr("IP4"), address.value)))) + "\r\n"
  {
    RtcpSlotsGood();
    RtcpInfoGood(port, addressType, address);
    FillLine(RtcpSlots(), RtcpInfo(port, addressType, address));
    RtcpRender(port, addressType, address);
  }

  lemma RtcpSlotsGood()
    ensures GoodTmpl(RtcpSlots()) && DistinctSlots(RtcpSlots())
  {
    Unfold();
    assert DollarFree("a=rtcp:") && DollarFree(" ");
  }

  lemma RtcpInfoGood(port: nat, addressType: Option<string>, address: Option<string>)
    requires DollarFree(addressType.GetOr("IP4")) && DollarFree(address.GetOr(""))
    ensures InfoKeysGood(RtcpInfo(port, addressType, address)) && InfoDollarFree(RtcpInfo(port, addressType, address))
  {
    Unfold();
    assert DollarFree("IN") && DollarFree("");
  }

  lemma RtcpRender(port: nat, addressType: Option<string>, address: Option<string>)
    ensures Render(RtcpSlots(), RtcpInfo(port, addressType, address)) ==
      (if address.GetOr("") == "" then RtcpText(port, None)
       else RtcpText(port, Some((addressType.GetOr("IP4"), address.value))))
  {
    var a := address.GetOr("");
    var at := addressType.GetOr("IP4");
    var nt := if a == "" then "" else "IN";
    var at2 := if a == "" then "" else at;
    RtcpLookups(port, addressType, address);
    RtcpRenderFields(port, nt, at2, a, RtcpInfo(port, addressType, address));
    if a == "" {
      assert " " + nt + (" " + at2 + (" " + a)) == "   ";
    } else {
      assert " " + nt + (" " + at2 + (" " + a)) == " IN " + (at + (" " + a));
    }
  }

  lemma RtcpLookups(port: nat, addressType: Option<string>, address: Option<string>)
    ensures Lookup(RtcpInfo(port, addressType, address), "port") == Some(NumValue(port))
    ensures Lookup(RtcpInfo(port, addressType, address), "netType")
      == Some(Text(if address.GetOr("") == "" then "" else "IN"))
    ensures Lookup(RtcpInfo(port, addressType, address), "addressType")
      == Some(Text(if address.GetOr("") == "" then "" else addressType.GetOr("IP4")))
    ensures Lookup(RtcpInfo(port, addressType, address), "address") == Some(Text(address.GetOr("")))
  {
    Unfold();
  }

  lemma RtcpRenderFields(port: nat, nt: string, at: string, a: string, info: Info)
    requires Lookup(info, "port") == Some(NumValue(port))
    requires Lookup(info, "netType") == Some(Text(nt))
    requires Lookup(info, "addressType") == Some(Text(at))
    requires Lookup(info, "address") == Some(Text(a))
    ensures Render(RtcpSlots(), info) ==
      "a=rtcp:" + (Decimal(port) + (" " + nt + (" " + at + (" " + a))))
  {
    Unfold();
  }

  // ---------------------------------------------------------------------
  // a=rtcp-mux

  /** `^a=rtcp-mux`. */
  function RtcpMuxMatch(line: string): (r: Option<()>)
    ensures r.Some? <==> StartsWith(line, "a=rtcp-mux")
  {
    if StartsWith(line, "a=rtcp-mux") then Some(()) else None
  }

  const RtcpMuxText: string := "a=rtcp-mux"

  // ---------------------------------------------------------------------
  // a=rtpmap

  /** What the rtpmap pattern captures: the encoding name, the clock rate
      digits and the channel digits when present. */
  datatype RtpmapFields = RtpmapFields(name: string, clockRate: string, channels: Option<string>)

  /** `^a=rtpmap:<pt> ([\w\-]+)/([\d]+)/?([\d]+)?`, the payload type
      written into the pattern as its decimal text. */
  function RtpmapMatch(line: string, pt: Option<nat>): (r: Option<RtpmapFields>)
    ensures r.Some? ==> StartsWith(line, "a=rtpmap:" + NumText(pt) + " ")
    ensures r.Some? ==> (r.value.name != [] && AllIn(r.value.name, WordDash)
      && r.value.clockRate != [] && AllIn(r.value.clockRate, Digit))
  {
    var r0 :- DropPrefix(line, "a=rtpmap:" + NumText(pt) + " ");
    RtpmapFieldsMatch(r0)
  }

  /** The rtpmap pattern after its payload type. */
  function RtpmapFieldsMatch(r0: string): (r: Option<RtpmapFields>)
    ensures r.Some? ==> (r.value.name != [] && AllIn(r.value.name, WordDash)
      && r.value.clockRate != [] && AllIn(r.value.clockRate, Digit))
  {
    var name :- Run1(r0, WordDash);
    var r1 :- Expect(name.1, "/", false);
    var clock :- Run1(r1, Digit);
    Some(RtpmapFields(name.0, clock.0, Channels(clock.1)))
  }

  /** `/?([\d]+)?` after the clock rate: digits after a slash. */
  function Channels(s: string): (r: Option<string>)
    ensures r.Some? ==> r.value != [] && AllIn(r.value, Digit)
  {
    if |s| >= 2 && s[0] == '/' && IsDigit(s[1]) then Some(Run(s[1..], Digit).0) else None
  }

  /** The rtpmap line: the channel count follows a slash when given. */
  function RtpmapText(pt: Option<nat>, name: string, clockRate: nat, channels: Option<nat>): string {
    "a=rtpmap:" + NumText(pt) + " " + (name + ("/" + (Decimal(clockRate) + PrefixedNum("/", channels))))
  }

  lemma RtpmapRoundTrip(pt: Option<nat>, name: string, clockRate: nat, channels: Option<nat>)
    requires name != [] && AllIn(name, WordDash)
    ensures RtpmapMatch(RtpmapText(pt, name, clockRate, channels), pt) ==
      Some(RtpmapFields(name, Decimal(clockRate),
        if channels.Some? then Some(Decimal(channels.value)) else None))
  {
    var tail := PrefixedNum("/", channels);
    var r0 := name + ("/" + (Decimal(clockRate) + tail));
    DropPrefixOf("a=rtpmap:" + NumText(pt) + " ", r0);
    assert ("/" + (Decimal(clockRate) + tail))[0] == '/';
    Run1Of(name, "/" + (Decimal(clockRate) + tail), WordDash);
    ExpectOf("/", Decimal(clockRate) + tail, false);
    ChannelsTail(channels);
    Run1Of(Decimal(clockRate), tail, Digit);
  }

  /** The `/channels` suffix reads back as the channel count. */
  lemma ChannelsTail(channels: Option<nat>)
    ensures PrefixedNum("/", channels) == [] || PrefixedNum("/", channels)[0] == '/'
    ensures Channels(PrefixedNum("/", channels)) ==
      if channels.Some? then Some(Decimal(channels.value)) else None
  {
    if channels.Some? {
      var tail := PrefixedNum("/", channels);
      var d := Decimal(channels.value);
      assert tail == "/" + d;
      assert tail[1..] == d + "";
      RunOf(d, "", Digit);
    }
  }

  /** The `rtpMap` template of the generator. */
  function RtpMapTemplate(): Tmpl {
    Line(RtpMapSlots())
  }

  function RtpMapSlots(): Tmpl {
    Lit("a=rtpmap:", Slot("", "type", "", Lit(" ", Slot("", "encodingName", "", Lit("/",
      Slot("", "clockRate", "", Slot("/", "channels", "", End)))))))
  }

  /** The channel count the generator writes: none for a missing, zero or
      single channel. */
  function WrittenChannels(channels: Option<nat>): Option<nat> {
    if channels.Some? && channels.value != 0 && channels.value != 1 then channels else None
  }

  /** A payload as the rtpmap template receives it. */
  function RtpMapInfo(p: Payload): Info {
    Entry("type", OptNum(p.payloadType), Maybe("encodingName", p.encodingName,
      MaybeNum("clockRate", p.clockRate, Entry("channels", OptNum(WrittenChannels(p.channels)), Done))))
  }

  lemma RtpMapFill(p: Payload)
    requires p.encodingName.Some? && p.clockRate.Some? && DollarFree(p.encodingName.value)
    ensures Fill(Flatten(RtpMapTemplate()), RtpMapInfo(p)) ==
      RtpmapText(p.payloadType, p.encodingName.value, p.clockRate.value, WrittenChannels(p.channels)) + "\r\n"
  {
    RtpMapGood();
    Unfold();
    FillLine(RtpMapSlots(), RtpMapInfo(p));
    RtpMapRender(p);
  }

  lemma RtpMapGood()
    ensures GoodTmpl(RtpMapSlots()) && DistinctSlots(RtpMapSlots())
  {
    Unfold();
    assert DollarFree("a=rtpmap:") && DollarFree(" ") && DollarFree("/");
  }

  lemma RtpMapRender(p: Payload)
    requires p.encodingName.Some? && p.clockRate.Some?
    ensures Render(RtpMapSlots(), RtpMapInfo(p)) ==
      RtpmapText(p.payloadType, p.encodingName.value, p.clockRate.value, WrittenChannels(p.channels))
  {
    Unfold();
  }

  // ---------------------------------------------------------------------
  // a=fmtp

  /** `^a=fmtp:<pt> ([\w\-=; ]+)`: the parameter text. */
  function FmtpMatch(line: string, pt: Option<nat>): (r: Option<string>)
    ensures r.Some? ==> StartsWith(line, "a=fmtp:" + NumText(pt) + " ")
    ensures r.Some? ==> r.value != [] && AllIn(r.value, FmtpChar)
  {
    var r0 :- DropPrefix(line, "a=fmtp:" + NumText(pt) + " ");
    var text :- Run1(r0, FmtpChar);
    Some(text.0)
  }

  function FmtpText(pt: Option<nat>, parameters: string): string {
    "a=fmtp:" + NumText(pt) + " " + parameters
  }

  lemma FmtpRoundTrip(pt: Option<nat>, parameters: string)
    requires parameters != [] && AllIn(parameters, FmtpChar)
    ensures FmtpMatch(FmtpText(pt, parameters), pt) == Some(parameters)
  {
    DropPrefixOf("a=fmtp:" + NumText(pt) + " ", parameters);
    Run1Of(parameters, "", FmtpChar);
    assert parameters + "" == parameters;
  }

  /** `([\w\-]+)=([\w\-]+);?` at the start of `s`: a key, its value and
      the text after them and an optional semicolon. */
  function ParamAt(s: string): (r: Option<(string, string, string)>)
    ensures r.Some? ==> |r.value.2| < |s|
  {
    var key :- Run1(s, WordDash);
    var r0 :- Expect(key.1, "=", false);
    var value :- Run1(r0, WordDash);
    var rest := if value.1 != [] && value.1[0] == ';' then value.1[1..] else value.1;
    Some((key.0, value.0, rest))
  }

  /** The key-value pairs the global parameter pattern finds: a match is
      taken where it starts, and the search moves on one character where
      none does. */
  function ParamScan(s: string): seq<(string, string)>
    decreases |s|
  {
    if s == [] then []
    else
      match ParamAt(s)
      case Some((k, v, rest)) => [(k, v)] + ParamScan(rest)
      case None => ParamScan(s[1..])
  }

  /** `key.replace(/-([a-z])/g, upper)`: dash-case to camel case. */
  function Camel(k: string): string {
    if |k| >= 2 && k[0] == '-' && IsLower(k[1]) then [ToUpper(k[1])] + Camel(k[2..])
    else if k == [] then []
    else [k[0]] + Camel(k[1..])
  }

  /** `p.replace(/([A-Z])([a-z])/g, "-" + lower + b)`: camel case back to
      dash-case. */
  function Uncamel(k: string): string {
    if |k| >= 2 && IsUpper(k[0]) && IsLower(k[1]) then ['-', ToLower(k[0]), k[1]] + Uncamel(k[2..])
    else if k == [] then []
    else [k[0]] + Uncamel(k[1..])
  }

  /** A value that reads as a decimal number is stored as that number. */
  function ParamValueOf(v: string): ParamValue {
    if v != [] && AllIn(v, Digit) then Num(DigitsValue(v)) else Str(v)
  }

  function ParamValueText(v: ParamValue): string {
    match v
    case Num(n) => Decimal(n)
    case Str(s) => s
  }

  function Keys(ps: Params): seq<string> {
    seq(|ps|, i requires 0 <= i < |ps| => ps[i].0)
  }

  lemma KeysCons(ps: Params)
    requires ps != []
    ensures Keys(ps) == [ps[0].0] + Keys(ps[1..])
  {
  }

  /** Assigning a property of the parameters object: a key already there
      keeps its place and takes the new value. */
  function Put(ps: Params, k: string, v: ParamValue): (r: Params)
    ensures Keys(r) == if k in Keys(ps) then Keys(ps) else Keys(ps) + [k]
    ensures (k, v) in r
  {
    if ps == [] then [(k, v)]
    else
      KeysCons(ps);
      if ps[0].0 == k then
        KeysCons([(k, v)] + ps[1..]);
        assert ([(k, v)] + ps[1..])[1..] == ps[1..];
        [(k, v)] + ps[1..]
      else
        var r := [ps[0]] + Put(ps[1..], k, v);
        KeysCons(r);
        assert r[1..] == Put(ps[1..], k, v);
        r
  }

  /** The parameters of an fmtp line, in the order their keys first
      appear. */
  function ParseParams(text: string): Params {
    Collect([], ParamScan(text))
  }

  function Collect(acc: Params, pairs: seq<(string, string)>): Params
    decreases |pairs|
  {
    if pairs == [] then acc
    else Collect(Put(acc, Camel(pairs[0].0), ParamValueOf(pairs[0].1)), pairs[1..])
  }

  /** The parameter text the generator joins: `key=value` pairs, dash-case
      keys, separated by semicolons. */
  function ParamsText(ps: Params): string {
    if ps == [] then ""
    else PairText(ps[0]) + (if |ps| == 1 then "" else ";" + ParamsText(ps[1..]))
  }

  function PairText(p: (string, ParamValue)): string {
    Uncamel(p.0) + "=" + ParamValueText(p.1)
  }

  /** Parameters the generator writes and the parser reads back: word
      keys without dashes, each once, and values that are numbers or
      non-numeric dash-words. */
  predicate ParamsGood(ps: Params) {
    (forall i :: 0 <= i < |ps| ==> KeyGood(ps[i].0) && ValueGood(ps[i].1))
    && (forall i, j :: 0 <= i < j < |ps| ==> ps[i].0 != ps[j].0)
  }

  predicate KeyGood(k: string) {
    k != [] && forall i :: 0 <= i < |k| ==> IsWord(k[i])
  }

  predicate ValueGood(v: ParamValue) {
    v.Str? ==> v.s != [] && AllIn(v.s, WordDash) && !AllIn(v.s, Digit)
  }

  /** Camel case undoes the generator's dash-case on word keys. */
  lemma {:induction false} CamelUncamel(k: string)
    requires forall i :: 0 <= i < |k| ==> IsWord(k[i])
    ensures Camel(Uncamel(k)) == k
    decreases |k|
  {
    if |k| >= 2 && IsUpper(k[0]) && IsLower(k[1]) {
      var u := Uncamel(k[2..]);
      assert Uncamel(k) == ['-', ToLower(k[0]), k[1]] + u;
      CamelUncamel(k[2..]);
      CamelDash(k[0], k[1], u);
      assert k == [k[0], k[1]] + k[2..];
    } else if k != [] {
      var u := Uncamel(k[1..]);
      assert Uncamel(k) == [k[0]] + u;
      CamelUncamel(k[1..]);
      CamelPlain(k[0], u);
      assert k == [k[0]] + k[1..];
    }
  }

  /** A dash before a lower-case letter goes back to the upper-case letter. */
  lemma CamelDash(c: char, d: char, u: string)
    requires IsUpper(c) && IsLower(d)
    ensures Camel(['-', ToLower(c), d] + u) == [c, d] + Camel(u)
  {
    var k := ['-', ToLower(c), d] + u;
    assert k[2..] == [d] + u;
    CamelPlain(d, u);
  }

  lemma CamelPlain(c: char, u: string)
    requires c != '-'
    ensures Camel([c] + u) == [c] + Camel(u)
  {
    assert ([c] + u)[1..] == u;
  }

  /** Dash-case keys are dash-words as long as the key. */
  lemma {:induction false} UncamelWordDash(k: string)
    requires forall i :: 0 <= i < |k| ==> IsWord(k[i])
    ensures AllIn(Uncamel(k), WordDash) && |Uncamel(k)| >= |k|
    decreases |k|
  {
    if |k| >= 2 && IsUpper(k[0]) && IsLower(k[1]) {
      UncamelWordDash(k[2..]);
    } else if k != [] {
      UncamelWordDash(k[1..]);
    }
  }

  lemma ValueRoundTrip(v: ParamValue)
    requires ValueGood(v)
    ensures ParamValueOf(ParamValueText(v)) == v
    ensures ParamValueText(v) != [] && AllIn(ParamValueText(v), WordDash)
  {
    if v.Num? {
      DecimalValue(v.n);
    }
  }

  /** The raw pairs the scan finds in the generator's text. */
  function Raw(ps: Params): seq<(string, string)> {
    seq(|ps|, i requires 0 <= i < |ps| => (Uncamel(ps[i].0), ParamValueText(ps[i].1)))
  }

  lemma ParamAtPair(key: string, value: string, tail: string)
    requires key != [] && AllIn(key, WordDash) && value != [] && AllIn(value, WordDash)
    requires tail == [] || tail[0] == ';'
    ensures ParamAt(key + "=" + value + tail) ==
      Some((key, value, if tail == [] then [] else tail[1..]))
  {
    assert key + "=" + value + tail == key + ("=" + (value + tail));
    Run1Of(key, "=" + (value + tail), WordDash);
    ExpectOf("=", value + tail, false);
    Run1Of(value, tail, WordDash);
  }

  lemma {:induction false} ParamScanText(ps: Params)
    requires ParamsGood(ps)
    ensures ParamScan(ParamsText(ps)) == Raw(ps)
    decreases |ps|
  {
    if ps != [] {
      var k := Uncamel(ps[0].0);
      var v := ParamValueText(ps[0].1);
      UncamelWordDash(ps[0].0);
      ValueRoundTrip(ps[0].1);
      var tail := if |ps| == 1 then "" else ";" + ParamsText(ps[1..]);
      ParamScanStep(k, v, tail);
      RawCons(ps);
      if |ps| > 1 {
        ParamsGoodTail(ps);
        ParamScanText(ps[1..]);
        assert tail[1..] == ParamsText(ps[1..]);
      }
    }
  }

  lemma ParamScanStep(key: string, value: string, tail: string)
    requires key != [] && AllIn(key, WordDash) && value != [] && AllIn(value, WordDash)
    requires tail == [] || tail[0] == ';'
    ensures ParamScan(key + "=" + value + tail) ==
      [(key, value)] + ParamScan(if tail == [] then [] else tail[1..])
  {
    ParamAtPair(key, value, tail);
  }

  lemma RawCons(ps: Params)
    requires ps != []
    ensures Raw(ps) == [(Uncamel(ps[0].0), ParamValueText(ps[0].1))] + Raw(ps[1..])
  {
  }

  lemma ParamsGoodTail(ps: Params)
    requires ps != [] && ParamsGood(ps)
    ensures ParamsGood(ps[1..])
  {
    assert forall i :: 0 <= i < |ps[1..]| ==> ps[1..][i] == ps[i + 1];
  }

  /** No key of `ps` is already a key of `acc`. */
  predicate Fresh(acc: Params, ps: Params) {
    forall j :: 0 <= j < |ps| ==> ps[j].0 !in Keys(acc)
  }

  lemma {:induction false} CollectRaw(acc: Params, ps: Params)
    requires ParamsGood(ps) && Fresh(acc, ps)
    ensures Collect(acc, Raw(ps)) == acc + ps
    decreases |ps|
  {
    if ps == [] {
      assert acc + ps == acc;
    } else {
      var acc2 := acc + [ps[0]];
      var rest := ps[1..];
      CollectStep(acc, ps);
      ParamsGoodTail(ps);
      FreshStep(acc, ps);
      CollectRaw(acc2, rest);
      ConcatCons(acc, ps);
    }
  }

  lemma ConcatCons(acc: Params, ps: Params)
    requires ps != []
    ensures acc + [ps[0]] + ps[1..] == acc + ps
  {
    assert ps == [ps[0]] + ps[1..];
  }

  lemma FreshStep(acc: Params, ps: Params)
    requires ps != [] && ParamsGood(ps) && Fresh(acc, ps)
    ensures Fresh(acc + [ps[0]], ps[1..])
  {
    assert Keys(acc + [ps[0]]) == Keys(acc) + [ps[0].0];
    forall j | 0 <= j < |ps[1..]| ensures ps[1..][j].0 !in Keys(acc + [ps[0]]) {
      assert ps[1..][j] == ps[j + 1];
      assert ps[j + 1].0 != ps[0].0;
    }
  }

  lemma CollectStep(acc: Params, ps: Params)
    requires ps != [] && ParamsGood(ps) && Fresh(acc, ps)
    ensures Collect(acc, Raw(ps)) == Collect(acc + [ps[0]], Raw(ps[1..]))
  {
    var k := ps[0].0;
    CamelUncamel(k);
    ValueRoundTrip(ps[0].1);
    RawCons(ps);
    PutNew(acc, k, ps[0].1);
  }

  lemma {:induction false} PutNew(acc: Params, k: string, v: ParamValue)
    requires k !in Keys(acc)
    ensures Put(acc, k, v) == acc + [(k, v)]
  {
    if acc != [] {
      KeysCons(acc);
      PutNew(acc[1..], k, v);
      assert [acc[0]] + (acc[1..] + [(k, v)]) == acc + [(k, v)];
    }
  }

  /** fmtp parameters round trip: the parser reads the generator's
      parameter text back as the same keys, values and order. */
  lemma ParamsRoundTrip(ps: Params)
    requires ParamsGood(ps)
    ensures ParseParams(ParamsText(ps)) == ps
  {
    ParamScanText(ps);
    assert Keys([]) == [];
    CollectRaw([], ps);
    assert [] + ps == ps;
  }

  /** The generator's parameter text lies inside the fmtp pattern's
      characters. */
  lemma {:induction false} ParamsTextChars(ps: Params)
    requires ParamsGood(ps)
    ensures AllIn(ParamsText(ps), FmtpChar)
    ensures ps != [] ==> ParamsText(ps) != []
    decreases |ps|
  {
    if ps != [] {
      PairChars(ps[0]);
      if |ps| > 1 {
        assert ParamsGood(ps[1..]) by {
          assert forall i :: 0 <= i < |ps[1..]| ==> ps[1..][i] == ps[i + 1];
        }
        ParamsTextChars(ps[1..]);
        JoinChars(PairText(ps[0]), ";", ParamsText(ps[1..]));
      } else {
        assert ParamsText(ps) == PairText(ps[0]) + "";
      }
    }
  }

  /** One `key=value` pair inside the fmtp characters. */
  lemma PairChars(p: (string, ParamValue))
    requires KeyGood(p.0) && ValueGood(p.1)
    ensures AllIn(PairText(p), FmtpChar) && PairText(p) != []
  {
    UncamelWordDash(p.0);
    ValueRoundTrip(p.1);
    JoinChars(Uncamel(p.0), "=", ParamValueText(p.1));
  }

  /** Two runs of fmtp characters around a separator `=` or `;`. */
  lemma JoinChars(a: string, sep: string, b: string)
    requires sep == "=" || sep == ";"
    requires AllIn(a, WordDash) || AllIn(a, FmtpChar)
    requires AllIn(b, WordDash) || AllIn(b, FmtpChar)
    ensures AllIn(a + sep + b, FmtpChar)
  {
    var t := a + sep + b;
    forall i | 0 <= i < |t| ensures InClass(t[i], FmtpChar) {
      if i < |a| {
        assert t[i] == a[i];
      } else if i == |a| {
        assert t[i] == sep[0];
      } else {
        assert t[i] == b[i - |a| - 1];
      }
    }
  }

  /** The `fmtp` template of the generator. */
  function FmtpTemplate(): Tmpl {
    Line(FmtpSlots())
  }

  function FmtpSlots(): Tmpl {
    Lit("a=fmtp:", Slot("", "type", "", Lit(" ", Slot("", "parameters", "", End))))
  }

  /** The object the generator fills the fmtp template with. */
  function FmtpInfo(pt: Option<nat>, text: string): Info {
    Entry("type", OptNum(pt), Entry("parameters", Text(text), Done))
  }

  lemma FmtpFill(pt: Option<nat>, text: string)
    requires DollarFree(text)
    ensures Fill(Flatten(FmtpTemplate()), FmtpInfo(pt, text)) == FmtpText(pt, text) + "\r\n"
  {
    FmtpGood();
    FmtpInfoGood(pt, text);
    FillLine(FmtpSlots(), FmtpInfo(pt, text));
    FmtpRender(pt, text);
  }

  lemma FmtpGood()
    ensures GoodTmpl(FmtpSlots()) && DistinctSlots(FmtpSlots())
  {
    Unfold();
    assert DollarFree("a=fmtp:") && DollarFree(" ");
  }

  lemma FmtpInfoGood(pt: Option<nat>, text: string)
    requires DollarFree(text)
    ensures InfoKeysGood(FmtpInfo(pt, text)) && InfoDollarFree(FmtpInfo(pt, text))
  {
    Unfold();
  }

  lemma FmtpRender(pt: Option<nat>, text: string)
    ensures Render(FmtpSlots(), FmtpInfo(pt, text)) == FmtpText(pt, text)
  {
    Unfold();
  }

  // ---------------------------------------------------------------------
  // a=rtcp-fb

  /** The feedback kinds the codec knows, as they follow the payload type. */
  const Nack: string := "nack"
  const NackPli: string := "nack pli"
  const CcmFir: string := "ccm fir"
  const EricScream: string := "ericscream"

  /** `^a=rtcp-fb:<pt> <kind>$`: the pattern matches this line exactly. */
  function FeedbackText(pt: Option<nat>, kind: string): string {
    "a=rtcp-fb:" + NumText(pt) + " " + kind
  }

  /** The feedback templates of the generator (`nack`, `nackpli`,
      `ccmfir`, `ericscream`). */
  function FeedbackTemplate(kind: string): Tmpl {
    Line(FeedbackSlots(kind))
  }

  function FeedbackSlots(kind: string): Tmpl {
    Lit("a=rtcp-fb:", Slot("", "type", "", Lit(" " + kind, End)))
  }

  /** The generator fills a feedback line with the whole payload, as the
      rtpmap template receives it; only its type names a placeholder. */
  lemma FeedbackFill(p: Payload, kind: string)
    requires DollarFree(kind) && DollarFree(p.encodingName.GetOr(""))
    ensures Fill(Flatten(FeedbackTemplate(kind)), RtpMapInfo(p)) ==
      FeedbackText(p.payloadType, kind) + "\r\n"
  {
    FeedbackSlotsGood(kind);
    FeedbackInfoGood(p);
    FillLine(FeedbackSlots(kind), RtpMapInfo(p));
    FeedbackRender(p, kind);
  }

  lemma FeedbackSlotsGood(kind: string)
    requires DollarFree(kind)
    ensures GoodTmpl(FeedbackSlots(kind)) && DistinctSlots(FeedbackSlots(kind))
  {
    Unfold();
    assert DollarFree("a=rtcp-fb:");
    DollarFreeAppend(" ", kind);
  }

  lemma FeedbackInfoGood(p: Payload)
    requires DollarFree(p.encodingName.GetOr(""))
    ensures InfoKeysGood(RtpMapInfo(p)) && InfoDollarFree(RtpMapInfo(p))
  {
    Unfold();
    MaybeGood("encodingName", p.encodingName,
      MaybeNum("clockRate", p.clockRate, Entry("channels", OptNum(WrittenChannels(p.channels)), Done)));
  }

  lemma FeedbackRender(p: Payload, kind: string)
    ensures Render(FeedbackSlots(kind), RtpMapInfo(p)) == FeedbackText(p.payloadType, kind)
  {
    Unfold();
  }
}
