/** The ICE attribute lines of a media block: `a=candidate` (RFC 5245
    section 15.1, with the `tcptype` extension of RFC 6544 section 4.5),
    `a=ice-ufrag`, `a=ice-pwd` and `a=ice-options`; the pattern that reads
    each and the template that writes it (bridge/client/webrtc.js:676-680,
    713-721, 902-967, 1103-1122). */
module IceAttrs {
  import opened Wrappers
  import opened Chars
  import opened Scan
  import opened Template
  import opened SdpTypes

  // ---------------------------------------------------------------------
  // a=candidate

  /** What the candidate pattern captures from a line. */
  datatype CandidateFields = CandidateFields(
    foundation: string,
    componentId: nat,
    transport: string,
    priority: string,
    address: string,
    port: string,
    typ: string,
    related: Option<(string, string)>,
    tcpType: Option<string>)

  /** The optional group ` raddr <address> rport <digits>`. */
  function RelatedGroup(s: string): Option<((string, string), string)> {
    var r0 :- Expect(s, " raddr ", true);
    RelatedFields(r0)
  }

  /** The address, ` rport ` and the port after ` raddr `. */
  function RelatedFields(r0: string): Option<((string, string), string)> {
    var (addr, r1) := Run(r0, AddressCI);
    var r2 :- Expect(r1, " rport ", true);
    var (port, r3) := Run(r2, Digit);
    Some(((addr, port), r3))
  }

  /** The optional group ` tcptype (active|passive|so)`. */
  function TcpTypeGroup(s: string): Option<string> {
    var r0 :- Expect(s, " tcptype ", true);
    var a :- Alt(r0, ["active", "passive", "so"], true);
    Some(a.0)
  }

  /** The fields after ` typ `: the type letters and the two optional
      groups, the second tried where the first ends. */
  function TypAndRest(s: string): (string, Option<(string, string)>, Option<string>) {
    var (typ, r0) := Run(s, Letter);
    var rel := RelatedGroup(r0);
    var r1 := if rel.Some? then rel.value.1 else r0;
    (typ, if rel.Some? then Some(rel.value.0) else None, TcpTypeGroup(r1))
  }

  /** `(\d+) (\d) `: the foundation and the component id. */
  function IdsPart(s: string): Option<((string, nat), string)> {
    var f :- Run1(s, Digit);
    var r1 :- Expect(f.1, " ", false);
    if r1 == [] || !IsDigit(r1[0]) then None
    else
      var r2 :- Expect(r1[1..], " ", false);
      Some(((f.0, DigitOf(r1[0])), r2))
  }

  /** `(UDP|TCP) ([\d\.]*) `: the transport and the priority. */
  function TransportPart(s: string): Option<((string, string), string)> {
    var t :- Alt(s, ["udp", "tcp"], true);
    var r1 :- Expect(t.1, " ", false);
    var (priority, r2) := Run(r1, DigitDot);
    var r3 :- Expect(r2, " ", false);
    Some(((t.0, priority), r3))
  }

  /** `([\d\.a-f\:]*) (\d*) typ `: the address and the port. */
  function AddressPart(s: string): Option<((string, string), string)> {
    var (address, r1) := Run(s, AddressCI);
    var p :- PortPart(r1);
    Some(((address, p.0), p.1))
  }

  /** The space, the port and ` typ ` after the address. */
  function PortPart(r1: string): Option<(string, string)> {
    var r2 :- Expect(r1, " ", false);
    var (port, r3) := Run(r2, Digit);
    var r4 :- Expect(r3, " typ ", true);
    Some((port, r4))
  }

  /** The candidate pattern under the `i` flag, on one line. */
  function CandidateMatch(line: string): (r: Option<CandidateFields>)
    ensures r.Some? ==> StartsWithCI(line, "a=candidate:")
  {
    var r0 :- Expect(line, "a=candidate:", true);
    var a :- IdsPart(r0);
    var b :- TransportPart(a.1);
    var c :- AddressPart(b.1);
    var (typ, related, tcpType) := TypAndRest(c.1);
    Some(CandidateFields(a.0.0, a.0.1, b.0.0, b.0.1, c.0.0, c.0.1, typ, related, tcpType))
  }

  /** The candidate parse builds from the captures, or None when it drops
      the line: a TCP candidate without a `tcptype` is kept, as active on
      port 9, only when its port is 0 or 9. */
  function Accept(f: CandidateFields): (r: Option<Candidate>)
    ensures r.None? <==>
      f.tcpType.None? && UpperString(f.transport) == "TCP"
      && ParseInt(f.port) != Some(0) && ParseInt(f.port) != Some(9)
    ensures r.Some? && f.tcpType.None? && UpperString(f.transport) == "TCP" ==>
      r.value.tcpType == Some("active") && r.value.port == Some(9)
    ensures r.Some? && (f.tcpType.Some? || UpperString(f.transport) != "TCP") ==>
      r.value.tcpType == f.tcpType && r.value.port == ParseInt(f.port)
    ensures r.Some? ==> r.value.transport == UpperString(f.transport)
  {
    var transport := UpperString(f.transport);
    var port := ParseInt(f.port);
    var c := Candidate(f.foundation, f.componentId, transport, ParseInt(f.priority),
      f.address, port, f.typ,
      if f.related.Some? && f.related.value.0 != "" then Some(f.related.value.0) else None,
      if f.related.Some? then ParseInt(f.related.value.1) else None,
      f.tcpType);
    if f.tcpType.Some? then Some(c)
    else if transport == "TCP" then
      if port == Some(0) || port == Some(9) then Some(c.(tcpType := Some("active"), port := Some(9)))
      else None
    else Some(c)
  }

  /** The line the candidate template renders, without its CR LF. */
  function CandidateText(c: Candidate): string {
    "a=candidate:" + (c.foundation + (" " + (Decimal(c.componentId) + (" " + (c.transport
    + (" " + (NumText(c.priority) + (" " + (c.address + (" " + (NumText(c.port)
    + (" typ " + (c.typ + (Prefixed(" raddr ", c.relatedAddress)
    + (PrefixedNum(" rport ", c.relatedPort) + Prefixed(" tcptype ", c.tcpType))))))))))))))))
  }

  /** The `candidate` template of the generator. */
  function CandidateTemplate(): Tmpl {
    Line(CandidateSlots())
  }

  function CandidateSlots(): Tmpl {
    Lit("a=candidate:", Slot("", "foundation", "", Lit(" ", Slot("", "componentId", "",
    Lit(" ", Slot("", "transport", "", Lit(" ", Slot("", "priority", "", Lit(" ",
    Slot("", "address", "", Lit(" ", Slot("", "port", "", Lit(" typ ", Slot("", "type", "",
    Slot(" raddr ", "relatedAddress", "", Slot(" rport ", "relatedPort", "",
    Slot(" tcptype ", "tcpType", "", End)))))))))))))))))
  }

  /** A candidate as the generator hands it to the template, the optional
      properties defaulted to null. */
  function CandidateInfo(c: Candidate): Info {
    Entry("foundation", Text(c.foundation), Entry("componentId", NumValue(c.componentId),
    Entry("transport", Text(c.transport), Entry("priority", OptNum(c.priority),
    Entry("address", Text(c.address), Entry("port", OptNum(c.port),
    Entry("type", Text(c.typ), Entry("relatedAddress", OptText(c.relatedAddress),
    Entry("relatedPort", OptNum(c.relatedPort), Entry("tcpType", OptText(c.tcpType), Done))))))))))
  }

  /** Filling the candidate template writes the candidate's line. */
  lemma CandidateFill(c: Candidate)
    requires InfoDollarFree(CandidateInfo(c))
    ensures Fill(Flatten(CandidateTemplate()), CandidateInfo(c)) == CandidateText(c) + "\r\n"
  {
    CandidateSlotsGood();
    CandidateInfoKeys(c);
    FillLine(CandidateSlots(), CandidateInfo(c));
    CandidateRender(c);
  }

  lemma CandidateSlotsGood()
    ensures GoodTmpl(CandidateSlots()) && DistinctSlots(CandidateSlots())
  {
    CandidateSlotsPlain();
    CandidateSlotsDistinct();
  }

  lemma CandidateSlotsPlain()
    ensures GoodTmpl(CandidateSlots())
  {
    CandidateKeysGood();
    CandidateAffixesGood();
    var t := Slot(" tcptype ", "tcpType", "", End);
    SlotGood(" tcptype ", "tcpType", "", End);
    SlotGood(" rport ", "relatedPort", "", t);
    t := Slot(" rport ", "relatedPort", "", t);
    SlotGood(" raddr ", "relatedAddress", "", t);
    t := Slot(" raddr ", "relatedAddress", "", t);
    SlotGood("", "type", "", t);
    t := Slot("", "type", "", t);
    LitGood(" typ ", t);
    t := Lit(" typ ", t);
    SlotGood("", "port", "", t);
    t := Lit(" ", Slot("", "port", "", t));
    SlotGood("", "address", "", t);
    t := Lit(" ", Slot("", "address", "", t));
    SlotGood("", "priority", "", t);
    t := Lit(" ", Slot("", "priority", "", t));
    SlotGood("", "transport", "", t);
    t := Lit(" ", Slot("", "transport", "", t));
    SlotGood("", "componentId", "", t);
    t := Lit(" ", Slot("", "componentId", "", t));
    SlotGood("", "foundation", "", t);
    LitGood("a=candidate:", Slot("", "foundation", "", t));
  }


  lemma CandidateKeysGood()
    ensures GoodKey("foundation") && GoodKey("componentId") && GoodKey("transport")
    ensures GoodKey("priority") && GoodKey("address") && GoodKey("port") && GoodKey("type")
    ensures GoodKey("relatedAddress") && GoodKey("relatedPort") && GoodKey("tcpType")
  {
    assert GoodKey("foundation") && GoodKey("componentId") && GoodKey("transport");
    assert GoodKey("priority") && GoodKey("address") && GoodKey("port") && GoodKey("type");
    assert GoodKey("relatedAddress") by {}
    assert GoodKey("relatedPort") by {}
  }

  lemma CandidateAffixesGood()
    ensures GoodAffix("") && GoodAffix(" raddr ") && GoodAffix(" rport ") && GoodAffix(" tcptype ")
    ensures DollarFree(" ") && DollarFree(" typ ") && DollarFree("a=candidate:")
  {
  }

  lemma CandidateSlotsDistinct()
    ensures DistinctSlots(CandidateSlots())
  {
    Unfold();
    assert DistinctSlots(Slot("", "address", "", Lit(" ", Slot("", "port", "", Lit(" typ ",
      Slot("", "type", "", Slot(" raddr ", "relatedAddress", "", Slot(" rport ", "relatedPort", "",
      Slot(" tcptype ", "tcpType", "", End)))))))));
  }

  lemma CandidateInfoKeys(c: Candidate)
    ensures InfoKeysGood(CandidateInfo(c))
  {
    Unfold();
  }

  lemma CandidateRender(c: Candidate)
    ensures Render(CandidateSlots(), CandidateInfo(c)) == CandidateText(c)
  {
    Unfold();
  }

  /** A candidate the generator can write and the parser read back: a
      numeric foundation, the fields within the characters their
      sub-patterns accept, a related address exactly when a related port,
      and a role on every TCP candidate. */
  predicate CandidateWellFormed(c: Candidate) {
    |c.foundation| > 0 && AllIn(c.foundation, Digit)
    && c.componentId < 10
    && (c.transport == "UDP" || c.transport == "TCP")
    && c.priority.Some? && c.port.Some?
    && AllIn(c.address, AddressCI) && AllIn(c.typ, Letter)
    && (c.relatedAddress.Some? <==> c.relatedPort.Some?)
    && (c.relatedAddress.Some? ==> c.relatedAddress.value != "" && AllIn(c.relatedAddress.value, AddressCI))
    && (c.tcpType.Some? ==> c.tcpType.value == "active" || c.tcpType.value == "passive" || c.tcpType.value == "so")
    && (c.transport == "TCP" ==> c.tcpType.Some?)
  }

  /** Candidate round trip: the parser reads the generator's line back as
      the same candidate. */
  lemma CandidateRoundTrip(c: Candidate)
    requires CandidateWellFormed(c)
    ensures CandidateMatch(CandidateText(c)).Some?
    ensures Accept(CandidateMatch(CandidateText(c)).value) == Some(c)
  {
    CandidateMatchText(c);
    AcceptFieldsOf(c);
  }

  lemma AcceptFieldsOf(c: Candidate)
    requires CandidateWellFormed(c)
    ensures Accept(CandidateFieldsOf(c)) == Some(c)
  {
    var f := CandidateFieldsOf(c);
    UpperStringFixed(c.transport);
    ParseIntDecimal(c.priority.value, "");
    ParseIntDecimal(c.port.value, "");
    assert Decimal(c.priority.value) + "" == Decimal(c.priority.value);
    assert Decimal(c.port.value) + "" == Decimal(c.port.value);
    assert ParseInt(f.priority) == c.priority;
    assert ParseInt(f.port) == c.port;
    if c.relatedPort.Some? {
      ParseIntDecimal(c.relatedPort.value, "");
      assert Decimal(c.relatedPort.value) + "" == Decimal(c.relatedPort.value);
    }
  }

  /** The captures of a well-formed candidate's line. */
  function CandidateFieldsOf(c: Candidate): CandidateFields
    requires CandidateWellFormed(c)
  {
    CandidateFields(c.foundation, c.componentId, c.transport, Decimal(c.priority.value),
      c.address, Decimal(c.port.value), c.typ,
      if c.relatedAddress.Some? then Some((c.relatedAddress.value, Decimal(c.relatedPort.value))) else None,
      c.tcpType)
  }

  lemma CandidateMatchText(c: Candidate)
    requires CandidateWellFormed(c)
    ensures CandidateMatch(CandidateText(c)) == Some(CandidateFieldsOf(c))
  {
    var tail := TypAndRestText(c);
    var r3 := AddressText(c);
    var r2 := TransportText(c);
    var r0 := IdsText(c);
    assert CandidateText(c) == "a=candidate:" + r0;
    ExpectOf("a=candidate:", r0, true);
    IdsPartOf(c);
    TransportPartOf(c);
    AddressPartOf(c);
    TypAndRestOf(c);
  }

  function IdsText(c: Candidate): string {
    c.foundation + (" " + (Decimal(c.componentId) + (" " + TransportText(c))))
  }

  function TransportText(c: Candidate): string {
    c.transport + (" " + (NumText(c.priority) + (" " + AddressText(c))))
  }

  function AddressText(c: Candidate): string {
    c.address + (" " + (NumText(c.port) + (" typ " + TypAndRestText(c))))
  }

  lemma IdsPartOf(c: Candidate)
    requires CandidateWellFormed(c)
    ensures IdsPart(IdsText(c)) == Some(((c.foundation, c.componentId), TransportText(c)))
  {
    var r2 := TransportText(c);
    var r1 := Decimal(c.componentId) + (" " + r2);
    Run1Of(c.foundation, " " + r1, Digit);
    ExpectOf(" ", r1, false);
    assert Decimal(c.componentId) == [DigitChar(c.componentId)];
    assert r1[0] == DigitChar(c.componentId) && r1[1..] == " " + r2;
    ExpectOf(" ", r2, false);
  }

  lemma TransportPartOf(c: Candidate)
    requires CandidateWellFormed(c)
    ensures TransportPart(TransportText(c)) == Some(((c.transport, NumText(c.priority)), AddressText(c)))
  {
    var r5 := AddressText(c);
    var r4 := NumText(c.priority) + (" " + r5);
    TransportAlt(c.transport, " " + r4);
    ExpectOf(" ", r4, false);
    RunOf(NumText(c.priority), " " + r5, DigitDot);
    ExpectOf(" ", r5, false);
  }

  lemma AddressPartOf(c: Candidate)
    requires CandidateWellFormed(c)
    ensures AddressPart(AddressText(c)) == Some(((c.address, NumText(c.port)), TypAndRestText(c)))
  {
    var tail := TypAndRestText(c);
    var r8 := NumText(c.port) + (" typ " + tail);
    RunOf(c.address, " " + r8, AddressCI);
    PortPartOf(c);
  }

  lemma PortPartOf(c: Candidate)
    requires CandidateWellFormed(c)
    ensures PortPart(" " + (NumText(c.port) + (" typ " + TypAndRestText(c)))) ==
      Some((NumText(c.port), TypAndRestText(c)))
  {
    var tail := TypAndRestText(c);
    var r8 := NumText(c.port) + (" typ " + tail);
    ExpectOf(" ", r8, false);
    RunOf(NumText(c.port), " typ " + tail, Digit);
    ExpectOf(" typ ", tail, true);
  }

  function TypAndRestText(c: Candidate): string {
    c.typ + (Prefixed(" raddr ", c.relatedAddress)
    + (PrefixedNum(" rport ", c.relatedPort) + Prefixed(" tcptype ", c.tcpType)))
  }

  lemma TransportAlt(t: string, rest: string)
    requires t == "UDP" || t == "TCP"
    requires rest != [] && rest[0] == ' '
    ensures Alt(t + rest, ["udp", "tcp"], true) == Some((t, rest))
  {
    var s := t + rest;
    assert s[..3] == t && s[3..] == rest;
    assert LowerString("UDP") == "udp";
    assert LowerString("TCP") == "tcp";
    if t == "TCP" {
      assert LowerString(s[..3]) != "udp";
    }
  }

  lemma TypAndRestOf(c: Candidate)
    requires CandidateWellFormed(c)
    ensures TypAndRest(TypAndRestText(c)) ==
      (c.typ,
       if c.relatedAddress.Some? then Some((c.relatedAddress.value, Decimal(c.relatedPort.value))) else None,
       c.tcpType)
  {
    var tcp := Prefixed(" tcptype ", c.tcpType);
    var rel := Prefixed(" raddr ", c.relatedAddress) + (PrefixedNum(" rport ", c.relatedPort) + tcp);
    RunOf(c.typ, rel, Letter);
    if c.relatedAddress.Some? {
      RelatedGroupOf(c.relatedAddress.value, c.relatedPort.value, tcp);
    } else {
      assert rel == tcp;
      RelatedGroupNone(tcp, c.tcpType);
    }
    TcpTypeGroupOf(c.tcpType);
  }

  lemma RelatedGroupOf(addr: string, port: nat, rest: string)
    requires addr != [] && AllIn(addr, AddressCI)
    requires rest == [] || rest[0] == ' '
    ensures RelatedGroup(" raddr " + addr + (" rport " + Decimal(port) + rest)) ==
      Some(((addr, Decimal(port)), rest))
  {
    var r2 := " rport " + Decimal(port) + rest;
    var r1 := addr + r2;
    assert " raddr " + addr + r2 == " raddr " + r1;
    ExpectOf(" raddr ", r1, true);
    RelatedFieldsOf(addr, port, rest);
  }

  lemma RelatedFieldsOf(addr: string, port: nat, rest: string)
    requires addr != [] && AllIn(addr, AddressCI)
    requires rest == [] || rest[0] == ' '
    ensures RelatedFields(addr + (" rport " + Decimal(port) + rest)) ==
      Some(((addr, Decimal(port)), rest))
  {
    var r3 := Decimal(port) + rest;
    var r2 := " rport " + Decimal(port) + rest;
    assert r2 == " rport " + r3;
    RunOf(addr, r2, AddressCI);
    ExpectOf(" rport ", r3, true);
    RunOf(Decimal(port), rest, Digit);
  }

  lemma RelatedGroupNone(s: string, t: Option<string>)
    requires s == Prefixed(" tcptype ", t)
    ensures RelatedGroup(s) == None
  {
    if t.Some? {
      assert s[1] == 't';
      RaddrMismatch(s);
    }
  }

  /** Text whose second character is `t` does not open with ` raddr `. */
  lemma RaddrMismatch(s: string)
    requires |s| >= 2 && s[1] == 't'
    ensures Expect(s, " raddr ", true) == None
  {
    if |s| >= 7 {
      assert LowerString(s[..7])[1] == ToLower(s[1]);
    }
  }

  lemma TcpTypeGroupOf(t: Option<string>)
    requires t.Some? ==> t.value == "active" || t.value == "passive" || t.value == "so"
    ensures TcpTypeGroup(Prefixed(" tcptype ", t)) == t
  {
    if t.Some? {
      var v := t.value;
      ExpectOf(" tcptype ", v, true);
      assert v + "" == v;
      if v == "active" {
        LowerActive();
        assert v[..6] == "active";
      } else if v == "passive" {
        assert LowerString(v[..6])[0] == 'p';
        LowerPassive();
        assert v[..7] == "passive";
      } else {
        assert |v| < 6;
        assert |v| < 7;
        assert v[..2] == "so";
        assert LowerString("so") == "so";
      }
    }
  }

  lemma LowerActive()
    ensures LowerString("active") == "active"
  {
    LowerStringFixed("active");
  }

  lemma LowerPassive()
    ensures LowerString("passive") == "passive"
  {
    LowerStringFixed("passive");
  }

  // ---------------------------------------------------------------------
  // a=ice-ufrag, a=ice-pwd

  /** `^a=ice-ufrag:([\w+/]*)`: the username fragment, possibly empty. */
  function UfragMatch(line: string): (r: Option<string>)
    ensures r.Some? <==> StartsWith(line, "a=ice-ufrag:")
    ensures r.Some? ==> AllIn(r.value, IceChar) && StartsWith(line[12..], r.value)
  {
    var rest :- Expect(line, "a=ice-ufrag:", false);
    var (u, after) := Run(rest, IceChar);
    assert rest == u + after && (u + after)[..|u|] == u;
    Some(u)
  }

  /** `^a=ice-pwd:([\w+/]*)`: the password, possibly empty. */
  function PwdMatch(line: string): (r: Option<string>)
    ensures r.Some? <==> StartsWith(line, "a=ice-pwd:")
    ensures r.Some? ==> AllIn(r.value, IceChar) && StartsWith(line[10..], r.value)
  {
    var rest :- Expect(line, "a=ice-pwd:", false);
    var (p, after) := Run(rest, IceChar);
    assert rest == p + after && (p + after)[..|p|] == p;
    Some(p)
  }

  /** The `iceCredentials` template of the generator: two lines. */
  function IceCredentialsTemplate(): Tmpl {
    Lit("a=ice-ufrag:", Slot("", "ufrag", "", Lit("\r\na=ice-pwd:", Slot("", "password", "",
      Lit("\r\n", End)))))
  }

  /** Filling the credentials template with both credentials present writes
      the two lines. */
  lemma IceCredentialsFill(info: Info, ufrag: string, password: string)
    requires InfoKeysGood(info) && InfoDollarFree(info)
    requires Lookup(info, "ufrag") == Some(Text(ufrag))
    requires Lookup(info, "password") == Some(Text(password))
    ensures Fill(Flatten(IceCredentialsTemplate()), info) ==
      "a=ice-ufrag:" + ufrag + "\r\n" + ("a=ice-pwd:" + password + "\r\n")
  {
    var t := IceCredentialsTemplate();
    IceCredentialsGood();
    DistinctSlotsOnce(t, info);
    FillTemplate(t, info);
    IceCredentialsRender(info, ufrag, password);
  }

  lemma IceCredentialsGood()
    ensures GoodTmpl(IceCredentialsTemplate()) && DistinctSlots(IceCredentialsTemplate())
  {
    Unfold();
    assert DollarFree("a=ice-ufrag:") && DollarFree("\r\na=ice-pwd:") && DollarFree("\r\n");
    assert GoodKey("ufrag") && GoodKey("password");
  }

  lemma IceCredentialsRender(info: Info, ufrag: string, password: string)
    requires Lookup(info, "ufrag") == Some(Text(ufrag))
    requires Lookup(info, "password") == Some(Text(password))
    ensures Render(IceCredentialsTemplate(), info) ==
      "a=ice-ufrag:" + ufrag + "\r\n" + ("a=ice-pwd:" + password + "\r\n")
  {
    Unfold();
  }

  /** The credentials the generator writes are read back unchanged. */
  lemma UfragRoundTrip(ufrag: string)
    requires AllIn(ufrag, IceChar)
    ensures UfragMatch("a=ice-ufrag:" + ufrag) == Some(ufrag)
  {
    ExpectOf("a=ice-ufrag:", ufrag, false);
    RunOf(ufrag, "", IceChar);
    assert ufrag + "" == ufrag;
  }

  lemma PwdRoundTrip(password: string)
    requires AllIn(password, IceChar)
    ensures PwdMatch("a=ice-pwd:" + password) == Some(password)
  {
    ExpectOf("a=ice-pwd:", password, false);
    RunOf(password, "", IceChar);
    assert password + "" == password;
  }

  // ---------------------------------------------------------------------
  // a=ice-options

  /** `^a=ice-options:(.*$)`: the rest of the line. */
  function IceOptionsMatch(line: string): (r: Option<string>)
    ensures r.Some? <==> StartsWith(line, "a=ice-options:")
    ensures r.Some? ==> line == "a=ice-options:" + r.value
  {
    var rest :- Expect(line, "a=ice-options:", false);
    assert line == line[..14] + line[14..];
    Some(rest)
  }

  /** `\btrickle\b` at index `i`: the word, not inside a longer word. */
  predicate TrickleAt(s: string, i: nat) {
    i + 7 <= |s| && s[i..i + 7] == "trickle"
    && (i == 0 || !IsWord(s[i - 1]))
    && (i + 7 == |s| || !IsWord(s[i + 7]))
  }

  /** The option list names `trickle` (RFC 8838 section 4.1.1) as a word. */
  predicate CanTrickle(options: string) {
    exists i: nat | i <= |options| :: TrickleAt(options, i)
  }

  const TrickleLine: string := "a=ice-options:trickle"

  /** The option line the generator writes announces trickle. */
  lemma TrickleLineTrickles()
    ensures IceOptionsMatch(TrickleLine).Some?
    ensures CanTrickle(IceOptionsMatch(TrickleLine).value)
  {
    ExpectOf("a=ice-options:", "trickle", false);
    assert TrickleAt("trickle", 0);
  }
}
