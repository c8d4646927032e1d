/** Local candidate gathering (bridge/client/webrtc.js:2336-2341,
    2410-2456): a candidate the engine found is added to its local line,
    whose address and RTCP address it may fill in, and the end of
    candidates is announced once every local line has finished gathering. */
module Gathering {
  import opened Wrappers
  import opened SdpTypes
  import opened Reconcile

  /** The ICE object `gotIceCandidate` gives a line that has none. */
  function NewIce(ufrag: string, password: string): (r: Ice)
    ensures r.ufrag == Some(ufrag) && r.password == Some(password)
    ensures r.candidates.None? && !r.gatheringDone && !r.trickle
  {
    Ice(Some(ufrag), Some(password), false, None, false)
  }

  /** `address.indexOf(":") != -1`: an IPv6 address. */
  predicate IsIpv6(address: string) {
    ':' in address
  }

  /** The RTCP address is still to be filled in: its address or its port
      is missing or false (empty, or port 0). */
  predicate RtcpUnset(r: Rtcp) {
    !Truthy(r.address) || r.port.None? || r.port == Some(0)
  }

  /** `gotIceCandidate` on one line (bridge/client/webrtc.js:2422-2447): the
      candidate appended to the line's candidates (an ICE object made from
      the credentials if there was none). An IPv4 candidate of component 1
      gives a line still at 0.0.0.0 its address and port; one of another
      component fills an unset RTCP address. The flag is false when the
      callback throws before its end: an RTCP candidate for a line without
      an RTCP object. */
  function AddLocalCandidate(m: MediaDescription, c: Candidate, ufrag: string, password: string)
    : (r: (MediaDescription, bool))
  {
    var ice := m.ice.GetOr(NewIce(ufrag, password));
    var withCandidate := m.(ice := Some(ice.(candidates := Some(ice.candidates.GetOr([]) + [c]))));
    if IsIpv6(c.address) then (withCandidate, true)
    else if c.componentId == 1 then
      if m.address == Some("0.0.0.0") then (withCandidate.(address := Some(c.address), port := c.port), true)
      else (withCandidate, true)
    else if m.rtcp.None? then (withCandidate, false)
    else if RtcpUnset(m.rtcp.value) then
      (withCandidate.(rtcp := Some(m.rtcp.value.(address := Some(c.address), port := c.port))), true)
    else (withCandidate, true)
  }

  /** What adding a local candidate does to the line: exactly one candidate
      appended, the gathering flag and the credentials kept, and only the
      address, port and RTCP object possibly touched, as the address family
      and component say. */
  lemma AddLocalCandidateRules(m: MediaDescription, c: Candidate, ufrag: string, password: string)
    ensures var (line, ok) := AddLocalCandidate(m, c, ufrag, password);
      var before := m.ice.GetOr(NewIce(ufrag, password));
      line.ice.Some?
      && line.ice.value.candidates == Some(before.candidates.GetOr([]) + [c])
      && line.ice.value.(candidates := before.candidates) == before
      && line.(ice := m.ice, address := m.address, port := m.port, rtcp := m.rtcp) == m
      && (!ok <==> !IsIpv6(c.address) && c.componentId != 1 && m.rtcp.None?)
      && (line.address != m.address || line.port != m.port ==>
            !IsIpv6(c.address) && c.componentId == 1 && m.address == Some("0.0.0.0"))
      && (!IsIpv6(c.address) && c.componentId == 1 && m.address == Some("0.0.0.0") ==>
            line.address == Some(c.address) && line.port == c.port)
      && (line.rtcp != m.rtcp ==>
            !IsIpv6(c.address) && c.componentId != 1 && m.rtcp.Some? && RtcpUnset(m.rtcp.value)
            && line.rtcp == Some(m.rtcp.value.(address := Some(c.address), port := c.port)))
  {
  }

  /** The lines' gathering state as `isAllGatheringDone` reads it
      (bridge/client/webrtc.js:2410-2417): the first line that has not
      finished decides; `None` when that line has no ICE object, so reading
      its flag throws. */
  predicate NotGathered(m: MediaDescription) {
    m.ice.None? || !m.ice.value.gatheringDone
  }

  function AllGathered(ms: seq<MediaDescription>): Option<bool> {
    var k := FirstIndex(ms, NotGathered);
    if k == -1 then Some(true)
    else if ms[k].ice.None? then None
    else Some(false)
  }

  /** Done exactly when every line has finished gathering; the read throws
      exactly when a line without ICE comes before any line still
      gathering. */
  lemma AllGatheredMeans(ms: seq<MediaDescription>)
    ensures AllGathered(ms) == Some(true) <==>
      forall i :: 0 <= i < |ms| ==> ms[i].ice.Some? && ms[i].ice.value.gatheringDone
    ensures AllGathered(ms).None? <==>
      exists i :: 0 <= i < |ms| && ms[i].ice.None? && forall j :: 0 <= j < i ==> !NotGathered(ms[j])
  {
    var k := FirstIndex(ms, NotGathered);
    if AllGathered(ms).None? {
      assert ms[k].ice.None? && forall j :: 0 <= j < k ==> !NotGathered(ms[j]);
    }
    if exists i :: 0 <= i < |ms| && ms[i].ice.None? && forall j :: 0 <= j < i ==> !NotGathered(ms[j]) {
      var i :| 0 <= i < |ms| && ms[i].ice.None? && forall j :: 0 <= j < i ==> !NotGathered(ms[j]);
      assert NotGathered(ms[i]);
      assert k == i;
    }
  }

  /** `isAllGatheringDone`, as the loop the source runs. */
  method IsAllGatheringDone(ms: seq<MediaDescription>) returns (r: Option<bool>)
    ensures r == AllGathered(ms)
  {
    var i := 0;
    while i < |ms|
      invariant 0 <= i <= |ms|
      invariant forall k :: 0 <= k < i ==> !NotGathered(ms[k])
    {
      if ms[i].ice.None? {
        FirstIndexIs(ms, NotGathered, i);
        return None;
      }
      if !ms[i].ice.value.gatheringDone {
        FirstIndexIs(ms, NotGathered, i);
        return Some(false);
      }
      i := i + 1;
    }
    FirstIndexIs(ms, NotGathered, -1);
    return Some(true);
  }

  /** `candidateGatheringDone` on one line (bridge/client/webrtc.js:2452-2456):
      the line's gathering flag set; `None` when the line has no ICE object. */
  function MarkGatheringDone(m: MediaDescription): (r: Option<MediaDescription>)
    ensures r.None? <==> m.ice.None?
    ensures r.Some? ==>
      (r.value.ice.Some? && r.value.ice.value.gatheringDone
       && r.value.ice.value.(gatheringDone := m.ice.value.gatheringDone) == m.ice.value
       && r.value.(ice := m.ice) == m)
  {
    if m.ice.None? then None
    else Some(m.(ice := Some(m.ice.value.(gatheringDone := true))))
  }

  /** Marking one line done finishes the gathering exactly when every other
      line had finished: the end of candidates is announced only once every
      line's flag is set. */
  lemma MarkingFinishes(ms: seq<MediaDescription>, i: nat)
    requires i < |ms| && ms[i].ice.Some?
    ensures var after := ms[i := MarkGatheringDone(ms[i]).value];
      AllGathered(after) == Some(true) <==>
        forall k :: 0 <= k < |ms| && k != i ==> ms[k].ice.Some? && ms[k].ice.value.gatheringDone
  {
    var after := ms[i := MarkGatheringDone(ms[i]).value];
    AllGatheredMeans(after);
    assert after[i].ice.Some? && after[i].ice.value.gatheringDone;
    assert forall k :: 0 <= k < |ms| && k != i ==> after[k] == ms[k];
  }
}
