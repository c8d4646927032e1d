/** The session description `createAnswer` writes (bridge/client/webrtc.js:1849-1923):
    a copy of the local description in which the line at each position of
    the remote description answers the remote line there. A position the
    local description does not reach gets a new line of the remote line's
    kind with fresh ICE credentials. Audio and video lines take the remote
    codecs, the remote RTCP multiplexing and an SSRC the remote line does
    not use; data lines take the remote stream count; a line still offering
    both DTLS roles becomes passive. Then the lines are rebound to the local
    tracks.

    A step that reads a missing property (a remote line without ICE, a
    line without DTLS) throws inside the queued operation: the answer is
    then `None`. */
module Answer {
  import opened Wrappers
  import opened SdpTypes
  import opened Reconcile
  import opened LocalParams
  import opened Offer
  import opened Seqs

  /** Every remote line has an ICE object. */
  predicate IceSet(rs: seq<MediaDescription>) {
    forall k :: 0 <= k < |rs| ==> rs[k].ice.Some?
  }

  /** Some remote line announces trickle ICE. */
  predicate AnyTrickle(rs: seq<MediaDescription>) {
    exists k :: 0 <= k < |rs| && rs[k].ice.Some? && rs[k].ice.value.trickle
  }

  /** The first loop: the `iceOptions` the new lines share, or `None` when a
      remote line has no ICE object to read. */
  method RemoteIceOptions(rs: seq<MediaDescription>) returns (trickle: Option<bool>)
    ensures trickle.None? <==> !IceSet(rs)
    ensures trickle.Some? ==> (trickle.value <==> AnyTrickle(rs))
  {
    var any := false;
    for i := 0 to |rs|
      invariant IceSet(rs[..i])
      invariant any <==> AnyTrickle(rs[..i])
    {
      if rs[i].ice.None? {
        assert !IceSet(rs);
        return None;
      }
      if rs[i].ice.value.trickle {
        any := true;
      }
      assert rs[..i + 1] == rs[..i] + [rs[i]];
    }
    assert rs[..|rs|] == rs;
    trickle := Some(any);
  }

  /** The line made for a remote line the local description does not
      reach: passive when the remote side is active, active otherwise. */
  function NewLine(r: MediaDescription, i: nat, trickle: bool, id: Identity, e: Entropy)
    : (m: Option<MediaDescription>)
    ensures m.None? <==> r.dtls.None?
    ensures m.Some? ==>
      (m.value.media == r.media && m.value.ice == Some(NewIce(e, i, trickle))
       && m.value.dtls.Some? && m.value.dtls.value.setup.Some?
       && (m.value.dtls.value.setup == Some(Passive) <==> r.dtls.value.setup == Some(Active))
       && (m.value.dtls.value.setup != Some(Passive) ==> m.value.dtls.value.setup == Some(Active)))
  {
    if r.dtls.None? then None
    else
      var setup := if r.dtls.value.setup == Some(Active) then Passive else Active;
      Some(EmptyMedia(r.media).(ice := Some(NewIce(e, i, trickle)), dtls := Some(LocalDtls(id, setup))))
  }

  /** `!!(rmdesc.rtcp && rmdesc.rtcp.mux)`. */
  predicate RemoteMux(r: MediaDescription) {
    r.rtcp.Some? && r.rtcp.value.mux
  }

  /** The body of the second loop for one line `l` answering the remote
      line `r`, with `ssrc` the number the draw settled on. */
  function Answered(l: MediaDescription, r: MediaDescription, ssrc: nat, cname: string)
    : (a: Option<MediaDescription>)
    ensures a.None? <==> l.dtls.None?
  {
    var m :=
      if l.media == Application then
        l.(protocol := Some("DTLS/SCTP"),
           sctp := Some(Sctp(Some(SctpPort), Some("webrtc-datachannel"),
                             if r.sctp.Some? then r.sctp.value.streams else None)))
      else
        l.(payloads := r.payloads,
           rtcp := Some(l.rtcp.GetOr(Rtcp(None, None, None, false)).(mux := RemoteMux(r))),
           ssrcs := Some([ssrc]),
           cname := Some(cname));
    if m.dtls.None? then None
    else if m.dtls.value.setup == Some(ActPass) then Some(m.(dtls := Some(m.dtls.value.(setup := Some(Passive)))))
    else Some(m)
  }

  /** Every remote line's SSRC draws sooner or later miss its SSRC list. */
  ghost predicate FreshSource(e: Entropy, rs: seq<MediaDescription>) {
    forall i :: 0 <= i < |rs| ==> EventuallyFresh(e.ssrc(i), Avoid(rs[i]))
  }

  /** The line at position `i` of the answer, before the tracks are
      bound; `None` also past the remote lines. */
  ghost function AnswerLine(ls: seq<MediaDescription>, rs: seq<MediaDescription>, i: nat, trickle: bool,
                            cname: string, id: Identity, e: Entropy): Option<MediaDescription>
  {
    if i < |rs| && EventuallyFresh(e.ssrc(i), Avoid(rs[i])) then
      var l := if i < |ls| then Some(ls[i]) else NewLine(rs[i], i, trickle, id, e);
      if l.None? then None
      else Answered(l.value, rs[i], FirstFresh(e.ssrc(i), Avoid(rs[i])), cname)
    else None
  }

  ghost function AnswerFn(ls: seq<MediaDescription>, rs: seq<MediaDescription>, trickle: bool,
                          cname: string, id: Identity, e: Entropy): nat -> Option<MediaDescription>
  {
    (i: nat) => AnswerLine(ls, rs, i, trickle, cname, id, e)
  }

  /** The first `n` answered lines, or `None` if one of them fails. */
  ghost function AnswerLines(ls: seq<MediaDescription>, rs: seq<MediaDescription>, n: nat, trickle: bool,
                             cname: string, id: Identity, e: Entropy): Option<seq<MediaDescription>>
  {
    Gather(AnswerFn(ls, rs, trickle, cname, id, e), n)
  }

  /** `xs` without its first `n` elements, empty when it is shorter. */
  function Drop<T>(xs: seq<T>, n: nat): (r: seq<T>)
    ensures |r| == if n <= |xs| then |xs| - n else 0
  {
    if n <= |xs| then xs[n..] else []
  }

  /** The description the answer is generated from, or `None` when its
      construction throws. */
  ghost function AnswerSpec(local: Option<Session>, remote: Session, tracks: seq<TrackInfo>,
                            cname: string, id: Identity, e: Entropy): Option<Session>
  {
    var base := local.GetOr(EmptySession());
    var rs := remote.media;
    if !IceSet(rs) then None
    else
      match AnswerLines(base.media, rs, |rs|, AnyTrickle(rs), cname, id, e)
      case None => None
      case Some(answered) => Some(base.(media := Reconciled(answered + Drop(base.media, |rs|), tracks).0))
  }

  /** `queuedCreateAnswer` once a remote description is set: the two loops
      over the remote lines, then the track binding. */
  method CreateAnswerSnapshot(local: Option<Session>, remote: Session, tracks: seq<TrackInfo>,
                              cname: string, id: Identity, e: Entropy)
    returns (snapshot: Option<Session>)
    requires FreshSource(e, remote.media)
    ensures snapshot == AnswerSpec(local, remote, tracks, cname, id, e)
  {
    var base := if local.Some? then local.value else EmptySession();
    var rs := remote.media;
    var trickle := RemoteIceOptions(rs);
    if trickle.None? {
      return None;
    }
    var answered := AnswerEach(base.media, rs, trickle.value, cname, id, e);
    if answered.None? {
      return None;
    }
    var lines, left := UpdateMediaDescriptionsWithTracks(answered.value, tracks);
    snapshot := Some(base.(media := lines));
  }

  /** The second loop: each remote line answered in turn, the local lines
      beyond the remote ones left as they are. */
  method AnswerEach(ls: seq<MediaDescription>, rs: seq<MediaDescription>, trickle: bool,
                    cname: string, id: Identity, e: Entropy)
    returns (out: Option<seq<MediaDescription>>)
    requires FreshSource(e, rs)
    ensures var a := AnswerLines(ls, rs, |rs|, trickle, cname, id, e);
      out == if a.None? then None else Some(a.value + Drop(ls, |rs|))
  {
    ghost var f := AnswerFn(ls, rs, trickle, cname, id, e);
    var done := [];
    for i := 0 to |rs|
      invariant Gather(f, i) == Some(done)
    {
      var a := AnswerAt(ls, rs, i, trickle, cname, id, e);
      assert f(i) == a;
      if a.None? {
        GatherEach(f, |rs|);
        return None;
      }
      done := done + [a.value];
    }
    out := Some(done + Drop(ls, |rs|));
  }

  /** The line at position `i`: the local line there, or a new one; then
      answered, drawing its SSRC if it is an audio or video line. */
  method AnswerAt(ls: seq<MediaDescription>, rs: seq<MediaDescription>, i: nat, trickle: bool,
                  cname: string, id: Identity, e: Entropy)
    returns (a: Option<MediaDescription>)
    requires i < |rs| && FreshSource(e, rs)
    ensures a == AnswerLine(ls, rs, i, trickle, cname, id, e)
  {
    var l := if i < |ls| then Some(ls[i]) else NewLine(rs[i], i, trickle, id, e);
    if l.None? {
      return None;
    }
    var ssrc: nat := 0;
    if l.value.media != Application {
      ssrc := DrawFresh(e.ssrc(i), Avoid(rs[i]));
    }
    a := Answered(l.value, rs[i], ssrc, cname);
  }

  // ---------------------------------------------------------------------
  // Properties

  /** The answered prefix exists exactly when every line of it does, and
      then holds those lines in order. */
  lemma AnswerLinesEach(ls: seq<MediaDescription>, rs: seq<MediaDescription>, n: nat,
                        trickle: bool, cname: string, id: Identity, e: Entropy)
    ensures AnswerLines(ls, rs, n, trickle, cname, id, e).Some?
      <==> forall i :: 0 <= i < n ==> AnswerLine(ls, rs, i, trickle, cname, id, e).Some?
    ensures AnswerLines(ls, rs, n, trickle, cname, id, e).Some? ==>
      forall i :: 0 <= i < n ==>
        AnswerLine(ls, rs, i, trickle, cname, id, e) == Some(AnswerLines(ls, rs, n, trickle, cname, id, e).value[i])
  {
    var f := AnswerFn(ls, rs, trickle, cname, id, e);
    GatherEach(f, n);
    assert forall i :: f(i) == AnswerLine(ls, rs, i, trickle, cname, id, e);
  }

  /** One answered line: it fails exactly when the line it starts from has
      no DTLS object; otherwise it keeps the kind of that line, never
      offers both roles, is passive as a new line exactly when the remote
      side is active, and as an audio or video line takes the remote codecs
      and multiplexing with an SSRC outside the remote list, or as a data
      line takes the remote stream count. */
  lemma AnswerLineFacts(ls: seq<MediaDescription>, rs: seq<MediaDescription>, i: nat, trickle: bool,
                        cname: string, id: Identity, e: Entropy)
    requires i < |rs| && FreshSource(e, rs)
    ensures AnswerLine(ls, rs, i, trickle, cname, id, e).None?
      <==> (if i < |ls| then ls[i].dtls.None? else rs[i].dtls.None?)
    ensures AnswerLine(ls, rs, i, trickle, cname, id, e).Some? ==>
      var a := AnswerLine(ls, rs, i, trickle, cname, id, e).value;
      && a.media == (if i < |ls| then ls[i].media else rs[i].media)
      && a.dtls.Some? && a.dtls.value.setup != Some(ActPass)
      && (i >= |ls| ==> (a.dtls.value.setup == Some(Passive) <==> rs[i].dtls.Some? && rs[i].dtls.value.setup == Some(Active)))
      && (a.media != Application ==>
            a.payloads == rs[i].payloads && a.rtcp.Some? && a.rtcp.value.mux == RemoteMux(rs[i])
            && a.ssrcs.Some? && |a.ssrcs.value| == 1 && a.ssrcs.value[0] !in Avoid(rs[i])
            && a.cname == Some(cname))
      && (a.media == Application ==>
            a.protocol == Some("DTLS/SCTP") && a.sctp.Some?
            && a.sctp.value.streams == (if rs[i].sctp.Some? then rs[i].sctp.value.streams else None))
  {
  }

  /** The answer fails exactly when a remote line has no ICE object, or a
      line the loop answers has no DTLS object to read. */
  lemma AnswerFails(local: Option<Session>, remote: Session, tracks: seq<TrackInfo>,
                    cname: string, id: Identity, e: Entropy)
    requires FreshSource(e, remote.media)
    ensures var base := local.GetOr(EmptySession()).media;
      var rs := remote.media;
      AnswerSpec(local, remote, tracks, cname, id, e).None? <==>
        !IceSet(rs)
        || exists i :: 0 <= i < |rs| && (if i < |base| then base[i].dtls.None? else rs[i].dtls.None?)
  {
    var base := local.GetOr(EmptySession()).media;
    var rs := remote.media;
    AnswerLinesEach(base, rs, |rs|, AnyTrickle(rs), cname, id, e);
    forall i | 0 <= i < |rs|
      ensures AnswerLine(base, rs, i, AnyTrickle(rs), cname, id, e).None?
        <==> (if i < |base| then base[i].dtls.None? else rs[i].dtls.None?)
    {
      AnswerLineFacts(base, rs, i, AnyTrickle(rs), cname, id, e);
    }
  }

  /** One line per remote line, positionally: the answer has as many lines
      as the longer of the two descriptions, the line at a remote position
      is of the kind of the local line there or, beyond the local lines, of
      the remote line's kind, and the local lines beyond the remote ones
      change only in their track binding. */
  lemma AnswerPositional(local: Option<Session>, remote: Session, tracks: seq<TrackInfo>,
                         cname: string, id: Identity, e: Entropy)
    requires FreshSource(e, remote.media)
    requires AnswerSpec(local, remote, tracks, cname, id, e).Some?
    ensures var base := local.GetOr(EmptySession());
      var rs := remote.media;
      var s := AnswerSpec(local, remote, tracks, cname, id, e).value;
      && |s.media| == (if |rs| <= |base.media| then |base.media| else |rs|)
      && (forall i :: 0 <= i < |rs| ==>
            s.media[i].media == (if i < |base.media| then base.media[i].media else rs[i].media))
      && (forall k :: |rs| <= k < |base.media| ==> Unbound(s.media[k]) == Unbound(base.media[k]))
      && s.(media := []) == base.(media := [])
  {
    var base := local.GetOr(EmptySession());
    var rs := remote.media;
    var answered := AnswerLines(base.media, rs, |rs|, AnyTrickle(rs), cname, id, e).value;
    var before := answered + Drop(base.media, |rs|);
    ReconciledKeepsLines(before, tracks);
    AnswerLinesEach(base.media, rs, |rs|, AnyTrickle(rs), cname, id, e);
    forall i | 0 <= i < |rs|
      ensures AnswerSpec(local, remote, tracks, cname, id, e).value.media[i].media
        == (if i < |base.media| then base.media[i].media else rs[i].media)
    {
      AnswerLineFacts(base.media, rs, i, AnyTrickle(rs), cname, id, e);
      assert before[i] == answered[i];
    }
    forall k | |rs| <= k < |base.media|
      ensures Unbound(AnswerSpec(local, remote, tracks, cname, id, e).value.media[k]) == Unbound(base.media[k])
    {
      assert before[k] == base.media[k];
    }
  }

  /** What the answer promises at every remote position: the DTLS role is
      settled, a new line is passive exactly when the remote side is
      active, an audio or video line carries the remote codecs, the remote
      multiplexing flag, the connection's CNAME and one SSRC the remote
      line does not use, and a data line the remote stream count. */
  lemma AnswerMatchesRemote(local: Option<Session>, remote: Session, tracks: seq<TrackInfo>,
                            cname: string, id: Identity, e: Entropy)
    requires FreshSource(e, remote.media)
    requires AnswerSpec(local, remote, tracks, cname, id, e).Some?
    ensures var base := local.GetOr(EmptySession());
      var rs := remote.media;
      var s := AnswerSpec(local, remote, tracks, cname, id, e).value;
      |rs| <= |s.media|
      && forall i :: 0 <= i < |rs| ==>
        var a := s.media[i];
        && a.dtls.Some? && a.dtls.value.setup != Some(ActPass)
        && (i >= |base.media| ==>
              (a.dtls.value.setup == Some(Passive) <==> rs[i].dtls.Some? && rs[i].dtls.value.setup == Some(Active)))
        && (a.media != Application ==>
              a.payloads == rs[i].payloads && a.rtcp.Some? && a.rtcp.value.mux == RemoteMux(rs[i])
              && a.ssrcs.Some? && |a.ssrcs.value| == 1 && a.ssrcs.value[0] !in Avoid(rs[i])
              && a.cname == Some(cname))
        && (a.media == Application ==>
              a.protocol == Some("DTLS/SCTP") && a.sctp.Some?
              && a.sctp.value.streams == (if rs[i].sctp.Some? then rs[i].sctp.value.streams else None))
  {
    var base := local.GetOr(EmptySession());
    var rs := remote.media;
    var answered := AnswerLines(base.media, rs, |rs|, AnyTrickle(rs), cname, id, e).value;
    var before := answered + Drop(base.media, |rs|);
    ReconciledKeepsLines(before, tracks);
    AnswerLinesEach(base.media, rs, |rs|, AnyTrickle(rs), cname, id, e);
    var s := AnswerSpec(local, remote, tracks, cname, id, e).value;
    forall i | 0 <= i < |rs|
      ensures Unbound(s.media[i]) == Unbound(answered[i])
      ensures AnswerLine(base.media, rs, i, AnyTrickle(rs), cname, id, e) == Some(answered[i])
    {
      AnswerLineFacts(base.media, rs, i, AnyTrickle(rs), cname, id, e);
      assert before[i] == answered[i];
    }
    forall i | 0 <= i < |rs|
      ensures AnswerLine(base.media, rs, i, AnyTrickle(rs), cname, id, e).Some?
    {
    }
    forall i | 0 <= i < |rs| {
      AnswerLineFacts(base.media, rs, i, AnyTrickle(rs), cname, id, e);
    }
  }
}
