/** `updateMediaDescriptionsWithTracks` (bridge/client/webrtc.js:1679-1704):
    binds the local tracks to the media lines of a description before an
    offer or an answer is written. The first pass keeps the track of every
    line whose track is still among the local tracks and clears the stream
    and track ids of the others; the second pass gives every line left
    without a track the first remaining track of its kind, making it
    `sendrecv`, or makes it `recvonly`. Each bound track is spliced out of
    the track list, and what remains is returned to the caller. */
module Reconcile {
  import opened Wrappers
  import opened SdpTypes
  import opened Seqs

  /** `{kind, mediaStreamTrackId, mediaStreamId}` of one local track. */
  datatype TrackInfo = TrackInfo(kind: MediaType, trackId: string, streamId: string)

  /** The index of the first element that passes, or -1. */
  function FirstIndex<T>(xs: seq<T>, p: T -> bool): (i: int)
    ensures -1 <= i < |xs|
    ensures i >= 0 ==> p(xs[i]) && forall k :: 0 <= k < i ==> !p(xs[k])
    ensures i == -1 ==> forall k :: 0 <= k < |xs| ==> !p(xs[k])
  {
    if xs == [] then -1
    else if p(xs[0]) then 0
    else
      var j := FirstIndex(xs[1..], p);
      if j == -1 then -1 else j + 1
  }

  /** `indexOfByProperty`, as a loop. */
  method IndexOf<T>(xs: seq<T>, p: T -> bool) returns (i: int)
    ensures i == FirstIndex(xs, p)
  {
    i := 0;
    while i < |xs| && !p(xs[i])
      invariant 0 <= i <= |xs|
      invariant forall k :: 0 <= k < i ==> !p(xs[k])
    {
      i := i + 1;
    }
    if i == |xs| {
      i := -1;
    }
    FirstIndexIs(xs, p, i);
  }

  lemma {:induction false} FirstIndexIs<T>(xs: seq<T>, p: T -> bool, i: int)
    requires -1 <= i < |xs|
    requires i >= 0 ==> p(xs[i]) && forall k :: 0 <= k < i ==> !p(xs[k])
    requires i == -1 ==> forall k :: 0 <= k < |xs| ==> !p(xs[k])
    ensures i == FirstIndex(xs, p)
  {
  }

  /** `array.splice(i, 1)`. */
  function Remove<T>(xs: seq<T>, i: nat): (r: seq<T>)
    requires i < |xs|
    ensures |r| == |xs| - 1
  {
    xs[..i] + xs[i + 1..]
  }

  /** A JavaScript string property used as a condition. */
  predicate Truthy(s: Option<string>) {
    s.Some? && s.value != ""
  }

  /** The first pass for one line. */
  function KeepStep(m: MediaDescription, ts: seq<TrackInfo>): (MediaDescription, seq<TrackInfo>) {
    var i := FirstIndex(ts, (t: TrackInfo) => Some(t.trackId) == m.mediaStreamTrackId);
    if i != -1 then (m, Remove(ts, i))
    else (m.(mediaStreamId := None, mediaStreamTrackId := None), ts)
  }

  /** The second pass for one line. */
  function BindStep(m: MediaDescription, ts: seq<TrackInfo>): (MediaDescription, seq<TrackInfo>) {
    if Truthy(m.mediaStreamTrackId) then (m, ts)
    else
      var i := FirstIndex(ts, (t: TrackInfo) => t.kind == m.media);
      if i != -1 then
        (m.(mediaStreamId := Some(ts[i].streamId), mediaStreamTrackId := Some(ts[i].trackId),
            mode := Some(SendRecv)), Remove(ts, i))
      else (m.(mode := Some(RecvOnly)), ts)
  }

  /** One `forEach` over the lines, threading the track list. */
  function Pass(ms: seq<MediaDescription>, ts: seq<TrackInfo>,
                step: (MediaDescription, seq<TrackInfo>) -> (MediaDescription, seq<TrackInfo>))
    : (r: (seq<MediaDescription>, seq<TrackInfo>))
    ensures |r.0| == |ms|
    decreases |ms|
  {
    if ms == [] then ([], ts)
    else
      var (m, ts') := step(ms[0], ts);
      var rest := Pass(ms[1..], ts', step);
      ([m] + rest.0, rest.1)
  }

  /** Both passes: the lines as rewritten, and the tracks left over. */
  function Reconciled(ms: seq<MediaDescription>, ts: seq<TrackInfo>): (seq<MediaDescription>, seq<TrackInfo>) {
    var kept := Pass(ms, ts, KeepStep);
    Pass(kept.0, kept.1, BindStep)
  }

  method UpdateMediaDescriptionsWithTracks(media: seq<MediaDescription>, tracks: seq<TrackInfo>)
    returns (out: seq<MediaDescription>, rest: seq<TrackInfo>)
    ensures (out, rest) == Reconciled(media, tracks)
  {
    var kept, left := RunPass(media, tracks, true);
    out, rest := RunPass(kept, left, false);
  }

  /** One pass as a loop over the lines, rewriting each in place. */
  method RunPass(media: seq<MediaDescription>, tracks: seq<TrackInfo>, first: bool)
    returns (out: seq<MediaDescription>, rest: seq<TrackInfo>)
    ensures (out, rest) == Pass(media, tracks, if first then KeepStep else BindStep)
  {
    var step := if first then KeepStep else BindStep;
    out := media;
    rest := tracks;
    for i := 0 to |media|
      invariant |out| == |media|
      invariant out[..i] == Pass(media[..i], tracks, step).0
      invariant rest == TracksAt(media, tracks, step, i)
    {
      var m, rest';
      if first {
        m, rest' := KeepTurn(media[i], rest);
      } else {
        m, rest' := BindTurn(media[i], rest);
      }
      PassSnoc(media, tracks, step, i);
      UpdateSnoc(out, i, m);
      out := out[i := m];
      rest := rest';
    }
    assert media[..|media|] == media;
    assert out[..|media|] == out;
  }

  /** One line more. */
  lemma PassSnoc(ms: seq<MediaDescription>, ts: seq<TrackInfo>,
                 step: (MediaDescription, seq<TrackInfo>) -> (MediaDescription, seq<TrackInfo>), i: nat)
    requires i < |ms|
    ensures Pass(ms[..i + 1], ts, step).0
      == Pass(ms[..i], ts, step).0 + [step(ms[i], TracksAt(ms, ts, step, i)).0]
    ensures TracksAt(ms, ts, step, i + 1) == step(ms[i], TracksAt(ms, ts, step, i)).1
  {
    assert ms[..i + 1] == ms[..i] + [ms[i]];
    PassAppend(ms[..i], [ms[i]], ts, step);
    PassOne(ms[i], TracksAt(ms, ts, step, i), step);
  }

  lemma PassOne(m: MediaDescription, ts: seq<TrackInfo>,
                step: (MediaDescription, seq<TrackInfo>) -> (MediaDescription, seq<TrackInfo>))
    ensures Pass([m], ts, step) == ([step(m, ts).0], step(m, ts).1)
  {
    var st := step(m, ts);
    assert [m][1..] == [];
    assert Pass([], st.1, step) == ([], st.1);
    assert [st.0] + [] == [st.0];
  }

  method KeepTurn(m: MediaDescription, tracks: seq<TrackInfo>) returns (m': MediaDescription, rest: seq<TrackInfo>)
    ensures (m', rest) == KeepStep(m, tracks)
  {
    var j := IndexOf(tracks, (t: TrackInfo) => Some(t.trackId) == m.mediaStreamTrackId);
    m', rest := m, tracks;
    if j != -1 {
      rest := Remove(tracks, j);
    } else {
      m' := m.(mediaStreamId := None, mediaStreamTrackId := None);
    }
  }

  method BindTurn(m: MediaDescription, tracks: seq<TrackInfo>) returns (m': MediaDescription, rest: seq<TrackInfo>)
    ensures (m', rest) == BindStep(m, tracks)
  {
    m', rest := m, tracks;
    if Truthy(m.mediaStreamTrackId) {
      return;
    }
    var j := IndexOf(tracks, (t: TrackInfo) => t.kind == m.media);
    if j != -1 {
      m' := m.(mediaStreamId := Some(tracks[j].streamId), mediaStreamTrackId := Some(tracks[j].trackId),
        mode := Some(SendRecv));
      rest := Remove(tracks, j);
    } else {
      m' := m.(mode := Some(RecvOnly));
    }
  }

  // ---------------------------------------------------------------------
  // Properties

  /** A line with its track binding and direction taken away. */
  function Unbound(m: MediaDescription): MediaDescription {
    m.(mediaStreamId := None, mediaStreamTrackId := None, mode := None)
  }

  /** Reconciliation keeps the number and the order of the lines and
      changes nothing in them but the stream and track ids and the
      direction. */
  lemma {:induction false} ReconciledKeepsLines(ms: seq<MediaDescription>, ts: seq<TrackInfo>)
    ensures |Reconciled(ms, ts).0| == |ms|
    ensures forall k :: 0 <= k < |ms| ==> Unbound(Reconciled(ms, ts).0[k]) == Unbound(ms[k])
  {
    var kept := Pass(ms, ts, KeepStep);
    PassKeepsLines(ms, ts, KeepStep);
    PassKeepsLines(kept.0, kept.1, BindStep);
  }

  lemma {:induction false} PassKeepsLines(ms: seq<MediaDescription>, ts: seq<TrackInfo>,
                                          step: (MediaDescription, seq<TrackInfo>) -> (MediaDescription, seq<TrackInfo>))
    requires step == KeepStep || step == BindStep
    ensures forall k :: 0 <= k < |ms| ==> Unbound(Pass(ms, ts, step).0[k]) == Unbound(ms[k])
    decreases |ms|
  {
    if ms != [] {
      var (m, ts') := step(ms[0], ts);
      PassKeepsLines(ms[1..], ts', step);
      forall k | 0 < k < |ms|
        ensures Unbound(Pass(ms, ts, step).0[k]) == Unbound(ms[k])
      {
        assert ms[k] == ms[1..][k - 1];
      }
    }
  }

  /** The ids of a list of tracks. */
  function Ids(ts: seq<TrackInfo>): (r: seq<string>)
    ensures |r| == |ts|
  {
    seq(|ts|, i requires 0 <= i < |ts| => ts[i].trackId)
  }

  /** The track ids the lines carry, in line order. */
  function BoundIds(ms: seq<MediaDescription>): seq<string> {
    if ms == [] then []
    else
      (if ms[0].mediaStreamTrackId.Some? then [ms[0].mediaStreamTrackId.value] else [])
      + BoundIds(ms[1..])
  }

  lemma RemoveIds(ts: seq<TrackInfo>, i: nat)
    requires i < |ts|
    ensures multiset(Ids(Remove(ts, i))) + multiset{ts[i].trackId} == multiset(Ids(ts))
    ensures Ids(Remove(ts, i)) == Ids(ts[..i]) + Ids(ts[i + 1..])
  {
    assert Ids(ts) == Ids(ts[..i]) + [ts[i].trackId] + Ids(ts[i + 1..]);
    assert Ids(Remove(ts, i)) == Ids(ts[..i]) + Ids(ts[i + 1..]);
  }

  /** The first pass hands every track it keeps from the list to the line
      that carries it: the ids the lines keep and the ids left over are the
      ids of the tracks, each once. */
  lemma {:induction false} KeepConserves(ms: seq<MediaDescription>, ts: seq<TrackInfo>)
    ensures multiset(BoundIds(Pass(ms, ts, KeepStep).0)) + multiset(Ids(Pass(ms, ts, KeepStep).1))
      == multiset(Ids(ts))
    decreases |ms|
  {
    if ms != [] {
      var (m, ts') := KeepStep(ms[0], ts);
      var rest := Pass(ms[1..], ts', KeepStep);
      KeepConserves(ms[1..], ts');
      assert BoundIds([m] + rest.0) == (if m.mediaStreamTrackId.Some? then [m.mediaStreamTrackId.value] else []) + BoundIds(rest.0);
      var i := FirstIndex(ts, (t: TrackInfo) => Some(t.trackId) == ms[0].mediaStreamTrackId);
      if i != -1 {
        RemoveIds(ts, i);
      }
    }
  }

  predicate NonEmptyIds(ts: seq<TrackInfo>) {
    forall i :: 0 <= i < |ts| ==> ts[i].trackId != ""
  }

  /** No line carries the empty id: the second pass treats such a line as
      unbound. */
  predicate NoEmptyBinding(ms: seq<MediaDescription>) {
    forall k :: 0 <= k < |ms| ==> ms[k].mediaStreamTrackId != Some("")
  }

  lemma {:induction false} KeepNoEmpty(ms: seq<MediaDescription>, ts: seq<TrackInfo>)
    requires NonEmptyIds(ts)
    ensures NoEmptyBinding(Pass(ms, ts, KeepStep).0)
    ensures NonEmptyIds(Pass(ms, ts, KeepStep).1)
    decreases |ms|
  {
    if ms != [] {
      var (m, ts') := KeepStep(ms[0], ts);
      var i := FirstIndex(ts, (t: TrackInfo) => Some(t.trackId) == ms[0].mediaStreamTrackId);
      if i != -1 {
        assert forall k :: 0 <= k < |ts'| ==> ts'[k] in ts;
      }
      KeepNoEmpty(ms[1..], ts');
      var rest := Pass(ms[1..], ts', KeepStep);
      assert forall k :: 0 < k < |ms| ==> Pass(ms, ts, KeepStep).0[k] == rest.0[k - 1];
    }
  }

  /** The second pass moves tracks from the list to the lines without
      losing or duplicating any. */
  lemma {:induction false} BindConserves(ms: seq<MediaDescription>, ts: seq<TrackInfo>)
    requires NoEmptyBinding(ms)
    ensures multiset(BoundIds(Pass(ms, ts, BindStep).0)) + multiset(Ids(Pass(ms, ts, BindStep).1))
      == multiset(BoundIds(ms)) + multiset(Ids(ts))
    decreases |ms|
  {
    if ms != [] {
      var st := BindStep(ms[0], ts);
      var rest := Pass(ms[1..], st.1, BindStep);
      assert Pass(ms, ts, BindStep) == ([st.0] + rest.0, rest.1);
      NoEmptyTail(ms);
      BindConserves(ms[1..], st.1);
      BoundIdsCons(st.0, rest.0);
      BoundIdsSplit(ms);
      BindStepConserves(ms[0], ts);
      Combine(multiset(BoundIds(Pass(ms, ts, BindStep).0)), multiset(BoundIds([st.0])),
        multiset(BoundIds(rest.0)), multiset(Ids(rest.1)), multiset(BoundIds(ms[1..])),
        multiset(Ids(st.1)), multiset(BoundIds([ms[0]])), multiset(Ids(ts)), multiset(BoundIds(ms)));
    }
  }

  /** The multiset arithmetic of one step of the second pass. */
  lemma Combine<T>(whole: multiset<T>, head: multiset<T>, tail: multiset<T>, left: multiset<T>,
                   tailIn: multiset<T>, leftIn: multiset<T>, headIn: multiset<T>, tracks: multiset<T>,
                   wholeIn: multiset<T>)
    requires whole == head + tail
    requires tail + left == tailIn + leftIn
    requires head + leftIn == headIn + tracks
    requires wholeIn == headIn + tailIn
    ensures whole + left == wholeIn + tracks
  {
    forall x
      ensures (whole + left)[x] == (wholeIn + tracks)[x]
    {
      assert whole[x] == head[x] + tail[x];
      assert (tail + left)[x] == (tailIn + leftIn)[x];
      assert (head + leftIn)[x] == (headIn + tracks)[x];
    }
  }

  lemma NoEmptyTail(ms: seq<MediaDescription>)
    requires ms != [] && NoEmptyBinding(ms)
    ensures NoEmptyBinding(ms[1..]) && ms[0].mediaStreamTrackId != Some("")
  {
    assert forall k :: 0 <= k < |ms| - 1 ==> ms[1..][k] == ms[k + 1];
  }

  lemma BoundIdsSplit(ms: seq<MediaDescription>)
    requires ms != []
    ensures multiset(BoundIds(ms)) == multiset(BoundIds([ms[0]])) + multiset(BoundIds(ms[1..]))
  {
    assert [ms[0]][1..] == [];
  }

  /** The ids bound on two runs of lines put together. */
  lemma {:induction false} BoundIdsAppend(a: seq<MediaDescription>, b: seq<MediaDescription>)
    ensures BoundIds(a + b) == BoundIds(a) + BoundIds(b)
    decreases |a|
  {
    if a != [] {
      assert (a + b)[1..] == a[1..] + b;
      BoundIdsAppend(a[1..], b);
    } else {
      assert a + b == b;
    }
  }

  lemma BoundIdsCons(m: MediaDescription, ms: seq<MediaDescription>)
    ensures multiset(BoundIds([m] + ms)) == multiset(BoundIds([m])) + multiset(BoundIds(ms))
  {
    assert ([m] + ms)[1..] == ms;
    assert [m][1..] == [];
  }

  lemma BindStepConserves(m: MediaDescription, ts: seq<TrackInfo>)
    requires m.mediaStreamTrackId != Some("")
    ensures multiset(BoundIds([BindStep(m, ts).0])) + multiset(Ids(BindStep(m, ts).1))
      == multiset(BoundIds([m])) + multiset(Ids(ts))
  {
    assert [m][1..] == [];
    assert [BindStep(m, ts).0][1..] == [];
    if !Truthy(m.mediaStreamTrackId) {
      var i := FirstIndex(ts, (t: TrackInfo) => t.kind == m.media);
      if i != -1 {
        RemoveIds(ts, i);
      }
    }
  }

  predicate Distinct(xs: seq<string>) {
    forall i, j :: 0 <= i < j < |xs| ==> xs[i] != xs[j]
  }

  /** With distinct, non-empty track ids, no track ends up on two lines nor
      both on a line and among the tracks left over: the ids the lines
      carry and the leftover ids together are the track ids, each once. */
  lemma ReconciledBindsOnce(ms: seq<MediaDescription>, ts: seq<TrackInfo>)
    requires NonEmptyIds(ts)
    ensures multiset(BoundIds(Reconciled(ms, ts).0)) + multiset(Ids(Reconciled(ms, ts).1))
      == multiset(Ids(ts))
  {
    var kept := Pass(ms, ts, KeepStep);
    KeepConserves(ms, ts);
    KeepNoEmpty(ms, ts);
    BindConserves(kept.0, kept.1);
  }

  lemma DistinctMultiset(xs: seq<string>, x: string)
    requires Distinct(xs)
    ensures multiset(xs)[x] <= 1
  {
    if xs != [] {
      assert xs == [xs[0]] + xs[1..];
      DistinctMultiset(xs[1..], x);
      if xs[0] == x {
        assert x !in xs[1..];
      }
    }
  }

  lemma MultisetDistinct(xs: seq<string>)
    requires forall x :: multiset(xs)[x] <= 1
    ensures Distinct(xs)
  {
    forall i, j | 0 <= i < j < |xs|
      ensures xs[i] != xs[j]
    {
      assert xs == xs[..i] + [xs[i]] + xs[i + 1..j] + [xs[j]] + xs[j + 1..];
      assert multiset(xs) == multiset(xs[..i]) + multiset{xs[i]} + multiset(xs[i + 1..j])
        + multiset{xs[j]} + multiset(xs[j + 1..]);
      assert multiset(xs)[xs[i]] >= multiset{xs[i]}[xs[i]] + multiset{xs[j]}[xs[i]];
    }
  }

  /** Hence no track is bound to two lines. */
  lemma ReconciledDistinct(ms: seq<MediaDescription>, ts: seq<TrackInfo>)
    requires NonEmptyIds(ts) && Distinct(Ids(ts))
    ensures Distinct(BoundIds(Reconciled(ms, ts).0))
  {
    ReconciledBindsOnce(ms, ts);
    forall x
      ensures multiset(BoundIds(Reconciled(ms, ts).0))[x] <= 1
    {
      DistinctMultiset(Ids(ts), x);
    }
    MultisetDistinct(BoundIds(Reconciled(ms, ts).0));
  }

  // ---------------------------------------------------------------------
  // Line by line

  /** Running a pass over two lists of lines is running it over the first
      and then, with the tracks left over, over the second. */
  lemma {:induction false} PassAppend(a: seq<MediaDescription>, b: seq<MediaDescription>, ts: seq<TrackInfo>,
                                      step: (MediaDescription, seq<TrackInfo>) -> (MediaDescription, seq<TrackInfo>))
    ensures Pass(a + b, ts, step)
      == (Pass(a, ts, step).0 + Pass(b, Pass(a, ts, step).1, step).0, Pass(b, Pass(a, ts, step).1, step).1)
    decreases |a|
  {
    if a == [] {
      assert a + b == b;
      assert Pass(a, ts, step) == ([], ts);
      var whole := Pass(b, ts, step);
      assert whole == (whole.0, whole.1);
      assert [] + whole.0 == whole.0;
    } else {
      var st := step(a[0], ts);
      assert (a + b)[0] == a[0];
      assert (a + b)[1..] == a[1..] + b;
      PassAppend(a[1..], b, st.1, step);
      var tailA := Pass(a[1..], st.1, step);
      var tailB := Pass(b, tailA.1, step);
      assert Pass(a, ts, step) == ([st.0] + tailA.0, tailA.1);
      assert Pass(a + b, ts, step) == ([st.0] + (tailA.0 + tailB.0), tailB.1);
      assert [st.0] + (tailA.0 + tailB.0) == ([st.0] + tailA.0) + tailB.0;
    }
  }

  /** The tracks a pass sees when it reaches line `k`. */
  function TracksAt(ms: seq<MediaDescription>, ts: seq<TrackInfo>,
                    step: (MediaDescription, seq<TrackInfo>) -> (MediaDescription, seq<TrackInfo>), k: nat)
    : seq<TrackInfo>
    requires k <= |ms|
  {
    Pass(ms[..k], ts, step).1
  }

  /** Line `k` of a pass is the step applied to line `k` and the tracks the
      pass has left when it gets there; the tracks left after the pass are
      what the passes over the later lines leave of the tracks after line
      `k`. */
  lemma PassAt(ms: seq<MediaDescription>, ts: seq<TrackInfo>,
               step: (MediaDescription, seq<TrackInfo>) -> (MediaDescription, seq<TrackInfo>), k: nat)
    requires k < |ms|
    ensures Pass(ms, ts, step).0[k] == step(ms[k], TracksAt(ms, ts, step, k)).0
    ensures Pass(ms, ts, step).1
      == Pass(ms[k + 1..], step(ms[k], TracksAt(ms, ts, step, k)).1, step).1
  {
    var before := Pass(ms[..k], ts, step);
    assert ms == ms[..k] + ([ms[k]] + ms[k + 1..]);
    PassAppend(ms[..k], [ms[k]] + ms[k + 1..], ts, step);
    var st := step(ms[k], before.1);
    assert ([ms[k]] + ms[k + 1..])[1..] == ms[k + 1..];
    assert Pass([ms[k]] + ms[k + 1..], before.1, step).0[0] == st.0;
  }

  /** A pass only ever takes tracks out of the list. */
  lemma {:induction false} PassShrinks(ms: seq<MediaDescription>, ts: seq<TrackInfo>,
                                       step: (MediaDescription, seq<TrackInfo>) -> (MediaDescription, seq<TrackInfo>))
    requires step == KeepStep || step == BindStep
    ensures forall t :: t in Pass(ms, ts, step).1 ==> t in ts
    decreases |ms|
  {
    if ms != [] {
      var st := step(ms[0], ts);
      PassShrinks(ms[1..], st.1, step);
      assert forall t :: t in st.1 ==> t in ts;
    }
  }

  predicate DistinctBindings(ms: seq<MediaDescription>) {
    forall i, j :: 0 <= i < j < |ms| && ms[i].mediaStreamTrackId.Some? ==>
      ms[i].mediaStreamTrackId != ms[j].mediaStreamTrackId
  }

  /** Before line `k`, the first pass has taken only tracks carried by
      earlier lines: any other id is among the remaining tracks exactly when
      it is among all tracks. */
  lemma {:induction false} KeepTracksAt(ms: seq<MediaDescription>, ts: seq<TrackInfo>, k: nat, x: string)
    requires k <= |ms|
    requires forall i :: 0 <= i < k ==> ms[i].mediaStreamTrackId != Some(x)
    ensures x in Ids(TracksAt(ms, ts, KeepStep, k)) <==> x in Ids(ts)
    decreases k
  {
    if k > 0 {
      KeepTracksAt(ms, ts, k - 1, x);
      PassSnoc(ms, ts, KeepStep, k - 1);
      KeepStepKeepsOthers(ms[k - 1], TracksAt(ms, ts, KeepStep, k - 1), x);
    }
  }

  /** The first pass's step on a line not carrying `x` keeps `x` among the
      tracks, or keeps it out. */
  lemma KeepStepKeepsOthers(m: MediaDescription, ts: seq<TrackInfo>, x: string)
    requires m.mediaStreamTrackId != Some(x)
    ensures x in Ids(KeepStep(m, ts).1) <==> x in Ids(ts)
  {
    var i := FirstIndex(ts, (t: TrackInfo) => Some(t.trackId) == m.mediaStreamTrackId);
    if i != -1 {
      RemoveIds(ts, i);
      assert multiset(Ids(ts))[x] == multiset(Ids(Remove(ts, i)))[x];
    }
  }

  /** A line whose track is still among the local tracks comes out of
      reconciliation exactly as it went in; a line whose track is gone
      loses it. */
  lemma ReconciledKeepsPresentTracks(ms: seq<MediaDescription>, ts: seq<TrackInfo>, k: nat)
    requires DistinctBindings(ms) && NonEmptyIds(ts) && k < |ms|
    requires ms[k].mediaStreamTrackId.Some?
    ensures ms[k].mediaStreamTrackId.value in Ids(ts) ==> Reconciled(ms, ts).0[k] == ms[k]
    ensures ms[k].mediaStreamTrackId.value !in Ids(ts) ==>
      Reconciled(ms, ts).0[k].mediaStreamTrackId != ms[k].mediaStreamTrackId
  {
    var x := ms[k].mediaStreamTrackId.value;
    var kept := Pass(ms, ts, KeepStep);
    KeepTracksAt(ms, ts, k, x);
    PassAt(ms, ts, KeepStep, k);
    PassAt(kept.0, kept.1, BindStep, k);
    if x in Ids(ts) {
      PresentTrackKept(ms, ts, k);
    } else {
      GoneTrackDropped(ms, ts, k);
    }
  }

  lemma PresentTrackKept(ms: seq<MediaDescription>, ts: seq<TrackInfo>, k: nat)
    requires NonEmptyIds(ts) && k < |ms|
    requires ms[k].mediaStreamTrackId.Some?
    requires ms[k].mediaStreamTrackId.value in Ids(TracksAt(ms, ts, KeepStep, k))
    ensures Pass(ms, ts, KeepStep).0[k] == ms[k]
    ensures Truthy(ms[k].mediaStreamTrackId)
  {
    var at := TracksAt(ms, ts, KeepStep, k);
    var i := FirstIndex(at, (t: TrackInfo) => Some(t.trackId) == ms[k].mediaStreamTrackId);
    PassAt(ms, ts, KeepStep, k);
    var j :| 0 <= j < |at| && Ids(at)[j] == ms[k].mediaStreamTrackId.value;
    assert Some(at[j].trackId) == ms[k].mediaStreamTrackId;
    KeepNoEmpty(ms, ts);
    assert Pass(ms, ts, KeepStep).0[k].mediaStreamTrackId != Some("");
  }

  lemma GoneTrackDropped(ms: seq<MediaDescription>, ts: seq<TrackInfo>, k: nat)
    requires k < |ms|
    requires ms[k].mediaStreamTrackId.Some?
    requires ms[k].mediaStreamTrackId.value !in Ids(TracksAt(ms, ts, KeepStep, k))
    requires ms[k].mediaStreamTrackId.value !in Ids(ts)
    ensures Reconciled(ms, ts).0[k].mediaStreamTrackId != ms[k].mediaStreamTrackId
  {
    var kept := Pass(ms, ts, KeepStep);
    var at := TracksAt(ms, ts, KeepStep, k);
    PassAt(ms, ts, KeepStep, k);
    assert forall j :: 0 <= j < |at| ==> Ids(at)[j] == at[j].trackId;
    assert kept.0[k].mediaStreamTrackId.None?;
    PassShrinks(ms, ts, KeepStep);
    BindTakesFromTracks(kept.0, kept.1, ts, k);
  }

  /** A line the second pass binds gets one of the tracks it was given. */
  lemma BindTakesFromTracks(ms: seq<MediaDescription>, left: seq<TrackInfo>, ts: seq<TrackInfo>, k: nat)
    requires k < |ms| && ms[k].mediaStreamTrackId.None?
    requires forall t :: t in left ==> t in ts
    ensures var bound := Pass(ms, left, BindStep).0[k].mediaStreamTrackId;
      bound.None? || bound.value in Ids(ts)
  {
    PassAt(ms, left, BindStep, k);
    var bindAt := TracksAt(ms, left, BindStep, k);
    PassShrinks(ms[..k], left, BindStep);
    var j := FirstIndex(bindAt, (t: TrackInfo) => t.kind == ms[k].media);
    if j != -1 {
      assert bindAt[j] in ts;
      var l :| 0 <= l < |ts| && ts[l] == bindAt[j];
      assert Ids(ts)[l] == bindAt[j].trackId;
    }
  }

  /** Every line reconciliation leaves without a track becomes `recvonly`,
      and then no track of its kind is left over; every line that receives
      a track it did not have becomes `sendrecv`. */
  lemma ReconciledUnboundLines(ms: seq<MediaDescription>, ts: seq<TrackInfo>, k: nat)
    requires NonEmptyIds(ts) && k < |ms|
    ensures !Truthy(Reconciled(ms, ts).0[k].mediaStreamTrackId) ==>
      (Reconciled(ms, ts).0[k].mode == Some(RecvOnly)
       && forall t :: t in Reconciled(ms, ts).1 ==> t.kind != ms[k].media)
    ensures (Reconciled(ms, ts).0[k].mediaStreamTrackId.Some?
      && Reconciled(ms, ts).0[k].mediaStreamTrackId != ms[k].mediaStreamTrackId) ==>
      Reconciled(ms, ts).0[k].mode == Some(SendRecv)
  {
    var kept := Pass(ms, ts, KeepStep);
    PassAt(ms, ts, KeepStep, k);
    PassAt(kept.0, kept.1, BindStep, k);
    var b := TracksAt(kept.0, kept.1, BindStep, k);
    var st := BindStep(kept.0[k], b);
    PassShrinks(kept.0[k + 1..], st.1, BindStep);
    PassShrinks(kept.0[..k], kept.1, BindStep);
    PassShrinks(ms, ts, KeepStep);
    assert kept.0[k].media == ms[k].media;
    if !Truthy(kept.0[k].mediaStreamTrackId) {
      var j := FirstIndex(b, (t: TrackInfo) => t.kind == kept.0[k].media);
      if j != -1 {
        assert b[j] in ts;
        assert b[j].trackId != "";
      }
    }
  }
}
