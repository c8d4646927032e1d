/** Whether a new offer is needed (bridge/client/webrtc.js:2307-2334): data
    channels exist but no local line carries them, or some local track is
    sent on no local line. */
module Renegotiation {
  import opened Wrappers
  import opened SdpTypes
  import opened Reconcile
  import opened Offer

  /** The line sends the track with this id. */
  function Carries(trackId: string): MediaDescription -> bool {
    (m: MediaDescription) => m.mediaStreamTrackId == Some(trackId)
  }

  /** Some line sends the track with this id. */
  predicate Sends(ms: seq<MediaDescription>, trackId: string) {
    FirstIndex(ms, Carries(trackId)) != -1
  }

  predicate Unsent(ms: seq<MediaDescription>, t: TrackInfo) {
    !Sends(ms, t.trackId)
  }

  /** Data channels need a line: there are some, and no application line. */
  predicate DataNegotiationNeeded(ms: seq<MediaDescription>, hasDataChannels: bool) {
    hasDataChannels && !HasApplication(ms)
  }

  /** The index of the first track no line sends, or the number of tracks. */
  function FirstUnsent(ms: seq<MediaDescription>, tracks: seq<TrackInfo>): (i: nat)
    ensures i <= |tracks|
  {
    var k := FirstIndex(tracks, t => Unsent(ms, t));
    if k == -1 then |tracks| else k
  }

  predicate MediaNegotiationNeeded(ms: seq<MediaDescription>, tracks: seq<TrackInfo>) {
    FirstUnsent(ms, tracks) < |tracks|
  }

  predicate NegotiationNeeded(ms: seq<MediaDescription>, tracks: seq<TrackInfo>, hasDataChannels: bool) {
    DataNegotiationNeeded(ms, hasDataChannels) || MediaNegotiationNeeded(ms, tracks)
  }

  /** Media needs negotiating exactly when some track's id is on no line. */
  lemma MediaNeededMeans(ms: seq<MediaDescription>, tracks: seq<TrackInfo>)
    ensures MediaNegotiationNeeded(ms, tracks) <==>
      exists i :: 0 <= i < |tracks| && forall k :: 0 <= k < |ms| ==> ms[k].mediaStreamTrackId != Some(tracks[i].trackId)
  {
    var k := FirstIndex(tracks, t => Unsent(ms, t));
    if k != -1 {
      assert Unsent(ms, tracks[k]);
      assert FirstIndex(ms, Carries(tracks[k].trackId)) == -1;
    } else {
      forall i | 0 <= i < |tracks|
        ensures exists k :: 0 <= k < |ms| && ms[k].mediaStreamTrackId == Some(tracks[i].trackId)
      {
        assert !Unsent(ms, tracks[i]);
        var j := FirstIndex(ms, Carries(tracks[i].trackId));
        assert ms[j].mediaStreamTrackId == Some(tracks[i].trackId);
      }
    }
  }

  /** The loop over the tracks, each looked up among the lines. */
  method FindUnsentTrack(ms: seq<MediaDescription>, tracks: seq<TrackInfo>) returns (i: nat)
    ensures i == FirstUnsent(ms, tracks)
  {
    i := 0;
    while i < |tracks|
      invariant i <= |tracks|
      invariant forall k :: 0 <= k < i ==> !Unsent(ms, tracks[k])
    {
      var j := IndexOf(ms, Carries(tracks[i].trackId));
      if j == -1 {
        FirstIndexIs(tracks, t => Unsent(ms, t), i);
        return;
      }
      i := i + 1;
    }
    FirstIndexIs(tracks, t => Unsent(ms, t), -1);
  }

  /** The test `maybeDispatchNegotiationNeeded` makes once no timer is
      pending, no operation is queued and the state is stable. */
  method NeedsNegotiation(ms: seq<MediaDescription>, tracks: seq<TrackInfo>, hasDataChannels: bool)
    returns (needed: bool)
    ensures needed == NegotiationNeeded(ms, tracks, hasDataChannels)
  {
    var app := IndexOf(ms, IsApplication);
    var dataNeeded := hasDataChannels && app == -1;
    var i := FindUnsentTrack(ms, tracks);
    needed := dataNeeded || i < |tracks|;
  }
}
