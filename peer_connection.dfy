/** `RTCPeerConnection` (bridge/client/webrtc.js:1569-2456) as an object
    whose methods update its fields: the signalling state, the local and
    remote descriptions, the queue of operations that run one at a time,
    the negotiation-needed timer, and the events it dispatches. The native
    engine's calls back into it (`gotIceCandidate`,
    `candidateGatheringDone`) are methods too, and each timer the source
    arms is a flag with a method that fires it. */
module PeerConnections {
  import opened Wrappers
  import opened SdpTypes
  import opened Signaling
  import opened DataChannel
  import opened Reconcile
  import opened LocalParams
  import opened Negotiation
  import opened Gathering
  import opened Renegotiation

  /** The events the connection dispatches. */
  datatype Event =
    | NegotiationNeededEvent
    | IceCandidateEvent(candidate: Candidate, sdpMLineIndex: nat)
    | EndOfCandidatesEvent   // an `icecandidate` event whose candidate is null

  /** The operations that may change the signalling state. */
  predicate IsStateChanger(op: Operation) {
    op.SetLocalOp? || op.SetRemoteOp?
  }

  class PeerConnection {
    var signalingState: SignalingState
    var localSessionInfo: Option<Session>
    var remoteSessionInfo: Option<Session>
    var canTrickleIceCandidates: Option<bool>
    var queuedOperations: seq<Operation>
    /** Whether the operation enqueued last changes the signalling state. */
    var stateChangingOperationsQueued: bool
    var hasDataChannels: bool
    /** A negotiation-needed timer is armed. */
    var negotiationNeededTimerPending: bool
    /** The operation at the head of the queue threw: the queue never moves
        again. */
    var halted: bool
    /** How the promises of the operations settled, in queue order. */
    var settled: seq<Outcome>
    var events: seq<Event>
    /** The tracks of the local streams, in order. */
    const localTracks: seq<TrackInfo>
    const cname: string
    const identity: Identity

    ghost predicate Valid()
      reads this
    {
      halted ==> |queuedOperations| > 0
    }

    /** The part of the connection the queued operations read and write. */
    function State(): Conn
      reads this
    {
      Conn(signalingState, localSessionInfo, remoteSessionInfo, canTrickleIceCandidates)
    }

    /** The local lines, none before a local description is set. */
    function LocalLines(): seq<MediaDescription>
      reads this
    {
      if localSessionInfo.Some? then localSessionInfo.value.media else []
    }

    /** The local description has a line `index`. */
    predicate HasLocalLine(index: nat)
      reads this
    {
      localSessionInfo.Some? && index < |localSessionInfo.value.media|
    }

    /** `maybeDispatchNegotiationNeeded` arms its timer now: nothing queued,
        the state stable, and something to negotiate. */
    predicate NeededNow()
      reads this
    {
      |queuedOperations| == 0 && signalingState == Stable
      && NegotiationNeeded(LocalLines(), localTracks, hasDataChannels)
    }

    constructor(tracks: seq<TrackInfo>, cname: string, identity: Identity)
      ensures Valid()
      ensures State() == Conn(Stable, None, None, None)
      ensures queuedOperations == [] && !stateChangingOperationsQueued && !halted
      ensures !hasDataChannels && !negotiationNeededTimerPending
      ensures settled == [] && events == []
      ensures localTracks == tracks && this.cname == cname && this.identity == identity
    {
      signalingState := Stable;
      localSessionInfo := None;
      remoteSessionInfo := None;
      canTrickleIceCandidates := None;
      queuedOperations := [];
      stateChangingOperationsQueued := false;
      hasDataChannels := false;
      negotiationNeededTimerPending := false;
      halted := false;
      settled := [];
      events := [];
      localTracks := tracks;
      this.cname := cname;
      this.identity := identity;
    }

    /** `createOffer`, `createAnswer`, `setLocalDescription`,
        `setRemoteDescription` and `addIceCandidate` up to their promise:
        refused with InvalidStateError when the connection is closed,
        otherwise queued, the flag saying whether this last operation
        changes the state. */
    method Enqueue(op: Operation) returns (error: Option<DomError>)
      requires Valid()
      modifies this`queuedOperations, this`stateChangingOperationsQueued
      ensures Valid()
      ensures old(signalingState) == Closed ==>
        error == Some(InvalidStateError)
        && queuedOperations == old(queuedOperations)
        && stateChangingOperationsQueued == old(stateChangingOperationsQueued)
      ensures old(signalingState) != Closed ==>
        error.None?
        && queuedOperations == old(queuedOperations) + [op]
        && stateChangingOperationsQueued == IsStateChanger(op)
    {
      if signalingState == Closed {
        return Some(InvalidStateError);
      }
      queuedOperations := queuedOperations + [op];
      stateChangingOperationsQueued := IsStateChanger(op);
      error := None;
    }

    /** The turn of the operation at the head of the queue, with `e` its
        random draws: what it leaves in the state the operations share, and
        how its promise settles. */
    method Turn(e: Entropy) returns (next: Conn, outcome: Outcome)
      requires |queuedOperations| > 0
      requires queuedOperations[0].CreateAnswerOp? ==> CanDraw(State(), e)
      ensures (next, outcome)
        == Execute(State(), queuedOperations[0], localTracks, hasDataChannels, cname, identity, e)
    {
      next, outcome := RunOperation(State(), queuedOperations[0], localTracks, hasDataChannels, cname, identity, e);
    }

    /** The end of a turn: the shared state it left is stored. An operation
        that threw halts the queue; otherwise `completeQueuedOperation`
        removes it, settles its promise and, once the queue is empty after
        a state-changing operation was queued, checks whether negotiation
        is needed. */
    method Complete(next: Conn, outcome: Outcome)
      requires Valid() && |queuedOperations| > 0 && !halted
      modifies this
      ensures Valid()
      ensures State() == next
      ensures hasDataChannels == old(hasDataChannels) && events == old(events)
      ensures halted <==> outcome.Stalled?
      ensures outcome.Stalled? ==>
        queuedOperations == old(queuedOperations) && settled == old(settled)
        && stateChangingOperationsQueued == old(stateChangingOperationsQueued)
        && negotiationNeededTimerPending == old(negotiationNeededTimerPending)
      ensures !outcome.Stalled? ==>
        queuedOperations == old(queuedOperations[1..]) && settled == old(settled) + [outcome]
      ensures !outcome.Stalled? && queuedOperations == [] && old(stateChangingOperationsQueued) ==>
        !stateChangingOperationsQueued
        && negotiationNeededTimerPending == (old(negotiationNeededTimerPending) || NeededNow())
      ensures !outcome.Stalled? && !(queuedOperations == [] && old(stateChangingOperationsQueued)) ==>
        stateChangingOperationsQueued == old(stateChangingOperationsQueued)
        && negotiationNeededTimerPending == old(negotiationNeededTimerPending)
    {
      signalingState := next.signalingState;
      localSessionInfo := next.localSessionInfo;
      remoteSessionInfo := next.remoteSessionInfo;
      canTrickleIceCandidates := next.canTrickleIceCandidates;
      if outcome.Stalled? {
        halted := true;
        return;
      }
      queuedOperations := queuedOperations[1..];
      settled := settled + [outcome];
      if |queuedOperations| == 0 && stateChangingOperationsQueued {
        MaybeDispatchNegotiationNeeded();
        stateChangingOperationsQueued := false;
      }
    }

    /** `maybeDispatchNegotiationNeeded`: arms the timer when none is armed,
        nothing is queued, the state is stable and there are data channels
        without an application line or a track no line sends. */
    method MaybeDispatchNegotiationNeeded()
      requires Valid()
      modifies this`negotiationNeededTimerPending
      ensures Valid()
      ensures negotiationNeededTimerPending == (old(negotiationNeededTimerPending) || NeededNow())
    {
      if negotiationNeededTimerPending || |queuedOperations| != 0 || signalingState != Stable {
        return;
      }
      var needed := NeedsNegotiation(LocalLines(), localTracks, hasDataChannels);
      if needed {
        negotiationNeededTimerPending := true;
      }
    }

    /** The armed timer fires: `negotiationneeded` is dispatched only if the
        state is still stable. */
    method FireNegotiationNeededTimer()
      requires Valid() && negotiationNeededTimerPending
      modifies this`negotiationNeededTimerPending, this`events
      ensures Valid()
      ensures !negotiationNeededTimerPending
      ensures events == old(events) + (if signalingState == Stable then [NegotiationNeededEvent] else [])
    {
      negotiationNeededTimerPending := false;
      if signalingState == Stable {
        events := events + [NegotiationNeededEvent];
      }
    }

    /** `maybeDispatchGatheringDone`: the end of candidates once every local
        line has finished gathering. */
    method MaybeDispatchGatheringDone()
      requires Valid() && localSessionInfo.Some?
      modifies this`events
      ensures Valid()
      ensures events == old(events)
        + (if AllGathered(localSessionInfo.value.media) == Some(true) then [EndOfCandidatesEvent] else [])
    {
      var done := IsAllGatheringDone(localSessionInfo.value.media);
      if done == Some(true) {
        events := events + [EndOfCandidatesEvent];
      }
    }

    /** The engine found a local candidate for line `index`: the candidate is
        added to the line, dispatched, and followed by the end of candidates
        when gathering is over; nothing is dispatched when the callback
        throws. With no local description or no line `index`, the callback
        throws before it changes anything. */
    method GotIceCandidate(index: nat, c: Candidate, ufrag: string, password: string)
      requires Valid()
      modifies this`localSessionInfo, this`events
      ensures Valid()
      ensures !old(HasLocalLine(index)) ==> localSessionInfo == old(localSessionInfo) && events == old(events)
      ensures old(HasLocalLine(index)) ==>
        var (line, ok) := AddLocalCandidate(old(localSessionInfo.value.media[index]), c, ufrag, password);
        localSessionInfo == Some(old(localSessionInfo.value).(media := old(localSessionInfo.value.media)[index := line]))
        && events == old(events)
           + (if !ok then []
              else [IceCandidateEvent(c, index)]
                   + (if AllGathered(localSessionInfo.value.media) == Some(true) then [EndOfCandidatesEvent] else []))
    {
      if !HasLocalLine(index) {
        return;
      }
      var local := localSessionInfo.value;
      var line, ok := AddLocalCandidate(local.media[index], c, ufrag, password).0,
                      AddLocalCandidate(local.media[index], c, ufrag, password).1;
      localSessionInfo := Some(local.(media := local.media[index := line]));
      if !ok {
        return;
      }
      events := events + [IceCandidateEvent(c, index)];
      MaybeDispatchGatheringDone();
    }

    /** The engine finished gathering for line `index`: its flag is set and
        the end of candidates follows when every line is done. The callback
        throws, changing nothing, when there is no local description, no
        line `index` or no ICE object on the line. */
    method CandidateGatheringDone(index: nat)
      requires Valid()
      modifies this`localSessionInfo, this`events
      ensures Valid()
      ensures !old(HasLocalLine(index) && localSessionInfo.value.media[index].ice.Some?) ==>
        localSessionInfo == old(localSessionInfo) && events == old(events)
      ensures old(HasLocalLine(index) && localSessionInfo.value.media[index].ice.Some?) ==>
        var marked := MarkGatheringDone(old(localSessionInfo.value.media[index])).value;
        localSessionInfo == Some(old(localSessionInfo.value).(media := old(localSessionInfo.value.media)[index := marked]))
        && events == old(events)
           + (if AllGathered(localSessionInfo.value.media) == Some(true) then [EndOfCandidatesEvent] else [])
    {
      if !HasLocalLine(index) {
        return;
      }
      var local := localSessionInfo.value;
      var marked := MarkGatheringDone(local.media[index]);
      if marked.None? {
        return;
      }
      localSessionInfo := Some(local.(media := local.media[index := marked.value]));
      MaybeDispatchGatheringDone();
    }

    /** `createDataChannel`: refused with InvalidStateError when closed, then
        the settings checked; the first channel marks the connection as
        having data channels and checks whether negotiation is needed. */
    method CreateDataChannel(channelLabel: string, init: ChannelInit) returns (r: Result<ChannelSettings>)
      requires Valid()
      modifies this`hasDataChannels, this`negotiationNeededTimerPending
      ensures Valid()
      ensures old(signalingState) == Closed ==> r == Err(InvalidStateError)
      ensures old(signalingState) != Closed ==> r == ValidateChannel(channelLabel, init)
      ensures r.Err? ==>
        hasDataChannels == old(hasDataChannels)
        && negotiationNeededTimerPending == old(negotiationNeededTimerPending)
      ensures r.Ok? ==>
        hasDataChannels
        && negotiationNeededTimerPending
           == (old(negotiationNeededTimerPending) || (!old(hasDataChannels) && NeededNow()))
    {
      if signalingState == Closed {
        return Err(InvalidStateError);
      }
      r := ValidateChannel(channelLabel, init);
      if r.Err? {
        return;
      }
      if !hasDataChannels {
        hasDataChannels := true;
        MaybeDispatchNegotiationNeeded();
      }
    }

    /** `close`: the state becomes closed, and stays so. */
    method Close()
      requires Valid()
      modifies this`signalingState
      ensures Valid()
      ensures signalingState == Closed
    {
      signalingState := Closed;
    }
  }
}
