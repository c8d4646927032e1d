/** The settings check of `createDataChannel` (bridge/client/webrtc.js:2202-2241):
    the init dictionary's members with their defaults, the id rule of a
    negotiated channel, and the exclusion of the two partial-reliability
    limits. */
module DataChannel {
  import opened Wrappers

  /** The errors the peer connection raises or rejects with. */
  datatype DomError = InvalidStateError | InvalidSessionDescriptionError | SyntaxError

  datatype Result<T> = Ok(value: T) | Err(error: DomError)

  /** The id a channel has when none was agreed: 65535, outside the 16-bit
      stream ids a negotiated channel may use. */
  const UnsetId := 65535

  /** `RTCDataChannelInit`: every member may be missing (a null member reads
      as missing too). Numbers are whole numbers here. */
  datatype ChannelInit = ChannelInit(
    ordered: Option<bool>,
    maxPacketLifeTime: Option<int>,
    maxRetransmits: Option<int>,
    protocol: Option<string>,
    negotiated: Option<bool>,
    id: Option<int>)

  /** The settings the channel is created with. Every new channel starts in
      the "connecting" state with nothing buffered. */
  datatype ChannelSettings = ChannelSettings(
    channelLabel: string,
    ordered: bool,
    maxPacketLifeTime: Option<int>,
    maxRetransmits: Option<int>,
    protocol: string,
    negotiated: bool,
    id: int)

  /** The invariant of every channel the connection creates: a negotiated
      channel carries a 16-bit stream id below 65535, any other channel the
      unset id, and at most one of the two reliability limits is set. */
  predicate GoodSettings(s: ChannelSettings) {
    (if s.negotiated then 0 <= s.id <= 65534 else s.id == UnsetId)
    && (s.maxPacketLifeTime.None? || s.maxRetransmits.None?)
  }

  function ValidateChannel(channelLabel: string, init: ChannelInit): (r: Result<ChannelSettings>)
    ensures r.Ok? ==> GoodSettings(r.value)
    ensures r.Err? ==> r.error == SyntaxError
    // exactly the two errors the source raises
    ensures r.Err? <==>
      (init.negotiated == Some(true) && !(0 <= init.id.GetOr(UnsetId) <= 65534))
      || (init.maxPacketLifeTime.Some? && init.maxRetransmits.Some?)
    // a negotiated channel keeps the id it was given
    ensures r.Ok? && init.negotiated == Some(true) ==> init.id == Some(r.value.id)
    // the members not checked keep their values or take their defaults
    ensures r.Ok? ==> (r.value.channelLabel == channelLabel && r.value.ordered == init.ordered.GetOr(true)
      && r.value.protocol == init.protocol.GetOr("")
      && r.value.maxPacketLifeTime == init.maxPacketLifeTime
      && r.value.maxRetransmits == init.maxRetransmits)
  {
    var negotiated := init.negotiated.GetOr(false);
    var id := init.id.GetOr(UnsetId);
    if negotiated && (id < 0 || id > 65534) then Err(SyntaxError)
    else
      var id' := if !negotiated && init.id.Some? then UnsetId else id;
      if init.maxPacketLifeTime.Some? && init.maxRetransmits.Some? then Err(SyntaxError)
      else Ok(ChannelSettings(channelLabel, init.ordered.GetOr(true), init.maxPacketLifeTime,
        init.maxRetransmits, init.protocol.GetOr(""), negotiated, id'))
  }
}
