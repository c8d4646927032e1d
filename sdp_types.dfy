/** The nested record model that SDP.parse builds and SDP.generate reads
    (bridge/client/webrtc.js:650-1161), shared with the peer connection.

    A JavaScript property that may be missing is an `Option`, and `None`
    stands for both a missing and a null property. `netType` is always "IN"
    in every description the system builds, so it is not a field. */
module SdpTypes {
  import opened Wrappers

  datatype MediaType = Audio | Video | Application

  /** The direction attribute of a media line. */
  datatype Mode = SendRecv | SendOnly | RecvOnly | Inactive

  /** The DTLS role of RFC 4145 section 4 as the codec reads it. */
  datatype Setup = ActPass | Active | Passive

  /** An fmtp parameter value: a decimal number or text. */
  datatype ParamValue = Num(n: nat) | Str(s: string)

  /** fmtp parameters with camel-case keys, in insertion order. */
  type Params = seq<(string, ParamValue)>

  datatype Payload = Payload(
    payloadType: Option<nat>,   // None: the NaN of an unreadable format
    encodingName: Option<string>,
    clockRate: Option<nat>,
    channels: Option<nat>,
    nack: bool,
    nackpli: bool,
    ccmfir: bool,
    ericscream: bool,
    parameters: Option<Params>)

  datatype Rtcp = Rtcp(
    port: Option<nat>,
    addressType: Option<string>,
    address: Option<string>,
    mux: bool)

  /** An ICE candidate (RFC 5245 section 15.1, RFC 6544 section 4.5). */
  datatype Candidate = Candidate(
    foundation: string,
    componentId: nat,
    transport: string,
    priority: Option<nat>,
    address: string,
    port: Option<nat>,
    typ: string,
    relatedAddress: Option<string>,
    relatedPort: Option<nat>,
    tcpType: Option<string>)

  datatype Ice = Ice(
    ufrag: Option<string>,
    password: Option<string>,
    trickle: bool,
    candidates: Option<seq<Candidate>>,
    gatheringDone: bool)

  datatype Dtls = Dtls(
    hashFunction: Option<string>,
    fingerprint: Option<string>,
    setup: Option<Setup>)

  /** The SCTP association of a data line; its port is the line's first
      format. */
  datatype Sctp = Sctp(
    port: Option<nat>,
    app: Option<string>,
    streams: Option<nat>)

  datatype MediaDescription = MediaDescription(
    media: MediaType,
    port: Option<nat>,
    protocol: Option<string>,
    fmt: Option<nat>,            // set only on the offer's data line
    addressType: Option<string>,
    address: Option<string>,
    mode: Option<Mode>,
    payloads: Option<seq<Payload>>,
    rtcp: Option<Rtcp>,
    ssrcs: Option<seq<nat>>,
    cname: Option<string>,
    mediaStreamId: Option<string>,
    mediaStreamTrackId: Option<string>,
    ice: Option<Ice>,
    dtls: Option<Dtls>,
    sctp: Option<Sctp>)

  datatype Originator = Originator(
    username: Option<string>,
    sessionId: Option<string>,
    sessionVersion: Option<nat>,
    addressType: Option<string>,
    address: Option<string>)

  datatype Session = Session(
    version: Option<nat>,
    originator: Option<Originator>,
    sessionName: Option<string>,
    startTime: Option<nat>,
    stopTime: Option<nat>,
    media: seq<MediaDescription>)

  function MediaTypeName(t: MediaType): string {
    match t
    case Audio => "audio"
    case Video => "video"
    case Application => "application"
  }

  function ModeName(m: Mode): string {
    match m
    case SendRecv => "sendrecv"
    case SendOnly => "sendonly"
    case RecvOnly => "recvonly"
    case Inactive => "inactive"
  }

  function SetupName(s: Setup): string {
    match s
    case ActPass => "actpass"
    case Active => "active"
    case Passive => "passive"
  }

  /** A media line with nothing but its kind. */
  function EmptyMedia(t: MediaType): MediaDescription {
    MediaDescription(t, None, None, None, None, None, None, None, None, None, None,
      None, None, None, None, None)
  }
}
