/** The codecs the connection offers and accepts, `defaultPayloads`
    (bridge/client/webrtc.js:1212-1231): Opus, PCMA and PCMU for audio;
    H.264, VP8 and its retransmission format RTX for video. */
module Defaults {
  import opened Wrappers
  import opened SdpTypes

  function Codec(pt: nat, name: string, clockRate: nat, channels: Option<nat>,
                 nack: bool, nackpli: bool, ccmfir: bool, ericscream: bool,
                 parameters: Option<Params>): Payload {
    Payload(Some(pt), Some(name), Some(clockRate), channels, nack, nackpli, ccmfir,
      ericscream, parameters)
  }

  function AudioDefaults(): seq<Payload> {
    [ Codec(111, "OPUS", 48000, Some(2), false, false, false, false, None),
      Codec(8, "PCMA", 8000, Some(1), false, false, false, false, None),
      Codec(0, "PCMU", 8000, Some(1), false, false, false, false, None) ]
  }

  function VideoDefaults(): seq<Payload> {
    [ Codec(103, "H264", 90000, None, false, true, true, true,
        Some([("levelAsymmetryAllowed", Num(1)), ("packetizationMode", Num(1))])),
      Codec(100, "VP8", 90000, None, true, true, true, true, None),
      Codec(120, "RTX", 90000, None, false, false, false, false,
        Some([("apt", Num(100)), ("rtxTime", Num(200))])) ]
  }

  /** `defaultPayloads[type]`; the table has no entry for data lines. */
  function DefaultPayloads(t: MediaType): seq<Payload> {
    match t
    case Audio => AudioDefaults()
    case Video => VideoDefaults()
    case Application => []
  }
}
