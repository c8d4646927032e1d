# openwebrtc bridge client: SDP codec and offer/answer negotiation

This project models the core of `bridge/client/webrtc.js`, the browser side of the openwebrtc bridge, and proves properties of it. The core has two parts.

- **The SDP codec.**
  - `SDP.parse` turns session-description text into a nested record: the session fields, then one media description per `m=` line, with its payloads, RTCP, sources, ICE credentials and candidates, DTLS fingerprint and role, and SCTP association.
  - `SDP.generate` writes such a record back as text by filling line templates. `fillTemplate` substitutes `${key}` slots (with optional `[prefix]`/`[suffix]` parts) and `addDefaults` supplies missing properties.
- **The `RTCPeerConnection` negotiation logic.**
  - The signalling-state table and the operation queue (`enqueueOperation`, `completeQueuedOperation`).
  - Binding local tracks to media lines (`updateMediaDescriptionsWithTracks`).
  - The local snapshot that `createOffer` and `createAnswer` write.
  - `setLocalDescription` and `setRemoteDescription`, including the filter that keeps only remote payloads matching a default codec.
  - `addIceCandidate`.
  - The engine callbacks `gotIceCandidate` and `candidateGatheringDone`, with `isAllGatheringDone`.
  - `maybeDispatchNegotiationNeeded`.
  - The settings check of `createDataChannel`.

How the model is built:

- **Regular expressions** become small scanners on `seq<char>` (modules `Chars`, `Scan`, `Lines`). Each regular expression is one function. Lemmas show that the line the generator writes is read back (round trips per attribute).
- **Parsing and generation** are specified as functions (`SdpParse.ParseSpec`, `SdpGenerate.GenerateSpec`). The loops of the source are methods proved equal to them (`SdpReader`, `SdpGenerate`).
- **The round trip** `SdpRoundTrip.GenerateParse` states that parsing a generated text gives back the session with the generator's defaults filled in. It is built in layers:
  - the generated text is a list of lines (`SdpSession`, `SdpLines`, `SdpText`);
  - each pattern reads only the lines of its own attribute kind (`LineTags`, `BlockTags`);
  - each part of a media block reads back (`BlockRead`);
  - the split at the media lines gives back the session lines and one block per description (`SdpRoundTrip`).
- **Negotiation steps** are functions on the state the operations share: the signalling state and the local and remote descriptions (`Negotiation`, `NegotiationProps`, `Offer`, `Answer`, `Reconcile`).
- **The peer connection** is a class (`PeerConnections.PeerConnection`). Its fields are the queue, the flags and the events dispatched, and its methods update them in place.
- **Randomness** is a parameter (`Entropy`): random strings, SSRCs and the session id. So is the DTLS identity. The engine behind `peerHandler` is not modelled; its callbacks are methods.

## Model

| member | source | states |
|---|---|---|
| Chars.Span | bridge/client/webrtc.js:654-684 | a greedy `[...]*` consumes the longest prefix inside the class and stops at the first character outside it |
| Chars.SpanOf | bridge/client/webrtc.js:654-684 | a run of class characters followed by text that does not continue it is consumed exactly |
| Chars.LowerString | bridge/client/webrtc.js:971-976 | ASCII `toLowerCase`: same length, each character lower-cased |
| Chars.UpperString | bridge/client/webrtc.js:944-951 | ASCII `toUpperCase`: same length, each character upper-cased |
| Chars.UpperStringFixed | bridge/client/webrtc.js:971-976 | upper-casing text without lower-case letters leaves it unchanged |
| Chars.LowerStringFixed | bridge/client/webrtc.js:971-976 | lower-casing text without upper-case letters leaves it unchanged |
| Chars.DropPrefixCI | bridge/client/webrtc.js:935-943 | a literal under the `i` flag matches exactly when the text starts with it up to ASCII case, and the rest is what follows |
| Chars.Decimal | bridge/client/webrtc.js:767-773 | `"" + n` is a non-empty run of decimal digits |
| Chars.DecimalValue | bridge/client/webrtc.js:767-773 | the digits written for a number have that number as their value |
| Chars.DecimalInjective | bridge/client/webrtc.js:767-773 | different numbers are written as different texts |
| Chars.ParseIntDecimal | bridge/client/webrtc.js:783-803 | `parseInt` reads back the decimal text of a number whatever non-digit text follows it |
| Scan.Run | bridge/client/webrtc.js:654-684 | `([...]*)` splits the text into the longest class run and a rest that does not continue it |
| Scan.Run1 | bridge/client/webrtc.js:654-684 | `([...]+)` is `Run` failing exactly on an empty run |
| Scan.AltAt | bridge/client/webrtc.js:654-684 | an alternation takes the first alternative that matches, as the regular expression engine tries them in order |
| Scan.AltChoice | bridge/client/webrtc.js:654-684 | without the `i` flag the text an alternation matches is one of its alternatives |
| Scan.ExpectOf | bridge/client/webrtc.js:654-684 | a literal (lower case under `i`) matches its own text and leaves the rest |
| Scan.ExpectMismatch | bridge/client/webrtc.js:654-684 | text whose first character differs from the literal's does not match it |
| Lines.LineEnd | bridge/client/webrtc.js:747-750 | `$` under the `m` flag: the first line terminator, before which no terminator occurs |
| Lines.SplitLines | bridge/client/webrtc.js:747-750 | the lines a multi-line pattern sees; only the last one runs to the end of the text |
| Lines.JoinSplit | bridge/client/webrtc.js:747-750 | splitting into lines loses nothing: the lines with their terminators give back the text |
| Lines.SplitCrlf | bridge/client/webrtc.js:1004-1161 | lines the generator writes, each ended by CR LF, are split back into exactly those lines |
| Lines.First | bridge/client/webrtc.js:747-750 | a pattern without the `g` flag finds the captures of the first line it matches, or nothing when no line matches |
| Lines.All | bridge/client/webrtc.js:893-896 | a pattern with the `g` flag finds the captures of the matching lines, in order |
| Lines.FirstAppend | bridge/client/webrtc.js:747-750 | the first match in two texts is the first text's match, else the second's |
| Lines.AllAppend | bridge/client/webrtc.js:893-896 | the global matches of two texts are those of the first followed by those of the second |
| Lines.FirstIsHeadOfAll | bridge/client/webrtc.js:747-750 | the first match is the first of all matches |
| Template.MatchKey | bridge/client/webrtc.js:766 | the placeholder pattern for a key, tried at a `$`, with the prefix bracket first as the engine backtracks |
| Template.ReplacementRendered | bridge/client/webrtc.js:767-773 | the callback drops the placeholder for null, undefined and NaN values, else returns prefix, value and suffix |
| Template.FillOnePieces | bridge/client/webrtc.js:766-773 | one `replace` step on a well-formed template replaces exactly the first slot naming the key and nothing else |
| Template.FillPiecesText | bridge/client/webrtc.js:761-776 | on `$`-free templates and values, no value is ever re-substituted: filling text is filling slots |
| Template.FillPiecesSubst | bridge/client/webrtc.js:761-776 | with no key naming two slots, applying the keys one by one substitutes every named slot at once |
| Template.SubstConcat | bridge/client/webrtc.js:761-776 | filling with one object and then another is filling with both, the first entry for a key winning |
| Template.FillTemplate | bridge/client/webrtc.js:761-776 | fillTemplate shows each named slot's value and leaves every other placeholder as written |
| Template.FillAgain | bridge/client/webrtc.js:1049-1155 | filling a text that an earlier fill produced fills the template's slots from both objects |
| Template.FillLine | bridge/client/webrtc.js:686-745 | filling a one-line template gives the rendered line followed by CR LF |
| Template.ClassDollarFree | bridge/client/webrtc.js:654-684 | no character class of the codec's patterns admits `$`, so captured values never form placeholders |
| Template.FillText | bridge/client/webrtc.js:761-776 | the loop over the info object's keys computes fillTemplate |
| MediaFormats.FmtTypes | bridge/client/webrtc.js:814-818 | the format text yields at least one entry: leading spaces dropped, split at runs of spaces, each piece through `parseInt` |
| MediaFormats.WordsJoin | bridge/client/webrtc.js:814-818 | splitting a space-joined list of digit words gives the words back |
| MediaFormats.ParseAllDecimals | bridge/client/webrtc.js:814-818 | `parseInt` reads every written payload type back |
| MediaFormats.FmtTypesJoined | bridge/client/webrtc.js:814-818 | the parser reads a non-empty list of numbers back from the text written after the protocol |
| MediaFormats.FoldText | bridge/client/webrtc.js:1053-1057 | the corrected accumulator holds every payload type, in order, joined by single spaces |
| MediaFormats.FmtRoundTrip | bridge/client/webrtc.js:1053-1057 | with the corrected accumulator the media line carries exactly the description's payload types, and the parser reads them back |
| MediaFormats.AsWrittenAgrees | bridge/client/webrtc.js:1053-1057 | the accumulator as written agrees with the corrected one whenever the first payload type is not 0 |
| MediaFormats.AsWrittenDropsLeadingZero | bridge/client/webrtc.js:1053-1057 | as written, payload types 0 and 8 give the media line "8", which the parser reads as one payload type |
| SessionLines.VersionMatch | bridge/client/webrtc.js:655 | the version pattern captures a non-empty digit run after `v=` |
| SessionLines.VersionRoundTrip | bridge/client/webrtc.js:688 | the parser reads back the version the `sdp` template writes |
| SessionLines.OriginMatch | bridge/client/webrtc.js:656 | the originator pattern captures IP4 or IP6 as the address type |
| SessionLines.OriginRoundTrip | bridge/client/webrtc.js:689 | an originator line the template writes from readable fields is read back field for field |
| SessionLines.SessionNameMatch | bridge/client/webrtc.js:657 | the session-name pattern captures the rest of the `s=` line |
| SessionLines.SessionNameRoundTrip | bridge/client/webrtc.js:690 | any session name written is read back |
| SessionLines.TimingMatch | bridge/client/webrtc.js:658 | the timing pattern captures two non-empty digit runs |
| SessionLines.TimingRoundTrip | bridge/client/webrtc.js:691 | the start and stop times written are read back |
| SessionLines.ConnectionMatch | bridge/client/webrtc.js:659 | the connection pattern captures IP4 or IP6 and a non-empty address |
| SessionLines.ConnectionRoundTrip | bridge/client/webrtc.js:698 | a connection line written with a readable address is read back |
| SessionLines.MsidSemanticRoundTrip | bridge/client/webrtc.js:660 | the `msid-semantic` line the generator writes is recognised by the parser |
| SessionLines.MediaLineMatch | bridge/client/webrtc.js:661 | the media-line pattern captures a kind, a digit port, a protocol and a format list of digits and spaces |
| SessionLines.MediaLineRoundTrip | bridge/client/webrtc.js:697 | the media line the `mblock` template writes is read back: kind, port digits, protocol and formats |
| SourceAttrs.CnameMatch | bridge/client/webrtc.js:672 | the cname pattern captures non-empty ssrc digits and a canonical name of its characters |
| SourceAttrs.CnameRoundTrip | bridge/client/webrtc.js:727 | a cname line written for an ssrc is read back as that ssrc and name |
| SourceAttrs.CnameFill | bridge/client/webrtc.js:1105-1108 | the generator's cname line for one ssrc is exactly `a=ssrc:<ssrc> cname:<cname>` and CR LF |
| SourceAttrs.MsidMatch | bridge/client/webrtc.js:673 | the msid pattern captures a non-empty stream id and track id, trying the optional ssrc group first |
| SourceAttrs.MsidRoundTrip | bridge/client/webrtc.js:728 | an msid line written is read back as the same stream and track ids |
| SourceAttrs.MsidWithoutGroup | bridge/client/webrtc.js:673 | a line that does not open with the ssrc group is matched from its `msid:` |
| SourceAttrs.MsidFill | bridge/client/webrtc.js:1109-1114 | the generator's msid line, per ssrc or once, is `a=msid:<stream> <track>` and CR LF |
| RtpAttrs.ModeMatch | bridge/client/webrtc.js:662 | the direction pattern recognises exactly the four direction attributes |
| RtpAttrs.ModeRoundTrip | bridge/client/webrtc.js:701 | every direction written is read back |
| RtpAttrs.RtcpMatch | bridge/client/webrtc.js:670 | the rtcp pattern captures non-empty port digits and an optional address |
| RtpAttrs.RtcpRoundTrip | bridge/client/webrtc.js:717 | an rtcp line written with or without a readable address is read back as that port and address |
| RtpAttrs.RtcpFill | bridge/client/webrtc.js:1085-1093 | the generator's rtcp line: the port, then IN, the address type (IP4 by default) and the address when the address is non-empty; with an empty or missing address the network and address types are emptied too, so the port is followed by three blanks |
| RtpAttrs.RtcpMuxMatch | bridge/client/webrtc.js:671 | the rtcp-mux pattern matches exactly the lines starting with `a=rtcp-mux` |
| RtpAttrs.RtpmapFieldsMatch | bridge/client/webrtc.js:663 | the rtpmap pattern captures a non-empty encoding name and clock rate |
| RtpAttrs.RtpmapRoundTrip | bridge/client/webrtc.js:720 | an rtpmap line written is read back as its encoding name, clock rate and channel count |
| RtpAttrs.RtpMapFill | bridge/client/webrtc.js:1058-1060 | the generator's rtpmap line; a missing, zero or single channel count is not written |
| RtpAttrs.FmtpMatch | bridge/client/webrtc.js:664 | the fmtp pattern captures a non-empty parameter text of its characters |
| RtpAttrs.FmtpRoundTrip | bridge/client/webrtc.js:721 | an fmtp line written is read back as its parameter text |
| RtpAttrs.Put | bridge/client/webrtc.js:869 | assigning a parameter keeps an existing key in place and appends a new one, and the pair is present |
| RtpAttrs.CamelUncamel | bridge/client/webrtc.js:866-868 | the parser's camel case undoes the generator's dash case on word keys |
| RtpAttrs.ValueRoundTrip | bridge/client/webrtc.js:869-871 | a parameter value written is read back as the same number or text, a number being a run of decimal digits (see Left out) |
| RtpAttrs.ParamScanText | bridge/client/webrtc.js:864-865 | the global parameter pattern finds exactly the pairs the generator joined |
| RtpAttrs.CollectRaw | bridge/client/webrtc.js:864-872 | collecting distinct keys appends them in order |
| RtpAttrs.ParamsRoundTrip | bridge/client/webrtc.js:1061-1071 | the parser reads the generator's parameter text back as the same keys, values and order |
| RtpAttrs.ParamsTextChars | bridge/client/webrtc.js:664 | the generator's parameter text lies inside the fmtp pattern's characters and is non-empty for non-empty parameters |
| RtpAttrs.FmtpFill | bridge/client/webrtc.js:1062-1071 | the generator's fmtp line is `a=fmtp:<type> <parameters>` and CR LF |
| RtpAttrs.FeedbackFill | bridge/client/webrtc.js:1073-1080 | each feedback line is `a=rtcp-fb:<type> <kind>` and CR LF, the line its pattern matches exactly |
| IceAttrs.Accept | bridge/client/webrtc.js:944-966 | a candidate is dropped exactly when it is TCP without a tcptype and its port is neither 0 nor 9; such a kept candidate becomes active on port 9; any other keeps the captured fields |
| IceAttrs.CandidateFill | bridge/client/webrtc.js:1126-1131 | filling the candidate template, optional properties defaulted to null, writes the candidate's line and CR LF |
| IceAttrs.CandidateRoundTrip | bridge/client/webrtc.js:678-680 | the candidate pattern matches the line written for a well-formed candidate and the parse builds back the same candidate |
| IceAttrs.UfragMatch | bridge/client/webrtc.js:674 | the ufrag pattern matches exactly the lines starting with `a=ice-ufrag:` and captures the fragment's characters that follow |
| IceAttrs.PwdMatch | bridge/client/webrtc.js:675 | the pwd pattern matches exactly the lines starting with `a=ice-pwd:` and captures the password's characters that follow |
| IceAttrs.IceCredentialsFill | bridge/client/webrtc.js:1120-1121 | the credentials template writes the ufrag line then the pwd line |
| IceAttrs.UfragRoundTrip | bridge/client/webrtc.js:731 | a ufrag written is read back |
| IceAttrs.PwdRoundTrip | bridge/client/webrtc.js:732 | a password written is read back |
| IceAttrs.IceOptionsMatch | bridge/client/webrtc.js:676 | the ice-options pattern matches exactly the lines starting with `a=ice-options:` and captures the whole rest of the line |
| IceAttrs.TrickleLineTrickles | bridge/client/webrtc.js:1122-1123 | the option line the generator writes is read back as announcing trickle |
| DtlsAttrs.FingerprintMatch | bridge/client/webrtc.js:681 | the fingerprint pattern captures a hash name among sha-1 and sha-256 and a non-empty fingerprint of hex digits and colons |
| DtlsAttrs.FingerprintRoundTrip | bridge/client/webrtc.js:971-977 | a fingerprint line written is read back with the same hash name and, for an upper-case fingerprint, the same fingerprint after the case mapping |
| DtlsAttrs.FingerprintFill | bridge/client/webrtc.js:1139-1141 | the generator's fingerprint line is `a=fingerprint:<hash> <fingerprint>` and CR LF |
| DtlsAttrs.SetupMatch | bridge/client/webrtc.js:682 | the setup pattern matches only lines starting with `a=setup:` and the role it reports |
| DtlsAttrs.SetupRoundTrip | bridge/client/webrtc.js:742 | every setup role written is read back |
| DtlsAttrs.SetupFill | bridge/client/webrtc.js:1143-1144 | the generator's setup line carries the description's role, actpass when it has none |
| DtlsAttrs.SctpmapMatch | bridge/client/webrtc.js:683 | the sctpmap pattern, with the line's port filled in, captures a non-empty application name and digits for the stream count when present |
| DtlsAttrs.SctpmapRoundTrip | bridge/client/webrtc.js:985-995 | an sctpmap line written is read back as the same application and stream count |
| DtlsAttrs.SctpmapFill | bridge/client/webrtc.js:1150-1151 | the generator's sctpmap line: port, application and, when present, the stream count |
| SdpParse.Integer | bridge/client/webrtc.js:811 | `parseInt` of a captured digit run is the number it denotes, never NaN |
| SdpParse.Split | bridge/client/webrtc.js:781-782 | splitting at the media lines loses and reorders nothing, yields one block per media line, and each block's captures are its media line's |
| SdpParse.SplitSessionBlock | bridge/client/webrtc.js:782 | the session block is the lines before the first media line |
| SdpParse.FallbackReadsSessionLast | bridge/client/webrtc.js:747-750 | a match with a fallback text finds the first match in the media block, then in the session block |
| SdpParse.Header | bridge/client/webrtc.js:783-806 | the session record built from the session block starts with no media descriptions |
| SdpParse.AudioChannels | bridge/client/webrtc.js:844 | an audio channel count is at least one |
| SdpParse.PayloadOf | bridge/client/webrtc.js:837-872 | the payload of a format keeps its type and any channel count is at least one |
| SdpParse.PayloadsOf | bridge/client/webrtc.js:836-873 | one payload per format, in the format list's order |
| SdpParse.SourcesOf | bridge/client/webrtc.js:893-902 | ssrcs and a cname are both present or both absent |
| SdpParse.SsrcValues | bridge/client/webrtc.js:898 | one ssrc per cname line, each the number of its digits |
| SdpParse.Accepted | bridge/client/webrtc.js:942-968 | no more candidates than candidate lines |
| SdpParse.MediaOfAll | bridge/client/webrtc.js:808-999 | one media description per block |
| SdpParse.ParseCountsMediaLines | bridge/client/webrtc.js:781-808 | a parsed description has one media description per media line of the text |
| SdpParse.PayloadsFollowFormats | bridge/client/webrtc.js:831-836 | an RTP line's payloads follow its format list one for one; any other protocol has none |
| SdpParse.StaticPayloadTypes | bridge/client/webrtc.js:855-859 | without an rtpmap line, types 0 and 8 are PCMU and PCMA at 8000 Hz with one channel, and any other type has no name |
| SdpParse.AcceptedMembers | bridge/client/webrtc.js:942-968 | the candidates kept are exactly those `Accept` builds from the candidate lines |
| SdpParse.FoundMembers | bridge/client/webrtc.js:747-750 | a global match finds exactly what its lines yield |
| SdpParse.TcpCandidateRule | bridge/client/webrtc.js:957-966 | every kept TCP candidate has a role; a role-less TCP line on port 0 or 9 is kept as active on port 9; no UDP line is dropped |
| SdpParse.CandidateLineReadBack | bridge/client/webrtc.js:935-969 | a block with one candidate line the generator wrote reads back exactly that candidate |
| SdpParse.SourcesFollowCnameLines | bridge/client/webrtc.js:893-902 | the ssrcs are the numbers of the cname lines in order and the name is the first line's; no line gives neither |
| SdpParse.HeaderReadBack | bridge/client/webrtc.js:783-804 | the four session lines, as `SdpSession.SessionRender` shows the `sdp` template writes them, read back as the same version, originator, name and times |
| SdpReader.Parse | bridge/client/webrtc.js:778-1002 | SDP.parse computes the parse specification of its text |
| SdpReader.ReadBlocks | bridge/client/webrtc.js:808-999 | the loop over the blocks yields their media descriptions in order |
| SdpReader.ReadMedia | bridge/client/webrtc.js:809-998 | one turn of that loop builds the block's media description |
| SdpReader.ReadPayloads | bridge/client/webrtc.js:836-873 | the loop over the formats yields their payloads |
| SdpReader.ReadPayload | bridge/client/webrtc.js:837-872 | one turn builds the format's payload |
| SdpReader.ReadParams | bridge/client/webrtc.js:862-871 | the replace callback builds the parameter map the parse specification gives |
| SdpReader.ReadSources | bridge/client/webrtc.js:893-902 | the cname lines give the ssrcs and cname of the specification |
| SdpReader.ReadCnameLines | bridge/client/webrtc.js:896-901 | every ssrc pushed in order and the first line's name kept |
| SdpReader.ReadIce | bridge/client/webrtc.js:912-969 | the ICE fields read are the specification's |
| SdpReader.ReadCandidates | bridge/client/webrtc.js:942-968 | the candidates pushed are those `Accept` keeps, in order |
| SdpGenerate.PayloadsEach | bridge/client/webrtc.js:1053-1081 | each of the six line groups the payload loop builds is its line written once per payload, in order |
| SdpGenerate.PayloadsFmt | bridge/client/webrtc.js:1053-1057 | the format list the payload loop builds is the corrected fold of the payload types (see Findings), which lists every type in order |
| SdpGenerate.PayloadsFmtAsWritten | bridge/client/webrtc.js:1053-1057 | when the first payload type is a number other than 0, the loop's format list is also the fold as the code writes it, and it is truthy |
| SdpGenerate.StreamIdsDistinct | bridge/client/webrtc.js:1026-1031 | the msid-semantic stream list holds no id twice |
| SdpGenerate.StreamIdsMembers | bridge/client/webrtc.js:1027-1031 | an id is listed exactly when some description carries it together with a track id |
| SdpGenerate.Generate | bridge/client/webrtc.js:1004-1160 | SDP.generate writes the session block, then each media block; `SdpRoundTrip.GenerateParse` proves that SDP.parse reads this text back |
| SdpGenerate.GenerateBlocks | bridge/client/webrtc.js:1038-1157 | the loop over the descriptions writes their blocks one after the other, in order; each block is its lines (`SdpText.BlockText`) and reads back (`BlockRead.MediaReadBack`) |
| SdpGenerate.GenerateSessionBlock | bridge/client/webrtc.js:1006-1036 | the session lines with their defaults and the msid-semantic line, as `SdpSession.SessionBlockText` states line by line and `SdpRoundTrip.ReadSessionLines` reads back |
| SdpGenerate.CollectStreamIds | bridge/client/webrtc.js:1025-1031 | the loop gathers the specification's stream list |
| SdpGenerate.GenerateBlock | bridge/client/webrtc.js:1039-1156 | one description's block, every stage filled in template order; `SdpText.BlockText` gives its lines and `BlockRead.MediaReadBack` reads them back |
| SdpGenerate.MediaBlockSteps | bridge/client/webrtc.js:1038-1155 | a description's block is the `mblock` template filled seven times, in the order the generator fills it: the description itself, then the payload, rtcp, source, ICE, DTLS and SCTP objects |
| SdpText.SevenFills | bridge/client/webrtc.js:761-776 | seven fills of a template whose keys each name one slot, with objects whose values hold no `$` and no line terminator, render the template once with the objects joined, an earlier object's entry for a key winning |
| SdpText.BlockFills | bridge/client/webrtc.js:1038-1155 | for a description the parser can read back, the block the seven fills write is one rendering of the `mblock` template with the seven stage objects in fill order |
| SdpText.BlockInfoForm | bridge/client/webrtc.js:1038-1155 | each stage object gives its placeholders their lines: the payload groups, the rtcp line, the cname and msid lines, the ICE, DTLS and SCTP lines, each empty when the description lacks that part |
| SdpText.FormsRender | bridge/client/webrtc.js:696-716 | rendering the `mblock` template with those objects gives the media line, the connection line, the rtcp and mux lines, the mode line and the attribute lines in template order, each ended by CR LF |
| SdpText.BlockText | bridge/client/webrtc.js:1038-1157 | the text SDP.generate writes for such a description is exactly its block lines, in template order, each ended by CR LF |
| SdpLines.PayloadStageForm | bridge/client/webrtc.js:1051-1082 | each of the six text groups the payload loop accumulates is one line per payload, ended by CR LF: the rtpmap line, the fmtp line when there are parameters, and each feedback line whose flag is set |
| SdpLines.RtcpStageForm | bridge/client/webrtc.js:1084-1097 | the rtcp stage object holds the rtcp line when there is a port and the mux line when mux is set, each ended by CR LF, and empty text otherwise |
| SdpLines.CnameLinesCrlf | bridge/client/webrtc.js:1106-1109 | the ssrc loop writes one cname line per ssrc, in order |
| SdpLines.MsidLinesCrlf | bridge/client/webrtc.js:1106-1111 | with stream and track ids, the ssrc loop writes one msid line per ssrc, in order |
| SdpLines.SrcStageForm | bridge/client/webrtc.js:1099-1116 | the source stage object holds the cname lines and the msid lines as line groups |
| SdpLines.IceStageForm | bridge/client/webrtc.js:1118-1135 | the ICE stage object holds the two credential lines, the trickle line when trickle is set and one candidate line per candidate, all empty without ICE |
| SdpLines.DtlsStageForm | bridge/client/webrtc.js:1137-1146 | the DTLS stage object holds the fingerprint line when there is a fingerprint and the setup line, defaulted to actpass, all empty without DTLS |
| SdpLines.SctpStageForm | bridge/client/webrtc.js:1148-1154 | the SCTP stage object holds the sctpmap line and the port as the format list, or empty text without SCTP |
| SdpSession.SessionRender | bridge/client/webrtc.js:1006-1022 | filling the `sdp` template with the session and its originator after their defaults gives the version, originator, name and timing lines, each ended by CR LF, then the msid-semantic slot's text |
| SdpSession.SemanticFill | bridge/client/webrtc.js:1032-1033 | filling the msid-semantic template with the joined stream ids gives that one line, ended by CR LF and holding no `$` |
| SdpSession.SemanticLineText | bridge/client/webrtc.js:1024-1035 | the msid-semantic text is one line listing the stream ids when some description carries a stream and a track id, and empty otherwise |
| SdpSession.SessionBlockText | bridge/client/webrtc.js:1004-1036 | the session text SDP.generate writes before the first media block is its four session lines and the optional msid-semantic line, each ended by CR LF |
| BlockTags.KeepRest | bridge/client/webrtc.js:746-749 | keeping only the lines of given attribute kinds from a written block gives exactly those kinds' line groups, so a pattern that reads one kind sees only the lines the generator wrote for it |
| BlockRead.BlockFirstOr | bridge/client/webrtc.js:746-749 | in a written block followed by lines no reader takes, and with a session block no reader takes, a pattern finds the first line of the kinds it reads |
| BlockRead.ConnRead | bridge/client/webrtc.js:821-826 | the connection line of a written block reads back as its address type and address after their defaults |
| BlockRead.ModeRead | bridge/client/webrtc.js:827-829 | the mode line reads back as the written mode, sendrecv by default |
| BlockRead.RtcpRead | bridge/client/webrtc.js:875-891 | the rtcp and mux lines read back as the rtcp record in normal form: the port, the address only when one was written, and mux |
| BlockRead.SourcesRead | bridge/client/webrtc.js:893-902 | the cname lines read back as the ssrcs in order and the cname, when both were written |
| BlockRead.IdsRead | bridge/client/webrtc.js:904-910 | when the session block has an msid-semantic line, the msid lines read back as the stream and track ids |
| BlockRead.CandidatesFound | bridge/client/webrtc.js:935-968 | the candidate lines written for well-formed candidates read back as the same candidates, in order |
| BlockRead.IceRead | bridge/client/webrtc.js:912-969 | the ICE lines read back as the ICE record in normal form: credentials, trickle and candidates |
| BlockRead.DtlsRead | bridge/client/webrtc.js:971-983 | the fingerprint and setup lines read back as the DTLS record in normal form |
| BlockRead.SctpRead | bridge/client/webrtc.js:985-996 | on a data line, the sctpmap line for the port reads back as the SCTP association |
| BlockRead.PayloadRead | bridge/client/webrtc.js:837-872 | each written payload reads back from its rtpmap, fmtp and feedback lines, found by its type among the other payloads' lines |
| BlockRead.PayloadsRead | bridge/client/webrtc.js:831-873 | the payloads read back in the order of the format list, each in normal form |
| BlockRead.FeedbackKinds | bridge/client/webrtc.js:1073-1080 | a feedback line of a kind is present for a payload exactly when that payload's flag of that kind is set |
| BlockRead.FormatsRead | bridge/client/webrtc.js:814-818 | the format list written on the media line splits back into the payload types, or the SCTP port |
| BlockRead.HeadRead | bridge/client/webrtc.js:661 | the written media line matches the media-line pattern with the kind, port, protocol and format list written |
| BlockRead.MediaReadBack | bridge/client/webrtc.js:809-998 | a block the generator wrote for a writable description, with lines no reader takes after it, parses back as the description in normal form |
| SdpRoundTrip.GenerateLines | bridge/client/webrtc.js:1004-1160 | the generated text, cut at its line ends, is the session lines followed by each description's block lines, every line ended by CR LF, and a final empty line |
| SdpRoundTrip.SplitGroups | bridge/client/webrtc.js:781 | splitting a run of blocks, each headed by its media line, yields one block per description, with its head captures and its lines |
| SdpRoundTrip.SplitGenerated | bridge/client/webrtc.js:781-782 | the split of a generated text: the session block holds the session lines, and there is one block per description, in order |
| SdpRoundTrip.SessionGroups | bridge/client/webrtc.js:805 | the session block of a generated text has an msid-semantic line exactly when some description carries stream and track ids |
| SdpRoundTrip.SessionForeign | bridge/client/webrtc.js:746-749 | no media-level pattern matches a generated session line, so the fallback to the session block finds nothing |
| SdpRoundTrip.ReadSessionLines | bridge/client/webrtc.js:783-806 | the session lines the generator writes read back as the session fields after the generator's defaults |
| SdpRoundTrip.ReadGroupBlock | bridge/client/webrtc.js:809-998 | a block split from a generated text parses back as its description in normal form |
| SdpRoundTrip.ReadBlocks | bridge/client/webrtc.js:808-999 | the blocks split from a generated text parse back as the descriptions in normal form, in order |
| SdpRoundTrip.ParseSplit | bridge/client/webrtc.js:778-1001 | a text that splits as a generated text does parses as the session in normal form |
| SdpRoundTrip.GenerateParse | bridge/client/webrtc.js:1004-1160 | SDP.parse reads back what SDP.generate writes for a writable session: the session fields after the generator's defaults, and every description in normal form, in order |
| SdpGenerate.PayloadLines | bridge/client/webrtc.js:1051-1082 | the payload loop yields the six line groups and the corrected format list (see Findings) |
| SdpGenerate.PayloadTurn | bridge/client/webrtc.js:1054-1080 | one turn of that loop appends one payload's lines and takes one corrected step of the format list |
| SdpGenerate.FeedbackLines | bridge/client/webrtc.js:1073-1080 | a feedback line is written exactly when its flag is set |
| SdpGenerate.JoinParams | bridge/client/webrtc.js:1063-1070 | the parameter loop joins the `key=value` pairs with semicolons, keys in dash case |
| SdpGenerate.ParamsTextNonEmpty | bridge/client/webrtc.js:1067-1069 | a non-empty parameter list gives a non-empty text |
| SdpGenerate.SourceLines | bridge/client/webrtc.js:1099-1116 | the cname and msid lines of a description as the specification gives them |
| SdpGenerate.WriteSources | bridge/client/webrtc.js:1106-1111 | the ssrc loop writes a cname line per ssrc and, when the description has stream ids, an msid line per ssrc |
| SdpGenerate.IceLines | bridge/client/webrtc.js:1118-1135 | the credentials, the trickle line and the candidate lines, all empty for a description without ICE |
| SdpGenerate.WriteCandidates | bridge/client/webrtc.js:1125-1132 | one candidate line per candidate, in order |
| SdpGenerate.WriteCredentials | bridge/client/webrtc.js:1120-1121 | the credentials template filled from the ICE object |
| SdpGenerate.WriteCandidate | bridge/client/webrtc.js:1126-1131 | one candidate's line, after the null defaults |
| PayloadFilter.Filter | bridge/client/webrtc.js:2049 | a filter never lengthens its list |
| PayloadFilter.FilterIsSubsequence | bridge/client/webrtc.js:2049-2060 | a filter keeps elements in their order and invents none |
| PayloadFilter.FilterMembers | bridge/client/webrtc.js:2049-2060 | a filter keeps exactly the elements that pass its test |
| PayloadFilter.Param | bridge/client/webrtc.js:2054 | a parameter is found exactly when some entry has its key |
| PayloadFilter.DefaultNamed | bridge/client/webrtc.js:2050-2052 | the default codec found has the name sought; none found means no default has it |
| PayloadFilter.FilterPayloads | bridge/client/webrtc.js:2049-2051 | the filter throws exactly when some remote payload has no encoding name |
| PayloadFilter.FilterPayloadsSubsequence | bridge/client/webrtc.js:2049-2060 | the filtered list is an order-preserving subsequence of the remote list |
| PayloadFilter.FilterPayloadsKeeps | bridge/client/webrtc.js:2049-2060 | a payload is kept exactly when a default codec of its kind has its name and agrees on packetization mode, and its `apt`, if any, names a payload that passed the first test |
| PayloadFilter.H264NeedsPacketizationMode | bridge/client/webrtc.js:1219-1221 | any H.264 payload, its name in any case, with parameters but no packetization mode is refused, whatever its other parameters, since the default declares mode 1 |
| Signaling.Transition | bridge/client/webrtc.js:1197-1210 | an offer is accepted in stable and in the state already holding an offer from the same side, and leads there; an answer only when the other side has an offer outstanding, and leads to stable; any other type has no entry |
| Signaling.OfferAnswerExchange | bridge/client/webrtc.js:1197-1210 | an offer from either side followed by the other side's answer returns stable to stable |
| Signaling.RunKeepsClosed | bridge/client/webrtc.js:1951-1952 | no sequence of descriptions leads into or out of the closed state |
| Signaling.GlareRefused | bridge/client/webrtc.js:1202-1209 | with one side's offer outstanding, an offer from the other side is refused and the state is unchanged |
| DataChannel.ValidateChannel | bridge/client/webrtc.js:2216-2241 | the settings are refused, with a SyntaxError, exactly when a negotiated channel's id is outside 0 to 65534 or both retransmission limits are set; otherwise a negotiated channel keeps its id and a non-negotiated one gets 65535, with the documented defaults |
| Reconcile.FirstIndex | bridge/client/webrtc.js:2384-2390 | the index of the first element that passes, or -1 when none does |
| Reconcile.IndexOf | bridge/client/webrtc.js:2384-2390 | the loop returns that first index |
| Reconcile.Remove | bridge/client/webrtc.js:1684 | `splice(i, 1)` shortens the list by one |
| Reconcile.Pass | bridge/client/webrtc.js:1680-1689 | a `forEach` over the lines keeps their number |
| Reconcile.UpdateMediaDescriptionsWithTracks | bridge/client/webrtc.js:1679-1704 | the two passes give the reconciled lines and the tracks left over |
| Reconcile.RunPass | bridge/client/webrtc.js:1680-1703 | one pass as a loop over the lines gives the pass specification |
| Reconcile.KeepTurn | bridge/client/webrtc.js:1681-1688 | one line of the first pass: its track taken from the list when present, its stream and track ids cleared otherwise |
| Reconcile.BindTurn | bridge/client/webrtc.js:1692-1702 | one line of the second pass: a bound line untouched, an unbound line given the first track of its kind as sendrecv, or recvonly |
| Reconcile.ReconciledKeepsLines | bridge/client/webrtc.js:1679-1704 | reconciliation keeps the number and order of the lines and changes nothing but stream id, track id and direction |
| Reconcile.KeepConserves | bridge/client/webrtc.js:1680-1689 | the ids the lines keep and the ids left after the first pass are the track ids, each as often |
| Reconcile.BindConserves | bridge/client/webrtc.js:1691-1703 | the second pass moves tracks from the list to the lines without losing or duplicating any |
| Reconcile.ReconciledBindsOnce | bridge/client/webrtc.js:1679-1704 | the ids the lines carry and the leftover ids together are the track ids, each once |
| Reconcile.ReconciledDistinct | bridge/client/webrtc.js:1679-1704 | with distinct track ids, no track is bound to two lines |
| Reconcile.PassAppend | bridge/client/webrtc.js:1680-1689 | a pass over two runs of lines is a pass over the first, then over the second with the tracks left |
| Reconcile.PassShrinks | bridge/client/webrtc.js:1684 | a pass only ever takes tracks out of the list |
| Reconcile.ReconciledKeepsPresentTracks | bridge/client/webrtc.js:1681-1688 | a line whose track is still local comes out unchanged; a line whose track is gone loses it |
| Reconcile.BindTakesFromTracks | bridge/client/webrtc.js:1695-1698 | a line the second pass binds gets one of the tracks it was given |
| Reconcile.ReconciledUnboundLines | bridge/client/webrtc.js:1691-1703 | a line left without a track is recvonly and no track of its kind is left over; a line given a new track is sendrecv |
| LocalParams.LeastFresh | bridge/client/webrtc.js:1902-1904 | when some draw avoids the remote ssrcs, there is a first such draw |
| LocalParams.FirstFreshAt | bridge/client/webrtc.js:1902-1904 | the number of the first draw outside the remote ssrcs, with every earlier draw inside |
| LocalParams.DrawFresh | bridge/client/webrtc.js:1902-1904 | the `do … while` loop returns that first draw, never a remote ssrc |
| Offer.SendLines | bridge/client/webrtc.js:1751-1768 | one sending line per leftover track |
| Offer.Receivers | bridge/client/webrtc.js:1771-1784 | as many receive-only lines as asked for |
| Offer.CreateOfferSnapshot | bridge/client/webrtc.js:1740-1806 | the offer's construction, rebinding the copied lines and pushing the new ones, gives the offer specification |
| Offer.AddSendLines | bridge/client/webrtc.js:1751-1768 | the loop over the leftover tracks appends their sending lines |
| Offer.AddDataLine | bridge/client/webrtc.js:1787-1806 | a data line is appended exactly when channels exist and no line is a data line |
| Offer.AddReceivers | bridge/client/webrtc.js:1770-1785 | the counting loop appends that many receive-only lines of the kind |
| Offer.OfferKeepsLines | bridge/client/webrtc.js:1744-1749 | the local description's lines stay in place and in order, changed only in their track binding and direction, and its session fields are kept |
| Offer.OfferLineCount | bridge/client/webrtc.js:1744-1806 | one line per old line and per leftover track, one per requested receiver, and one data line exactly when channels exist and the local description has none |
| Offer.ApplicationKept | bridge/client/webrtc.js:1787-1788 | the added lines are not data lines, so the copied lines decide whether a data line is missing |
| Offer.OfferBindsEveryTrack | bridge/client/webrtc.js:1747-1768 | every local track is bound to exactly one line of the offer |
| Offer.AddedShape | bridge/client/webrtc.js:1751-1785 | sending lines carry their tracks and trickle ICE credentials, receive-only lines no track, audio first, all with both DTLS roles |
| Offer.OfferParts | bridge/client/webrtc.js:1744-1806 | the offer is the reconciled lines, then the added lines, then perhaps the data line |
| Offer.OfferNewLinesActPass | bridge/client/webrtc.js:1762-1766 | every line the offer adds offers both DTLS roles with the local fingerprint |
| Offer.OfferAddedLines | bridge/client/webrtc.js:1751-1785 | at their place in the offer, the sending lines carry the leftover tracks in order with trickle ICE, then the receive-only lines, audio first |
| Offer.OfferCarriesData | bridge/client/webrtc.js:1787-1806 | with channels, the offer has a data line |
| Answer.RemoteIceOptions | bridge/client/webrtc.js:1862-1866 | the first loop fails exactly when a remote line has no ICE object, and otherwise reports trickle exactly when some remote line announces it |
| Answer.NewLine | bridge/client/webrtc.js:1871-1883 | a new line fails exactly when the remote line has no DTLS object; it takes the remote kind and fresh ICE credentials, and is passive exactly when the remote side is active, active otherwise |
| Answer.Answered | bridge/client/webrtc.js:1885-1910 | answering a line fails exactly when it has no DTLS object |
| Answer.Drop | bridge/client/webrtc.js:1868 | the local lines beyond the remote ones: their number |
| Answer.CreateAnswerSnapshot | bridge/client/webrtc.js:1859-1915 | the two loops over the remote lines, then the track binding, give the answer specification |
| Answer.AnswerEach | bridge/client/webrtc.js:1868-1911 | the second loop answers each remote line in turn and leaves the later local lines as they are |
| Answer.AnswerAt | bridge/client/webrtc.js:1869-1910 | one turn: the local line there or a new one, then answered |
| Answer.AnswerLinesEach | bridge/client/webrtc.js:1868-1911 | the answered prefix exists exactly when every line of it does, and holds those lines in order |
| Answer.AnswerLineFacts | bridge/client/webrtc.js:1869-1910 | one answered line fails exactly when its starting line has no DTLS object; otherwise it keeps that line's kind, never offers both roles, and takes the remote codecs, multiplexing and a fresh SSRC, or the remote stream count |
| Answer.AnswerFails | bridge/client/webrtc.js:1862-1911 | the answer fails exactly when a remote line has no ICE object or a line the loop answers has no DTLS object |
| Answer.AnswerPositional | bridge/client/webrtc.js:1868-1915 | as many lines as the longer description, each of the kind of the local line there or else of the remote line, later local lines changed only in their track binding |
| Answer.AnswerMatchesRemote | bridge/client/webrtc.js:1868-1911 | at every remote position the DTLS role is settled, a new line is passive exactly when the remote is active, media lines carry the remote codecs, multiplexing, the CNAME and an SSRC outside the remote list, a data line the remote stream count |
| Negotiation.NormalizeIce | bridge/client/webrtc.js:2033-2039 | a remote line leaves the first loop with an ICE object |
| Negotiation.NormalizeRemote | bridge/client/webrtc.js:2026-2042 | the first loop gives every line an ICE object and reports whether any announces trickle ICE |
| Negotiation.FilterLine | bridge/client/webrtc.js:2045-2060 | the filter of one line throws exactly when it is an audio or video line with a payload without a name (or no payloads); otherwise only its payloads change, to what both passes keep |
| Negotiation.FilterRemoteLines | bridge/client/webrtc.js:2045-2067 | the second loop over the remote lines gives the filter specification |
| Negotiation.WithPrefix | bridge/client/webrtc.js:2123-2125 | the attribute starts with `a=` afterwards, unchanged when it did, prefixed otherwise |
| Negotiation.FirstCandidate | bridge/client/webrtc.js:2126-2128 | reading the probe throws exactly when it has no line, and a candidate found is the first of the first line's list |
| Negotiation.RunOperation | bridge/client/webrtc.js:1737-2157 | the operation's turn, with the loops the source runs, gives the turn specification |
| Negotiation.CreateOffer | bridge/client/webrtc.js:1737-1816 | `queuedCreateOffer` gives the offer step |
| Negotiation.CreateAnswer | bridge/client/webrtc.js:1849-1923 | `queuedCreateAnswer` gives the answer step |
| Negotiation.SetLocal | bridge/client/webrtc.js:1950-1984 | `queuedSetLocalDescription` gives the set-local step on the parsed description |
| Negotiation.SetRemote | bridge/client/webrtc.js:2011-2078 | `queuedSetRemoteDescription` gives the set-remote step on the parsed description |
| Negotiation.ReadCandidate | bridge/client/webrtc.js:2123-2128 | the candidate read is the first candidate of the parsed probe |
| Negotiation.AddIceCandidate | bridge/client/webrtc.js:2111-2157 | `queuedAddIceCandidate` gives the add-candidate step on what the probe yields |
| Negotiation.AddFound | bridge/client/webrtc.js:2130-2155 | the turn once the attribute has been read gives the same step |
| NegotiationProps.SetLocalRules | bridge/client/webrtc.js:1950-1984 | closed stalls; rejected exactly when the table refuses, leaving everything; accepted moves the state as the table says and stores the description, nothing else changing |
| NegotiationProps.FilterLinesShape | bridge/client/webrtc.js:2045-2067 | the second loop keeps every line in place; lines before the first that throws are filtered, and it succeeds exactly when none throws |
| NegotiationProps.FilteredLine | bridge/client/webrtc.js:2049-2060 | a filtered line differs only in its payloads, an order-keeping subsequence the filter keeps |
| NegotiationProps.TrickleIgnoresPayloads | bridge/client/webrtc.js:2040-2041 | whether a line announces trickle ICE does not depend on its payloads |
| NegotiationProps.SetRemoteRules | bridge/client/webrtc.js:2011-2078 | closed stalls; rejected exactly when the table refuses, leaving everything; an accepted description is stored even when the filter then throws, and the turn then stalls with the state unchanged |
| NegotiationProps.StoredLines | bridge/client/webrtc.js:2026-2067 | the lines are kept in order, each with ICE, media payloads filtered to an order-keeping subsequence, trickle announced after exactly when before |
| NegotiationProps.RemoteDescriptionStored | bridge/client/webrtc.js:2023-2076 | an accepted remote description keeps the parsed session and lines, filtered, and sets the trickle flag from the stored lines |
| NegotiationProps.AddCandidateRules | bridge/client/webrtc.js:2111-2157 | the errors in the order met (no remote description, no candidate, no line at the index), and on success one candidate appended to that line, all else unchanged |
| NegotiationProps.CandidateFromProbe | bridge/client/webrtc.js:2126-2128 | the candidate read is the first candidate of the probe's first line |
| NegotiationProps.WrittenRules | bridge/client/webrtc.js:1810-1815 | writing a description changes no state; it stalls exactly when there is nothing to write and otherwise resolves with the generated text of the asked type |
| NegotiationProps.OfferReadsOnly | bridge/client/webrtc.js:1737-1816 | creating an offer changes no state and always resolves with an offer |
| NegotiationProps.AnswerReadsOnly | bridge/client/webrtc.js:1849-1857 | creating an answer changes no state, and is rejected with InvalidStateError exactly when there is no remote description |
| NegotiationProps.AnswerWritten | bridge/client/webrtc.js:1859-1922 | with a remote description, the answer stalls exactly when a line cannot be written, and otherwise resolves with an answer |
| Gathering.NewIce | bridge/client/webrtc.js:2424-2429 | the ICE object made for a line without one holds the credentials and nothing else |
| Gathering.AddLocalCandidateRules | bridge/client/webrtc.js:2422-2446 | one candidate appended, gathering flag and credentials kept, only the address, port and RTCP object touched, as the address family and component say |
| Gathering.AllGatheredMeans | bridge/client/webrtc.js:2410-2417 | done exactly when every line has finished gathering; the read throws exactly when a line without ICE comes before any still gathering |
| Gathering.IsAllGatheringDone | bridge/client/webrtc.js:2410-2417 | the loop gives that answer |
| Gathering.MarkGatheringDone | bridge/client/webrtc.js:2452-2454 | the flag set and nothing else changed; throws exactly when the line has no ICE object |
| Gathering.MarkingFinishes | bridge/client/webrtc.js:2452-2455 | marking a line finishes gathering exactly when every other line had finished |
| Renegotiation.FirstUnsent | bridge/client/webrtc.js:2318-2323 | the loop's stopping index is at most the number of tracks |
| Renegotiation.MediaNeededMeans | bridge/client/webrtc.js:2317-2324 | media needs negotiating exactly when some track's id is on no line |
| Renegotiation.FindUnsentTrack | bridge/client/webrtc.js:2318-2323 | the loop gives the first track no line sends |
| Renegotiation.NeedsNegotiation | bridge/client/webrtc.js:2312-2327 | the test gives the negotiation-needed specification |
| PeerConnections.PeerConnection.constructor | bridge/client/webrtc.js:1642-1651 | a new connection is stable with no descriptions, an empty queue, no data channels, no timer and no events |
| PeerConnections.PeerConnection.Enqueue | bridge/client/webrtc.js:1653-1658 | refused with InvalidStateError when closed; otherwise appended to the queue, the flag set from this last operation |
| PeerConnections.PeerConnection.Turn | bridge/client/webrtc.js:1737-2157 | the head operation's turn gives the turn specification on the shared state |
| PeerConnections.PeerConnection.Complete | bridge/client/webrtc.js:1660-1677 | the new state stored; an operation that threw halts the queue; otherwise the head removed, its promise settled and, once the queue empties after a state change, negotiation checked |
| PeerConnections.PeerConnection.MaybeDispatchNegotiationNeeded | bridge/client/webrtc.js:2307-2334 | afterwards the timer is armed exactly when it already was or when nothing is queued, the state is stable and data channels lack a data line or a track is on no line |
| PeerConnections.PeerConnection.FireNegotiationNeededTimer | bridge/client/webrtc.js:2329-2333 | the timer is cleared and `negotiationneeded` dispatched only if the state is still stable |
| PeerConnections.PeerConnection.MaybeDispatchGatheringDone | bridge/client/webrtc.js:2336-2341 | the end of candidates is dispatched exactly when every local line has finished gathering |
| PeerConnections.PeerConnection.GotIceCandidate | bridge/client/webrtc.js:2422-2450 | the candidate added to its line, dispatched, then the end of candidates when gathering is over; with no local description or no line at the index, nothing changes |
| PeerConnections.PeerConnection.CandidateGatheringDone | bridge/client/webrtc.js:2452-2456 | the line's flag set and the end of candidates dispatched when all are done; nothing changes when there is no local description, no line at the index, or no ICE object on the line |
| PeerConnections.PeerConnection.CreateDataChannel | bridge/client/webrtc.js:2201-2248 | InvalidStateError when closed, else the validation's result; the first valid channel marks data channels and checks negotiation |
| PeerConnections.PeerConnection.Close | bridge/client/webrtc.js:2251-2256 | the state becomes closed |

## Left out

- I/O and timers: the `setTimeout` deferrals, the 2000 ms delay between queued operations and the `whenPeerHandler` waits are not modelled. Each queued operation runs as one turn (`Turn` then `Complete`), in queue order.
- The engine (`peerHandler`, `dtlsGen`, the message channel to the bridge) is not part of this model. Its calls `prepareToReceive`, `prepareToSend` and `addRemoteCandidate` are left out. Its callbacks `gotIceCandidate` and `candidateGatheringDone` are methods of the connection. `gotRemoteSource`, `remoteSourceStatus` and the `source` of remote lines are left out.
- `addStream` and `removeStream` are left out: the local tracks are fixed when the connection is constructed.
- `getLocalDescription`, `getRemoteDescription` and `lastSet*DescriptionType` are not modelled. The stored sessions are.
- Argument checks (`checkArguments`, `checkDictionary`, `getArgumentsError`) and the callback-style overloads are left out. Their `TypeError`s concern JavaScript types that the model's typed parameters already rule out.
- Offer closure: in the source, `queuedCreateOffer` builds the snapshot inside a `setTimeout` callback, while `completeQueuedOperation` reads the snapshot outside that callback. The model builds the snapshot and resolves with it directly; the source's scoping breakage is not modelled.
- Offer options: an `offerToReceive*` value is modelled as a whole number, with a boolean counting as 0 or 1. Fractional counts are not modelled.
- Track kinds: every local track is assumed to be audio or video (`Offer.AvTracks`).
- `dispatchIceCandidate`: the event records the candidate and its line index. The attribute string the source formats from them is left out.
- Randomness: `randomString`, `randomNumber` and the clock-based session id are parameters. `Answer.FreshSource` and `Negotiation.CanDraw` assume that the draws eventually give an SSRC outside the remote list, which the `do … while` loop needs in order to terminate. Otherwise the draws are unconstrained.
- SdpRoundTrip.GenerateParse: the round trip holds for a session the patterns can read back (`SdpRoundTrip.SessionWritable`): originator fields and every description field inside the characters their patterns read, no preset format list, an RTP line with at least one payload and no two of one type, or a data line with an SCTP port. Outside these the parser reads less or other than was written (a `$` in a value, for instance, is taken as a template placeholder by a later fill). The result is the normal form (`SdpRoundTrip.NormalSession`, `BlockRead.NormalMedia`): every default the generator applies becomes a value, and the parser's own normalisations apply (an rtcp address only when one is written, a fingerprint in upper case, no empty candidate list, an audio channel count of at least one, feedback flags on video lines only, and no msid line for a description with a cname but no ssrcs). The format list is written with the corrected fold; with the fold as written, a first payload type 0 followed by others is missing from the media line, and so is its payload in the parse.
- SdpGenerate.AddPayload, SdpGenerate.PayloadTurn, SdpGenerate.PayloadsFmt, SdpGenerate.PayloadLines: the format list of the media line is accumulated with the corrected step (`MediaFormats.Step`), as the Findings table records. The code as written is `MediaFormats.StepAsWritten`. The two agree whenever the first payload type is a number other than 0 (`SdpGenerate.PayloadsFmtAsWritten`). A description whose first payload type is 0 followed by other types, which `createAnswer` can copy from a remote offer, is written here with all its types and by the source without the leading 0.
- Chars.Decimal, Chars.ParseIntDecimal, SdpParse.Integer: numbers are unbounded. JavaScript's `"" + n` writes a number of 10^21 or more in exponent form, and `parseInt` rounds a digit run above 2^53 to the nearest double. The round trips built on these members (version, originator, timing, media line, rtpmap, rtcp, ssrc, sctpmap and candidate numbers) hold here for every whole number, and in the source only for numbers below 2^53.
- RtpAttrs.Put, RtpAttrs.ParamsRoundTrip, SdpGenerate.JoinParams: fmtp parameters are kept in insertion order. A JavaScript object lists integer-like keys first, in ascending order, and `for … in` follows that order. An assignment to the key `__proto__` sets the object's prototype instead of adding a key. Neither is modelled, so for such keys the source writes the parameters in a different order, or drops one.
- Data-channel numbers are whole numbers: `ChannelInit` does not model fractional or NaN `id` and limit values.
- Case mapping is ASCII only: `toUpperCase` and `toLowerCase` map only the letters a to z and A to Z.
- RtpAttrs.ParamValueOf, RtpAttrs.ValueRoundTrip, RtpAttrs.ParamsRoundTrip: an fmtp value becomes a number only when it is a run of decimal digits. The parameter pattern `[\w\-]+` also admits values that JavaScript's `+value` reads as numbers, such as `0x1f`, `1e3`, `-5` and `Infinity`; they are kept as text here, so the parameter round trips (and `SdpRoundTrip.GenerateParse`) hold for such texts only under this reading.
- PeerConnections.PeerConnection.GotIceCandidate, PeerConnections.PeerConnection.CandidateGatheringDone: where the source throws a `TypeError` back to the engine before changing anything (no local description, no line at the index, and for `candidateGatheringDone` a line without an ICE object), the model returns with the state unchanged. The exception itself, which reaches the engine and not the page, is not modelled.
- Negotiation.FirstCandidate: the `Some(None)` case, a probe with no media line, cannot arise from the probe text `addIceCandidate` builds. The model keeps the case because the parse function is total.
- Answer.NewLine: a new answer line's DTLS role follows the code: passive when the remote side is active, and active otherwise (including actpass).
- PeerConnections.PeerConnection.Turn and PeerConnections.PeerConnection.Complete split one queued operation in two: the step that computes the new state and outcome, and the bookkeeping of `completeQueuedOperation`. A stalled operation, one whose callback throws a `TypeError`, halts the queue.

## Findings

| source | as written | input that shows it | evidently intended | confidence | as-written member | corrected member |
|---|---|---|---|---|---|---|
| bridge/client/webrtc.js:1053-1057 | the format list of the `m=` line is accumulated with `if (payloadInfo.fmt)`, so a first payload type 0 (PCMU) leaves the accumulator falsy and the next type replaces it | payload types `[0, 8]` write the format list `8` | `0 8`, every payload type in order | not executed | MediaFormats.AsWrittenDropsLeadingZero | MediaFormats.FmtRoundTrip |
