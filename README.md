# FlashStream dispatcher of librtmfp, modelled in Dafny

`FlashStream` is the per-stream message dispatcher of librtmfp. One instance
exists per numbered NetStream of an RTMFP session. Each framed packet it is
given starts with a one-byte message type tag and a big-endian 32-bit
timestamp. The stream sends the rest of the packet to the audio, video,
data, invocation or raw handler. It answers `true` to keep the writer open
and `false` to ask the caller to close it. The object's only mutable state
is its buffer time and the name of the stream it last agreed to play.

The model has five modules:

- `Wire` (`wire.dfy`): bytes as `seq<bv8>`, the 16- and 32-bit big-endian
  reads, and the message type tags. The tags are the RTMP message type ids
  of section 7.1 of the Adobe RTMP Specification 1.0: RAW 0x04 (user control
  message), AUDIO 0x08, VIDEO 0x09, DATA_AMF3 0x0F, INVOCATION_AMF3 0x11,
  DATA 0x12, INVOCATION 0x14; EMPTY is 0x00. `include/AMF.h`, which defines
  them, is not part of this model. This module also holds the header
  split, the RAW sub-code split, and the bytes an invocation's AMF reader is
  given.
- `Amf` (`amf.dfy`): the AMF payload as a sequence of decoded values
  (`Str | Num | Bool | Null | Obj | Other`, with an object decoded into a
  string map). `Codec.decode` stands for the AMF reader. The module also
  holds the function name and parameter list the data handler builds.
- `Dispatcher` (`dispatch.dfy`): the pure meaning of one dispatch. It
  takes the stream name before the call and gives the answer, the stream
  name after the call and the events published on the Status, Media and
  Play channels.
- `DispatchProperties` (`dispatch_properties.dfy`): one lemma per path
  through the type switch, and lemmas that relate several dispatches.
- `Stream` (`stream.dfy`): the class `FlashStream`. It has the `const` field
  `id`, the mutable fields `bufferTime` and `streamName`, and a ghost log of
  published events. Its methods mirror the C++ members. Each dispatch
  method is proved to do exactly what `Dispatcher` says; `DataHandler` is
  proved against `Amf.DataCall`, and the buffer-time setter and the
  constructor against their own contracts. Each dispatch method may
  modify only `streamName` and the event log, so no dispatch touches the
  buffer time or the id.

The Status and Play subscribers are function parameters (`Handlers`) that
return the `bool` the stream uses. Media subscribers return nothing, so a
Media event is only recorded in the log.

Two behaviours of the code are easy to misread; the model follows the
code:

- An EMPTY packet returns `false`: its `break` falls through to `return false`.
- An invocation named neither `onStatus` nor `play` returns `false`; it is
  not a logged success.

## Model

| member | source | states |
|---|---|---|
| `Wire.ReadU32` | sources/FlashStream.cpp:43 | the timestamp read from four bytes has each byte, most significant first, at its big-endian position |
| `Wire.ReadU16` | sources/FlashStream.cpp:77 | the RAW sub-code read from two bytes has the first byte as its high byte and the second as its low byte |
| `Wire.SplitHeader` | sources/FlashStream.cpp:38-44 | the tag, the timestamp and the payload put back together are exactly the packet, and the payload is the last `|packet| - 5` bytes |
| `Wire.HeaderRoundTrip` | sources/FlashStream.cpp:40-44 | splitting an encoded (tag, time) header followed by a payload gives back the same tag, time and payload |
| `Wire.WriteU32Inverse` | sources/FlashStream.cpp:43 | four bytes read as a timestamp and written back are the same four bytes |
| `Wire.SplitRaw` | sources/FlashStream.cpp:77 | the sub-code written back in front of the rest gives the payload: the code is the first two bytes, and the handler gets the payload minus those two |
| `Wire.RawRoundTrip` | sources/FlashStream.cpp:77 | any sub-code and rest, encoded and split, come back unchanged |
| `Wire.MarkerBit` | sources/FlashStream.cpp:68 | `type & 1` is at most 1; it is 1 for INVOCATION_AMF3 and 0 for INVOCATION, so one marker byte is skipped for the AMF3 variant only |
| `Wire.AmfSpanOverrunsEmptyPayload` | sources/FlashStream.cpp:68 | with an empty INVOCATION_AMF3 payload, the span the code gives the reader wraps to 2^32 - 1 (see Findings) |
| `Wire.InvocationBody` | sources/FlashStream.cpp:68 | the reader's bytes are the payload minus the skipped marker prefix; the skip is at most one byte and never more than the payload |
| `Wire.InvocationBodyAgreesWhenMarkerPresent` | sources/FlashStream.cpp:68 | whenever a marker byte is present (or none is skipped), the clamped body has exactly the length the code computes |
| `Amf.ParamListShape` | sources/FlashStream.cpp:151-166 | the parameter list is the string, number and boolean values joined by ", ", with one leading ", " exactly when the first value is skipped and a later one is shown, because `first` is cleared for skipped values too |
| `Amf.ParamListSkippedFirst` | sources/FlashStream.cpp:151-166 | a null followed by the string "a" yields ", a" |
| `Amf.DataCall` | sources/FlashStream.cpp:143-169 | a call is traced exactly when the first value is a string, and its name is that string |
| `Amf.DataCallParams` | sources/FlashStream.cpp:150-168 | the traced parameters are the values after the function name, shaped as `ParamListShape` states |
| `Amf.ParamListAfterFirst` | sources/FlashStream.cpp:151-166 | once the first value has been read, every shown value is preceded by ", " |
| `Amf.AppendPiece` | sources/FlashStream.cpp:151-166 | one turn of the loop: appending a value's piece to the list built so far keeps it a prefix of the full list |
| `Dispatcher.DataBody` | sources/FlashStream.cpp:57-60 | DATA_AMF3 hands over the payload without its first byte, DATA the payload unchanged |
| `DispatchProperties.MediaPublishesFrame` | sources/FlashStream.cpp:52-55 | AUDIO or VIDEO keeps the flow open, leaves the name unchanged and publishes exactly one Media event with the current name, the timestamp, the unchanged payload, the loss rate and the frame's tag |
| `DispatchProperties.EmptyOrUnknownTagCloses` | sources/FlashStream.cpp:62-83 | EMPTY and every unrecognised tag return false, publish nothing and change nothing |
| `DispatchProperties.DataKeepsFlowOpen` | sources/FlashStream.cpp:57-60 | DATA and DATA_AMF3 return true, publish nothing and change nothing |
| `DispatchProperties.DataAmf3SkipsMarker` | sources/FlashStream.cpp:57-60 | DATA_AMF3 on a marker byte followed by p has the same outcome and traces the same call as DATA on p |
| `DispatchProperties.InvocationAmf3SkipsMarker` | sources/FlashStream.cpp:65-73 | INVOCATION_AMF3 on a marker byte followed by p has the same outcome as INVOCATION on p: exactly one leading byte is dropped |
| `DispatchProperties.UnknownInvocationCloses` | sources/FlashStream.cpp:137-138 | an invocation named neither "onStatus" nor "play" returns false, publishes nothing and changes nothing |
| `DispatchProperties.OnStatusOutcome` | sources/FlashStream.cpp:95-124 | onStatus returns false without an event when the value is not an object, the level is empty or the level is unknown; for level "status" or "error" it publishes one Status event (code and description empty when absent, the stream id, the correlation number) and returns the Status handler's answer; the name never changes |
| `DispatchProperties.PlayOutcome` | sources/FlashStream.cpp:126-135 | play always returns true and publishes one Play event; the name becomes the requested one when the Play handler accepts, and stays unchanged when it refuses |
| `DispatchProperties.RawOutcome` | sources/FlashStream.cpp:76-77 | RAW returns true exactly when the big-endian code in the first two payload bytes is 0x0000, 0x0001, 0x001F, 0x0020 or 0x0022; it publishes nothing and changes nothing |
| `DispatchProperties.RawExamples` | sources/FlashStream.cpp:176-190 | stream-begin (0x0000) keeps the flow open; the unassigned code 0x00FF closes it |
| `DispatchProperties.OnlyAcceptedPlayRenames` | sources/FlashStream.cpp:131-132 | a dispatch changes the stream name only for a play invocation that the Play handler accepts, and then to the requested name |
| `DispatchProperties.AtMostOneEvent` | sources/FlashStream.cpp:47-84 | every dispatch publishes at most one event |
| `DispatchProperties.RedispatchIsIdentical` | include/FlashStream.h:73-74 | dispatching the same packet again on the stream the first dispatch left gives the same answer, the same events and the same name |
| `Stream.FlashStream.constructor` | sources/FlashStream.cpp:30 | a new stream has the given id, buffer time 0, an empty name and no events |
| `Stream.FlashStream.SetBufferTime` | sources/FlashStream.cpp:87-91 | stores `ms` as the buffer time and returns it; the frame leaves the name and the id untouched |
| `Stream.LastBufferTimeWins` | include/FlashStream.h:54-55 | after two stores and a dispatch, the getter `BufferTime()` answers the value stored last |
| `Stream.FlashStream.ProcessPacket` | sources/FlashStream.cpp:38-45 | reads the tag and timestamp, dispatches the rest with the loss rate defaulting to 0, and its answer, new name and new events are those of `Dispatch` on the split header |
| `Stream.FlashStream.Process` | sources/FlashStream.cpp:47-84 | its answer, new name and events are those of `Dispatch` on the stream's name before the call; the buffer time is outside its frame |
| `Stream.FlashStream.MessageHandler` | sources/FlashStream.cpp:93-139 | its answer, new name and events are those of `MessageOutcome` for the name, the remaining values and the correlation number |
| `Stream.FlashStream.DataHandler` | sources/FlashStream.cpp:141-171 | always returns true; the loop builds the function name and parameter list given by `DataCall` of the decoded payload |
| `Stream.FlashStream.RawHandler` | sources/FlashStream.cpp:173-193 | returns true exactly when the sub-code is recognised (`RawHandled`: 0x0000, 0x0001, 0x001F, 0x0020, 0x0022), the same set the dispatch function uses |
| `Stream.FlashStream.AudioHandler` | sources/FlashStream.cpp:195-199 | returns true and appends one audio Media event with the current name, the time, the unchanged packet and the loss rate |
| `Stream.FlashStream.VideoHandler` | sources/FlashStream.cpp:201-205 | returns true and appends one video Media event with the current name, the time, the unchanged packet and the loss rate |

## Left out

- Logging (`DEBUG`, `INFO`, `ERROR`, `TRACE`) has no effect on behaviour. This includes the `read32` calls in the RAW handler, which only feed log lines.
- `AMFReader`, `BinaryReader`, `Packet`, `Parameters` and `MapWriter` are not part of this model. The AMF reader is the function `Codec.decode` from bytes to decoded values. An object is decoded straight into a string map.
- `Stream.FlashStream.Process`: its precondition `Readable` asks for three things. A RAW payload must have at least 2 bytes. A DATA_AMF3 payload must have at least 1. An invocation must decode to the values its reads expect: a name, a number and a null, then a number and a null for onStatus, or a string for play. What the readers and `Packet::operator+` do on short or mistyped input cannot be seen, so those inputs are not modelled.
- `Stream.FlashStream.Process`: an INVOCATION_AMF3 message with an empty payload is dispatched through the corrected, clamped span (`Wire.InvocationBody`: no marker byte is skipped), not through the wrapped span the code computes (see Findings). On that one input the model does not follow the code.
- `Stream.FlashStream.ProcessPacket`: requires at least 5 bytes, for the same reason (`BinaryReader` short reads). A shorter packet has no visible clean failure in the code, so its behaviour is not modelled.
- `Amf.Property` stands for `Parameters::getString`, which is not part of this model: it is taken to answer the stored string when the key is present and to leave its output empty when the key is absent. This is an assumption about that library, not a proved property.
- The loss rate and the correlation number are doubles. They are carried as raw 64-bit patterns (`Double`), with no floating-point reasoning.
- How the data handler spells numbers and booleans is left to `Codec.format`. That text is diagnostic only.
- The group and P2P channels (NewPeer, GroupHandshake, GroupMedia, GroupReport, GroupPlayPush, GroupPlayPull, FragmentsMap, GroupBegin, Fragment, GroupAskClose) are left out. Nothing in this class fires them; subclasses do.
- Overriding of the virtual handlers by subclasses is left out.
- The event subscription machinery is left out. Each of the Status and Play channels is one function whose answer is the channel's aggregate answer.
- The `flush()` no-op and the destructor are left out.
- `writerId` is carried through but, as in the code, never used by the base stream.

## Findings

| source | as written | input that shows it | evidently intended | confidence | as-written member | corrected member |
|---|---|---|---|---|---|---|
| sources/FlashStream.cpp:68 | the invocation reader is given `packet.size() - (type & 1)` bytes, computed in unsigned 32-bit arithmetic | the 5-byte packet `11 00 00 00 00` (INVOCATION_AMF3, empty payload): the span wraps to 4294967295 while no byte follows | skip the AMF3 marker only when it is present, so the reader never reaches past the payload | medium (rests on `Packet::size()` being an unsigned 32-bit count, as for the other readers); not executed | `Wire.AmfSpanOverrunsEmptyPayload` | `Wire.InvocationBody` |
