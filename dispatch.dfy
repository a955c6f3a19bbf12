/** What one dispatch of a FlashStream does, as a function of the stream's
    name before the call: whether the flow stays open, the stream name
    after the call, and the events published on the Status, Media and Play
    channels. The class in module Stream is proved to do exactly this. */
module Dispatcher {
  import opened Wire
  import opened Amf

  /** The events the base stream publishes. A Media event carries the
      message type tag (TYPE_AUDIO or TYPE_VIDEO) as its kind. */
  datatype Event =
    | Status(code: string, description: string, streamId: UInt16, flowId: UInt64, callback: Double)
    | Media(stream: string, time: UInt32, packet: seq<bv8>, lostRate: Double, kind: bv8)
    | Play(streamName: string, streamId: UInt16, flowId: UInt64, callback: Double)

  /** The subscribers of the two channels whose answer the stream consumes. */
  datatype Handlers = Handlers(
    onStatus: (string, string, UInt16, UInt64, Double) -> bool,
    onPlay: (string, UInt16, UInt64, Double) -> bool)

  /** Result of one dispatch: `ok == false` means the writer or flow that
      delivered the packet is to be closed. */
  datatype Outcome = Outcome(ok: bool, streamName: string, events: seq<Event>)

  /** The RAW sub-codes the stream recognises: stream begin (0x0000), stream
      stop (0x0001), two codes not handled yet (0x001F, 0x0020) and the sync
      message (0x0022). */
  predicate RawHandled(code: UInt16)
  {
    code == 0x0000 || code == 0x0001 || code == 0x001F || code == 0x0020 || code == 0x0022
  }

  /** The bytes the data handler decodes: the AMF3 variant drops its marker byte. */
  function DataBody(tag: bv8, payload: seq<bv8>): (body: seq<bv8>)
    requires tag == TYPE_DATA_AMF3 ==> |payload| >= 1
    ensures tag == TYPE_DATA_AMF3 ==> [payload[0]] + body == payload
    ensures tag != TYPE_DATA_AMF3 ==> body == payload
  {
    if tag == TYPE_DATA_AMF3 then payload[1..] else payload
  }

  predicate IsInvocation(tag: bv8)
  {
    tag == TYPE_INVOCATION || tag == TYPE_INVOCATION_AMF3
  }

  /** The reads the dispatch performs are defined on this packet: the RAW
      sub-code and the AMF3 data marker are present, and an invocation decodes
      to the values its reads expect. */
  predicate Readable(tag: bv8, payload: seq<bv8>, codec: Codec)
  {
    && (tag == TYPE_RAW ==> |payload| >= 2)
    && (tag == TYPE_DATA_AMF3 ==> |payload| >= 1)
    && (IsInvocation(tag) ==> InvocationReadable(codec.decode(InvocationBody(tag, payload))))
  }

  /** A named invocation. `args` are the values after the name, the
      correlation number and the null; `callback` is that correlation number. */
  function MessageOutcome(id: UInt16, streamName: string, name: string, args: seq<Value>,
                          flowId: UInt64, callback: Double, h: Handlers): Outcome
    requires name == "onStatus" ==> |args| >= 2
    requires name == "play" ==> |args| >= 1 && args[0].Str?
  {
    if name == "onStatus" then
      if |args| < 3 || !args[2].Obj? then Outcome(false, streamName, [])
      else
        var props := args[2].props;
        var level := Property(props, "level");
        if level == "" then Outcome(false, streamName, [])
        else if level == "status" || level == "error" then
          var code, description := Property(props, "code"), Property(props, "description");
          Outcome(h.onStatus(code, description, id, flowId, callback), streamName,
                  [Status(code, description, id, flowId, callback)])
        else Outcome(false, streamName, [])
    else if name == "play" then
      var publication := args[0].s;
      var accepted := h.onPlay(publication, id, flowId, callback);
      Outcome(true, if accepted then publication else streamName, [Play(publication, id, flowId, callback)])
    else Outcome(false, streamName, [])
  }

  /** The dispatch of one packet whose header has been read. */
  function Dispatch(id: UInt16, streamName: string, tag: bv8, time: UInt32, payload: seq<bv8>,
                    flowId: UInt64, writerId: UInt64, lostRate: Double,
                    codec: Codec, h: Handlers): Outcome
    requires Readable(tag, payload, codec)
  {
    if tag == TYPE_AUDIO || tag == TYPE_VIDEO then
      Outcome(true, streamName, [Media(streamName, time, payload, lostRate, tag)])
    else if tag == TYPE_DATA_AMF3 || tag == TYPE_DATA then
      Outcome(true, streamName, [])
    else if IsInvocation(tag) then
      var vs := codec.decode(InvocationBody(tag, payload));
      MessageOutcome(id, streamName, vs[0].s, vs[3..], flowId, vs[1].n, h)
    else if tag == TYPE_RAW then
      Outcome(RawHandled(SplitRaw(payload).code), streamName, [])
    else
      Outcome(false, streamName, [])
  }

  /** The trace line of a data message: the call its decoded body makes. */
  function DataTrace(tag: bv8, payload: seq<bv8>, codec: Codec): Option<Call>
    requires tag == TYPE_DATA_AMF3 ==> |payload| >= 1
  {
    DataCall(codec.decode(DataBody(tag, payload)), codec.format)
  }
}
