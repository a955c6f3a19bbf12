/** Properties of the dispatch function, one per path through the
    message-type switch, and properties relating several dispatches. */
module DispatchProperties {
  import opened Wire
  import opened Amf
  import opened Dispatcher

  /** Audio and video frames are published as one Media event carrying the
      current stream name, the timestamp, the payload unchanged, the loss
      rate and the frame's own tag; the flow stays open. */
  lemma MediaPublishesFrame(id: UInt16, name: string, tag: bv8, time: UInt32, payload: seq<bv8>,
                            flowId: UInt64, writerId: UInt64, lostRate: Double, codec: Codec, h: Handlers)
    requires tag == TYPE_AUDIO || tag == TYPE_VIDEO
    ensures Readable(tag, payload, codec)
    ensures Dispatch(id, name, tag, time, payload, flowId, writerId, lostRate, codec, h)
         == Outcome(true, name, [Media(name, time, payload, lostRate, tag)])
  {
  }

  /** The EMPTY tag and every tag outside the switch close the flow, publish
      nothing and leave the stream name alone. */
  lemma EmptyOrUnknownTagCloses(id: UInt16, name: string, tag: bv8, time: UInt32, payload: seq<bv8>,
                                flowId: UInt64, writerId: UInt64, lostRate: Double, codec: Codec, h: Handlers)
    requires tag !in {TYPE_AUDIO, TYPE_VIDEO, TYPE_DATA, TYPE_DATA_AMF3,
                      TYPE_INVOCATION, TYPE_INVOCATION_AMF3, TYPE_RAW}
    ensures Readable(tag, payload, codec)
    ensures Dispatch(id, name, tag, time, payload, flowId, writerId, lostRate, codec, h)
         == Outcome(false, name, [])
  {
  }

  /** Data messages keep the flow open, publish nothing and change nothing. */
  lemma DataKeepsFlowOpen(id: UInt16, name: string, tag: bv8, time: UInt32, payload: seq<bv8>,
                          flowId: UInt64, writerId: UInt64, lostRate: Double, codec: Codec, h: Handlers)
    requires tag == TYPE_DATA || tag == TYPE_DATA_AMF3
    requires Readable(tag, payload, codec)
    ensures Dispatch(id, name, tag, time, payload, flowId, writerId, lostRate, codec, h)
         == Outcome(true, name, [])
  {
  }

  /** A DATA_AMF3 message behaves, and traces the same call, as a DATA
      message whose payload lacks the leading marker byte. */
  lemma DataAmf3SkipsMarker(id: UInt16, name: string, marker: bv8, time: UInt32, payload: seq<bv8>,
                            flowId: UInt64, writerId: UInt64, lostRate: Double, codec: Codec, h: Handlers)
    ensures Readable(TYPE_DATA_AMF3, [marker] + payload, codec) && Readable(TYPE_DATA, payload, codec)
    ensures Dispatch(id, name, TYPE_DATA_AMF3, time, [marker] + payload, flowId, writerId, lostRate, codec, h)
         == Dispatch(id, name, TYPE_DATA, time, payload, flowId, writerId, lostRate, codec, h)
    ensures DataTrace(TYPE_DATA_AMF3, [marker] + payload, codec) == DataTrace(TYPE_DATA, payload, codec)
  {
    assert ([marker] + payload)[1..] == payload;
  }

  /** An INVOCATION_AMF3 message behaves as an INVOCATION message whose
      payload lacks exactly its one leading marker byte. */
  lemma InvocationAmf3SkipsMarker(id: UInt16, name: string, marker: bv8, time: UInt32, payload: seq<bv8>,
                                  flowId: UInt64, writerId: UInt64, lostRate: Double, codec: Codec, h: Handlers)
    requires Readable(TYPE_INVOCATION, payload, codec)
    ensures Readable(TYPE_INVOCATION_AMF3, [marker] + payload, codec)
    ensures Dispatch(id, name, TYPE_INVOCATION_AMF3, time, [marker] + payload, flowId, writerId, lostRate, codec, h)
         == Dispatch(id, name, TYPE_INVOCATION, time, payload, flowId, writerId, lostRate, codec, h)
  {
    assert InvocationBody(TYPE_INVOCATION_AMF3, [marker] + payload) == payload;
    assert InvocationBody(TYPE_INVOCATION, payload) == payload;
  }

  /** An invocation whose name is neither "onStatus" nor "play" closes the
      flow, publishes nothing and changes nothing. */
  lemma UnknownInvocationCloses(id: UInt16, name: string, tag: bv8, time: UInt32, payload: seq<bv8>,
                                flowId: UInt64, writerId: UInt64, lostRate: Double, codec: Codec, h: Handlers)
    requires IsInvocation(tag) && Readable(tag, payload, codec)
    requires codec.decode(InvocationBody(tag, payload))[0].s !in {"onStatus", "play"}
    ensures Dispatch(id, name, tag, time, payload, flowId, writerId, lostRate, codec, h)
         == Outcome(false, name, [])
  {
  }

  /** onStatus: the flow closes unless the value after the second number and
      null is an object whose "level" is "status" or "error"; for those two
      levels one Status event is published with the object's "code" and
      "description" (empty when absent), the stream id and the invocation's
      correlation number, and the result is the Status handler's answer.
      The stream name never changes. */
  lemma OnStatusOutcome(id: UInt16, name: string, tag: bv8, time: UInt32, payload: seq<bv8>,
                        flowId: UInt64, writerId: UInt64, lostRate: Double, codec: Codec, h: Handlers)
    requires IsInvocation(tag) && Readable(tag, payload, codec)
    requires codec.decode(InvocationBody(tag, payload))[0].s == "onStatus"
    ensures var vs := codec.decode(InvocationBody(tag, payload));
            var o := Dispatch(id, name, tag, time, payload, flowId, writerId, lostRate, codec, h);
            && o.streamName == name
            && (|vs| < 6 || !vs[5].Obj? ==> !o.ok && o.events == [])
            && (|vs| >= 6 && vs[5].Obj? ==>
                  var level := Property(vs[5].props, "level");
                  var code := Property(vs[5].props, "code");
                  var description := Property(vs[5].props, "description");
                  var known := level == "status" || level == "error";
                  && o.ok == (known && h.onStatus(code, description, id, flowId, vs[1].n))
                  && o.events == (if known then [Status(code, description, id, flowId, vs[1].n)] else []))
  {
  }

  /** play: one Play event with the requested name; the flow stays open; the
      stream name becomes the requested one when the Play handler accepts and
      stays as it was otherwise. */
  lemma PlayOutcome(id: UInt16, name: string, tag: bv8, time: UInt32, payload: seq<bv8>,
                    flowId: UInt64, writerId: UInt64, lostRate: Double, codec: Codec, h: Handlers)
    requires IsInvocation(tag) && Readable(tag, payload, codec)
    requires codec.decode(InvocationBody(tag, payload))[0].s == "play"
    ensures var vs := codec.decode(InvocationBody(tag, payload));
            var publication := vs[3].s;
            var accepted := h.onPlay(publication, id, flowId, vs[1].n);
            var o := Dispatch(id, name, tag, time, payload, flowId, writerId, lostRate, codec, h);
            && o.ok
            && o.events == [Play(publication, id, flowId, vs[1].n)]
            && (accepted ==> o.streamName == publication)
            && (!accepted ==> o.streamName == name)
  {
  }

  /** RAW: the flow stays open exactly when the big-endian sub-code in the
      first two payload bytes is one the stream recognises; nothing is
      published and nothing changes. */
  lemma RawOutcome(id: UInt16, name: string, time: UInt32, payload: seq<bv8>,
                   flowId: UInt64, writerId: UInt64, lostRate: Double, codec: Codec, h: Handlers)
    requires |payload| >= 2
    ensures Readable(TYPE_RAW, payload, codec)
    ensures var o := Dispatch(id, name, TYPE_RAW, time, payload, flowId, writerId, lostRate, codec, h);
            && o.streamName == name && o.events == []
            && (o.ok <==> payload[0] == 0 && payload[1] in {0x00, 0x01, 0x1F, 0x20, 0x22})
  {
    var code := SplitRaw(payload).code;
    assert WriteU16(code) == payload[..2];
  }

  /** A stream-begin RAW message keeps the flow open; an unassigned sub-code
      such as 0x00FF closes it. */
  lemma RawExamples(id: UInt16, name: string, time: UInt32, arg: seq<bv8>,
                    flowId: UInt64, writerId: UInt64, lostRate: Double, codec: Codec, h: Handlers)
    ensures Dispatch(id, name, TYPE_RAW, time, [0x00, 0x00] + arg, flowId, writerId, lostRate, codec, h).ok
    ensures !Dispatch(id, name, TYPE_RAW, time, [0x00, 0xFF] + arg, flowId, writerId, lostRate, codec, h).ok
  {
    RawOutcome(id, name, time, [0x00, 0x00] + arg, flowId, writerId, lostRate, codec, h);
    RawOutcome(id, name, time, [0x00, 0xFF] + arg, flowId, writerId, lostRate, codec, h);
  }

  /** Only an accepted play renames the stream, and then to the requested name. */
  lemma OnlyAcceptedPlayRenames(id: UInt16, name: string, tag: bv8, time: UInt32, payload: seq<bv8>,
                                flowId: UInt64, writerId: UInt64, lostRate: Double, codec: Codec, h: Handlers)
    requires Readable(tag, payload, codec)
    ensures var o := Dispatch(id, name, tag, time, payload, flowId, writerId, lostRate, codec, h);
            o.streamName != name ==>
              var vs := codec.decode(InvocationBody(tag, payload));
              && IsInvocation(tag) && vs[0].s == "play"
              && h.onPlay(vs[3].s, id, flowId, vs[1].n)
              && o.streamName == vs[3].s
  {
  }

  /** Every dispatch publishes at most one event. */
  lemma AtMostOneEvent(id: UInt16, name: string, tag: bv8, time: UInt32, payload: seq<bv8>,
                       flowId: UInt64, writerId: UInt64, lostRate: Double, codec: Codec, h: Handlers)
    requires Readable(tag, payload, codec)
    ensures |Dispatch(id, name, tag, time, payload, flowId, writerId, lostRate, codec, h).events| <= 1
  {
    if IsInvocation(tag) {
      var vs := codec.decode(InvocationBody(tag, payload));
      MessageAtMostOneEvent(id, name, vs[0].s, vs[3..], flowId, vs[1].n, h);
    }
  }

  /** A named invocation publishes at most one event. */
  lemma MessageAtMostOneEvent(id: UInt16, name: string, call: string, args: seq<Value>,
                              flowId: UInt64, callback: Double, h: Handlers)
    requires call == "onStatus" ==> |args| >= 2
    requires call == "play" ==> |args| >= 1 && args[0].Str?
    ensures |MessageOutcome(id, name, call, args, flowId, callback, h).events| <= 1
  {
  }

  /** Dispatching the same packet again, on the stream as the first dispatch
      left it, gives the same result, the same events and the same name: the
      stream name is the only state a dispatch depends on, and a repeated
      dispatch leaves it where the first one put it. */
  lemma RedispatchIsIdentical(id: UInt16, name: string, tag: bv8, time: UInt32, payload: seq<bv8>,
                              flowId: UInt64, writerId: UInt64, lostRate: Double, codec: Codec, h: Handlers)
    requires Readable(tag, payload, codec)
    ensures var first := Dispatch(id, name, tag, time, payload, flowId, writerId, lostRate, codec, h);
            Dispatch(id, first.streamName, tag, time, payload, flowId, writerId, lostRate, codec, h) == first
  {
    if IsInvocation(tag) {
      var vs := codec.decode(InvocationBody(tag, payload));
      MessageRedispatchIsIdentical(id, name, vs[0].s, vs[3..], flowId, vs[1].n, h);
    }
  }

  /** A named invocation repeated from the name the first one left gives the
      same outcome. */
  lemma MessageRedispatchIsIdentical(id: UInt16, name: string, call: string, args: seq<Value>,
                                     flowId: UInt64, callback: Double, h: Handlers)
    requires call == "onStatus" ==> |args| >= 2
    requires call == "play" ==> |args| >= 1 && args[0].Str?
    ensures var first := MessageOutcome(id, name, call, args, flowId, callback, h);
            MessageOutcome(id, first.streamName, call, args, flowId, callback, h) == first
  {
  }
}
