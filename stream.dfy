/** The per-stream dispatcher object: its identifier, its buffer time and
    the name of the stream it last agreed to play, with the operations that
    read a packet and route it to the audio, video, data, invocation and raw
    handlers. Events published on the Status, Media and Play channels are
    recorded in the ghost log `events`. */
module Stream {
  import opened Wire
  import opened Amf
  import opened Dispatcher

  class FlashStream {
    const id: UInt16
    var bufferTime: UInt32
    var streamName: string
    ghost var events: seq<Event>

    /** A new stream has buffer time 0, no stream name and has published nothing. */
    constructor (id: UInt16)
      ensures this.id == id && bufferTime == 0 && streamName == "" && events == []
    {
      this.id := id;
      bufferTime := 0;
      streamName := "";
      events := [];
    }

    /** Stores a buffer time (any value, zero included) and answers it. */
    method SetBufferTime(ms: UInt32) returns (stored: UInt32)
      modifies this`bufferTime
      ensures bufferTime == ms && stored == ms
    {
      bufferTime := ms;
      stored := bufferTime;
    }

    function BufferTime(): UInt32
      reads this
    {
      bufferTime
    }

    /** Reads the type tag and the big-endian timestamp at the head of a
        framed packet and dispatches the rest; the loss rate defaults to 0.
        A false answer asks the caller to close the writer. */
    method ProcessPacket(packet: seq<bv8>, flowId: UInt64, writerId: UInt64,
                         codec: Codec, h: Handlers, lostRate: Double := ZERO_RATE) returns (ok: bool)
      requires |packet| >= 5
      requires Readable(SplitHeader(packet).tag, SplitHeader(packet).payload, codec)
      modifies this`streamName, this`events
      ensures var hd := SplitHeader(packet);
              var o := Dispatch(id, old(streamName), hd.tag, hd.time, hd.payload, flowId, writerId, lostRate, codec, h);
              ok == o.ok && streamName == o.streamName && events == old(events) + o.events
    {
      var tag := packet[0];
      var time := ReadU32(packet[1..5]);
      ok := Process(tag, time, packet[5..], flowId, writerId, lostRate, codec, h);
    }

    /** Routes a packet whose header has been read, by its type tag. */
    method Process(tag: bv8, time: UInt32, payload: seq<bv8>, flowId: UInt64, writerId: UInt64,
                   lostRate: Double, codec: Codec, h: Handlers) returns (ok: bool)
      requires Readable(tag, payload, codec)
      modifies this`streamName, this`events
      ensures var o := Dispatch(id, old(streamName), tag, time, payload, flowId, writerId, lostRate, codec, h);
              ok == o.ok && streamName == o.streamName && events == old(events) + o.events
    {
      if tag == TYPE_AUDIO {
        ok := AudioHandler(time, payload, lostRate);
      } else if tag == TYPE_VIDEO {
        ok := VideoHandler(time, payload, lostRate);
      } else if tag == TYPE_DATA_AMF3 {
        var call;
        ok, call := DataHandler(payload[1..], codec);
      } else if tag == TYPE_DATA {
        var call;
        ok, call := DataHandler(payload, codec);
      } else if tag == TYPE_EMPTY {
        ok := false;
      } else if IsInvocation(tag) {
        var message := codec.decode(InvocationBody(tag, payload));
        var name, number := message[0].s, message[1].n;
        ok := MessageHandler(name, message[3..], flowId, writerId, number, h);
      } else if tag == TYPE_RAW {
        var raw := SplitRaw(payload);
        ok := RawHandler(raw.code, raw.rest);
      } else {
        ok := false;
      }
    }

    /** A named invocation; `args` follow the name, the correlation number
        (`callback`) and the null. */
    method MessageHandler(name: string, args: seq<Value>, flowId: UInt64, writerId: UInt64,
                          callback: Double, h: Handlers) returns (ok: bool)
      requires name == "onStatus" ==> |args| >= 2
      requires name == "play" ==> |args| >= 1 && args[0].Str?
      modifies this`streamName, this`events
      ensures var o := MessageOutcome(id, old(streamName), name, args, flowId, callback, h);
              ok == o.ok && streamName == o.streamName && events == old(events) + o.events
    {
      if name == "onStatus" {
        // args[0] repeats the correlation number, args[1] is a null
        if |args| < 3 || !args[2].Obj? {
          return false;
        }
        var params := args[2].props;
        var level := Property(params, "level");
        if level != "" {
          var code, description := Property(params, "code"), Property(params, "description");
          if level == "status" || level == "error" {
            events := events + [Status(code, description, id, flowId, callback)];
            return h.onStatus(code, description, id, flowId, callback);
          } else {
            return false;
          }
        }
        return false;
      } else if name == "play" {
        var publication := args[0].s;
        events := events + [Play(publication, id, flowId, callback)];
        if h.onPlay(publication, id, flowId, callback) {
          streamName := publication;
        }
        return true;
      }
      return false;
    }

    /** A data message: when its first value is a string, reads it as a
        function name and folds every further value into the traced
        parameter list. Always keeps the flow open. */
    method DataHandler(packet: seq<bv8>, codec: Codec) returns (ok: bool, call: Option<Call>)
      ensures ok
      ensures call == DataCall(codec.decode(packet), codec.format)
    {
      var reader := codec.decode(packet);
      call := None;
      if |reader| > 0 && reader[0].Str? {
        var func := reader[0].s;
        var args := reader[1..];
        var params := "";
        var first := true;
        var i := 0;
        while i < |args|
          invariant 0 <= i <= |args|
          invariant first <==> i == 0
          invariant params + ParamList(args[i..], first, codec.format) == ParamList(args, true, codec.format)
        {
          var value := args[i];
          AppendPiece(params, args, i, first, codec.format);
          if Shows(value) {
            params := params + ((if first then "" else ", ") + Spell(value, codec.format));
          } else {
            assert params + Piece(value, first, codec.format) == params;
          }
          first := false;
          i := i + 1;
        }
        assert args[i..] == [] && params + "" == params;
        call := Some(Call(func, params));
      }
      ok := true;
    }

    /** A RAW message: keeps the flow open for the recognised sub-codes. */
    method RawHandler(code: UInt16, packet: seq<bv8>) returns (ok: bool)
      ensures ok <==> RawHandled(code)
    {
      if code == 0x0000 || code == 0x0001 {
        // stream begin / stream stop: the 32-bit argument is only logged
        ok := true;
      } else if code == 0x001F || code == 0x0020 || code == 0x0022 {
        ok := true;
      } else {
        ok := false;
      }
    }

    /** Publishes an audio frame under the current stream name. */
    method AudioHandler(time: UInt32, packet: seq<bv8>, lostRate: Double) returns (ok: bool)
      modifies this`events
      ensures ok && events == old(events) + [Media(streamName, time, packet, lostRate, TYPE_AUDIO)]
    {
      events := events + [Media(streamName, time, packet, lostRate, TYPE_AUDIO)];
      ok := true;
    }

    /** Publishes a video frame under the current stream name. */
    method VideoHandler(time: UInt32, packet: seq<bv8>, lostRate: Double) returns (ok: bool)
      modifies this`events
      ensures ok && events == old(events) + [Media(streamName, time, packet, lostRate, TYPE_VIDEO)]
    {
      events := events + [Media(streamName, time, packet, lostRate, TYPE_VIDEO)];
      ok := true;
    }
  }

  /** The buffer time getter answers the value most recently stored, and no
      dispatch in between changes it or the stream's id. */
  method LastBufferTimeWins(s: FlashStream, earlier: UInt32, latest: UInt32, packet: seq<bv8>,
                            flowId: UInt64, writerId: UInt64, codec: Codec, h: Handlers) returns (got: UInt32)
    requires |packet| >= 5
    requires Readable(SplitHeader(packet).tag, SplitHeader(packet).payload, codec)
    modifies s
    ensures got == latest && s.bufferTime == latest
  {
    var stored := s.SetBufferTime(earlier);
    stored := s.SetBufferTime(latest);
    var ok := s.ProcessPacket(packet, flowId, writerId, codec, h);
    got := s.BufferTime();
  }
}
