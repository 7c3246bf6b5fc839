/** The live webcam stream of src/web/socket_handler.py: the `WebcamStream`
    object, its worker loop, the registry of active streams and the
    `get_detections` socket event.  The worker thread is modelled as a loop
    that runs to its end in one call; a concurrent `stop()` is seen at the
    head of an iteration, which is where the source's loop tests the stop
    event.  Socket.IO delivery, JPEG/base64 encoding and the frame-rate sleep
    are outside the model: an emitted message is appended to `emitted`. */
module SocketHandler {
  import opened Common
  import opened Drawing
  import opened Yolo
  import opened TrackingDetector
  import opened Capture

  /** The frame rate a stream uses while the application runs in testing mode. */
  const TestingFrameRate: int := 2

  /** One 'frame' event of the '/stream' namespace. */
  datatype FrameMessage = FrameMessage(streamId: string, frame: Annotated, detections: seq<TrackedObject>, timestamp: real)

  /** The message the worker emits for one frame it read. */
  function MessageFor(streamId: string, frame: Frame, conf: real, infer: (Frame, real) -> Option<ModelOutput>,
                      fixed2: real -> string, timestamp: real): FrameMessage
  {
    var results := TrackRecords(infer(frame, conf));
    FrameMessage(streamId, Annotated(frame, Commands(results, fixed2)), results, timestamp)
  }

  /** The messages emitted for consecutive frames; the n-th message of the
      stream is stamped `clock(n)`. */
  function Messages(streamId: string, frames: seq<Frame>, conf: real, infer: (Frame, real) -> Option<ModelOutput>,
                    fixed2: real -> string, clock: nat -> real, base: nat): (msgs: seq<FrameMessage>)
    ensures |msgs| == |frames|
  {
    seq(|frames|, k requires 0 <= k < |frames| => MessageFor(streamId, frames[k], conf, infer, fixed2, clock(base + k)))
  }

  /** Handling one more frame appends that frame's message. */
  lemma MessagesSnoc(streamId: string, frames: seq<Frame>, n: nat, conf: real,
                     infer: (Frame, real) -> Option<ModelOutput>, fixed2: real -> string, clock: nat -> real, base: nat)
    requires n < |frames|
    ensures Messages(streamId, frames[..n + 1], conf, infer, fixed2, clock, base)
      == Messages(streamId, frames[..n], conf, infer, fixed2, clock, base)
         + [MessageFor(streamId, frames[n], conf, infer, fixed2, clock(base + n))]
  {
    assert frames[..n + 1][..n] == frames[..n];
  }

  /** Every message a stream emits names that stream, shows the frame it was
      read from, draws exactly the detections it carries and is stamped with
      its place in the stream. */
  lemma {:induction false} MessagesBelongToStream(streamId: string, frames: seq<Frame>, conf: real,
                       infer: (Frame, real) -> Option<ModelOutput>, fixed2: real -> string, clock: nat -> real, base: nat)
    ensures forall m :: m in Messages(streamId, frames, conf, infer, fixed2, clock, base) ==>
      m.streamId == streamId && m.frame.commands == Commands(m.detections, fixed2)
    ensures forall k :: 0 <= k < |frames| ==>
      Messages(streamId, frames, conf, infer, fixed2, clock, base)[k].frame.source == frames[k]
      && Messages(streamId, frames, conf, infer, fixed2, clock, base)[k].timestamp == clock(base + k)
  {
    var msgs := Messages(streamId, frames, conf, infer, fixed2, clock, base);
    forall k | 0 <= k < |frames|
      ensures msgs[k].streamId == streamId && msgs[k].frame.commands == Commands(msgs[k].detections, fixed2)
      ensures msgs[k].frame.source == frames[k] && msgs[k].timestamp == clock(base + k)
    {
      assert msgs[k] == MessageFor(streamId, frames[k], conf, infer, fixed2, clock(base + k));
    }
  }

  /** The work of one worker iteration on a frame it read: detect and track,
      draw the results on a copy, and build the 'frame' event. */
  method FrameEvent(streamId: string, frame: Frame, conf: real, infer: (Frame, real) -> Option<ModelOutput>,
                    fixed2: real -> string, timestamp: real) returns (msg: FrameMessage)
    ensures msg == MessageFor(streamId, frame, conf, infer, fixed2, timestamp)
  {
    var results := DetectAndTrack(infer(frame, conf));
    var drawn := DrawResults(frame, results, fixed2);
    msg := FrameMessage(streamId, drawn, results, timestamp);
  }

  /** One iteration of the worker after the stop event was found clear:
      read a frame; on success detect, draw and emit it, and keep its
      results as the latest detections. */
  method StreamStep(source: FrameSource, streamId: string, conf: real, sent: seq<FrameMessage>,
                    latest: seq<TrackedObject>, infer: (Frame, real) -> Option<ModelOutput>,
                    fixed2: real -> string, clock: nat -> real, base: nat)
    returns (ok: bool, sent': seq<FrameMessage>, latest': seq<TrackedObject>)
    requires source.Valid()
    requires sent == Messages(streamId, source.frames[..source.position], conf, infer, fixed2, clock, base)
    modifies source
    ensures source.Valid() && source.released == old(source.released)
    ensures ok <==> old(source.IsOpened()) && old(source.position) < |source.frames|
    ensures sent' == Messages(streamId, source.frames[..source.position], conf, infer, fixed2, clock, base)
    ensures ok ==> source.position == old(source.position) + 1 && latest' == sent'[|sent'| - 1].detections
    ensures !ok ==> source.position == old(source.position) && latest' == latest
  {
    ghost var n := source.position;
    var frame;
    ok, frame := source.Read();
    if !ok {
      return ok, sent, latest;
    }
    var msg := FrameEvent(streamId, frame.value, conf, infer, fixed2, clock(base + |sent|));
    sent' := sent + [msg];
    assert sent' == Messages(streamId, source.frames[..n + 1], conf, infer, fixed2, clock, base) by {
      MessagesSnoc(streamId, source.frames, n, conf, infer, fixed2, clock, base);
    }
    latest' := msg.detections;
    assert sent'[|sent'| - 1] == msg;
  }

  /** The loop of `_stream_thread` over a freshly opened capture, with the
      state it updates (the latest detections and the messages sent) as loop
      variables: while the stop event is clear, read a frame, end silently on
      a failed read, otherwise detect and track at the stream's threshold,
      keep the results as the latest detections, draw them and emit the
      frame.  `base` is the number of messages the stream sent before. */
  method StreamLoop(source: FrameSource, stopped: bool, streamId: string, conf: real, latest0: seq<TrackedObject>,
                    infer: (Frame, real) -> Option<ModelOutput>, fixed2: real -> string, clock: nat -> real, base: nat)
    returns (sent: seq<FrameMessage>, latest: seq<TrackedObject>)
    requires source.Valid() && source.position == 0
    modifies source
    ensures source.Valid() && source.released == old(source.released)
    ensures stopped ==> source.position == 0
    ensures !stopped ==> !source.IsOpened() || source.position == |source.frames|
    ensures sent == Messages(streamId, source.frames[..source.position], conf, infer, fixed2, clock, base)
    ensures source.position == 0 ==> latest == latest0
    ensures source.position > 0 ==> latest == sent[|sent| - 1].detections
  {
    sent := [];
    latest := latest0;
    while !stopped
      invariant source.Valid() && source.released == old(source.released)
      invariant stopped ==> source.position == 0
      invariant sent == Messages(streamId, source.frames[..source.position], conf, infer, fixed2, clock, base)
      invariant source.position == 0 ==> latest == latest0
      invariant source.position > 0 ==> latest == sent[|sent| - 1].detections
      decreases |source.frames| - source.position
    {
      var ok;
      ok, sent, latest := StreamStep(source, streamId, conf, sent, latest, infer, fixed2, clock, base);
      if !ok {
        break;
      }
    }
  }

  class WebcamStream {
    const streamId: string
    const confThreshold: real
    const frameRate: int
    /** The capture handle; None until `start`. */
    var cap: FrameSource?
    /** Whether `start` launched the worker thread. */
    var workerStarted: bool
    /** The stop event. */
    var stopRequested: bool
    /** The results of the last frame the worker processed. */
    var latestDetections: seq<TrackedObject>
    /** The 'frame' events emitted so far, in order. */
    var emitted: seq<FrameMessage>

    /** The constructor: no capture, no worker, stop event clear, no
        detections yet; the frame rate is forced to 2 in testing mode. */
    constructor (streamId: string, confThreshold: real, frameRate: int, testing: bool)
      ensures this.streamId == streamId && this.confThreshold == confThreshold
      ensures this.frameRate == (if testing then TestingFrameRate else frameRate)
      ensures cap == null && !workerStarted && !stopRequested
      ensures latestDetections == [] && emitted == []
    {
      this.streamId := streamId;
      this.confThreshold := confThreshold;
      this.frameRate := if testing then TestingFrameRate else frameRate;
      cap := null;
      workerStarted := false;
      stopRequested := false;
      latestDetections := [];
      emitted := [];
    }

    /** `start`: keeps the handle opened on device 0 whatever happens; raises
        "Could not open webcam" (here: returns it) and launches no worker when
        the handle is not open. */
    method Start(device: FrameSource) returns (error: Option<string>)
      modifies this
      ensures cap == device
      ensures error.None? <==> device.IsOpened()
      ensures error.Some? ==> error.value == "Could not open webcam" && workerStarted == old(workerStarted)
      ensures error.None? ==> workerStarted
      ensures stopRequested == old(stopRequested)
      ensures latestDetections == old(latestDetections) && emitted == old(emitted)
    {
      cap := device;
      if !cap.IsOpened() {
        return Some("Could not open webcam");
      }
      workerStarted := true;
      error := None;
    }

    /** `stop`: sets the stop event, then releases the capture if there is
        one.  Joining the worker is a wait and changes no state. */
    method Stop()
      modifies this, cap
      ensures stopRequested
      ensures cap == old(cap) && (cap != null ==> cap.released && cap.position == old(cap.position))
      ensures workerStarted == old(workerStarted)
      ensures latestDetections == old(latestDetections) && emitted == old(emitted)
    {
      stopRequested := true;
      if cap != null {
        cap.Release();
      }
    }

    /** `_stream_thread`, run on the capture `start` has just opened.  It
        emits one message per frame it could read, in order, and leaves the
        latest detections at those of the last one; with the stop event set
        it does nothing. */
    method RunWorker(infer: (Frame, real) -> Option<ModelOutput>, fixed2: real -> string, clock: nat -> real)
      requires cap != null && cap.Valid() && cap.position == 0
      modifies this, cap
      ensures cap == old(cap) && cap.Valid() && cap.released == old(cap.released)
      ensures stopRequested == old(stopRequested) && workerStarted == old(workerStarted)
      ensures stopRequested ==> cap.position == 0
      ensures !stopRequested ==> !cap.IsOpened() || cap.position == |cap.frames|
      ensures emitted == old(emitted) + Messages(streamId, cap.frames[..cap.position],
                                                 confThreshold, infer, fixed2, clock, |old(emitted)|)
      ensures cap.position == 0 ==> latestDetections == old(latestDetections)
      ensures cap.position > 0 ==> latestDetections == emitted[|emitted| - 1].detections
    {
      var sent, latest := StreamLoop(cap, stopRequested, streamId, confThreshold, latestDetections,
                                     infer, fixed2, clock, |emitted|);
      emitted := emitted + sent;
      latestDetections := latest;
    }
  }

  /** `active_streams`: the running streams by id, shared by the HTTP routes
      that start and stop streams and by the `get_detections` event. */
  class StreamRegistry {
    var streams: map<string, WebcamStream>

    constructor ()
      ensures streams == map[]
    {
      streams := map[];
    }

    /** Every registered stream is filed under its own id and has its worker
        running, since only a successful `start` registers a stream; each
        `start` opens its own capture, so no two streams share one. */
    ghost predicate Valid()
      reads this, streams.Values
    {
      && (forall id :: id in streams ==> streams[id].streamId == id && streams[id].workerStarted)
      && (forall a, b :: a in streams && b in streams && a != b && streams[a].cap != null ==>
            streams[a].cap != streams[b].cap)
    }
  }

  /** Reply to a `get_detections` event. */
  datatype DetectionsReply =
    | Detections(streamId: string, detections: seq<TrackedObject>, timestamp: real)
    | DetectionError(code: string, message: string)

  /** Python's rendering of the requested id inside the error message. */
  function ShowId(id: Option<string>): string
  {
    match id
    case None => "None"
    case Some(s) => s
  }

  /** `handle_get_detections`: the stream's latest detections, or a
      detection_error naming the id when it is absent, empty or unknown. */
  function GetDetections(streams: map<string, WebcamStream>, id: Option<string>, now: real): (reply: DetectionsReply)
    reads streams.Values
    ensures reply.DetectionError? <==> id.None? || id.value == "" || id.value !in streams
    ensures reply.DetectionError? ==>
      reply.code == "detection_error" && reply.message == "Invalid stream ID: " + ShowId(id)
    ensures reply.Detections? ==>
      reply.streamId == id.value && reply.detections == streams[id.value].latestDetections && reply.timestamp == now
  {
    if id.None? || id.value == "" || id.value !in streams then
      DetectionError("detection_error", "Invalid stream ID: " + ShowId(id))
    else
      Detections(id.value, streams[id.value].latestDetections, now)
  }
}
