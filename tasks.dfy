/** The background video job `process_video` (src/web/tasks.py).  The capture
    handle, the detector's answers, the float formatting and the elapsed
    wall-clock time are inputs; each Celery PROGRESS update is one entry of
    the returned progress list. */
module Tasks {
  import opened Common
  import opened Drawing
  import opened Yolo
  import opened TrackingDetector
  import opened Capture
  import opened FileHandler

  /** An OpenCV video writer: what has been written to it, in order. */
  class VideoWriter {
    const path: string
    var written: seq<Annotated>
    var released: bool

    constructor (path: string)
      ensures this.path == path && written == [] && !released
    {
      this.path := path;
      written := [];
      released := false;
    }

    method Write(frame: Annotated)
      modifies this
      ensures written == old(written) + [frame] && released == old(released)
    {
      written := written + [frame];
    }

    method Release()
      modifies this
      ensures released && written == old(written)
    {
      released := true;
    }
  }

  /** Why a job ends in Celery's FAILURE state. */
  datatype JobError =
    | CouldNotOpenVideo        // the `ValueError` raised when the capture does not open
    | ProgressDivisionByZero   // `frame_count / total_frames` with a reported count of 0
    | NoFrameToWrite           // the post-loop write of `processed_frame` when no frame was read

  /** The dictionary a successful job returns (its `status` is always "completed"). */
  datatype JobResult = JobResult(processingTime: real, framesProcessed: nat, outputVideoUrl: Option<string>)

  datatype JobOutcome = Completed(result: JobResult) | Failed(error: JobError)

  /** Where the annotated video is written: `output_<name>` beside the upload. */
  function OutputPath(directory: string, fileName: string): string
  {
    directory + "/output_" + fileName
  }

  /** The progress reported after `count` frames: `count / total * 100`. */
  function Progress(count: nat, total: int): (p: real)
    requires total != 0
    ensures count <= total ==> 0.0 <= p <= 100.0
    ensures count == total ==> p == 100.0
  {
    (count as real / total as real) * 100.0
  }

  /** The PROGRESS updates of a run over `n` frames, one per frame. */
  function ProgressReports(n: nat, total: int): (reports: seq<real>)
    requires total != 0
    ensures |reports| == n
    ensures forall k :: 0 <= k < n ==> reports[k] == Progress(k + 1, total)
  {
    if n == 0 then [] else ProgressReports(n - 1, total) + [Progress(n, total)]
  }

  /** The annotated copy the job produces for one frame. */
  function AnnotateFrame(frame: Frame, conf: real, infer: (Frame, real) -> Option<ModelOutput>, fixed2: real -> string): Annotated
  {
    Annotated(frame, Commands(TrackRecords(infer(frame, conf)), fixed2))
  }

  function AnnotateAll(frames: seq<Frame>, conf: real, infer: (Frame, real) -> Option<ModelOutput>, fixed2: real -> string)
    : (drawn: seq<Annotated>)
    ensures |drawn| == |frames|
  {
    seq(|frames|, k requires 0 <= k < |frames| => AnnotateFrame(frames[k], conf, infer, fixed2))
  }

  /** Copy `k` is drawn on frame `k` from that frame's own tracker answer at
      the job's threshold. */
  lemma AnnotateAllAt(frames: seq<Frame>, conf: real, infer: (Frame, real) -> Option<ModelOutput>,
                      fixed2: real -> string, k: nat)
    requires k < |frames|
    ensures AnnotateAll(frames, conf, infer, fixed2)[k].source == frames[k]
    ensures AnnotateAll(frames, conf, infer, fixed2)[k].commands == Commands(TrackRecords(infer(frames[k], conf)), fixed2)
  {
    assert AnnotateAll(frames, conf, infer, fixed2)[k] == AnnotateFrame(frames[k], conf, infer, fixed2);
  }

  /** Annotating one more frame of a prefix appends that frame's copy. */
  lemma AnnotatePrefix(frames: seq<Frame>, n: nat, conf: real, infer: (Frame, real) -> Option<ModelOutput>, fixed2: real -> string)
    requires n < |frames|
    ensures AnnotateAll(frames[..n + 1], conf, infer, fixed2)
      == AnnotateAll(frames[..n], conf, infer, fixed2) + [AnnotateFrame(frames[n], conf, infer, fixed2)]
  {
    assert frames[..n + 1][..n] == frames[..n];
  }

  /** The copy drawn for the last of some frames, None for no frames: what
      `processed_frame` holds after the loop handled them. */
  function LastDrawn(frames: seq<Frame>, conf: real, infer: (Frame, real) -> Option<ModelOutput>, fixed2: real -> string)
    : (last: Option<Annotated>)
    ensures last.None? <==> frames == []
  {
    if frames == [] then None else Some(AnnotateFrame(frames[|frames| - 1], conf, infer, fixed2))
  }

  /** Everything observable about one run: how it ends, the PROGRESS updates
      it issued and what reached the output writer. */
  datatype JobRun = JobRun(outcome: JobOutcome, progress: seq<real>, written: seq<Annotated>)

  /** The run `process_video` makes over a freshly opened capture. */
  function RunSpec(frames: seq<Frame>, canOpen: bool, total: int, saveOutput: bool,
                   directory: string, fileName: string,
                   conf: real, infer: (Frame, real) -> Option<ModelOutput>, fixed2: real -> string, elapsed: real): (run: JobRun)
    ensures run.outcome.Completed? <==> canOpen && (frames == [] ==> !saveOutput) && (frames != [] ==> total != 0)
    ensures run.outcome.Completed? ==> run.outcome.result.framesProcessed == |frames|
    ensures |run.progress| == (if run.outcome.Completed? then |frames| else 0)
    ensures |run.written| == (if !saveOutput || !canOpen || frames == [] then 0
                              else if total == 0 then 1 else |frames| + 1)
  {
    if !canOpen then JobRun(Failed(CouldNotOpenVideo), [], [])
    else if frames == [] then
      if saveOutput then JobRun(Failed(NoFrameToWrite), [], [])
      else JobRun(Completed(JobResult(elapsed, 0, None)), [], [])
    else if total == 0 then
      JobRun(Failed(ProgressDivisionByZero), [], if saveOutput then AnnotateAll(frames[..1], conf, infer, fixed2) else [])
    else
      var drawn := AnnotateAll(frames, conf, infer, fixed2);
      var url := if saveOutput then Some(SaveVideoResult(OutputPath(directory, fileName), fileName)) else None;
      JobRun(Completed(JobResult(elapsed, |frames|, url)),
             ProgressReports(|frames|, total),
             if saveOutput then drawn + [drawn[|drawn| - 1]] else [])
  }

  /** One pass of the frame loop: detect and track, draw, and write the
      annotated copy when there is a writer. */
  method ProcessFrame(frame: Frame, writer: VideoWriter?,
                      conf: real, infer: (Frame, real) -> Option<ModelOutput>, fixed2: real -> string)
    returns (drawn: Annotated)
    modifies writer
    ensures drawn == AnnotateFrame(frame, conf, infer, fixed2)
    ensures writer != null ==> writer.written == old(writer.written) + [drawn] && writer.released == old(writer.released)
  {
    var results := DetectAndTrack(infer(frame, conf));
    drawn := DrawResults(frame, results, fixed2);
    if writer != null {
      writer.Write(drawn);
    }
  }

  /** One read of the frame loop: on success, the frame's annotated copy,
      written when there is a writer; on failure nothing changes. */
  method ProcessNext(cap: FrameSource, writer: VideoWriter?,
                     conf: real, infer: (Frame, real) -> Option<ModelOutput>, fixed2: real -> string)
    returns (ok: bool, drawn: Annotated)
    requires cap.Valid() && cap.IsOpened()
    requires writer != null ==> !writer.released && writer.written == AnnotateAll(cap.frames[..cap.position], conf, infer, fixed2)
    modifies cap, writer
    ensures cap.Valid() && cap.IsOpened()
    ensures ok <==> old(cap.position) < |cap.frames|
    ensures ok ==>
      cap.position == old(cap.position) + 1
      && Some(drawn) == LastDrawn(cap.frames[..cap.position], conf, infer, fixed2)
    ensures !ok ==> cap.position == old(cap.position)
    ensures writer != null ==> !writer.released && writer.written == AnnotateAll(cap.frames[..cap.position], conf, infer, fixed2)
  {
    ghost var n := cap.position;
    var frame;
    ok, frame := cap.Read();
    if !ok {
      return ok, Annotated(Frame([]), []);
    }
    drawn := ProcessFrame(frame.value, writer, conf, infer, fixed2);
    AnnotatePrefix(cap.frames, n, conf, infer, fixed2);
  }

  /** The frame loop of `process_video`: read, detect and track, draw, write
      when a writer is given, count, report progress.  With a reported frame
      count of 0 the loop stops right after its first frame, where the
      progress division raises. */
  method ProcessFrames(cap: FrameSource, writer: VideoWriter?, total: int,
                       conf: real, infer: (Frame, real) -> Option<ModelOutput>, fixed2: real -> string)
    returns (count: nat, processed: Option<Annotated>, progress: seq<real>)
    requires cap.Valid() && cap.position == 0 && cap.IsOpened()
    requires writer != null ==> !writer.released && writer.written == []
    modifies cap, writer
    ensures cap.Valid() && !cap.released && cap.position == count
    ensures total == 0 ==> count == (if cap.frames == [] then 0 else 1) && progress == []
    ensures total != 0 ==> count == |cap.frames| && progress == ProgressReports(count, total)
    ensures writer != null ==> !writer.released && writer.written == AnnotateAll(cap.frames[..count], conf, infer, fixed2)
    ensures processed == LastDrawn(cap.frames[..count], conf, infer, fixed2)
  {
    count := 0;
    processed := None;  // unbound until the first frame
    progress := [];
    assert cap.frames[..0] == [];
    while true
      invariant cap.Valid() && cap.IsOpened() && cap.position == count
      invariant writer != null ==> !writer.released && writer.written == AnnotateAll(cap.frames[..count], conf, infer, fixed2)
      invariant processed == LastDrawn(cap.frames[..count], conf, infer, fixed2)
      invariant total == 0 ==> count == 0 && progress == []
      invariant total != 0 ==> progress == ProgressReports(count, total)
      decreases |cap.frames| - cap.position
    {
      var ok, drawn := ProcessNext(cap, writer, conf, infer, fixed2);
      if !ok {
        break;
      }
      count := count + 1;
      processed := Some(drawn);
      if total == 0 {
        return;
      }
      progress := progress + [Progress(count, total)];
    }
  }

  /** `process_video`: runs detection and drawing on every frame of the
      capture OpenCV opened for the upload, in order, reports progress after
      each, writes the annotated frames when asked to, and releases the
      capture and the writer on every exit path. */
  method ProcessVideo(cap: FrameSource, directory: string, fileName: string, saveOutput: bool,
                      conf: real, infer: (Frame, real) -> Option<ModelOutput>, fixed2: real -> string, elapsed: real)
    returns (outcome: JobOutcome, progress: seq<real>, writer: VideoWriter?)
    requires cap.Valid() && cap.position == 0 && !cap.released
    modifies cap
    ensures cap.released
    ensures writer != null <==> cap.canOpen && saveOutput
    ensures writer != null ==> fresh(writer) && writer.released && writer.path == OutputPath(directory, fileName)
    ensures var run := RunSpec(cap.frames, cap.canOpen, cap.reportedFrameCount, saveOutput,
                               directory, fileName, conf, infer, fixed2, elapsed);
      && outcome == run.outcome
      && progress == run.progress
      && (writer != null ==> writer.written == run.written)
  {
    writer := null;
    progress := [];
    if !cap.IsOpened() {
      cap.Release();
      return Failed(CouldNotOpenVideo), progress, writer;
    }
    var total := cap.reportedFrameCount;
    if saveOutput {
      writer := new VideoWriter(OutputPath(directory, fileName));
    }
    var count, processed;
    count, processed, progress := ProcessFrames(cap, writer, total, conf, infer, fixed2);
    cap.Release();
    if total == 0 && count > 0 {
      if writer != null {
        writer.Release();
      }
      return Failed(ProgressDivisionByZero), progress, writer;
    }
    assert cap.frames[..count] == cap.frames;
    if writer != null {
      if processed.None? {
        writer.Release();
        return Failed(NoFrameToWrite), progress, writer;
      }
      writer.Write(processed.value);
      writer.Release();
    }
    var url := if saveOutput then Some(SaveVideoResult(OutputPath(directory, fileName), fileName)) else None;
    outcome := Completed(JobResult(elapsed, count, url));
  }

  /** A video that cannot be opened fails before any PROGRESS update. */
  lemma UnopenedFailsWithoutProgress(frames: seq<Frame>, total: int, saveOutput: bool, directory: string,
                                     fileName: string, conf: real, infer: (Frame, real) -> Option<ModelOutput>,
                                     fixed2: real -> string, elapsed: real)
    ensures var run := RunSpec(frames, false, total, saveOutput, directory, fileName, conf, infer, fixed2, elapsed);
      run.outcome == Failed(CouldNotOpenVideo) && run.progress == [] && run.written == []
  {
  }

  /** A completed run counted every frame, reported once per frame, and names
      an output video exactly when output was requested. */
  lemma CompletedRun(frames: seq<Frame>, canOpen: bool, total: int, saveOutput: bool, directory: string,
                     fileName: string, conf: real, infer: (Frame, real) -> Option<ModelOutput>, fixed2: real -> string, elapsed: real)
    requires RunSpec(frames, canOpen, total, saveOutput, directory, fileName, conf, infer, fixed2, elapsed).outcome.Completed?
    ensures var run := RunSpec(frames, canOpen, total, saveOutput, directory, fileName, conf, infer, fixed2, elapsed);
      && run.outcome.result.framesProcessed == |frames|
      && |run.progress| == |frames|
      && run.outcome.result.processingTime == elapsed
      && (run.outcome.result.outputVideoUrl.Some? <==> saveOutput)
      && (saveOutput ==> OriginalOfResultUrl(run.outcome.result.outputVideoUrl.value) == Some(fileName))
  {
  }

  lemma DivideMonotone(a: real, b: real, t: real)
    requires 0.0 <= a <= b && t > 0.0
    ensures a / t * 100.0 <= b / t * 100.0
  {
    assert a / t <= b / t;
  }

  /** With a positive reported frame count, reported progress never goes
      down, and it ends at exactly 100 when the count was right. */
  lemma {:induction false} ProgressNonDecreasing(n: nat, total: int, i: nat, j: nat)
    requires total > 0 && i <= j < n
    ensures ProgressReports(n, total)[i] <= ProgressReports(n, total)[j]
    ensures n == total ==> ProgressReports(n, total)[n - 1] == 100.0
  {
    DivideMonotone((i + 1) as real, (j + 1) as real, total as real);
    if n == total {
      assert (n as real / total as real) == 1.0;
    }
  }

  /** A container that reports too few frames drives progress past 100. */
  lemma UndercountOvershoots(n: nat, total: int)
    requires 0 < total < n
    ensures ProgressReports(n, total)[n - 1] > 100.0
  {
    assert n as real / total as real > 1.0;
  }

  /** With output requested, every processed frame is written in order and
      the last one is written a second time after the loop. */
  lemma {:induction false} CompletedOutputFrames(frames: seq<Frame>, total: int, directory: string,
                     fileName: string, conf: real, infer: (Frame, real) -> Option<ModelOutput>, fixed2: real -> string, elapsed: real)
    requires RunSpec(frames, true, total, true, directory, fileName, conf, infer, fixed2, elapsed).outcome.Completed?
    ensures var written := RunSpec(frames, true, total, true, directory, fileName, conf, infer, fixed2, elapsed).written;
      && |written| == |frames| + 1
      && (forall k :: 0 <= k < |frames| ==> written[k] == AnnotateFrame(frames[k], conf, infer, fixed2))
      && written[|frames|] == written[|frames| - 1]
  {
    var drawn := AnnotateAll(frames, conf, infer, fixed2);
    var written := drawn + [drawn[|drawn| - 1]];
    assert forall k :: 0 <= k < |frames| ==> written[k] == drawn[k];
  }

  /** A video with no readable frame cannot complete when output is
      requested: the post-loop write names a frame that was never read. */
  lemma EmptyVideoWithOutputFails(total: int, directory: string, fileName: string,
                                  conf: real, infer: (Frame, real) -> Option<ModelOutput>, fixed2: real -> string, elapsed: real)
    ensures RunSpec([], true, total, true, directory, fileName, conf, infer, fixed2, elapsed).outcome == Failed(NoFrameToWrite)
    ensures RunSpec([], true, total, false, directory, fileName, conf, infer, fixed2, elapsed).outcome
      == Completed(JobResult(elapsed, 0, None))
  {
  }

  /** A reported frame count of 0 fails the job after its first frame was
      processed (and, with output, written) and before any progress update. */
  lemma ZeroFrameCountFails(frames: seq<Frame>, saveOutput: bool, directory: string, fileName: string,
                            conf: real, infer: (Frame, real) -> Option<ModelOutput>, fixed2: real -> string, elapsed: real)
    requires frames != []
    ensures var run := RunSpec(frames, true, 0, saveOutput, directory, fileName, conf, infer, fixed2, elapsed);
      && run.outcome == Failed(ProgressDivisionByZero)
      && run.progress == []
      && (saveOutput ==> run.written == [AnnotateFrame(frames[0], conf, infer, fixed2)])
  {
  }
}
