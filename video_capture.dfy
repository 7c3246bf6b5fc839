/** Frame capture: the OpenCV capture handle as an abstract frame source, and
    the `VideoCapture` wrapper of src/utils/video_capture.py around it. */
module Capture {
  import opened Common

  /** An OpenCV capture handle over a camera or a video file: the frames it
      will deliver, whether opening succeeded, the frame count the container
      reports (which may disagree with the real count), a read cursor and
      whether it has been released. */
  class FrameSource {
    const frames: seq<Frame>
    const canOpen: bool
    const reportedFrameCount: int
    var position: nat
    var released: bool

    ghost predicate Valid()
      reads this
    {
      position <= |frames|
    }

    constructor (frames: seq<Frame>, canOpen: bool, reportedFrameCount: int)
      ensures Valid()
      ensures this.frames == frames && this.canOpen == canOpen && this.reportedFrameCount == reportedFrameCount
      ensures position == 0 && !released
    {
      this.frames := frames;
      this.canOpen := canOpen;
      this.reportedFrameCount := reportedFrameCount;
      position := 0;
      released := false;
    }

    /** `isOpened()`. */
    function IsOpened(): bool
      reads this
    {
      canOpen && !released
    }

    /** `read()`: the next frame while the handle is open and frames remain;
        `(false, None)` otherwise, without telling the end of the stream from
        a failure. */
    method Read() returns (ok: bool, frame: Option<Frame>)
      requires Valid()
      modifies this
      ensures Valid() && released == old(released)
      ensures ok <==> frame.Some?
      ensures ok <==> old(IsOpened()) && old(position) < |frames|
      ensures ok ==> frame.value == frames[old(position)] && position == old(position) + 1
      ensures !ok ==> position == old(position)
    {
      if IsOpened() && position < |frames| {
        ok, frame := true, Some(frames[position]);
        position := position + 1;
      } else {
        ok, frame := false, None;
      }
    }

    /** `release()`; releasing again does nothing more. */
    method Release()
      modifies this
      ensures released && position == old(position)
    {
      released := true;
    }
  }

  /** `VideoCapture`: `cap` is None before `start` and after `release`. */
  class VideoCapture {
    /** Camera index or file path, handed to OpenCV when starting. */
    const source: string
    var cap: FrameSource?

    constructor (source: string)
      ensures this.source == source && cap == null
    {
      this.source := source;
      cap := null;
    }

    /** `start`: `opening` is the handle OpenCV builds for `source`, or null
        where building it raised.  A handle that did not open is kept in
        `cap` all the same; a raising constructor leaves `cap` as it was. */
    method Start(opening: FrameSource?) returns (ok: bool)
      requires opening != null ==> !opening.released
      modifies this
      ensures opening == null ==> !ok && cap == old(cap)
      ensures opening != null ==> cap == opening && ok == opening.canOpen
    {
      if opening == null {
        return false;
      }
      cap := opening;
      ok := cap.IsOpened();
    }

    /** `read_frame`: `(false, None)` whenever `cap` is None; otherwise the
        handle's own read. */
    method ReadFrame() returns (ok: bool, frame: Option<Frame>)
      requires cap != null ==> cap.Valid()
      modifies cap
      ensures cap == old(cap)
      ensures ok <==> frame.Some?
      ensures cap == null ==> !ok
      ensures cap != null ==> cap.Valid() && cap.released == old(cap.released)
      ensures cap != null ==>
        (ok <==> old(cap.IsOpened()) && old(cap.position) < |cap.frames|)
        && (ok ==> frame.value == cap.frames[old(cap.position)] && cap.position == old(cap.position) + 1)
        && (!ok ==> cap.position == old(cap.position))
    {
      if cap == null {
        return false, None;
      }
      ok, frame := cap.Read();
    }

    /** `release`: releases the handle if there is one and forgets it, so a
        second call does nothing. */
    method Release()
      modifies this, cap
      ensures cap == null
      ensures old(cap) != null ==> old(cap).released && old(cap).position == old(cap.position)
      ensures old(cap) == null ==> unchanged(this)
    {
      if cap != null {
        cap.Release();
        cap := null;
      }
    }

    /** `__enter__`: starts, ignores whether that worked, and hands back the
        wrapper itself. */
    method Enter(opening: FrameSource?) returns (self: VideoCapture)
      requires opening != null ==> !opening.released
      modifies this
      ensures self == this
      ensures opening == null ==> cap == old(cap)
      ensures opening != null ==> cap == opening
    {
      var _ := Start(opening);
      self := this;
    }

    /** `__exit__`: always releases, however the block ended. */
    method Exit()
      modifies this, cap
      ensures cap == null
      ensures old(cap) != null ==> old(cap).released && old(cap).position == old(cap.position)
    {
      Release();
    }
  }

  /** A `with VideoCapture(...)` block: whatever the body read and whether or
      not the device opened, the handle is released on leaving. */
  method WithCapture(source: string, opening: FrameSource?, attempts: nat) returns (got: seq<Frame>)
    requires opening != null ==> !opening.released && opening.Valid()
    modifies opening
    ensures opening != null ==> opening.released
    ensures opening != null ==> old(opening.position) <= opening.position <= |opening.frames|
    ensures opening == null ==> got == []
    ensures opening != null ==> got == if opening.canOpen then opening.frames[old(opening.position)..opening.position] else []
  {
    var capture := new VideoCapture(source);
    var self := capture.Enter(opening);
    got := [];
    var i := 0;
    while i < attempts
      invariant capture.cap == opening
      invariant opening != null ==> opening.Valid() && !opening.released && old(opening.position) <= opening.position
      invariant opening != null ==> got == if opening.canOpen then opening.frames[old(opening.position)..opening.position] else []
      invariant opening == null ==> got == []
    {
      var ok, frame := capture.ReadFrame();
      if ok {
        got := got + [frame.value];
      }
      i := i + 1;
    }
    capture.Exit();
  }
}
