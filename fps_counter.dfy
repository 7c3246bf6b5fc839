/** `FPSCounter` (src/utils/display_utils.py): a sliding window of the most
    recent timestamps and the frame rate computed over it.  The clock reading
    of each call is an input. */
module DisplayUtils {
  import opened Common

  /** How many timestamps the window keeps for a given `avg_frames`: one
      eviction per call keeps it at `avg_frames`, and at none when that is
      zero or negative. */
  function Capacity(avgFrames: int): nat
  {
    if avgFrames < 0 then 0 else avgFrames
  }

  /** One `update` of the window: append the new timestamp, then drop the
      oldest one if the window is now longer than `avg_frames`. */
  function Slide(window: seq<real>, avgFrames: int, now: real): seq<real>
  {
    var grown := window + [now];
    if |grown| > avgFrames then grown[1..] else grown
  }

  /** An update keeps a suffix of the old window followed by the new
      timestamp, evicting at most one; below capacity the window grows by
      one, and at capacity it keeps its length. */
  lemma SlideShape(window: seq<real>, avgFrames: int, now: real)
    ensures var w := Slide(window, avgFrames, now);
      && |w| <= |window| + 1 && |window| + 1 - |w| <= 1
      && w == (window + [now])[|window| + 1 - |w|..]
      && (|window| <= Capacity(avgFrames) ==>
            |w| == if |window| < Capacity(avgFrames) then |window| + 1 else Capacity(avgFrames))
  {
    var grown := window + [now];
    if |grown| <= avgFrames {
      assert grown[0..] == grown;
    }
  }

  /** The frame rate of a window, `len / (last - first)`; 0.0 for at most one
      timestamp.  None where Python raises ZeroDivisionError: two or more
      timestamps with equal first and last. */
  function Rate(window: seq<real>): (fps: Option<real>)
    ensures |window| <= 1 ==> fps == Some(0.0)
    ensures |window| > 1 ==> (fps.None? <==> window[|window| - 1] == window[0])
    ensures |window| > 1 && fps.Some? ==> fps.value * (window[|window| - 1] - window[0]) == |window| as real
  {
    if |window| > 1 then
      var span := window[|window| - 1] - window[0];
      if span == 0.0 then None else Some(|window| as real / span)
    else Some(0.0)
  }

  /** The window after a whole history of `update` calls on a fresh counter. */
  function WindowAfter(avgFrames: int, history: seq<real>): seq<real>
  {
    if history == [] then []
    else Slide(WindowAfter(avgFrames, history[..|history| - 1]), avgFrames, history[|history| - 1])
  }

  function Min(a: nat, b: nat): nat { if a < b then a else b }

  /** After any history the window holds exactly the most recent
      `min(calls, capacity)` timestamps, in arrival order. */
  lemma {:induction false} WindowIsRecentSuffix(avgFrames: int, history: seq<real>)
    ensures var keep := Min(|history|, Capacity(avgFrames));
      WindowAfter(avgFrames, history) == history[|history| - keep..]
  {
    if history != [] {
      var n := |history|;
      var before := history[..n - 1];
      WindowIsRecentSuffix(avgFrames, before);
      var keep := Min(n - 1, Capacity(avgFrames));
      SuffixSnoc(history, keep);
      var grown := history[n - 1 - keep..];
      assert WindowAfter(avgFrames, history) == if |grown| > avgFrames then grown[1..] else grown;
      if |grown| > avgFrames {
        assert grown[1..] == history[n - keep..];
      }
    }
  }

  /** Extending a history extends each of its suffixes by the same element. */
  lemma SuffixSnoc(history: seq<real>, keep: nat)
    requires keep < |history|
    ensures history[..|history| - 1][|history| - 1 - keep..] + [history[|history| - 1]] == history[|history| - 1 - keep..]
  {
  }

  /** The window never exceeds its capacity, grows by one per call until it
      is full and then keeps its length. */
  lemma WindowLength(avgFrames: int, history: seq<real>, now: real)
    ensures |WindowAfter(avgFrames, history)| == Min(|history|, Capacity(avgFrames))
    ensures |WindowAfter(avgFrames, history + [now])| ==
      if |history| < Capacity(avgFrames) then |history| + 1 else Capacity(avgFrames)
  {
    WindowIsRecentSuffix(avgFrames, history);
    WindowIsRecentSuffix(avgFrames, history + [now]);
  }

  /** The first `update` on a fresh counter always reports 0.0. */
  lemma FirstUpdateIsZero(avgFrames: int, now: real)
    ensures Rate(WindowAfter(avgFrames, [now])) == Some(0.0)
  {
    assert [now][..0] == [];
  }

  class FpsCounter {
    const avgFrames: int
    var times: seq<real>
    /** Every timestamp passed to `update` so far. */
    ghost var history: seq<real>

    ghost predicate Valid()
      reads this
    {
      && times == WindowAfter(avgFrames, history)
      && |times| <= Capacity(avgFrames)
    }

    constructor (avgFrames: int)
      ensures Valid()
      ensures this.avgFrames == avgFrames && times == [] && history == []
    {
      this.avgFrames := avgFrames;
      times := [];
      history := [];
    }

    /** `update`: record `now`, evict at most the oldest timestamp, and report
        the rate over the window (None where Python divides by zero). */
    method Update(now: real) returns (fps: Option<real>)
      requires Valid()
      modifies this
      ensures Valid()
      ensures history == old(history) + [now]
      ensures times == Slide(old(times), avgFrames, now)
      ensures fps == Rate(times)
    {
      SlideShape(times, avgFrames, now);
      history := history + [now];
      assert history[..|history| - 1] == old(history);
      times := times + [now];
      if |times| > avgFrames {
        times := times[1..];
      }
      fps := Rate(times);
    }
  }
}
