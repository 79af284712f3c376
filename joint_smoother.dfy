/**
  JointSmoother: a bounded moving-average filter kept per joint. Each frame
  appends the joint's new point to its history, evicts the oldest point once
  the history is longer than the window, and reports the history's mean.
 */
module JointSmoothing {
  import opened Pose

  /** Left-to-right sum of the x coordinates, as `reduce(0) { $0 + $1.x }` computes it. */
  function SumX(ps: seq<Point>): real
  {
    if ps == [] then 0.0 else SumX(ps[..|ps| - 1]) + ps[|ps| - 1].x
  }

  /** Left-to-right sum of the y coordinates. */
  function SumY(ps: seq<Point>): real
  {
    if ps == [] then 0.0 else SumY(ps[..|ps| - 1]) + ps[|ps| - 1].y
  }

  /** `calculateAverage`: the arithmetic mean of the points, the origin for none. */
  function Average(ps: seq<Point>): Point
  {
    if ps == [] then Origin
    else Point(SumX(ps) / |ps| as real, SumY(ps) / |ps| as real)
  }

  predicate BoundedBy(ps: seq<Point>, lo: Point, hi: Point)
  {
    forall i :: 0 <= i < |ps| ==> lo.x <= ps[i].x <= hi.x && lo.y <= ps[i].y <= hi.y
  }

  /** The x sum of points bounded by `lo` and `hi` lies between count times the bounds. */
  lemma {:induction false} SumXBounded(ps: seq<Point>, lo: Point, hi: Point)
    requires BoundedBy(ps, lo, hi)
    ensures |ps| as real * lo.x <= SumX(ps) <= |ps| as real * hi.x
  {
    if ps != [] {
      var init, last := ps[..|ps| - 1], ps[|ps| - 1];
      assert BoundedBy(init, lo, hi) by {
        assert forall i :: 0 <= i < |init| ==> init[i] == ps[i];
      }
      SumXBounded(init, lo, hi);
      SumStep(|init| as real, SumX(init), last.x, lo.x, hi.x);
    }
  }

  /** The y sum of points bounded by `lo` and `hi` lies between count times the bounds. */
  lemma {:induction false} SumYBounded(ps: seq<Point>, lo: Point, hi: Point)
    requires BoundedBy(ps, lo, hi)
    ensures |ps| as real * lo.y <= SumY(ps) <= |ps| as real * hi.y
  {
    if ps != [] {
      var init, last := ps[..|ps| - 1], ps[|ps| - 1];
      assert BoundedBy(init, lo, hi) by {
        assert forall i :: 0 <= i < |init| ==> init[i] == ps[i];
      }
      SumYBounded(init, lo, hi);
      SumStep(|init| as real, SumY(init), last.y, lo.y, hi.y);
    }
  }

  lemma SumStep(n: real, sum: real, x: real, lo: real, hi: real)
    requires n * lo <= sum <= n * hi && lo <= x <= hi
    ensures (n + 1.0) * lo <= sum + x <= (n + 1.0) * hi
  {
  }

  /** Each smoothed coordinate lies within the range of the retained points' coordinates. */
  lemma AverageWithinBounds(ps: seq<Point>, lo: Point, hi: Point)
    requires ps != [] && BoundedBy(ps, lo, hi)
    ensures lo.x <= Average(ps).x <= hi.x
    ensures lo.y <= Average(ps).y <= hi.y
  {
    MeanXBounded(ps, lo, hi);
    MeanYBounded(ps, lo, hi);
  }

  lemma MeanXBounded(ps: seq<Point>, lo: Point, hi: Point)
    requires ps != [] && BoundedBy(ps, lo, hi)
    ensures lo.x <= SumX(ps) / |ps| as real <= hi.x
  {
    SumXBounded(ps, lo, hi);
    QuotientBounded(SumX(ps), |ps| as real, lo.x, hi.x);
  }

  lemma MeanYBounded(ps: seq<Point>, lo: Point, hi: Point)
    requires ps != [] && BoundedBy(ps, lo, hi)
    ensures lo.y <= SumY(ps) / |ps| as real <= hi.y
  {
    SumYBounded(ps, lo, hi);
    QuotientBounded(SumY(ps), |ps| as real, lo.y, hi.y);
  }

  lemma QuotientBounded(s: real, n: real, lo: real, hi: real)
    requires n > 0.0 && n * lo <= s <= n * hi
    ensures lo <= s / n <= hi
  {
    assert s == (s / n) * n;
  }

  /** The mean of a constant history is that constant. */
  lemma {:induction false} AverageOfRepeated(p: Point, k: nat)
    requires k > 0
    ensures Average(seq(k, _ => p)) == p
  {
    var ps := seq(k, _ => p);
    SumXBounded(ps, p, p);
    SumYBounded(ps, p, p);
  }

  /** One history update: append the new point, then drop the oldest if over the window. */
  function Pushed(h: seq<Point>, p: Point, window: nat): seq<Point>
  {
    var appended := h + [p];
    if |appended| > window then appended[1..] else appended
  }

  /** The last `window` points of a stream (all of it when shorter). */
  function Recent(s: seq<Point>, window: nat): (r: seq<Point>)
    ensures |r| == if |s| <= window then |s| else window
    ensures r == s[|s| - |r|..]
  {
    if |s| <= window then s else s[|s| - window..]
  }

  /** The history a joint has after it received the points of `stream`, in order. */
  function Fed(h: seq<Point>, stream: seq<Point>, window: nat): seq<Point>
    decreases |stream|
  {
    if stream == [] then h
    else Fed(Pushed(h, stream[0], window), stream[1..], window)
  }

  lemma PushedKeepsRecent(s: seq<Point>, p: Point, window: nat)
    ensures Pushed(Recent(s, window), p, window) == Recent(s + [p], window)
  {
    var r := Recent(s, window);
    if |s| < window {
      assert r == s;
    } else if |s| == window {
      assert r == s && Recent(s + [p], window) == (s + [p])[1..];
    } else {
      assert r == s[|s| - window..];
      assert Recent(s + [p], window) == (s + [p])[|s| + 1 - window..];
      assert (r + [p])[1..] == (s + [p])[|s| + 1 - window..];
    }
  }

  /**
    A joint's history is the most recent `window` points it received, oldest
    first: starting from an empty history, feeding a stream leaves its tail.
   */
  lemma {:induction false} FedIsRecent(s: seq<Point>, stream: seq<Point>, window: nat)
    ensures Fed(Recent(s, window), stream, window) == Recent(s + stream, window)
    decreases |stream|
  {
    if stream != [] {
      var p, rest := stream[0], stream[1..];
      calc {
        Fed(Recent(s, window), stream, window);
        Fed(Pushed(Recent(s, window), p, window), rest, window);
        { PushedKeepsRecent(s, p, window); }
        Fed(Recent(s + [p], window), rest, window);
        { FedIsRecent(s + [p], rest, window); }
        Recent((s + [p]) + rest, window);
        { assert (s + [p]) + rest == s + stream; }
        Recent(s + stream, window);
      }
    }
  }

  lemma FedFromEmpty(stream: seq<Point>, window: nat)
    ensures Fed([], stream, window) == Recent(stream, window)
  {
    FedIsRecent([], stream, window);
    assert [] + stream == stream;
  }

  type Histories = map<JointName, seq<Point>>

  function HistoryOf(h: Histories, j: JointName): seq<Point>
  {
    if j in h then h[j] else []
  }

  /** The histories after one `smooth` call: joints in the frame are pushed, the others kept. */
  function NextHistories(h: Histories, frame: Joints, window: nat): Histories
  {
    map j | j in h.Keys + frame.Keys :: if j in frame then Pushed(HistoryOf(h, j), frame[j], window) else h[j]
  }

  /** Adding one more joint to the frame updates that joint's history only. */
  lemma NextHistoriesStep(h: Histories, done: Joints, j: JointName, p: Point, window: nat)
    requires j !in done
    ensures HistoryOf(NextHistories(h, done, window), j) == HistoryOf(h, j)
    ensures NextHistories(h, done[j := p], window)
         == NextHistories(h, done, window)[j := Pushed(HistoryOf(h, j), p, window)]
  {
  }

  /** The output of one `smooth` call given the updated histories. */
  function SmoothedFrame(h: Histories, frame: Joints): Joints
  {
    map j | j in frame :: Average(HistoryOf(h, j))
  }

  lemma SmoothedFrameStep(h: Histories, done: Joints, j: JointName, p: Point, hj: seq<Point>)
    requires j !in done
    ensures SmoothedFrame(h[j := hj], done[j := p]) == SmoothedFrame(h, done)[j := Average(hj)]
  {
  }

  /** One iteration of `smooth`'s loop: the joint's pushed history and its mean are all that change. */
  lemma SmoothStep(h0: Histories, seen: Joints, j: JointName, p: Point, window: nat)
    requires j !in seen
    ensures var h := NextHistories(h0, seen, window);
            var hj := Pushed(HistoryOf(h, j), p, window);
            && NextHistories(h0, seen[j := p], window) == h[j := hj]
            && SmoothedFrame(h[j := hj], seen[j := p]) == SmoothedFrame(h, seen)[j := Average(hj)]
  {
    var h := NextHistories(h0, seen, window);
    NextHistoriesStep(h0, seen, j, p, window);
    SmoothedFrameStep(h, seen, j, p, Pushed(HistoryOf(h, j), p, window));
  }

  /** The joints of `frame` already handled, given the ones still remaining. */
  predicate HandledPart(seen: Joints, frame: Joints, remaining: set<JointName>)
  {
    seen.Keys == frame.Keys - remaining && forall k :: k in seen ==> seen[k] == frame[k]
  }

  lemma HandledStep(seen: Joints, frame: Joints, remaining: set<JointName>, j: JointName)
    requires HandledPart(seen, frame, remaining) && j in remaining && remaining <= frame.Keys
    ensures j !in seen
    ensures HandledPart(seen[j := frame[j]], frame, remaining - {j})
  {
  }

  lemma HandledAll(seen: Joints, frame: Joints)
    requires HandledPart(seen, frame, {})
    ensures seen == frame
  {
  }

  predicate WithinWindow(h: Histories, window: nat)
  {
    forall j :: j in h ==> |h[j]| <= window
  }

  /** Every history stays within the window. */
  lemma NextHistoriesWithinWindow(h: Histories, frame: Joints, window: nat)
    requires WithinWindow(h, window)
    ensures WithinWindow(NextHistories(h, frame, window), window)
  {
  }

  /** The output has exactly the frame's joints; joints missing from the frame get no output. */
  lemma SmoothedFrameKeys(h: Histories, frame: Joints)
    ensures SmoothedFrame(h, frame).Keys == frame.Keys
  {
  }

  /** Histories of joints absent from the frame are untouched, and no history is lost. */
  lemma NextHistoriesFrame(h: Histories, frame: Joints, window: nat)
    ensures NextHistories(h, frame, window).Keys == h.Keys + frame.Keys
    ensures forall j :: j in h && j !in frame ==> NextHistories(h, frame, window)[j] == h[j]
  {
  }

  /** With a window of at least one the mean is never taken of an empty history. */
  lemma NoEmptyAverage(h: Histories, frame: Joints, window: nat)
    requires window >= 1
    ensures forall j :: j in frame ==> NextHistories(h, frame, window)[j] != []
  {
  }

  class JointSmoother {
    var history: Histories
    const windowSize: nat

    constructor (windowSize: nat)
      ensures this.windowSize == windowSize && history == map[]
    {
      this.windowSize := windowSize;
      history := map[];
    }

    /** `smooth(joints:)`: update each present joint's history and report its mean. */
    method Smooth(joints: Joints) returns (smoothed: Joints)
      modifies this
      ensures history == NextHistories(old(history), joints, windowSize)
      ensures smoothed == SmoothedFrame(history, joints)
    {
      smoothed := map[];
      var remaining := joints.Keys;
      ghost var seen: Joints := map[];
      while remaining != {}
        invariant remaining <= joints.Keys
        invariant HandledPart(seen, joints, remaining)
        invariant history == NextHistories(old(history), seen, windowSize)
        invariant smoothed == SmoothedFrame(history, seen)
        decreases remaining
      {
        var joint :| joint in remaining;
        HandledStep(seen, joints, remaining, joint);
        SmoothStep(old(history), seen, joint, joints[joint], windowSize);
        var average := Record(joint, joints[joint]);
        smoothed := smoothed[joint := average];
        remaining := remaining - {joint};
        seen := seen[joint := joints[joint]];
      }
      HandledAll(seen, joints);
    }

    /** The loop body of `smooth` for one joint: append, evict the oldest beyond the window, average. */
    method Record(joint: JointName, point: Point) returns (average: Point)
      modifies this
      ensures history == old(history)[joint := Pushed(HistoryOf(old(history), joint), point, windowSize)]
      ensures average == Average(history[joint])
    {
      if joint !in history {
        history := history[joint := []];
      }
      history := history[joint := history[joint] + [point]];
      if |history[joint]| > windowSize {
        history := history[joint := history[joint][1..]];
      }
      average := Average(history[joint]);
    }
  }
}
