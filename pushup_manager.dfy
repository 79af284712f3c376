/**
  PushupManager: the push-up repetition classifier. The elbow angle
  (shoulder-elbow-wrist, right arm preferred) drives a two-phase up/down
  machine; a rep counts only when the shoulder also travelled down more than
  0.05 of the frame height while the arm was bent.
 */
module Pushups {
  import opened Wrappers
  import opened Pose
  import opened SharedModel
  import opened Stats
  import opened JointSmoothing
  import opened Blocking
  import Squats

  datatype PushupState = Up | Down

  const TargetPushups := 5
  /** The least shoulder travel (normalised height) that makes a rep count. */
  const MinDisplacement := 0.05
  const SmoothingWindow: nat := 6

  const RightArm := Limb(RightShoulder, RightElbow, RightWrist)
  const LeftArm := Limb(LeftShoulder, LeftElbow, LeftWrist)

  /** The normalisation tail of this `calculateAngle`: absolute value, then the complement of a reflex angle. */
  function NormalizeAngle(raw: real): (degrees: real)
    ensures -360.0 <= raw <= 360.0 ==> 0.0 <= degrees <= 180.0
  {
    var a := if raw < 0.0 then -raw else raw;
    if a > 180.0 then 360.0 - a else a
  }

  /** On every difference `atan2` can produce, both classifiers' normalisations agree. */
  lemma NormalizationsAgree(raw: real)
    requires -360.0 < raw < 360.0
    ensures NormalizeAngle(raw) == Squats.NormalizeAngle(raw)
  {
  }

  function ElbowAngle(arm: Triple, bearing: Bearing): real
  {
    NormalizeAngle(bearing(arm.p1, arm.p2, arm.p3))
  }

  /** One frame's input: the elbow angle and the shoulder's y (0 top, 1 bottom). */
  datatype Frame = Frame(angle: real, shoulderY: real)

  /**
    The classifier's observable state. `minShoulderY` is the source's name; it
    tracks the lowest shoulder position, which is the largest y.
   */
  datatype Classifier = Classifier(state: PushupState, startShoulderY: real, minShoulderY: real, count: int, feedback: string)

  function Lowest(c: Classifier, y: real): real
  {
    if y > c.minShoulderY then y else c.minShoulderY
  }

  /** Whether a frame completes a repetition: arm straightened after enough shoulder travel. */
  predicate CompletesRep(c: Classifier, f: Frame)
  {
    c.state == Down && f.angle > 160.0 && Lowest(c, f.shoulderY) - c.startShoulderY > MinDisplacement
  }

  /** `completeRep`'s effect on the classifier. */
  function CompletedRep(c: Classifier, target: int): Classifier
  {
    var n := c.count + 1;
    c.(count := n, feedback := if n == target then "UNLOCKED!" else "Good pushup!")
  }

  /** One frame of the `checkPushup` switch. */
  function Step(c: Classifier, f: Frame, target: int): Classifier
  {
    match c.state
    case Up =>
      if f.angle < 90.0 then c.(state := Down, startShoulderY := f.shoulderY, minShoulderY := f.shoulderY, feedback := "Push!")
      else c.(feedback := "Go down!")
    case Down =>
      var tracked := c.(minShoulderY := Lowest(c, f.shoulderY));
      if f.angle > 160.0 then
        (if tracked.minShoulderY - tracked.startShoulderY > MinDisplacement then CompletedRep(tracked, target)
         else tracked.(feedback := "Go lower!")).(state := Up)
      else tracked.(feedback := "Push up!")
  }

  /** Going down needs an angle below 90; on entry the baseline and the lowest point are the current shoulder. */
  lemma UpExits(c: Classifier, f: Frame, target: int)
    requires c.state == Up
    ensures Step(c, f, target).state == Down <==> f.angle < 90.0
    ensures f.angle < 90.0 ==> Step(c, f, target).startShoulderY == f.shoulderY == Step(c, f, target).minShoulderY
    ensures Step(c, f, target).count == c.count
  {
  }

  /** While down, the lowest point is the running maximum of y, so it never lies above the baseline. */
  predicate BelowBaseline(c: Classifier)
  {
    c.state == Down ==> c.minShoulderY >= c.startShoulderY
  }

  lemma StepKeepsBelowBaseline(c: Classifier, f: Frame, target: int)
    requires BelowBaseline(c)
    ensures BelowBaseline(Step(c, f, target))
    ensures c.state == Down && Step(c, f, target).state == Down ==>
              Step(c, f, target).minShoulderY == Lowest(c, f.shoulderY) >= c.minShoulderY
  {
  }

  /**
    Straightening the arm while down always returns to up, and counts a rep
    exactly when the shoulder travelled more than 0.05; otherwise it says "Go lower!".
   */
  lemma DownRelease(c: Classifier, f: Frame, target: int)
    requires c.state == Down && f.angle > 160.0
    ensures Step(c, f, target).state == Up
    ensures Step(c, f, target).count == c.count + 1 <==> Lowest(c, f.shoulderY) - c.startShoulderY > MinDisplacement
    ensures Step(c, f, target).count != c.count + 1 ==>
              Step(c, f, target).count == c.count && Step(c, f, target).feedback == "Go lower!"
  {
  }

  /** Down with the arm still bent (angle at most 160): stays down, nothing counted. */
  lemma DownHolds(c: Classifier, f: Frame, target: int)
    requires c.state == Down && f.angle <= 160.0
    ensures Step(c, f, target).state == Down && Step(c, f, target).count == c.count
  {
  }

  /** The count moves only on a completing frame, and by exactly one. */
  lemma StepCount(c: Classifier, f: Frame, target: int)
    ensures Step(c, f, target).count == c.count + (if CompletesRep(c, f) then 1 else 0)
  {
  }

  function Run(c: Classifier, frames: seq<Frame>, target: int): Classifier
    decreases |frames|
  {
    if frames == [] then c else Run(Step(c, frames[0], target), frames[1..], target)
  }

  /** The number of frames that request the unlock. */
  function Unlocks(c: Classifier, frames: seq<Frame>, target: int): nat
    decreases |frames|
  {
    if frames == [] then 0
    else (if CompletesRep(c, frames[0]) && c.count + 1 == target then 1 else 0)
         + Unlocks(Step(c, frames[0], target), frames[1..], target)
  }

  lemma {:induction false} RunCountBounds(c: Classifier, frames: seq<Frame>, target: int)
    ensures c.count <= Run(c, frames, target).count <= c.count + |frames|
    decreases |frames|
  {
    if frames != [] {
      StepCount(c, frames[0], target);
      RunCountBounds(Step(c, frames[0], target), frames[1..], target);
    }
  }

  /** The unlock is requested on exactly one frame, the one where the count reaches the target. */
  lemma {:induction false} UnlockExactlyOnce(c: Classifier, frames: seq<Frame>, target: int)
    ensures Unlocks(c, frames, target) == if c.count < target <= Run(c, frames, target).count then 1 else 0
    decreases |frames|
  {
    if frames != [] {
      var next := Step(c, frames[0], target);
      StepCount(c, frames[0], target);
      UnlockExactlyOnce(next, frames[1..], target);
      RunCountBounds(next, frames[1..], target);
    }
  }

  const Initial := Classifier(Up, 0.0, 0.0, 0, "Get in position")

  /** The same bend-and-straighten motion counts with 0.10 of shoulder travel and not with 0.02. */
  lemma DisplacementGuard()
    ensures Run(Initial, [Frame(80.0, 0.50), Frame(170.0, 0.52)], TargetPushups).count == 0
    ensures Run(Initial, [Frame(80.0, 0.50), Frame(170.0, 0.52)], TargetPushups).feedback == "Go lower!"
    ensures Run(Initial, [Frame(80.0, 0.50), Frame(170.0, 0.60)], TargetPushups).count == 1
    ensures Run(Initial, [Frame(80.0, 0.50), Frame(170.0, 0.60)], TargetPushups).state == Up
  {
    var shallow := [Frame(80.0, 0.50), Frame(170.0, 0.52)];
    var deep := [Frame(80.0, 0.50), Frame(170.0, 0.60)];
    assert shallow[1..] == [Frame(170.0, 0.52)];
    assert deep[1..] == [Frame(170.0, 0.60)];
  }

  class PushupManager {
    var pushupCount: int
    var feedbackText: string
    const targetPushups: int
    var state: PushupState
    var stats: UserStats?
    const smoother: JointSmoother
    var startShoulderY: real
    var minShoulderY: real
    const blocking: BlockingManager

    function Snapshot(): Classifier
      reads this
    {
      Classifier(state, startShoulderY, minShoulderY, pushupCount, feedbackText)
    }

    constructor (blocking: BlockingManager)
      ensures Snapshot() == Initial && targetPushups == TargetPushups
      ensures fresh(smoother) && smoother.windowSize == SmoothingWindow && smoother.history == map[]
      ensures stats == null && this.blocking == blocking
    {
      pushupCount := 0;
      feedbackText := "Get in position";
      targetPushups := TargetPushups;
      state := Up;
      stats := null;
      smoother := new JointSmoother(SmoothingWindow);
      startShoulderY, minShoulderY := 0.0, 0.0;
      this.blocking := blocking;
    }

    /** `setContext`/`fetchStats`: use the stored record, or insert a fresh one when there is none. */
    method SetContext(fetched: UserStats?)
      modifies this
      ensures stats != null
      ensures fetched != null ==> stats == fetched
      ensures fetched == null ==> fresh(stats) && stats.IsFresh()
      ensures Snapshot() == old(Snapshot())
    {
      if fetched != null {
        stats := fetched;
      } else {
        stats := new UserStats();
      }
    }

    /**
      What one frame does outside the classifier: a completed rep adds one to
      `totalSquats` (push-ups are recorded there too), and the rep that reaches
      the target starts a 15-minute global session.
     */
    twostate predicate FrameEffects(rep: bool, now: int, accepted: bool)
      reads this, stats, blocking, blocking.store, blocking.center, blocking.defaults
    {
      && stats == old(stats)
      && (stats != null ==>
            && stats.totalSquats == old(stats.totalSquats) + (if rep then 1 else 0)
            && stats.squatsBanked == old(stats.squatsBanked)
            && stats.LedgerAndSettingsUnchanged())
      && if rep && pushupCount == targetPushups
         then SessionStarted(blocking, CeilMinutes(DefaultUnblockSeconds), None, now, accepted)
         else Untouched(blocking)
    }

    method Process(joints: Joints, bearing: Bearing, now: int, accepted: bool)
      modifies this, smoother, stats, blocking, blocking.store, blocking.center, blocking.defaults
      ensures smoother.history == NextHistories(old(smoother.history), joints, smoother.windowSize)
      ensures match PreferRight(SmoothedFrame(smoother.history, joints), RightArm, LeftArm)
              case Some(arm) =>
                && Snapshot() == Step(old(Snapshot()), Frame(ElbowAngle(arm, bearing), arm.p1.y), targetPushups)
                && FrameEffects(CompletesRep(old(Snapshot()), Frame(ElbowAngle(arm, bearing), arm.p1.y)), now, accepted)
              case None =>
                Snapshot() == old(Snapshot()) && FrameEffects(false, now, accepted)
    {
      var smoothed := smoother.Smooth(joints);
      var arm := PreferRight(smoothed, RightArm, LeftArm);
      if arm.Some? {
        CheckPushup(arm.value.p1, arm.value.p2, arm.value.p3, bearing, now, accepted);
      }
    }

    method CheckPushup(shoulder: Point, elbow: Point, wrist: Point, bearing: Bearing, now: int, accepted: bool)
      modifies this, stats, blocking, blocking.store, blocking.center, blocking.defaults
      ensures Snapshot() == Step(old(Snapshot()), Frame(ElbowAngle(Triple(shoulder, elbow, wrist), bearing), shoulder.y), targetPushups)
      ensures FrameEffects(CompletesRep(old(Snapshot()), Frame(ElbowAngle(Triple(shoulder, elbow, wrist), bearing), shoulder.y)), now, accepted)
      ensures BelowBaseline(old(Snapshot())) ==> BelowBaseline(Snapshot())
    {
      if BelowBaseline(Snapshot()) {
        StepKeepsBelowBaseline(Snapshot(), Frame(ElbowAngle(Triple(shoulder, elbow, wrist), bearing), shoulder.y), targetPushups);
      }
      var angle := NormalizeAngle(bearing(shoulder, elbow, wrist));
      match state
      case Up =>
        if angle < 90.0 {
          state := Down;
          startShoulderY := shoulder.y;
          minShoulderY := shoulder.y;
          feedbackText := "Push!";
        } else {
          feedbackText := "Go down!";
        }
      case Down =>
        if shoulder.y > minShoulderY {
          minShoulderY := shoulder.y;
        }
        if angle > 160.0 {
          var distance := minShoulderY - startShoulderY;
          if distance > MinDisplacement {
            CompleteRep(now, accepted);
          } else {
            feedbackText := "Go lower!";
          }
          state := Up;
        } else {
          feedbackText := "Push up!";
        }
    }

    method CompleteRep(now: int, accepted: bool)
      modifies this, stats, blocking, blocking.store, blocking.center, blocking.defaults
      ensures Snapshot() == CompletedRep(old(Snapshot()), targetPushups)
      ensures FrameEffects(true, now, accepted)
    {
      pushupCount := pushupCount + 1;
      if stats != null {
        stats.totalSquats := stats.totalSquats + 1;
      }
      feedbackText := "Good pushup!";
      if pushupCount == targetPushups {
        feedbackText := "UNLOCKED!";
        blocking.UnblockTemporarily(DefaultUnblockSeconds, None, now, accepted);
      }
    }
  }
}
