/**
  SquatManager: the squat repetition classifier. Each camera frame is smoothed,
  reduced to the knee angle (hip-knee-ankle, right leg preferred) and fed to a
  hysteresis state machine; a completed rep bumps the counters, and the rep
  that reaches the target lifts the shield for 15 minutes.
 */
module Squats {
  import opened Wrappers
  import opened Pose
  import opened SharedModel
  import opened Stats
  import opened JointSmoothing
  import opened Blocking

  datatype SquatState = Idle | Descending | Bottom | Ascending | Completed

  const NormalTarget := 5
  const BossTarget := 10
  /** Probability of a boss fight: the draw from [0, 1] must fall below it. */
  const BossChance := 0.05
  const SmoothingWindow: nat := 6

  const RightLeg := Limb(RightHip, RightKnee, RightAnkle)
  const LeftLeg := Limb(LeftHip, LeftKnee, LeftAnkle)

  /**
    The normalisation tail of `calculateAngle`: a negative difference is moved
    up by 360, and a reflex angle is replaced by its complement to 360.
   */
  function NormalizeAngle(raw: real): (degrees: real)
    ensures -360.0 < raw < 360.0 ==> 0.0 <= degrees <= 180.0
    ensures 0.0 <= raw <= 180.0 ==> degrees == raw
  {
    var d := if raw < 0.0 then raw + 360.0 else raw;
    if d > 180.0 then 360.0 - d else d
  }

  /** Swapping the outer points negates the raw difference and leaves the angle unchanged. */
  lemma NormalizeSymmetric(raw: real)
    requires -360.0 < raw < 360.0
    ensures NormalizeAngle(-raw) == NormalizeAngle(raw)
  {
  }

  function KneeAngle(leg: Triple, bearing: Bearing): real
  {
    NormalizeAngle(bearing(leg.p1, leg.p2, leg.p3))
  }

  /** The classifier's observable state: phase, the rep-ready flag, the count and the feedback text. */
  datatype Classifier = Classifier(state: SquatState, repReady: bool, count: int, feedback: string)

  /** Whether a frame at `angle` completes a repetition. */
  predicate CompletesRep(c: Classifier, angle: real)
  {
    c.state == Ascending && angle > 160.0 && c.repReady
  }

  /** `completeRep`'s effect on the classifier. */
  function CompletedRep(c: Classifier, target: int): Classifier
  {
    var n := c.count + 1;
    Classifier(Completed, false, n, if n == target then "UNLOCKED!" else "Good rep!")
  }

  /** One frame of the `checkSquat` switch. */
  function Step(c: Classifier, angle: real, boss: bool, target: int): Classifier
  {
    match c.state
    case Idle | Completed =>
      if angle > 160.0 then
        c.(state := Idle, repReady := false, feedback := if boss then c.feedback else "Squat down!")
      else if angle < 150.0 then c.(state := Descending, feedback := "Going down...")
      else c
    case Descending =>
      if angle < 100.0 then c.(state := Bottom, repReady := true, feedback := "Hold...")
      else if angle > 160.0 then c.(state := Idle, feedback := "Squat down!")
      else c
    case Bottom =>
      if angle > 120.0 then c.(state := Ascending, feedback := "Push up!") else c
    case Ascending =>
      if angle > 160.0 then (if c.repReady then CompletedRep(c, target) else c.(state := Idle))
      else if angle < 100.0 then c.(state := Bottom)
      else c
  }

  /** `repReady` is set exactly in the bottom and ascending phases. */
  predicate ReadyIffLow(c: Classifier)
  {
    c.repReady <==> (c.state == Bottom || c.state == Ascending)
  }

  /**
    Every frame keeps `repReady` in step with the phase, so an ascending frame
    above 160 always completes a rep: the "should not happen" branch is dead.
   */
  lemma StepKeepsReadyIffLow(c: Classifier, angle: real, boss: bool, target: int)
    requires ReadyIffLow(c)
    ensures ReadyIffLow(Step(c, angle, boss, target))
    ensures c.state == Ascending && angle > 160.0 ==> CompletesRep(c, angle)
  {
  }

  /** From rest, an angle in the band [150, 160] changes nothing. */
  lemma HysteresisBand(c: Classifier, angle: real, boss: bool, target: int)
    requires c.state == Idle || c.state == Completed
    requires 150.0 <= angle <= 160.0
    ensures Step(c, angle, boss, target) == c
  {
  }

  /** A descent above 160 is aborted without counting; below 100 it reaches the bottom, armed. */
  lemma DescendingExits(c: Classifier, angle: real, boss: bool, target: int)
    requires c.state == Descending
    ensures angle > 160.0 ==> Step(c, angle, boss, target).state == Idle && Step(c, angle, boss, target).count == c.count
    ensures angle < 100.0 ==> Step(c, angle, boss, target).state == Bottom && Step(c, angle, boss, target).repReady
  {
  }

  /** The count moves only on a completing frame, by exactly one, into the completed phase. */
  lemma StepCount(c: Classifier, angle: real, boss: bool, target: int)
    ensures Step(c, angle, boss, target).count == c.count + (if CompletesRep(c, angle) then 1 else 0)
    ensures CompletesRep(c, angle) ==> Step(c, angle, boss, target).state == Completed
    ensures CompletesRep(c, angle) ==> (Step(c, angle, boss, target).feedback == "UNLOCKED!" <==> c.count + 1 == target)
  {
  }

  /** The classifier after a sequence of frames. */
  function Run(c: Classifier, angles: seq<real>, boss: bool, target: int): Classifier
    decreases |angles|
  {
    if angles == [] then c else Run(Step(c, angles[0], boss, target), angles[1..], boss, target)
  }

  /** The number of frames in the sequence that request the unlock. */
  function Unlocks(c: Classifier, angles: seq<real>, boss: bool, target: int): nat
    decreases |angles|
  {
    if angles == [] then 0
    else (if CompletesRep(c, angles[0]) && c.count + 1 == target then 1 else 0)
         + Unlocks(Step(c, angles[0], boss, target), angles[1..], boss, target)
  }

  /** The count never decreases and grows by at most one per frame. */
  lemma {:induction false} RunCountBounds(c: Classifier, angles: seq<real>, boss: bool, target: int)
    ensures c.count <= Run(c, angles, boss, target).count <= c.count + |angles|
    decreases |angles|
  {
    if angles != [] {
      StepCount(c, angles[0], boss, target);
      RunCountBounds(Step(c, angles[0], boss, target), angles[1..], boss, target);
    }
  }

  /**
    The unlock is requested exactly once: on the one frame where the count
    reaches the target, and only if it does.
   */
  lemma {:induction false} UnlockExactlyOnce(c: Classifier, angles: seq<real>, boss: bool, target: int)
    ensures Unlocks(c, angles, boss, target) == if c.count < target <= Run(c, angles, boss, target).count then 1 else 0
    decreases |angles|
  {
    if angles != [] {
      var next := Step(c, angles[0], boss, target);
      StepCount(c, angles[0], boss, target);
      UnlockExactlyOnce(next, angles[1..], boss, target);
      RunCountBounds(next, angles[1..], boss, target);
    }
  }

  function Initial(boss: bool): Classifier
  {
    Classifier(Idle, false, 0, if boss then "BOSS FIGHT! 10 Reps!" else "Stand in frame")
  }

  /** Stand, descend, bottom out, rise, stand: one rep, ending in the completed phase. */
  lemma OneSquat(boss: bool, target: int)
    ensures Run(Initial(boss), [170.0, 140.0, 90.0, 130.0, 170.0], boss, target).count == 1
    ensures Run(Initial(boss), [170.0, 140.0, 90.0, 130.0, 170.0], boss, target).state == Completed
  {
    var s := [170.0, 140.0, 90.0, 130.0, 170.0];
    var c1 := Step(Initial(boss), 170.0, boss, target);
    var c2 := Step(c1, 140.0, boss, target);
    var c3 := Step(c2, 90.0, boss, target);
    var c4 := Step(c3, 130.0, boss, target);
    assert c4.state == Ascending && c4.repReady && c4.count == 0;
    assert s[1..] == [140.0, 90.0, 130.0, 170.0];
    assert s[1..][1..] == [90.0, 130.0, 170.0];
    assert s[1..][1..][1..] == [130.0, 170.0];
    assert s[1..][1..][1..][1..] == [170.0];
  }

  /** A dip only to 155 never leaves rest and counts nothing. */
  lemma ShallowDip(boss: bool, target: int)
    ensures Run(Initial(boss), [170.0, 155.0, 170.0], boss, target).state == Idle
    ensures Run(Initial(boss), [170.0, 155.0, 170.0], boss, target).count == 0
  {
    var s := [170.0, 155.0, 170.0];
    assert s[1..] == [155.0, 170.0];
    assert s[1..][1..] == [170.0];
  }

  class SquatManager {
    var squatCount: int
    var feedbackText: string
    const isBossMode: bool
    const targetSquats: int
    var state: SquatState
    var stats: UserStats?
    const smoother: JointSmoother
    var repReady: bool
    const blocking: BlockingManager

    function Snapshot(): Classifier
      reads this
    {
      Classifier(state, repReady, squatCount, feedbackText)
    }

    /** `init`: `bossDraw` is the `Double.random(in: 0...1)` draw; below 0.05 it is a boss fight of 10 reps. */
    constructor (bossDraw: real, blocking: BlockingManager)
      requires 0.0 <= bossDraw <= 1.0
      ensures isBossMode <==> bossDraw < BossChance
      ensures targetSquats == if isBossMode then BossTarget else NormalTarget
      ensures Snapshot() == Initial(isBossMode) && ReadyIffLow(Snapshot())
      ensures fresh(smoother) && smoother.windowSize == SmoothingWindow && smoother.history == map[]
      ensures stats == null && this.blocking == blocking
    {
      squatCount := 0;
      state := Idle;
      stats := null;
      smoother := new JointSmoother(SmoothingWindow);
      repReady := false;
      this.blocking := blocking;
      if bossDraw < BossChance {
        isBossMode := true;
        targetSquats := BossTarget;
        feedbackText := "BOSS FIGHT! 10 Reps!";
      } else {
        isBossMode := false;
        targetSquats := NormalTarget;
        feedbackText := "Stand in frame";
      }
    }

    /** `setContext`/`fetchStats`: use the stored record, or insert a fresh one when there is none. */
    method SetContext(fetched: UserStats?)
      modifies this
      ensures stats != null
      ensures fetched != null ==> stats == fetched
      ensures fetched == null ==> fresh(stats) && stats.IsFresh()
      ensures Snapshot() == old(Snapshot())
    {
      if fetched != null {
        stats := fetched;
      } else {
        stats := new UserStats();
      }
    }

    /**
      What one frame does outside the classifier: a completed rep adds one to
      `totalSquats`, one to `squatsBanked` when it is beyond the target, and the
      rep that reaches the target starts a 15-minute global session.
     */
    twostate predicate FrameEffects(rep: bool, now: int, accepted: bool)
      reads this, stats, blocking, blocking.store, blocking.center, blocking.defaults
    {
      && stats == old(stats)
      && (stats != null ==>
            && stats.totalSquats == old(stats.totalSquats) + (if rep then 1 else 0)
            && stats.squatsBanked == old(stats.squatsBanked) + (if rep && squatCount > targetSquats then 1 else 0)
            && stats.LedgerAndSettingsUnchanged())
      && if rep && squatCount == targetSquats
         then SessionStarted(blocking, CeilMinutes(DefaultUnblockSeconds), None, now, accepted)
         else Untouched(blocking)
    }

    method Process(joints: Joints, bearing: Bearing, now: int, accepted: bool)
      modifies this, smoother, stats, blocking, blocking.store, blocking.center, blocking.defaults
      ensures smoother.history == NextHistories(old(smoother.history), joints, smoother.windowSize)
      ensures match PreferRight(SmoothedFrame(smoother.history, joints), RightLeg, LeftLeg)
              case Some(leg) =>
                && Snapshot() == Step(old(Snapshot()), KneeAngle(leg, bearing), isBossMode, targetSquats)
                && FrameEffects(CompletesRep(old(Snapshot()), KneeAngle(leg, bearing)), now, accepted)
              case None =>
                Snapshot() == old(Snapshot()) && FrameEffects(false, now, accepted)
    {
      var smoothed := smoother.Smooth(joints);
      var leg := PreferRight(smoothed, RightLeg, LeftLeg);
      if leg.Some? {
        CheckSquat(leg.value.p1, leg.value.p2, leg.value.p3, bearing, now, accepted);
      }
    }

    method CheckSquat(hip: Point, knee: Point, ankle: Point, bearing: Bearing, now: int, accepted: bool)
      modifies this, stats, blocking, blocking.store, blocking.center, blocking.defaults
      ensures Snapshot() == Step(old(Snapshot()), KneeAngle(Triple(hip, knee, ankle), bearing), isBossMode, targetSquats)
      ensures FrameEffects(CompletesRep(old(Snapshot()), KneeAngle(Triple(hip, knee, ankle), bearing)), now, accepted)
      ensures ReadyIffLow(old(Snapshot())) ==> ReadyIffLow(Snapshot())
    {
      if ReadyIffLow(Snapshot()) {
        StepKeepsReadyIffLow(Snapshot(), KneeAngle(Triple(hip, knee, ankle), bearing), isBossMode, targetSquats);
      }
      var angle := NormalizeAngle(bearing(hip, knee, ankle));
      match state
      case Idle | Completed =>
        if angle > 160.0 {
          state := Idle;
          repReady := false;
          if !isBossMode { feedbackText := "Squat down!"; }
        } else if angle < 150.0 {
          state := Descending;
          feedbackText := "Going down...";
        }
      case Descending =>
        if angle < 100.0 {
          state := Bottom;
          repReady := true;
          feedbackText := "Hold...";
        } else if angle > 160.0 {
          state := Idle;
          feedbackText := "Squat down!";
        }
      case Bottom =>
        if angle > 120.0 {
          state := Ascending;
          feedbackText := "Push up!";
        }
      case Ascending =>
        if angle > 160.0 {
          if repReady {
            CompleteRep(now, accepted);
          } else {
            state := Idle;
          }
        } else if angle < 100.0 {
          state := Bottom;
        }
    }

    method CompleteRep(now: int, accepted: bool)
      modifies this, stats, blocking, blocking.store, blocking.center, blocking.defaults
      ensures Snapshot() == CompletedRep(old(Snapshot()), targetSquats)
      ensures FrameEffects(true, now, accepted)
    {
      state := Completed;
      squatCount := squatCount + 1;
      repReady := false;
      if stats != null {
        stats.totalSquats := stats.totalSquats + 1;
        if squatCount > targetSquats {
          stats.squatsBanked := stats.squatsBanked + 1;
        }
      }
      feedbackText := "Good rep!";
      if squatCount == targetSquats {
        feedbackText := "UNLOCKED!";
        blocking.UnblockTemporarily(DefaultUnblockSeconds, None, now, accepted);
      }
    }
  }
}
