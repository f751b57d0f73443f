/**
 * The decisions both parking variants share: elapsed-time gates, the
 * steering ramps, the alignment test on `front_right` against `rear_right`
 * and the lateral-bias test on the two middle sensors.
 */
module Steering {
  import opened Wrappers

  function Abs(x: real): real { if x < 0.0 then -x else x }

  function Max(a: real, b: real): real { if a >= b then a else b }

  /** `_check_time_elapsed`: false for a timer that was never started, else whether `duration` has passed. */
  function TimeElapsed(start: Option<real>, duration: real, now: real): (r: bool)
    ensures r ==> start.Some? && start.value + duration <= now
  {
    start.Some? && now - start.value >= duration
  }

  /** Once a gate has opened it stays open for every later clock reading. */
  lemma TimeElapsedStaysTrue(start: Option<real>, duration: real, now: real, later: real)
    requires TimeElapsed(start, duration, now) && now <= later
    ensures TimeElapsed(start, duration, later)
  {
  }

  /** A timer recorded at `now` has not elapsed at `now` unless its duration is at most zero. */
  lemma FreshTimerNotElapsed(duration: real, now: real)
    ensures TimeElapsed(Some(now), duration, now) <==> duration <= 0.0
  {
  }

  /** How long the reversing right turn is ramped down, in seconds. */
  const RampSeconds: real := 2.0

  /** The right-turn ramp `max(0, angle - (elapsed / 2) * angle)` of the reversing right turn. */
  function RightTurnRamp(angle: real, elapsed: real): (r: real)
    ensures r >= 0.0
    ensures 0.0 <= angle && 0.0 <= elapsed ==> r <= angle
    ensures 0.0 <= angle && elapsed >= RampSeconds ==> r == 0.0
  {
    Max(0.0, angle - (elapsed / RampSeconds) * angle)
  }

  /** The ramp never grows as time passes. */
  lemma RightTurnRampNonIncreasing(angle: real, earlier: real, later: real)
    requires 0.0 <= angle && earlier <= later
    ensures RightTurnRamp(angle, later) <= RightTurnRamp(angle, earlier)
  {
    var d := (later - earlier) / RampSeconds;
    assert d >= 0.0;
    assert d * angle >= 0.0;
    assert (later / RampSeconds) * angle == (earlier / RampSeconds) * angle + d * angle;
  }

  /** Before two seconds have passed a positive angle is still being steered. */
  lemma RightTurnRampPositiveBeforeEnd(angle: real, elapsed: real)
    requires angle > 0.0 && elapsed < RampSeconds
    ensures RightTurnRamp(angle, elapsed) > 0.0
  {
    assert (elapsed / RampSeconds) * angle < angle;
  }

  /** With the default angle of 13 degrees the ramp is at 6.5 degrees after one second and at 0 after two. */
  lemma RightTurnRampDefaults()
    ensures RightTurnRamp(13.0, 1.0) == 6.5
    ensures RightTurnRamp(13.0, 2.0) == 0.0
  {
  }

  /** Result of the alignment test on `front_right` (fr) and `rear_right` (rr). */
  datatype AlignmentResult =
    | InvalidReading      // one of the two readings is at most 0: not aligned, no steering
    | Aligned             // |fr - rr| within the tolerance
    | SteerLeftToAlign    // fr > rr by more than the tolerance
    | SteerRightToAlign   // rr >= fr, further apart than the tolerance

  /** `_check_alignment_completion` / `check_alignment_completion` without their side effects. */
  function AlignmentVerdict(frontRight: real, rearRight: real, tolerance: real): (v: AlignmentResult)
    ensures v == InvalidReading <==> frontRight <= 0.0 || rearRight <= 0.0
    ensures v == Aligned <==> frontRight > 0.0 && rearRight > 0.0 && Abs(frontRight - rearRight) <= tolerance
    ensures v == SteerLeftToAlign ==> frontRight > rearRight
    ensures v == SteerRightToAlign ==> frontRight <= rearRight
  {
    if frontRight <= 0.0 || rearRight <= 0.0 then InvalidReading
    else if Abs(frontRight - rearRight) <= tolerance then Aligned
    else if frontRight - rearRight > 0.0 then SteerLeftToAlign
    else SteerRightToAlign
  }

  /** Outside the tolerance the steering always points toward reducing the difference. */
  lemma AlignmentSteersTowardZero(frontRight: real, rearRight: real, tolerance: real)
    requires frontRight > 0.0 && rearRight > 0.0 && tolerance >= 0.0
    requires Abs(frontRight - rearRight) > tolerance
    ensures AlignmentVerdict(frontRight, rearRight, tolerance) == (if frontRight > rearRight then SteerLeftToAlign else SteerRightToAlign)
  {
  }

  /**
   * The lateral bias the position check reads from the middle sensors;
   * `Unbiased` also stands for every status message that names no bias.
   */
  datatype Bias = Unbiased | LeftBiased | RightBiased

  /**
   * `_check_position_correction_needed` / `check_position_correction_needed`:
   * `Unbiased` when no correction is needed, otherwise the side the vehicle leans to.
   */
  function PositionVerdict(middleRight: real, middleLeft: real, threshold: real): (b: Bias)
    ensures b != Unbiased <==> !(middleRight <= 0.0 && middleLeft <= 0.0) && Abs(middleRight - middleLeft) >= threshold
    ensures b == LeftBiased <==> !(middleRight <= 0.0 && middleLeft <= 0.0) && Abs(middleRight - middleLeft) >= threshold && middleRight > middleLeft
  {
    if middleRight <= 0.0 && middleLeft <= 0.0 then Unbiased
    else if Abs(middleRight - middleLeft) >= threshold then
      (if middleRight > middleLeft then LeftBiased else RightBiased)
    else Unbiased
  }

  /** middle_left = 50 and middle_right = 65 differ by 15 >= 10: the vehicle is left-biased. */
  lemma PositionVerdictExample()
    ensures PositionVerdict(65.0, 50.0, 10.0) == LeftBiased
  {
  }
}
