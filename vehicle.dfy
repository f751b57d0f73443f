/**
 * The simulation's copy of the maneuver: the `Vehicle` object of the pygame
 * simulation, whose `check_*` methods answer a question about the latest
 * sensor readings (and may steer while answering) and whose `start_*`,
 * `stop_*` and `complete_*` methods set speed, steering, latches, timestamps
 * and a fixed phase number. `SimulationTick` is one pass of the simulation
 * loop over those methods, in the loop's own order.
 */
module Simulation {
  import opened Wrappers
  import opened Sensing
  import opened Steering

  /** The five readings `update_sensors` writes on every pass (its ray casting is not modelled). */
  datatype Distances = Distances(frontRight: real, middleLeft: real, middleRight: real, rearLeft: real, rearRight: real)

  /** The readings before the first pass: 100 cm everywhere. */
  const InitialReadings: Distances := Distances(DefaultDistance, DefaultDistance, DefaultDistance, DefaultDistance,
    DefaultDistance)

  /** The three right-hand readings `check_stop_condition` copies. */
  function LateralOf(d: Distances): (r: Samples)
    ensures At(r, FrontRight) == d.frontRight && At(r, MiddleRight) == d.middleRight && At(r, RearRight) == d.rearRight
  {
    Samples(d.frontRight, d.middleRight, d.rearRight)
  }

  /** The simulation's fixed thresholds, durations, speeds and angles. */
  const BackwardStopDistance: real := 40.0
  const SimAlignmentTolerance: real := 0.0
  const SimCorrectionThreshold: real := 10.0
  const StraightBackwardSeconds: real := 0.3
  const AdditionalBackwardSeconds: real := 0.5
  const RightTurnSeconds: real := 1.5
  const CompletionStopSeconds: real := 2.0
  const PhaseFiveAngle: real := 13.0
  const CorrectionAngle: real := 15.0
  const AlignmentAngle: real := 5.0
  const LeftTurnAngle: real := 20.0
  const RightTurnAfterIncreaseAngle: real := 20.0
  const ForwardSpeed: real := 2.0
  const ReverseSpeed: real := -1.0
  const CorrectionSpeed: real := 1.0

  /** The steering `check_alignment_completion` sets for a verdict: -5 to the left, +5 to the right, none otherwise. */
  function AlignmentAngleFor(verdict: AlignmentResult, before: real): (r: real)
    ensures verdict == SteerLeftToAlign ==> r == -AlignmentAngle
    ensures verdict == SteerRightToAlign ==> r == AlignmentAngle
    ensures verdict == Aligned || verdict == InvalidReading ==> r == before
  {
    match verdict
    case SteerLeftToAlign => -AlignmentAngle
    case SteerRightToAlign => AlignmentAngle
    case _ => before
  }

  /** The steering of a left-bias correction `e` seconds in: from +15 down to -15 over two seconds. */
  function LeftCorrectionRamp(e: real): (r: real)
    ensures 0.0 <= e < RampSeconds ==> -CorrectionAngle < r <= CorrectionAngle
    ensures e == 0.0 ==> r == CorrectionAngle
  {
    CorrectionAngle - (e / RampSeconds) * 30.0
  }

  /** The steering of a right-bias correction `e` seconds in: from -15 up to +15 over two seconds. */
  function RightCorrectionRamp(e: real): (r: real)
    ensures 0.0 <= e < RampSeconds ==> -CorrectionAngle <= r < CorrectionAngle
    ensures e == 0.0 ==> r == -CorrectionAngle
  {
    -CorrectionAngle + (e / RampSeconds) * 30.0
  }

  /** The two correction ramps mirror each other at every instant. */
  lemma CorrectionRampsMirror(e: real)
    ensures LeftCorrectionRamp(e) == -RightCorrectionRamp(e)
  {
  }

  /** Each correction ramp turns through straight exactly one second in, and has reversed its side after that. */
  lemma CorrectionRampsCrossAtOneSecond(e: real)
    requires 0.0 <= e < RampSeconds
    ensures LeftCorrectionRamp(e) > 0.0 <==> e < 1.0
    ensures RightCorrectionRamp(e) < 0.0 <==> e < 1.0
    ensures LeftCorrectionRamp(e) == 0.0 <==> e == 1.0
  {
  }

  /**
   * The phase-5 steering of `update`, `elapsed` seconds after the backward start:
   * 13 ramped down to 0 over two seconds, 0 afterwards.
   */
  function PhaseFiveSteering(elapsed: real): (r: real)
    ensures 0.0 <= elapsed ==> 0.0 <= r <= PhaseFiveAngle
    ensures elapsed >= RampSeconds ==> r == 0.0
  {
    if elapsed < RampSeconds then RightTurnRamp(PhaseFiveAngle, elapsed) else 0.0
  }

  /** The phase-5 steering never grows while time passes. */
  lemma PhaseFiveSteeringNonIncreasing(earlier: real, later: real)
    requires 0.0 <= earlier <= later
    ensures PhaseFiveSteering(later) <= PhaseFiveSteering(earlier)
  {
    if later < RampSeconds {
      RightTurnRampNonIncreasing(PhaseFiveAngle, earlier, later);
    }
  }

  /**
   * The phase numbers the simulation loop can move between in one pass: each
   * transition method's fixed phase, in the loop's order, POSITION_CHECK (9)
   * going either to the correction (10) or straight to the two-second stop (12).
   */
  predicate SimFollows(p: int, q: int) {
    q == p || (0 <= p <= 9 && q == p + 1) || (p == 9 && q == 12) || (10 <= p <= 13 && q == p + 1)
  }

  /** No pass of the loop lowers the phase, and none raises it by more than three. */
  lemma SimFollowsRaises(p: int, q: int)
    requires SimFollows(p, q)
    ensures p <= q <= p + 3
    ensures q != p ==> 0 <= p && q <= 14
  {
  }

  class Vehicle {
    var speed: real
    var steeringAngle: real
    var sensorDistances: Distances
    var previousDistances: Samples
    var sensorFlags: set<Lateral>
    var stopDetected: bool
    var initialForwardStarted: bool
    var firstStopCompleted: bool
    var leftTurnStarted: bool
    var secondStopCompleted: bool
    var rightTurnStarted: bool
    var backwardCompleted: bool
    var alignmentCompleted: bool
    var straightBackwardStarted: bool
    var correctionStarted: bool
    var leftCorrectionStarted: bool
    var rightCorrectionStarted: bool
    var correctionStartTime: Option<real>
    var rearRightPrevious: real
    var backwardStartTime: Option<real>
    var straightBackwardStartTime: Option<real>
    var correctionCompleted: bool
    var postCorrectionBackwardStarted: bool
    var postCorrectionBackwardStartTime: Option<real>
    var additionalBackwardStartTime: Option<real>
    var parkingCompletionForwardStarted: bool
    var parkingCompletionForwardStartTime: Option<real>
    var rearRightSuddenIncreaseDetected: bool
    var rearRightPreviousForForward: real
    var rightTurnAfterIncreaseStarted: bool
    var rightTurnAfterIncreaseStartTime: Option<real>
    var parkingCompletionStopStarted: bool
    var parkingCompletionStopStartTime: Option<real>
    /** The bias named by the status message; `Unbiased` for every other message. */
    var bias: Bias
    var phase: int

    /**
     * The phase is one of 0..14; phase 0 is exactly the state before
     * `start_initial_forward`, in which no lateral flag is set and the stored
     * samples are still the initial ones.
     */
    predicate Valid()
      reads this`phase, this`initialForwardStarted, this`sensorFlags, this`previousDistances, this`firstStopCompleted
    {
      0 <= phase <= 14
      && (phase == 0 <==> !initialForwardStarted)
      && (!initialForwardStarted ==> sensorFlags == {} && previousDistances == UnsetSamples && !firstStopCompleted)
    }

    /** The latches that, once set, stay set for the rest of the run. */
    twostate predicate MilestonesKept()
      reads this
    {
      (old(stopDetected) ==> stopDetected) && (old(initialForwardStarted) ==> initialForwardStarted)
      && (old(firstStopCompleted) ==> firstStopCompleted) && (old(leftTurnStarted) ==> leftTurnStarted)
      && (old(secondStopCompleted) ==> secondStopCompleted) && (old(rightTurnStarted) ==> rightTurnStarted)
      && (old(backwardCompleted) ==> backwardCompleted) && (old(alignmentCompleted) ==> alignmentCompleted)
      && (old(leftCorrectionStarted) ==> leftCorrectionStarted) && (old(rightCorrectionStarted) ==> rightCorrectionStarted)
      && (old(correctionCompleted) ==> correctionCompleted)
      && (old(parkingCompletionForwardStarted) ==> parkingCompletionForwardStarted)
      && (old(rearRightSuddenIncreaseDetected) ==> rearRightSuddenIncreaseDetected)
      && (old(rightTurnAfterIncreaseStarted) ==> rightTurnAfterIncreaseStarted)
      && (old(parkingCompletionStopStarted) ==> parkingCompletionStopStarted)
      && old(sensorFlags) <= sensorFlags
    }

    /** A vehicle at rest in phase 0 (its position, heading and size are not modelled). */
    constructor ()
      ensures Valid() && phase == 0 && speed == 0.0 && steeringAngle == 0.0
      ensures sensorDistances == InitialReadings && previousDistances == UnsetSamples && sensorFlags == {}
      ensures rearRightPrevious == UnsetPrevious && rearRightPreviousForForward == UnsetPrevious
      ensures !stopDetected && !firstStopCompleted && !leftTurnStarted && !secondStopCompleted && !rightTurnStarted
      ensures !backwardCompleted && !alignmentCompleted && !straightBackwardStarted && !correctionStarted
      ensures !leftCorrectionStarted && !rightCorrectionStarted && !correctionCompleted && !postCorrectionBackwardStarted
      ensures !parkingCompletionForwardStarted && !rearRightSuddenIncreaseDetected && !rightTurnAfterIncreaseStarted
      ensures !parkingCompletionStopStarted && bias == Unbiased
      ensures correctionStartTime.None? && backwardStartTime.None? && straightBackwardStartTime.None?
      ensures postCorrectionBackwardStartTime.None? && additionalBackwardStartTime.None?
      ensures parkingCompletionForwardStartTime.None? && rightTurnAfterIncreaseStartTime.None?
      ensures parkingCompletionStopStartTime.None?
    {
      speed := 0.0;
      steeringAngle := 0.0;
      sensorDistances := InitialReadings;
      previousDistances := UnsetSamples;
      sensorFlags := {};
      stopDetected := false;
      initialForwardStarted := false;
      firstStopCompleted := false;
      leftTurnStarted := false;
      secondStopCompleted := false;
      rightTurnStarted := false;
      backwardCompleted := false;
      alignmentCompleted := false;
      straightBackwardStarted := false;
      correctionStarted := false;
      leftCorrectionStarted := false;
      rightCorrectionStarted := false;
      correctionStartTime := None;
      rearRightPrevious := UnsetPrevious;
      backwardStartTime := None;
      straightBackwardStartTime := None;
      correctionCompleted := false;
      postCorrectionBackwardStarted := false;
      postCorrectionBackwardStartTime := None;
      additionalBackwardStartTime := None;
      parkingCompletionForwardStarted := false;
      parkingCompletionForwardStartTime := None;
      rearRightSuddenIncreaseDetected := false;
      rearRightPreviousForForward := UnsetPrevious;
      rightTurnAfterIncreaseStarted := false;
      rightTurnAfterIncreaseStartTime := None;
      parkingCompletionStopStarted := false;
      parkingCompletionStopStartTime := None;
      bias := Unbiased;
      phase := 0;
    }

    /**
     * `check_stop_condition`: flag every unflagged lateral sensor that rose by
     * more than 5 cm from a valid previous sample; fire once all three are
     * flagged and the first stop has not been made. The samples are stored
     * only when it does not fire.
     */
    method CheckStopCondition() returns (fires: bool)
      modifies this`sensorFlags, this`previousDistances, this`stopDetected, this`bias
      ensures sensorFlags == DetectedFlags(old(sensorFlags), old(previousDistances), LateralOf(sensorDistances))
      ensures fires == (AllFlagged(sensorFlags) && !firstStopCompleted)
      ensures previousDistances == if fires then old(previousDistances) else LateralOf(sensorDistances)
      ensures stopDetected == (old(stopDetected) || fires)
      ensures bias == if fires then Unbiased else old(bias)
    {
      var current := LateralOf(sensorDistances);
      for i := 0 to |LateralOrder|
        invariant sensorFlags == DetectedAmong(old(sensorFlags), previousDistances, current, LateralOrder[..i])
        invariant previousDistances == old(previousDistances) && stopDetected == old(stopDetected) && bias == old(bias)
      {
        var name := LateralOrder[i];
        assert LateralOrder[..i + 1][..i] == LateralOrder[..i];
        if name !in sensorFlags && At(previousDistances, name) > 0.0 {
          if At(current, name) > At(previousDistances, name) + 5.0 {
            sensorFlags := sensorFlags + {name};
          }
        }
      }
      assert LateralOrder[..|LateralOrder|] == LateralOrder;
      DetectedAmongLateralOrder(old(sensorFlags), previousDistances, current);
      if AllFlagged(sensorFlags) && !firstStopCompleted {
        stopDetected := true;
        bias := Unbiased;
        return true;
      }
      previousDistances := current;
      return false;
    }

    /** `check_second_stop_condition`: the stored `rear_right` sample follows every call that does not fire. */
    method CheckSecondStopCondition() returns (fires: bool)
      modifies this`rearRightPrevious, this`bias
      ensures fires == SecondStopRise(old(rearRightPrevious), sensorDistances.rearRight)
      ensures rearRightPrevious == if fires then old(rearRightPrevious) else sensorDistances.rearRight
      ensures bias == if fires then Unbiased else old(bias)
    {
      var current := sensorDistances.rearRight;
      if current > 0.0 && rearRightPrevious > 0.0 {
        if current > rearRightPrevious + 10.0 {
          bias := Unbiased;
          return true;
        }
      }
      rearRightPrevious := current;
      return false;
    }

    /** `check_backward_completion`: `front_right` within 40 cm. */
    method CheckBackwardCompletion() returns (done: bool)
      modifies this`bias
      ensures done == (sensorDistances.frontRight <= BackwardStopDistance)
      ensures bias == if done then Unbiased else old(bias)
    {
      done := sensorDistances.frontRight <= BackwardStopDistance;
      if done {
        bias := Unbiased;
      }
    }

    /** `check_alignment_completion` with its zero tolerance; steers -5 or +5 toward alignment. */
    method CheckAlignmentCompletion() returns (aligned: bool)
      modifies this`steeringAngle, this`bias
      ensures var verdict := AlignmentVerdict(sensorDistances.frontRight, sensorDistances.rearRight, SimAlignmentTolerance);
        aligned == (verdict == Aligned)
        && steeringAngle == AlignmentAngleFor(verdict, old(steeringAngle))
        && bias == if verdict == InvalidReading then old(bias) else Unbiased
    {
      var frontRight := sensorDistances.frontRight;
      var rearRight := sensorDistances.rearRight;
      if frontRight <= 0.0 || rearRight <= 0.0 {
        return false;
      }
      var difference := frontRight - rearRight;
      if Abs(difference) <= SimAlignmentTolerance {
        bias := Unbiased;
        return true;
      }
      if difference > 0.0 {
        steeringAngle := -AlignmentAngle;
      } else {
        steeringAngle := AlignmentAngle;
      }
      bias := Unbiased;
      return false;
    }

    /** `check_position_correction_needed` with its 10 cm threshold: records the bias it finds. */
    method CheckPositionCorrectionNeeded() returns (needed: bool)
      modifies this`bias
      ensures bias == PositionVerdict(sensorDistances.middleRight, sensorDistances.middleLeft, SimCorrectionThreshold)
      ensures needed == (bias != Unbiased)
    {
      var middleRight := sensorDistances.middleRight;
      var middleLeft := sensorDistances.middleLeft;
      if middleRight <= 0.0 && middleLeft <= 0.0 {
        bias := Unbiased;
        return false;
      }
      if Abs(middleRight - middleLeft) >= SimCorrectionThreshold {
        if middleRight > middleLeft {
          bias := LeftBiased;
        } else {
          bias := RightBiased;
        }
        return true;
      }
      bias := Unbiased;
      return false;
    }

    /** `stop_vehicle`: the first stop; phase 2. */
    method StopVehicle()
      modifies this`speed, this`steeringAngle, this`firstStopCompleted, this`phase, this`bias
      ensures speed == 0.0 && steeringAngle == 0.0 && firstStopCompleted && phase == 2 && bias == Unbiased
    {
      speed := 0.0;
      steeringAngle := 0.0;
      firstStopCompleted := true;
      phase := 2;
      bias := Unbiased;
    }

    /** `start_left_turn_and_forward`: 20 degrees left, forward; phase 3. */
    method StartLeftTurnAndForward()
      modifies this`leftTurnStarted, this`steeringAngle, this`speed, this`phase, this`bias
      ensures leftTurnStarted && steeringAngle == -LeftTurnAngle && speed == ForwardSpeed && phase == 3
      ensures bias == Unbiased
    {
      leftTurnStarted := true;
      steeringAngle := -LeftTurnAngle;
      speed := ForwardSpeed;
      phase := 3;
      bias := Unbiased;
    }

    /** `stop_vehicle_second`: the second stop; phase 4. */
    method StopVehicleSecond()
      modifies this`speed, this`steeringAngle, this`secondStopCompleted, this`phase, this`bias
      ensures speed == 0.0 && steeringAngle == 0.0 && secondStopCompleted && phase == 4 && bias == Unbiased
    {
      speed := 0.0;
      steeringAngle := 0.0;
      secondStopCompleted := true;
      phase := 4;
      bias := Unbiased;
    }

    /** `start_right_turn_and_backward`: 13 degrees right, reverse, backward start recorded; phase 5. */
    method StartRightTurnAndBackward(now: real)
      modifies this`rightTurnStarted, this`steeringAngle, this`speed, this`phase, this`bias, this`backwardStartTime
      ensures rightTurnStarted && steeringAngle == PhaseFiveAngle && speed == ReverseSpeed && phase == 5
      ensures bias == Unbiased && backwardStartTime == Some(now)
    {
      rightTurnStarted := true;
      steeringAngle := PhaseFiveAngle;
      speed := ReverseSpeed;
      phase := 5;
      bias := Unbiased;
      backwardStartTime := Some(now);
    }

    /** `stop_backward`: keep reversing, straight, straight-backward start recorded; phase 6. */
    method StopBackward(now: real)
      modifies this`speed, this`steeringAngle, this`backwardCompleted, this`straightBackwardStarted,
        this`straightBackwardStartTime, this`phase, this`bias
      ensures speed == ReverseSpeed && steeringAngle == 0.0 && backwardCompleted && straightBackwardStarted
      ensures straightBackwardStartTime == Some(now) && phase == 6 && bias == Unbiased
    {
      speed := ReverseSpeed;
      steeringAngle := 0.0;
      backwardCompleted := true;
      straightBackwardStarted := true;
      straightBackwardStartTime := Some(now);
      phase := 6;
      bias := Unbiased;
    }

    /** `check_straight_backward_completion`: 0.3 s after the straight-backward start. */
    method CheckStraightBackwardCompletion(now: real) returns (done: bool)
      modifies this`bias
      ensures done == TimeElapsed(straightBackwardStartTime, StraightBackwardSeconds, now)
      ensures bias == if done then Unbiased else old(bias)
    {
      if straightBackwardStartTime.None? {
        return false;
      }
      if now - straightBackwardStartTime.value >= StraightBackwardSeconds {
        bias := Unbiased;
        return true;
      }
      return false;
    }

    /** `complete_straight_backward`: stop, clear the straight-backward latch; phase 7. */
    method CompleteStraightBackward()
      modifies this`speed, this`steeringAngle, this`straightBackwardStarted, this`phase, this`bias
      ensures speed == 0.0 && steeringAngle == 0.0 && !straightBackwardStarted && phase == 7 && bias == Unbiased
    {
      speed := 0.0;
      steeringAngle := 0.0;
      straightBackwardStarted := false;
      phase := 7;
      bias := Unbiased;
    }

    /** `start_alignment`: slow reverse; phase 8. */
    method StartAlignment()
      modifies this`speed, this`phase, this`bias
      ensures speed == ReverseSpeed && phase == 8 && bias == Unbiased
    {
      speed := ReverseSpeed;
      phase := 8;
      bias := Unbiased;
    }

    /** `complete_alignment`: stop; phase 9. */
    method CompleteAlignment()
      modifies this`speed, this`steeringAngle, this`alignmentCompleted, this`phase, this`bias
      ensures speed == 0.0 && steeringAngle == 0.0 && alignmentCompleted && phase == 9 && bias == Unbiased
    {
      speed := 0.0;
      steeringAngle := 0.0;
      alignmentCompleted := true;
      phase := 9;
      bias := Unbiased;
    }

    /**
     * `start_correction`: correction start recorded, phase 10; the recorded bias
     * chooses forward with +15 (left-biased) or -15 (right-biased).
     */
    method StartCorrection(now: real)
      modifies this`correctionStarted, this`correctionStartTime, this`phase, this`leftCorrectionStarted,
        this`rightCorrectionStarted, this`speed, this`steeringAngle, this`bias
      ensures correctionStarted && correctionStartTime == Some(now) && phase == 10 && bias == Unbiased
      ensures leftCorrectionStarted == (old(leftCorrectionStarted) || old(bias) == LeftBiased)
      ensures rightCorrectionStarted == (old(rightCorrectionStarted) || old(bias) == RightBiased)
      ensures speed == if old(bias) == Unbiased then old(speed) else CorrectionSpeed
      ensures steeringAngle == match old(bias)
        case LeftBiased => CorrectionAngle
        case RightBiased => -CorrectionAngle
        case Unbiased => old(steeringAngle)
    {
      correctionStarted := true;
      correctionStartTime := Some(now);
      phase := 10;
      if bias == LeftBiased {
        leftCorrectionStarted := true;
        speed := CorrectionSpeed;
        steeringAngle := CorrectionAngle;
        bias := Unbiased;
      } else if bias == RightBiased {
        rightCorrectionStarted := true;
        speed := CorrectionSpeed;
        steeringAngle := -CorrectionAngle;
        bias := Unbiased;
      }
    }

    /** `check_left_correction_completion`: ramp the steering for two seconds, then stop and report completion. */
    method CheckLeftCorrectionCompletion(now: real) returns (done: bool)
      modifies this`steeringAngle, this`speed, this`bias
      ensures done == (leftCorrectionStarted && TimeElapsed(correctionStartTime, RampSeconds, now))
      ensures var ramping := leftCorrectionStarted && correctionStartTime.Some? && !done;
        steeringAngle == (if done then 0.0 else if ramping then LeftCorrectionRamp(now - correctionStartTime.value)
          else old(steeringAngle))
        && speed == (if done then 0.0 else old(speed))
        && bias == (if done then Unbiased else old(bias))
    {
      if !leftCorrectionStarted || correctionStartTime.None? {
        return false;
      }
      var elapsed := now - correctionStartTime.value;
      if elapsed < RampSeconds {
        steeringAngle := LeftCorrectionRamp(elapsed);
        return false;
      }
      speed := 0.0;
      steeringAngle := 0.0;
      bias := Unbiased;
      return true;
    }

    /** `check_right_correction_completion`: the mirror image of the left correction. */
    method CheckRightCorrectionCompletion(now: real) returns (done: bool)
      modifies this`steeringAngle, this`speed, this`bias
      ensures done == (rightCorrectionStarted && TimeElapsed(correctionStartTime, RampSeconds, now))
      ensures var ramping := rightCorrectionStarted && correctionStartTime.Some? && !done;
        steeringAngle == (if done then 0.0 else if ramping then RightCorrectionRamp(now - correctionStartTime.value)
          else old(steeringAngle))
        && speed == (if done then 0.0 else old(speed))
        && bias == (if done then Unbiased else old(bias))
    {
      if !rightCorrectionStarted || correctionStartTime.None? {
        return false;
      }
      var elapsed := now - correctionStartTime.value;
      if elapsed < RampSeconds {
        steeringAngle := RightCorrectionRamp(elapsed);
        return false;
      }
      speed := 0.0;
      steeringAngle := 0.0;
      bias := Unbiased;
      return true;
    }

    /** `complete_correction`: stop, clear the running latch, set the completed one; phase 11. */
    method CompleteCorrection()
      modifies this`speed, this`steeringAngle, this`correctionStarted, this`correctionCompleted, this`phase, this`bias
      ensures speed == 0.0 && steeringAngle == 0.0 && !correctionStarted && correctionCompleted && phase == 11
      ensures bias == Unbiased
    {
      speed := 0.0;
      steeringAngle := 0.0;
      correctionStarted := false;
      correctionCompleted := true;
      phase := 11;
      bias := Unbiased;
    }

    /** `start_post_correction_backward`: reverse straight, start recorded; phase stays 11. */
    method StartPostCorrectionBackward(now: real)
      modifies this`postCorrectionBackwardStarted, this`postCorrectionBackwardStartTime, this`speed, this`steeringAngle,
        this`phase, this`bias
      ensures postCorrectionBackwardStarted && postCorrectionBackwardStartTime == Some(now)
      ensures speed == ReverseSpeed && steeringAngle == 0.0 && phase == 11 && bias == Unbiased
    {
      postCorrectionBackwardStarted := true;
      postCorrectionBackwardStartTime := Some(now);
      speed := ReverseSpeed;
      steeringAngle := 0.0;
      phase := 11;
      bias := Unbiased;
    }

    /**
     * `check_post_correction_backward_completion`: once `front_right` is within
     * 40 cm the additional-backward start is recorded, at most once; completion
     * holds once it is recorded and 0.5 s have passed.
     */
    method CheckPostCorrectionBackwardCompletion(now: real) returns (done: bool)
      modifies this`additionalBackwardStartTime, this`bias
      ensures var latchNow := postCorrectionBackwardStartTime.Some? && sensorDistances.frontRight <= BackwardStopDistance
          && old(additionalBackwardStartTime).None?;
        additionalBackwardStartTime == (if latchNow then Some(now) else old(additionalBackwardStartTime))
        && done == (postCorrectionBackwardStartTime.Some?
          && TimeElapsed(additionalBackwardStartTime, AdditionalBackwardSeconds, now))
        && bias == (if latchNow || done then Unbiased else old(bias))
    {
      if postCorrectionBackwardStartTime.None? {
        return false;
      }
      if sensorDistances.frontRight <= BackwardStopDistance && additionalBackwardStartTime.None? {
        additionalBackwardStartTime := Some(now);
        bias := Unbiased;
      }
      if additionalBackwardStartTime.Some? {
        if now - additionalBackwardStartTime.value >= AdditionalBackwardSeconds {
          bias := Unbiased;
          return true;
        }
      }
      return false;
    }

    /** `start_parking_completion_stop`: stop for two seconds, start recorded; phase 12. */
    method StartParkingCompletionStop(now: real)
      modifies this`parkingCompletionStopStarted, this`parkingCompletionStopStartTime, this`speed, this`steeringAngle,
        this`phase, this`bias
      ensures parkingCompletionStopStarted && parkingCompletionStopStartTime == Some(now)
      ensures speed == 0.0 && steeringAngle == 0.0 && phase == 12 && bias == Unbiased
    {
      parkingCompletionStopStarted := true;
      parkingCompletionStopStartTime := Some(now);
      speed := 0.0;
      steeringAngle := 0.0;
      phase := 12;
      bias := Unbiased;
    }

    /** `complete_post_correction_backward`: stop, clear the running latch, then the two-second stop; phase 12. */
    method CompletePostCorrectionBackward(now: real)
      modifies this`speed, this`steeringAngle, this`postCorrectionBackwardStarted, this`phase, this`bias,
        this`parkingCompletionStopStarted, this`parkingCompletionStopStartTime
      ensures speed == 0.0 && steeringAngle == 0.0 && !postCorrectionBackwardStarted && phase == 12
      ensures parkingCompletionStopStarted && parkingCompletionStopStartTime == Some(now) && bias == Unbiased
    {
      speed := 0.0;
      steeringAngle := 0.0;
      postCorrectionBackwardStarted := false;
      phase := 12;
      bias := Unbiased;
      StartParkingCompletionStop(now);
    }

    /** `check_parking_completion_stop`: two seconds after the stop started. */
    method CheckParkingCompletionStop(now: real) returns (done: bool)
      modifies this`bias
      ensures done == (parkingCompletionStopStarted && TimeElapsed(parkingCompletionStopStartTime, CompletionStopSeconds, now))
      ensures bias == if done then Unbiased else old(bias)
    {
      if !parkingCompletionStopStarted || parkingCompletionStopStartTime.None? {
        return false;
      }
      if now - parkingCompletionStopStartTime.value >= CompletionStopSeconds {
        bias := Unbiased;
        return true;
      }
      return false;
    }

    /** `start_parking_completion_forward`: forward, straight, start recorded; phase 13. */
    method StartParkingCompletionForward(now: real)
      modifies this`parkingCompletionForwardStarted, this`parkingCompletionForwardStartTime, this`speed,
        this`steeringAngle, this`phase, this`bias
      ensures parkingCompletionForwardStarted && parkingCompletionForwardStartTime == Some(now)
      ensures speed == ForwardSpeed && steeringAngle == 0.0 && phase == 13 && bias == Unbiased
    {
      parkingCompletionForwardStarted := true;
      parkingCompletionForwardStartTime := Some(now);
      speed := ForwardSpeed;
      steeringAngle := 0.0;
      phase := 13;
      bias := Unbiased;
    }

    /**
     * `check_rear_right_sudden_increase`: only while driving forward after the
     * stop; fires on a rise of more than 15 cm between two valid samples; the
     * stored sample follows every call that gets past the first test and does not fire.
     */
    method CheckRearRightSuddenIncrease() returns (fires: bool)
      modifies this`rearRightSuddenIncreaseDetected, this`rearRightPreviousForForward, this`bias
      ensures fires == (parkingCompletionForwardStarted
        && SuddenIncrease(old(rearRightPreviousForForward), sensorDistances.rearRight))
      ensures rearRightPreviousForForward
        == if !parkingCompletionForwardStarted || fires then old(rearRightPreviousForForward) else sensorDistances.rearRight
      ensures rearRightSuddenIncreaseDetected == (old(rearRightSuddenIncreaseDetected) || fires)
      ensures bias == if fires then Unbiased else old(bias)
    {
      if !parkingCompletionForwardStarted {
        return false;
      }
      var current := sensorDistances.rearRight;
      if rearRightPreviousForForward > 0.0 && current > 0.0 {
        if current > rearRightPreviousForForward + 15.0 {
          rearRightSuddenIncreaseDetected := true;
          bias := Unbiased;
          return true;
        }
      }
      rearRightPreviousForForward := current;
      return false;
    }

    /** `start_right_turn_after_increase`: keep forward, 20 degrees right, start recorded. */
    method StartRightTurnAfterIncrease(now: real)
      modifies this`rightTurnAfterIncreaseStarted, this`rightTurnAfterIncreaseStartTime, this`speed, this`steeringAngle,
        this`bias
      ensures rightTurnAfterIncreaseStarted && rightTurnAfterIncreaseStartTime == Some(now)
      ensures speed == ForwardSpeed && steeringAngle == RightTurnAfterIncreaseAngle && bias == Unbiased
    {
      rightTurnAfterIncreaseStarted := true;
      rightTurnAfterIncreaseStartTime := Some(now);
      speed := ForwardSpeed;
      steeringAngle := RightTurnAfterIncreaseAngle;
      bias := Unbiased;
    }

    /** `check_right_turn_completion`: 1.5 s after the turn started, stop and report completion. */
    method CheckRightTurnCompletion(now: real) returns (done: bool)
      modifies this`speed, this`steeringAngle, this`bias
      ensures done == (rightTurnAfterIncreaseStarted && TimeElapsed(rightTurnAfterIncreaseStartTime, RightTurnSeconds, now))
      ensures speed == (if done then 0.0 else old(speed)) && steeringAngle == (if done then 0.0 else old(steeringAngle))
      ensures bias == if done then Unbiased else old(bias)
    {
      if !rightTurnAfterIncreaseStarted || rightTurnAfterIncreaseStartTime.None? {
        return false;
      }
      if now - rightTurnAfterIncreaseStartTime.value >= RightTurnSeconds {
        speed := 0.0;
        steeringAngle := 0.0;
        bias := Unbiased;
        return true;
      }
      return false;
    }

    /** `start_final_forward`: forward, straight; phase 14. */
    method StartFinalForward()
      modifies this`speed, this`steeringAngle, this`phase, this`bias
      ensures speed == ForwardSpeed && steeringAngle == 0.0 && phase == 14 && bias == Unbiased
    {
      speed := ForwardSpeed;
      steeringAngle := 0.0;
      phase := 14;
      bias := Unbiased;
    }

    /** `start_initial_forward`: forward, straight; phase 1. */
    method StartInitialForward()
      modifies this`speed, this`steeringAngle, this`initialForwardStarted, this`phase, this`bias
      ensures speed == ForwardSpeed && steeringAngle == 0.0 && initialForwardStarted && phase == 1 && bias == Unbiased
    {
      speed := ForwardSpeed;
      steeringAngle := 0.0;
      initialForwardStarted := true;
      phase := 1;
      bias := Unbiased;
    }

    /** The steering part of `update`: while moving in phase 5, the ramp from the backward start. */
    method UpdateSteering(now: real)
      modifies this`steeringAngle
      ensures steeringAngle == if speed != 0.0 && phase == 5 && backwardStartTime.Some?
        then PhaseFiveSteering(now - backwardStartTime.value) else old(steeringAngle)
    {
      if speed != 0.0 {
        if phase == 5 && backwardStartTime.Some? {
          var elapsed := now - backwardStartTime.value;
          if elapsed < RampSeconds {
            steeringAngle := Max(0.0, PhaseFiveAngle - (elapsed / RampSeconds) * PhaseFiveAngle);
          } else {
            steeringAngle := 0.0;
          }
        }
      }
    }

    /** Phase 1: the first-stop test, then the first stop. */
    method PassOne(now: real)
      requires Valid() && phase == 1
      modifies this
      ensures Valid() && SimFollows(old(phase), phase) && MilestonesKept()
      ensures sensorDistances == old(sensorDistances)
      ensures old(sensorFlags) == {} && old(previousDistances) == UnsetSamples ==> phase == 1
    {
      if initialForwardStarted && !firstStopCompleted {
        UnsetSamplesSetNoFlag(sensorFlags, LateralOf(sensorDistances));
        var stop := CheckStopCondition();
        if stop {
          StopVehicle();
        }
      }
    }

    /** Phase 2: the left turn forward. */
    method PassTwo(now: real)
      requires Valid() && phase == 2
      modifies this
      ensures Valid() && SimFollows(old(phase), phase) && MilestonesKept()
      ensures sensorDistances == old(sensorDistances)
    {
      if firstStopCompleted && !leftTurnStarted {
        StartLeftTurnAndForward();
      }
    }

    /** Phase 3: the second-stop test, then the second stop. */
    method PassThree(now: real)
      requires Valid() && phase == 3
      modifies this
      ensures Valid() && SimFollows(old(phase), phase) && MilestonesKept()
      ensures sensorDistances == old(sensorDistances)
    {
      if leftTurnStarted && !secondStopCompleted {
        var stop := CheckSecondStopCondition();
        if stop {
          StopVehicleSecond();
        }
      }
    }

    /** Phase 4: the right turn backward. */
    method PassFour(now: real)
      requires Valid() && phase == 4
      modifies this
      ensures Valid() && SimFollows(old(phase), phase) && MilestonesKept()
      ensures sensorDistances == old(sensorDistances)
    {
      if secondStopCompleted && !rightTurnStarted {
        StartRightTurnAndBackward(now);
      }
    }

    /** Phase 5: the backward-completion test, then the straight reverse. */
    method PassFive(now: real)
      requires Valid() && phase == 5
      modifies this
      ensures Valid() && SimFollows(old(phase), phase) && MilestonesKept()
      ensures sensorDistances == old(sensorDistances)
    {
      if rightTurnStarted && !backwardCompleted {
        var done := CheckBackwardCompletion();
        if done {
          StopBackward(now);
        }
      }
    }

    /** Phase 6: the straight-reverse timer, then the stop before alignment. */
    method PassSix(now: real)
      requires Valid() && phase == 6
      modifies this
      ensures Valid() && SimFollows(old(phase), phase) && MilestonesKept()
      ensures sensorDistances == old(sensorDistances)
    {
      if straightBackwardStarted {
        var done := CheckStraightBackwardCompletion(now);
        if done {
          CompleteStraightBackward();
        }
      }
    }

    /** Phase 7: the start of the alignment. */
    method PassSeven(now: real)
      requires Valid() && phase == 7
      modifies this
      ensures Valid() && SimFollows(old(phase), phase) && MilestonesKept()
      ensures sensorDistances == old(sensorDistances)
    {
      if backwardCompleted && !alignmentCompleted {
        StartAlignment();
      }
    }

    /** Phase 8: the alignment test, then the stop once aligned. */
    method PassEight(now: real)
      requires Valid() && phase == 8
      modifies this
      ensures Valid() && SimFollows(old(phase), phase) && MilestonesKept()
      ensures sensorDistances == old(sensorDistances)
    {
      if !alignmentCompleted {
        var aligned := CheckAlignmentCompletion();
        if aligned {
          CompleteAlignment();
        }
      }
    }

    /** Phase 9: the position check, then either the correction or the two-second stop. */
    method PassNine(now: real)
      requires Valid() && phase == 9
      modifies this
      ensures Valid() && SimFollows(old(phase), phase) && MilestonesKept()
      ensures sensorDistances == old(sensorDistances)
    {
      if alignmentCompleted {
        var needed := CheckPositionCorrectionNeeded();
        if needed {
          StartCorrection(now);
        } else {
          StartParkingCompletionStop(now);
        }
      }
    }

    /** Phase 10: the correction ramp of the side being corrected, then its completion. */
    method PassTen(now: real)
      requires Valid() && phase == 10
      modifies this
      ensures Valid() && SimFollows(old(phase), phase) && MilestonesKept()
      ensures sensorDistances == old(sensorDistances)
    {
      if correctionStarted {
        if leftCorrectionStarted {
          var done := CheckLeftCorrectionCompletion(now);
          if done {
            CompleteCorrection();
          }
        } else if rightCorrectionStarted {
          var done := CheckRightCorrectionCompletion(now);
          if done {
            CompleteCorrection();
          }
        }
      }
    }

    /** Phase 11: the start of the reverse after the correction, or its completion test. */
    method PassEleven(now: real)
      requires Valid() && phase == 11
      modifies this
      ensures Valid() && SimFollows(old(phase), phase) && MilestonesKept()
      ensures sensorDistances == old(sensorDistances)
    {
      if correctionCompleted && !postCorrectionBackwardStarted {
        StartPostCorrectionBackward(now);
      } else if postCorrectionBackwardStarted {
        var done := CheckPostCorrectionBackwardCompletion(now);
        if done {
          CompletePostCorrectionBackward(now);
        }
      }
    }

    /** Phase 12: the two-second stop, then the forward drive. */
    method PassTwelve(now: real)
      requires Valid() && phase == 12
      modifies this
      ensures Valid() && SimFollows(old(phase), phase) && MilestonesKept()
      ensures sensorDistances == old(sensorDistances)
    {
      if parkingCompletionStopStarted {
        var done := CheckParkingCompletionStop(now);
        if done {
          StartParkingCompletionForward(now);
        }
      } else if !parkingCompletionForwardStarted {
        StartParkingCompletionForward(now);
      }
    }

    /** Phase 13: the `rear_right` jump test and the right turn, then the final forward drive. */
    method PassThirteen(now: real)
      requires Valid() && phase == 13
      modifies this
      ensures Valid() && SimFollows(old(phase), phase) && MilestonesKept()
      ensures sensorDistances == old(sensorDistances)
    {
      if parkingCompletionForwardStarted {
        if !rightTurnAfterIncreaseStarted {
          var increase := CheckRearRightSuddenIncrease();
          if increase {
            StartRightTurnAfterIncrease(now);
          }
        } else {
          var done := CheckRightTurnCompletion(now);
          if done {
            StartFinalForward();
          }
        }
      }
    }

    /** The phase tests of passes in phases 1 to 6. */
    method DriveEarlyPhases(now: real)
      requires Valid() && 1 <= phase <= 6
      modifies this
      ensures Valid() && SimFollows(old(phase), phase) && MilestonesKept()
      ensures sensorDistances == old(sensorDistances)
      ensures old(phase) == 1 && old(sensorFlags) == {} && old(previousDistances) == UnsetSamples ==> phase == 1
    {
      if phase == 1 {
        PassOne(now);
      } else if phase == 2 {
        PassTwo(now);
      } else if phase == 3 {
        PassThree(now);
      } else if phase == 4 {
        PassFour(now);
      } else if phase == 5 {
        PassFive(now);
      } else {
        PassSix(now);
      }
    }

    /** The phase tests of passes in phases 7 to 14 (phase 14 has none). */
    method DriveLatePhases(now: real)
      requires Valid() && 7 <= phase <= 14
      modifies this
      ensures Valid() && SimFollows(old(phase), phase) && MilestonesKept()
      ensures sensorDistances == old(sensorDistances)
    {
      if phase == 7 {
        PassSeven(now);
      } else if phase == 8 {
        PassEight(now);
      } else if phase == 9 {
        PassNine(now);
      } else if phase == 10 {
        PassTen(now);
      } else if phase == 11 {
        PassEleven(now);
      } else if phase == 12 {
        PassTwelve(now);
      } else if phase == 13 {
        PassThirteen(now);
      }
    }

    /**
     * One pass of the simulation loop: the new readings are taken, phase 0
     * starts the initial forward drive (and the phase-1 test runs in the same
     * pass), the test and transition of the current phase run, and `update`
     * steers the phase-5 ramp. The first pass only leaves phase 0 for phase 1.
     */
    method SimulationTick(readings: Distances, now: real)
      requires Valid()
      modifies this
      ensures Valid() && SimFollows(old(phase), phase) && MilestonesKept()
      ensures sensorDistances == readings
      ensures old(phase) == 0 ==> phase == 1
    {
      sensorDistances := readings;
      if phase == 0 && !initialForwardStarted {
        StartInitialForward();
      }
      if 1 <= phase <= 6 {
        DriveEarlyPhases(now);
      } else if 7 <= phase {
        DriveLatePhases(now);
      }
      UpdateSteering(now);
    }
  }
}
