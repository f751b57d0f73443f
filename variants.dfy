/**
 * Where the hardware controller and the simulation part ways although they
 * drive the same maneuver: the alignment tolerance, the correction steering,
 * and whether the stored sample behind a jump test follows the readings.
 */
module Variants {
  import opened Wrappers
  import opened Sensing
  import opened Steering
  import M = ParkingMachine
  import S = Simulation

  // Alignment tolerance: 3 cm by default in the controller, 0 in the simulation.

  /** With the simulation's zero tolerance, alignment means exactly equal positive readings. */
  lemma SimAlignmentIsExact(frontRight: real, rearRight: real)
    ensures AlignmentVerdict(frontRight, rearRight, S.SimAlignmentTolerance) == Aligned
        <==> frontRight == rearRight && frontRight > 0.0
  {
  }

  /** A wider tolerance accepts every alignment a narrower one accepts. */
  lemma AlignmentToleranceMonotone(frontRight: real, rearRight: real, narrow: real, wide: real)
    requires narrow <= wide
    requires AlignmentVerdict(frontRight, rearRight, narrow) == Aligned
    ensures AlignmentVerdict(frontRight, rearRight, wide) == Aligned
  {
  }

  /** Every simulation alignment is a controller alignment under the default configuration, but not the reverse. */
  lemma SimAlignmentStricter()
    ensures M.DefaultConfig[M.AlignmentTolerance] == 3.0
    ensures forall fr: real, rr: real ::
      AlignmentVerdict(fr, rr, S.SimAlignmentTolerance) == Aligned ==> AlignmentVerdict(fr, rr, 3.0) == Aligned
    ensures AlignmentVerdict(50.0, 52.0, 3.0) == Aligned
    ensures AlignmentVerdict(50.0, 52.0, S.SimAlignmentTolerance) == SteerRightToAlign
  {
    forall fr: real, rr: real | AlignmentVerdict(fr, rr, S.SimAlignmentTolerance) == Aligned
      ensures AlignmentVerdict(fr, rr, 3.0) == Aligned
    {
      AlignmentToleranceMonotone(fr, rr, S.SimAlignmentTolerance, 3.0);
    }
  }

  // Correction steering: one static command in the controller, a ramp in the simulation.

  /** Once the CORRECTION phase has started, the controller issues no further steering: only the final stop, if any. */
  lemma ControllerCorrectionSteersOnce(s: M.ControllerState, config: map<M.ConfigKey, real>, now: real)
    requires M.ConfigComplete(config) && s.phase == M.CorrectionPhase && M.CorrectionStarted in s.latches
    ensures var r := M.CorrectionStep(s, config, now);
      r.motor == s.motor || r.motor == s.motor + M.StopVehicle(config)
  {
  }

  /** The controller's correction command steers against the bias: right when left-biased, left otherwise. */
  lemma ControllerCorrectionSide(bias: Bias, config: map<M.ConfigKey, real>)
    requires M.ConfigComplete(config)
    ensures M.CorrectionSteering(bias, config).SteerRight? <==> bias == LeftBiased
    ensures M.CorrectionSteering(bias, config).SteerLeft? <==> bias != LeftBiased
  {
  }

  /**
   * In the second half of a simulated correction the steering has crossed over:
   * a left-biased vehicle is then steered left, where the controller keeps the
   * single right-steer command it issued at the start.
   */
  lemma SimCorrectionReverses(e: real, config: map<M.ConfigKey, real>)
    requires M.ConfigComplete(config) && 1.0 < e < RampSeconds
    ensures S.LeftCorrectionRamp(e) < 0.0 && S.RightCorrectionRamp(e) > 0.0
    ensures M.CorrectionSteering(LeftBiased, config).SteerRight?
    ensures M.CorrectionSteering(RightBiased, config).SteerLeft?
  {
    S.CorrectionRampsCrossAtOneSecond(e);
  }

  // The stored sample of a jump test: frozen in the controller, tracking in the simulation.

  /** A jump of more than `rise` between two positive samples. */
  predicate Jump(previous: real, current: real, rise: real) {
    previous > 0.0 && current > 0.0 && current > previous + rise
  }

  /** The simulation's second-stop and sudden-increase tests are jumps of 10 and 15 cm. */
  lemma SimEdgesAreJumps(previous: real, current: real)
    ensures SecondStopRise(previous, current) <==> Jump(previous, current, 10.0)
    ensures SuddenIncrease(previous, current) <==> Jump(previous, current, 15.0)
  {
  }

  /** The controller's final-forward test is the 15 cm jump: a valid previous sample makes the current one valid too. */
  lemma FinalForwardIsJump(previous: real, current: real)
    ensures FinalForwardRise(previous, current) <==> Jump(previous, current, 15.0)
  {
  }

  /**
   * Whether a tracking test (the simulation's) fires on some call over
   * `readings`: the stored sample becomes the current reading after every call
   * that does not fire.
   */
  function TrackingFiresOn(previous: real, readings: seq<real>, rise: real): bool
    decreases |readings|
  {
    readings != [] && (Jump(previous, readings[0], rise) || TrackingFiresOn(readings[0], readings[1..], rise))
  }

  /** Whether a frozen test (the controller's) fires on some call over `readings`: the stored sample never changes. */
  function FrozenFiresOn(previous: real, readings: seq<real>, rise: real): bool
    decreases |readings|
  {
    readings != [] && (Jump(previous, readings[0], rise) || FrozenFiresOn(previous, readings[1..], rise))
  }

  /** A frozen test fires exactly when some reading jumps above the one stored sample. */
  lemma {:induction false} FrozenFiresOnExists(previous: real, readings: seq<real>, rise: real)
    ensures FrozenFiresOn(previous, readings, rise) <==> exists i :: 0 <= i < |readings| && Jump(previous, readings[i], rise)
    decreases |readings|
  {
    if readings != [] {
      FrozenFiresOnExists(previous, readings[1..], rise);
      if exists i :: 0 <= i < |readings| && Jump(previous, readings[i], rise) {
        var i :| 0 <= i < |readings| && Jump(previous, readings[i], rise);
        if i > 0 {
          assert readings[1..][i - 1] == readings[i];
        }
      }
      if exists i :: 0 <= i < |readings[1..]| && Jump(previous, readings[1..][i], rise) {
        var i :| 0 <= i < |readings[1..]| && Jump(previous, readings[1..][i], rise);
        assert readings[i + 1] == readings[1..][i];
      }
    }
  }

  /** Every reading exceeds the one before it (the stored sample first) by at most `rise`. */
  predicate RisesAtMost(previous: real, readings: seq<real>, rise: real)
    decreases |readings|
  {
    readings == [] || (readings[0] <= previous + rise && RisesAtMost(readings[0], readings[1..], rise))
  }

  /** A tracking test never fires on readings that creep up by at most `rise` per call, however far they climb. */
  lemma {:induction false} CreepingReadingsNeverFireTracking(previous: real, readings: seq<real>, rise: real)
    requires RisesAtMost(previous, readings, rise)
    ensures !TrackingFiresOn(previous, readings, rise)
    decreases |readings|
  {
    if readings != [] {
      CreepingReadingsNeverFireTracking(readings[0], readings[1..], rise);
    }
  }

  /** Both variants decide the first call alike: the stored sample is the same. */
  lemma FirstCallAgrees(previous: real, current: real, rise: real)
    ensures TrackingFiresOn(previous, [current], rise) == FrozenFiresOn(previous, [current], rise)
    ensures TrackingFiresOn(previous, [current], rise) == Jump(previous, current, rise)
  {
  }

  /**
   * The two kinds of test disagree in both directions. From 50 cm, readings
   * 56 and 62 rise by at most 6 per call, which the simulation never reports
   * as a second stop, while the controller compares 62 against 50. Readings 30
   * and 45 fire in the simulation (a 15 cm jump from 30) but never come above 60.
   */
  lemma TrackingAndFrozenDiffer()
    ensures FrozenFiresOn(50.0, [56.0, 62.0], 10.0) && !TrackingFiresOn(50.0, [56.0, 62.0], 10.0)
    ensures TrackingFiresOn(50.0, [30.0, 45.0], 10.0) && !FrozenFiresOn(50.0, [30.0, 45.0], 10.0)
  {
    assert [56.0, 62.0][1..] == [62.0];
    assert [30.0, 45.0][1..] == [45.0];
    assert [62.0][1..] == [];
    assert [45.0][1..] == [];
  }

  /** The `rear_right` reading of each pass of the main loop, 100 cm where the store has none. */
  function RearRightReadings(readings: seq<M.Reading>): seq<real>
    decreases |readings|
  {
    if readings == [] then [] else [SensorDistance(readings[0].distances, RearRightName)] + RearRightReadings(readings[1..])
  }

  /**
   * The controller's second-stop test is the frozen one: a run of cycles that
   * starts in LEFT_TURN_FORWARD is still there at the end exactly when no
   * `rear_right` reading of the run rose more than 10 cm above the sample
   * stored before the phase began.
   */
  lemma {:induction false} LeftTurnForwardRunIsFrozenTest(s: M.ControllerState, config: map<M.ConfigKey, real>,
    readings: seq<M.Reading>)
    requires M.ConfigComplete(config) && M.Consistent(s) && s.active && s.phase == M.LeftTurnForward
    ensures M.Run(s, config, readings).phase == M.LeftTurnForward
        <==> !FrozenFiresOn(s.previous.rearRight, RearRightReadings(readings), 10.0)
    decreases |readings|
  {
    if readings != [] {
      var next := M.CycleStep(s, readings[0].distances, config, readings[0].now);
      SimEdgesAreJumps(s.previous.rearRight, SensorDistance(readings[0].distances, RearRightName));
      assert RearRightReadings(readings)[1..] == RearRightReadings(readings[1..]);
      if next.phase == M.LeftTurnForward {
        LeftTurnForwardRunIsFrozenTest(next, config, readings[1..]);
      } else {
        M.RunIsMonotone(next, config, readings[1..]);
      }
    }
  }

  /** A tracking second-stop test that fires reports a jump over the reading just before it. */
  lemma {:induction false} TrackingFiresOnAJump(previous: real, readings: seq<real>, rise: real)
    requires TrackingFiresOn(previous, readings, rise)
    ensures Jump(previous, readings[0], rise)
      || exists i :: 0 < i < |readings| && Jump(readings[i - 1], readings[i], rise)
    decreases |readings|
  {
    if !Jump(previous, readings[0], rise) {
      var rest := readings[1..];
      TrackingFiresOnAJump(readings[0], rest, rise);
      if Jump(readings[0], rest[0], rise) {
        assert Jump(readings[0], readings[1], rise);
      } else {
        var i :| 0 < i < |rest| && Jump(rest[i - 1], rest[i], rise);
        assert rest[i - 1] == readings[i] && rest[i] == readings[i + 1];
      }
    }
  }
}
