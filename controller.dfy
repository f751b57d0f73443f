/**
 * The hardware parking controller, `ParkingSystemController`: an object that
 * an external loop ticks with `execute_parking_cycle`, whose fields hold the
 * phase, latches, timers, sensor store and configuration. Each phase method is
 * proved to leave the object in the state the matching step function of
 * `ParkingMachine` computes from the old state, the sensor store and the
 * configuration.
 */
module ParkingController {
  import opened Wrappers
  import opened Sensing
  import opened Steering
  import opened ParkingMachine

  /** What `get_status` returns, without the message text. */
  datatype StatusReport = StatusReport(
    phase: Phase, phaseNumber: nat, bias: Bias, isActive: bool, isCompleted: bool,
    sensorDistances: map<string, real>, sensorFlags: set<Lateral>)

  class ParkingSystemController {
    var currentPhase: Phase
    var bias: Bias
    var isParkingActive: bool
    var parkingCompleted: bool
    var sensorDistances: map<string, real>
    var previousDistances: Samples
    var sensorFlags: set<Lateral>
    var phaseStates: set<Latch>
    var timers: Timers
    var parkingConfig: map<ConfigKey, real>
    var motor: seq<MotionCommand>

    /** Every configuration key is present, and a completed maneuver is never active. */
    predicate Valid()
      reads this`parkingConfig, this`parkingCompleted, this`isParkingActive
    {
      ConfigComplete(parkingConfig) && (parkingCompleted ==> !isParkingActive)
    }

    /** The fields a tick can change, as one value. */
    ghost function Snapshot(): ControllerState
      reads this
    {
      ControllerState(currentPhase, bias, isParkingActive, parkingCompleted, previousDistances, sensorFlags,
        phaseStates, timers, motor)
    }

    constructor ()
      ensures Valid()
      ensures Snapshot() == InitialState
      ensures sensorDistances == InitialDistances && parkingConfig == DefaultConfig
    {
      currentPhase := Waiting;
      bias := Unbiased;
      isParkingActive := false;
      parkingCompleted := false;
      sensorDistances := InitialDistances;
      previousDistances := UnsetSamples;
      sensorFlags := {};
      phaseStates := {};
      timers := NoTimers;
      parkingConfig := DefaultConfig;
      motor := [];
    }

    /** `start_parking`. */
    method StartParking()
      requires Valid()
      modifies this`isParkingActive, this`parkingCompleted, this`currentPhase, this`bias, this`phaseStates, this`timers
      ensures Valid()
      ensures Snapshot() == StartParkingState(old(Snapshot()))
    {
      ghost var target := StartParkingState(Snapshot());
      isParkingActive := true;
      parkingCompleted := false;
      currentPhase := Waiting;
      bias := Unbiased;
      ResetPhaseStates();
      assert Snapshot() == target;
    }

    /** `stop_parking`. */
    method StopParking()
      requires Valid()
      modifies this`isParkingActive, this`motor, this`bias
      ensures Valid()
      ensures Snapshot() == StopParkingState(old(Snapshot()))
    {
      ghost var target := StopParkingState(Snapshot());
      isParkingActive := false;
      motor := motor + [ResetMotor];
      bias := Unbiased;
      assert Snapshot() == target;
    }

    /** `_reset_phase_states`. */
    method ResetPhaseStates()
      modifies this`phaseStates, this`timers
      ensures Snapshot() == ClearPhaseStates(old(Snapshot()))
    {
      ghost var target := ClearPhaseStates(Snapshot());
      phaseStates := {};
      timers := timers.(phaseStart := None, additionalBackward := None);
      assert Snapshot() == target;
    }

    /** `update_sensor_data`: the given sensors are overwritten, all others kept. */
    method UpdateSensorData(sensorData: map<string, real>)
      modifies this`sensorDistances
      ensures sensorDistances == DictUpdate(old(sensorDistances), sensorData)
    {
      sensorDistances := DictUpdate(sensorDistances, sensorData);
    }

    /** `update_parking_config`: the given keys are overwritten, all others kept. */
    method UpdateParkingConfig(newConfig: map<ConfigKey, real>)
      requires Valid()
      modifies this`parkingConfig
      ensures Valid()
      ensures parkingConfig == DictUpdate(old(parkingConfig), newConfig)
    {
      parkingConfig := DictUpdate(parkingConfig, newConfig);
    }

    /** `get_parking_config`: a copy of the configuration, holding every key. */
    function GetParkingConfig(): (c: map<ConfigKey, real>)
      reads this
      requires Valid()
      ensures ConfigComplete(c)
      ensures c == parkingConfig
    {
      parkingConfig
    }

    /**
     * Changing only `stop_distance` through `update_parking_config` and reading
     * the configuration back gives the new value for that key and the old
     * value for every other.
     */
    method UpdateThenGetConfig(stopDistance: real) returns (cfg: map<ConfigKey, real>)
      requires Valid()
      modifies this`parkingConfig
      ensures Valid()
      ensures cfg == parkingConfig && cfg.Keys == old(parkingConfig).Keys
      ensures cfg[StopDistance] == stopDistance
      ensures forall k :: k in cfg && k != StopDistance ==> cfg[k] == old(parkingConfig)[k]
    {
      UpdateParkingConfig(map[StopDistance := stopDistance]);
      cfg := GetParkingConfig();
    }

    /** `get_status`: a snapshot whose number is the phase's ordinal and which is never completed and active at once. */
    function GetStatus(): (r: StatusReport)
      reads this
      requires Valid()
      ensures r.phaseNumber == Ordinal(r.phase) && r.phaseNumber <= 13
      ensures r.isCompleted ==> !r.isActive
      ensures r.phase == currentPhase && r.bias == bias
      ensures r.isActive == isParkingActive && r.isCompleted == parkingCompleted
      ensures r.sensorDistances == sensorDistances && r.sensorFlags == sensorFlags
    {
      StatusReport(currentPhase, Ordinal(currentPhase), bias, isParkingActive, parkingCompleted,
        sensorDistances, sensorFlags)
    }

    /** `emergency_stop`: stop the wheels, then the effect of `stop_parking`. */
    method EmergencyStop()
      requires Valid()
      modifies this`isParkingActive, this`motor, this`bias
      ensures Valid()
      ensures Snapshot() == EmergencyStopState(old(Snapshot()), parkingConfig)
    {
      ghost var target := EmergencyStopState(Snapshot(), parkingConfig);
      motor := motor + StopVehicle(parkingConfig);
      StopParking();
      bias := Unbiased;
      assert Snapshot() == target;
    }

    /** `reset_system`. */
    method ResetSystem()
      requires Valid()
      modifies this`motor, this`isParkingActive, this`parkingCompleted, this`currentPhase, this`bias,
        this`phaseStates, this`timers, this`sensorFlags
      ensures Valid()
      ensures Snapshot() == ResetSystemState(old(Snapshot()), parkingConfig)
    {
      ghost var target := ResetSystemState(Snapshot(), parkingConfig);
      motor := motor + StopVehicle(parkingConfig);
      isParkingActive := false;
      parkingCompleted := false;
      currentPhase := Waiting;
      bias := Unbiased;
      ResetPhaseStates();
      sensorFlags := {};
      assert Snapshot() == target;
    }

    /** `_set_phase`. */
    method SetPhase(phase: Phase, now: real)
      modifies this`currentPhase, this`timers
      ensures currentPhase == phase && timers == old(timers).(phaseStart := Some(now))
    {
      currentPhase := phase;
      timers := timers.(phaseStart := Some(now));
    }

    /**
     * `_check_sensor_detection`: flag every unflagged lateral sensor that rose by
     * more than 5 cm from a valid previous sample; fire once all three are
     * flagged and the first stop has not been made. The stored samples are
     * refreshed only when it does not fire.
     */
    method CheckSensorDetection() returns (fires: bool)
      modifies this`sensorFlags, this`previousDistances, this`bias
      ensures sensorFlags == DetectedFlags(old(sensorFlags), old(previousDistances), CurrentLateral(sensorDistances))
      ensures fires == (AllFlagged(sensorFlags) && FirstStopCompleted !in phaseStates)
      ensures previousDistances == if fires then old(previousDistances) else CurrentLateral(sensorDistances)
      ensures bias == if fires then Unbiased else old(bias)
    {
      var current := CurrentLateral(sensorDistances);
      for i := 0 to |LateralOrder|
        invariant sensorFlags == DetectedAmong(old(sensorFlags), previousDistances, current, LateralOrder[..i])
        invariant previousDistances == old(previousDistances) && bias == old(bias)
      {
        var name := LateralOrder[i];
        assert LateralOrder[..i + 1][..i] == LateralOrder[..i];
        if name !in sensorFlags && At(previousDistances, name) > 0.0 {
          if At(current, name) > At(previousDistances, name) + 5.0 {
            sensorFlags := sensorFlags + {name};
          }
        }
      }
      assert LateralOrder[..|LateralOrder|] == LateralOrder;
      DetectedAmongLateralOrder(old(sensorFlags), previousDistances, current);
      if AllFlagged(sensorFlags) && FirstStopCompleted !in phaseStates {
        bias := Unbiased;
        return true;
      }
      previousDistances := current;
      return false;
    }

    /** `_check_second_stop_condition`, against the stored `rear_right` sample. */
    method CheckSecondStopCondition() returns (fires: bool)
      modifies this`bias
      ensures fires == SecondStopRise(At(previousDistances, RearRight), SensorDistance(sensorDistances, RearRightName))
      ensures bias == if fires then Unbiased else old(bias)
    {
      var current := SensorDistance(sensorDistances, RearRightName);
      fires := false;
      if current > 0.0 && At(previousDistances, RearRight) > 0.0 {
        if current > At(previousDistances, RearRight) + 10.0 {
          bias := Unbiased;
          fires := true;
        }
      }
    }

    /** `_check_backward_completion`: `front_right` within `stop_distance`. */
    method CheckBackwardCompletion() returns (done: bool)
      requires Valid()
      modifies this`bias
      ensures done == WithinStopDistance(sensorDistances, parkingConfig)
      ensures bias == if done then Unbiased else old(bias)
    {
      done := SensorDistance(sensorDistances, FrontRightName) <= parkingConfig[StopDistance];
      if done {
        bias := Unbiased;
      }
    }

    /** `_check_alignment_completion`: the alignment verdict, steering toward alignment when outside the tolerance. */
    method CheckAlignmentCompletion() returns (aligned: bool)
      requires Valid()
      modifies this`motor, this`bias
      ensures var verdict := AlignmentVerdict(SensorDistance(sensorDistances, FrontRightName),
          SensorDistance(sensorDistances, RearRightName), parkingConfig[AlignmentTolerance]);
        aligned == (verdict == Aligned)
        && motor == old(motor) + AlignmentSteering(verdict, parkingConfig[SteeringSpeed])
        && bias == if verdict == InvalidReading then old(bias) else Unbiased
    {
      var frontRight := SensorDistance(sensorDistances, FrontRightName);
      var rearRight := SensorDistance(sensorDistances, RearRightName);
      if frontRight <= 0.0 || rearRight <= 0.0 {
        return false;
      }
      var difference := frontRight - rearRight;
      if Abs(difference) <= parkingConfig[AlignmentTolerance] {
        bias := Unbiased;
        return true;
      }
      if difference > 0.0 {
        motor := motor + [TurnLeft(parkingConfig)];
      } else {
        motor := motor + [TurnRight(parkingConfig)];
      }
      bias := Unbiased;
      return false;
    }

    /** `_check_position_correction_needed`: records the bias it finds in the status. */
    method CheckPositionCorrectionNeeded() returns (needed: bool)
      requires Valid()
      modifies this`bias
      ensures bias == PositionVerdict(SensorDistance(sensorDistances, MiddleRightName),
        SensorDistance(sensorDistances, MiddleLeftName), parkingConfig[CorrectionThreshold])
      ensures needed == (bias != Unbiased)
    {
      var middleRight := SensorDistance(sensorDistances, MiddleRightName);
      var middleLeft := SensorDistance(sensorDistances, MiddleLeftName);
      if middleRight <= 0.0 && middleLeft <= 0.0 {
        bias := Unbiased;
        return false;
      }
      var difference := Abs(middleRight - middleLeft);
      if difference >= parkingConfig[CorrectionThreshold] {
        if middleRight > middleLeft {
          bias := LeftBiased;
        } else {
          bias := RightBiased;
        }
        return true;
      }
      bias := Unbiased;
      return false;
    }


    /** WAITING. */
    method ExecuteWaitingPhase(now: real)
      requires Valid() && currentPhase == Waiting
      modifies this`currentPhase, this`timers, this`phaseStates
      ensures Valid()
      ensures Snapshot() == WaitingStep(old(Snapshot()), now)
    {
      ghost var target := WaitingStep(Snapshot(), now);
      if InitialForwardStarted !in phaseStates {
        SetPhase(InitialForward, now);
        phaseStates := phaseStates + {InitialForwardStarted};
      }
      assert Snapshot() == target;
    }

    /** INITIAL_FORWARD. */
    method ExecuteInitialForwardPhase(now: real)
      requires Valid() && currentPhase == InitialForward
      modifies this`motor, this`bias, this`sensorFlags, this`previousDistances, this`currentPhase, this`timers
      ensures Valid()
      ensures Snapshot() == InitialForwardStep(old(Snapshot()), sensorDistances, parkingConfig, now)
    {
      ghost var target := InitialForwardStep(Snapshot(), sensorDistances, parkingConfig, now);
      motor := motor + [Forward(parkingConfig), StraightSteering(parkingConfig)];
      bias := Unbiased;
      var fires := CheckSensorDetection();
      if fires {
        SetPhase(FirstStop, now);
      }
      assert Snapshot() == target;
    }

    /** FIRST_STOP. */
    method ExecuteFirstStopPhase(now: real)
      requires Valid() && currentPhase == FirstStop
      modifies this`motor, this`bias, this`phaseStates, this`currentPhase, this`timers
      ensures Valid()
      ensures Snapshot() == FirstStopStep(old(Snapshot()), parkingConfig, now)
    {
      ghost var target := FirstStopStep(Snapshot(), parkingConfig, now);
      motor := motor + StopVehicle(parkingConfig);
      phaseStates := phaseStates + {FirstStopCompleted};
      bias := Unbiased;
      SetPhase(LeftTurnForward, now);
      assert Snapshot() == target;
    }

    /** LEFT_TURN_FORWARD. */
    method ExecuteLeftTurnForwardPhase(now: real)
      requires Valid() && currentPhase == LeftTurnForward
      modifies this`motor, this`bias, this`phaseStates, this`currentPhase, this`timers
      ensures Valid()
      ensures Snapshot() == LeftTurnForwardStep(old(Snapshot()), sensorDistances, parkingConfig, now)
    {
      ghost var target := LeftTurnForwardStep(Snapshot(), sensorDistances, parkingConfig, now);
      if LeftTurnStarted !in phaseStates {
        motor := motor + [TurnLeft(parkingConfig), Forward(parkingConfig)];
        phaseStates := phaseStates + {LeftTurnStarted};
        bias := Unbiased;
      }
      var fires := CheckSecondStopCondition();
      if fires {
        SetPhase(SecondStop, now);
      }
      assert Snapshot() == target;
    }

    /** SECOND_STOP. */
    method ExecuteSecondStopPhase(now: real)
      requires Valid() && currentPhase == SecondStop
      modifies this`motor, this`bias, this`phaseStates, this`currentPhase, this`timers
      ensures Valid()
      ensures Snapshot() == SecondStopStep(old(Snapshot()), parkingConfig, now)
    {
      ghost var target := SecondStopStep(Snapshot(), parkingConfig, now);
      motor := motor + StopVehicle(parkingConfig);
      phaseStates := phaseStates + {SecondStopCompleted};
      bias := Unbiased;
      SetPhase(RightTurnBackward, now);
      assert Snapshot() == target;
    }

    /**
     * The steering ramp of RIGHT_TURN_BACKWARD: for two seconds after the
     * backward start, right while the ramped angle is positive and straight
     * once it reaches 0; straight afterwards; nothing before the start.
     */
    method SteerByRamp(now: real)
      requires Valid()
      modifies this`motor, this`bias
      ensures motor == old(motor) + RampSteering(timers.backward, now, parkingConfig[RightTurnAngle], parkingConfig[SteeringSpeed])
      ensures bias == RampBias(timers.backward, now, old(bias))
    {
      if timers.backward.Some? {
        var elapsed := now - timers.backward.value;
        if elapsed < RampSeconds {
          var steering := RightTurnRamp(parkingConfig[RightTurnAngle], elapsed);
          if steering > 0.0 {
            motor := motor + [TurnRight(parkingConfig)];
          } else {
            motor := motor + [StraightSteering(parkingConfig)];
          }
          bias := Unbiased;
        } else {
          motor := motor + [StraightSteering(parkingConfig)];
        }
      }
    }

    /** The one-shot start of RIGHT_TURN_BACKWARD. */
    method StartRightTurnMotion(now: real)
      requires Valid()
      modifies this`motor, this`bias, this`phaseStates, this`timers
      ensures Snapshot() == StartRightTurnBackward(old(Snapshot()), parkingConfig, now)
    {
      ghost var target := StartRightTurnBackward(Snapshot(), parkingConfig, now);
      if RightTurnStarted !in phaseStates {
        motor := motor + [TurnRight(parkingConfig), Backward(parkingConfig)];
        phaseStates := phaseStates + {RightTurnStarted};
        timers := timers.(backward := Some(now));
        bias := Unbiased;
      }
      assert Snapshot() == target;
    }

    /** The ramp of RIGHT_TURN_BACKWARD and its exit test. */
    method RampAndStopCheckStep(now: real)
      requires Valid()
      modifies this`motor, this`bias, this`currentPhase, this`timers
      ensures Snapshot() == RampAndStopCheck(old(Snapshot()), sensorDistances, parkingConfig, now)
    {
      ghost var target := RampAndStopCheck(Snapshot(), sensorDistances, parkingConfig, now);
      SteerByRamp(now);
      var done := CheckBackwardCompletion();
      if done {
        SetPhase(StraightBackward, now);
      }
      assert Snapshot() == target;
    }

    /** RIGHT_TURN_BACKWARD. */
    method ExecuteRightTurnBackwardPhase(now: real)
      requires Valid() && currentPhase == RightTurnBackward
      modifies this`motor, this`bias, this`phaseStates, this`currentPhase, this`timers
      ensures Valid()
      ensures Snapshot() == RightTurnBackwardStep(old(Snapshot()), sensorDistances, parkingConfig, now)
    {
      RightTurnBackwardStepHalves(Snapshot(), sensorDistances, parkingConfig, now);
      StartRightTurnMotion(now);
      RampAndStopCheckStep(now);
    }

    /** STRAIGHT_BACKWARD. */
    method ExecuteStraightBackwardPhase(now: real)
      requires Valid() && currentPhase == StraightBackward
      modifies this`motor, this`bias, this`phaseStates, this`currentPhase, this`timers
      ensures Valid()
      ensures Snapshot() == StraightBackwardStep(old(Snapshot()), parkingConfig, now)
    {
      ghost var target := StraightBackwardStep(Snapshot(), parkingConfig, now);
      if StraightBackwardStarted !in phaseStates {
        motor := motor + [StraightSteering(parkingConfig), Backward(parkingConfig)];
        phaseStates := phaseStates + {StraightBackwardStarted};
        timers := timers.(straightBackward := Some(now));
        bias := Unbiased;
      }
      if TimeElapsed(timers.straightBackward, parkingConfig[StraightBackwardDuration], now) {
        SetPhase(AlignmentPhase, now);
      }
      assert Snapshot() == target;
    }

    /** The first half of ALIGNMENT: reverse until aligned. */
    method StartAlignmentMotion()
      requires Valid()
      modifies this`motor, this`bias
      ensures Snapshot() == StartAlignmentReverse(old(Snapshot()), parkingConfig)
    {
      ghost var target := StartAlignmentReverse(Snapshot(), parkingConfig);
      if AlignmentCompleted !in phaseStates {
        motor := motor + [Backward(parkingConfig)];
        bias := Unbiased;
      }
      assert Snapshot() == target;
    }

    /** The second half of ALIGNMENT: steer, or stop and move on once aligned. */
    method AlignmentReactionStep(now: real)
      requires Valid()
      modifies this`motor, this`bias, this`phaseStates, this`currentPhase, this`timers
      ensures Snapshot() == AlignmentReaction(old(Snapshot()), sensorDistances, parkingConfig, now)
    {
      ghost var target := AlignmentReaction(Snapshot(), sensorDistances, parkingConfig, now);
      var aligned := CheckAlignmentCompletion();
      if aligned {
        phaseStates := phaseStates + {AlignmentCompleted};
        motor := motor + StopVehicle(parkingConfig);
        SetPhase(PositionCheck, now);
      }
      assert Snapshot() == target;
    }

    /** ALIGNMENT. */
    method ExecuteAlignmentPhase(now: real)
      requires Valid() && currentPhase == AlignmentPhase
      modifies this`motor, this`bias, this`phaseStates, this`currentPhase, this`timers
      ensures Valid()
      ensures Snapshot() == AlignmentStep(old(Snapshot()), sensorDistances, parkingConfig, now)
    {
      AlignmentStepHalves(Snapshot(), sensorDistances, parkingConfig, now);
      StartAlignmentMotion();
      AlignmentReactionStep(now);
    }

    /** POSITION_CHECK. */
    method ExecutePositionCheckPhase(now: real)
      requires Valid() && currentPhase == PositionCheck
      modifies this`bias, this`currentPhase, this`timers
      ensures Valid()
      ensures Snapshot() == PositionCheckStep(old(Snapshot()), sensorDistances, parkingConfig, now)
    {
      ghost var target := PositionCheckStep(Snapshot(), sensorDistances, parkingConfig, now);
      var needed := CheckPositionCorrectionNeeded();
      if needed {
        SetPhase(CorrectionPhase, now);
      } else {
        SetPhase(ParkingCompleteStop, now);
      }
      assert Snapshot() == target;
    }

    /** CORRECTION: the steering side is read back from the recorded bias. */
    method ExecuteCorrectionPhase(now: real)
      requires Valid() && currentPhase == CorrectionPhase
      modifies this`motor, this`phaseStates, this`currentPhase, this`timers
      ensures Valid()
      ensures Snapshot() == CorrectionStep(old(Snapshot()), parkingConfig, now)
    {
      ghost var target := CorrectionStep(Snapshot(), parkingConfig, now);
      if CorrectionStarted !in phaseStates {
        timers := timers.(correction := Some(now));
        phaseStates := phaseStates + {CorrectionStarted};
        motor := motor + [Forward(parkingConfig), CorrectionSteering(bias, parkingConfig)];
      }
      if TimeElapsed(timers.correction, parkingConfig[CorrectionDuration], now) {
        phaseStates := phaseStates + {CorrectionCompleted};
        motor := motor + StopVehicle(parkingConfig);
        SetPhase(PostCorrectionBackward, now);
      }
      assert Snapshot() == target;
    }

    /** The one-shot start of POST_CORRECTION_BACKWARD. */
    method StartPostCorrectionMotion(now: real)
      requires Valid()
      modifies this`motor, this`bias, this`phaseStates, this`timers
      ensures Snapshot() == StartPostCorrectionBackward(old(Snapshot()), parkingConfig, now)
    {
      ghost var target := StartPostCorrectionBackward(Snapshot(), parkingConfig, now);
      if PostCorrectionBackwardStarted !in phaseStates {
        motor := motor + [StraightSteering(parkingConfig), Backward(parkingConfig)];
        phaseStates := phaseStates + {PostCorrectionBackwardStarted};
        timers := timers.(postCorrectionBackward := Some(now));
        bias := Unbiased;
      }
      assert Snapshot() == target;
    }

    /** The additional reverse after `front_right` comes within `stop_distance`. */
    method AdditionalBackwardStep(now: real)
      requires Valid()
      modifies this`motor, this`bias, this`currentPhase, this`timers
      ensures Snapshot() == AdditionalBackward(old(Snapshot()), sensorDistances, parkingConfig, now)
    {
      ghost var target := AdditionalBackward(Snapshot(), sensorDistances, parkingConfig, now);
      var frontRight := SensorDistance(sensorDistances, FrontRightName);
      if frontRight <= parkingConfig[StopDistance] {
        if timers.additionalBackward.None? {
          timers := timers.(additionalBackward := Some(now));
          bias := Unbiased;
        } else if TimeElapsed(timers.additionalBackward, parkingConfig[AdditionalBackwardDuration], now) {
          motor := motor + StopVehicle(parkingConfig);
          bias := Unbiased;
          SetPhase(ParkingCompleteStop, now);
        }
      }
      assert Snapshot() == target;
    }

    /** POST_CORRECTION_BACKWARD. */
    method ExecutePostCorrectionBackwardPhase(now: real)
      requires Valid() && currentPhase == PostCorrectionBackward
      modifies this`motor, this`bias, this`phaseStates, this`currentPhase, this`timers
      ensures Valid()
      ensures Snapshot() == PostCorrectionBackwardStep(old(Snapshot()), sensorDistances, parkingConfig, now)
    {
      PostCorrectionBackwardStepHalves(Snapshot(), sensorDistances, parkingConfig, now);
      StartPostCorrectionMotion(now);
      AdditionalBackwardStep(now);
    }

    /** PARKING_COMPLETE_STOP. */
    method ExecuteParkingCompleteStopPhase(now: real)
      requires Valid() && currentPhase == ParkingCompleteStop
      modifies this`motor, this`bias, this`phaseStates, this`currentPhase, this`timers
      ensures Valid()
      ensures Snapshot() == ParkingCompleteStopStep(old(Snapshot()), parkingConfig, now)
    {
      ghost var target := ParkingCompleteStopStep(Snapshot(), parkingConfig, now);
      if ParkingCompletionStopStarted !in phaseStates {
        motor := motor + StopVehicle(parkingConfig);
        phaseStates := phaseStates + {ParkingCompletionStopStarted};
        timers := timers.(parkingCompletionStop := Some(now));
        bias := Unbiased;
      }
      if TimeElapsed(timers.parkingCompletionStop, parkingConfig[ParkingStopDuration], now) {
        SetPhase(FinalForward, now);
      }
      assert Snapshot() == target;
    }

    /** The one-shot start of FINAL_FORWARD: straight steering, forward speed. */
    method StartFinalForwardMotion()
      requires Valid()
      modifies this`motor, this`bias, this`phaseStates
      ensures Snapshot() == StartFinalForward(old(Snapshot()), parkingConfig)
    {
      ghost var target := StartFinalForward(Snapshot(), parkingConfig);
      if ParkingCompletionForwardStarted !in phaseStates {
        motor := motor + [StraightSteering(parkingConfig), Forward(parkingConfig)];
        phaseStates := phaseStates + {ParkingCompletionForwardStarted};
        bias := Unbiased;
      }
      assert Snapshot() == target;
    }

    /** The reaction of FINAL_FORWARD to a `rear_right` jump over the sample stored during INITIAL_FORWARD. */
    method TurnAfterIncreaseStep(now: real)
      requires Valid()
      modifies this`motor, this`bias, this`phaseStates, this`currentPhase, this`timers
      ensures Snapshot() == TurnAfterIncrease(old(Snapshot()), sensorDistances, parkingConfig, now)
    {
      ghost var target := TurnAfterIncrease(Snapshot(), sensorDistances, parkingConfig, now);
      if FinalForwardRise(previousDistances.rearRight, SensorDistance(sensorDistances, RearRightName)) {
        if RightTurnAfterIncreaseStarted !in phaseStates {
          timers := timers.(rightTurnAfterIncrease := Some(now));
          phaseStates := phaseStates + {RightTurnAfterIncreaseStarted};
          motor := motor + [TurnRight(parkingConfig)];
          bias := Unbiased;
        } else if TimeElapsed(timers.rightTurnAfterIncrease, parkingConfig[RightTurnDuration], now) {
          motor := motor + [StraightSteering(parkingConfig)];
          bias := Unbiased;
          currentPhase := Completed;
          timers := timers.(phaseStart := Some(now));
        }
      }
      assert Snapshot() == target;
    }

    /** FINAL_FORWARD. */
    method ExecuteFinalForwardPhase(now: real)
      requires Valid() && currentPhase == FinalForward
      modifies this`motor, this`bias, this`phaseStates, this`currentPhase, this`timers
      ensures Valid()
      ensures Snapshot() == FinalForwardStep(old(Snapshot()), sensorDistances, parkingConfig, now)
    {
      FinalForwardStepHalves(Snapshot(), sensorDistances, parkingConfig, now);
      StartFinalForwardMotion();
      TurnAfterIncreaseStep(now);
    }

    /** COMPLETED. */
    method ExecuteCompletedPhase()
      requires Valid() && currentPhase == Completed
      modifies this`motor, this`bias, this`parkingCompleted, this`isParkingActive
      ensures Valid()
      ensures Snapshot() == CompletedStep(old(Snapshot()), parkingConfig)
    {
      ghost var target := CompletedStep(Snapshot(), parkingConfig);
      motor := motor + StopVehicle(parkingConfig);
      parkingCompleted := true;
      isParkingActive := false;
      bias := Unbiased;
      assert Snapshot() == target;
    }

    /**
     * `execute_parking_cycle`: nothing while inactive; otherwise the tick of the
     * current phase, as `CycleStep` describes it. The sensor store and the
     * configuration are left alone.
     */
    method ExecuteParkingCycle(now: real)
      requires Valid()
      modifies this`motor, this`bias, this`isParkingActive, this`parkingCompleted, this`previousDistances,
        this`sensorFlags, this`phaseStates, this`currentPhase, this`timers
      ensures Valid()
      ensures Snapshot() == CycleStep(old(Snapshot()), sensorDistances, parkingConfig, now)
    {
      if !isParkingActive {
        return;
      }
      match currentPhase
      case Waiting => ExecuteWaitingPhase(now);
      case InitialForward => ExecuteInitialForwardPhase(now);
      case FirstStop => ExecuteFirstStopPhase(now);
      case LeftTurnForward => ExecuteLeftTurnForwardPhase(now);
      case SecondStop => ExecuteSecondStopPhase(now);
      case RightTurnBackward => ExecuteRightTurnBackwardPhase(now);
      case StraightBackward => ExecuteStraightBackwardPhase(now);
      case AlignmentPhase => ExecuteAlignmentPhase(now);
      case PositionCheck => ExecutePositionCheckPhase(now);
      case CorrectionPhase => ExecuteCorrectionPhase(now);
      case PostCorrectionBackward => ExecutePostCorrectionBackwardPhase(now);
      case ParkingCompleteStop => ExecuteParkingCompleteStopPhase(now);
      case FinalForward => ExecuteFinalForwardPhase(now);
      case Completed => ExecuteCompletedPhase();
    }
  }
}
