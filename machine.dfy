/**
 * The parking controller's state machine as values: the phases, latches,
 * timers and configuration of the hardware controller, the motor commands it
 * issues, and one pure step function per phase that says what a tick in that
 * phase does to the whole state.
 *
 * The motor controller is represented by the sequence of commands sent to it
 * (`motor`), the clock by the `now` argument of each tick, and the status
 * message by the only part of it the machine reads back, the lateral bias.
 */
module ParkingMachine {
  import opened Wrappers
  import opened Sensing
  import opened Steering

  /** The phases in maneuver order; `Ordinal` is the enum value. */
  datatype Phase =
    | Waiting | InitialForward | FirstStop | LeftTurnForward | SecondStop
    | RightTurnBackward | StraightBackward | AlignmentPhase | PositionCheck | CorrectionPhase
    | PostCorrectionBackward | ParkingCompleteStop | FinalForward | Completed

  function Ordinal(p: Phase): (n: nat)
    ensures n <= 13
    ensures n == 0 <==> p == Waiting
    ensures n == 13 <==> p == Completed
  {
    match p
    case Waiting => 0
    case InitialForward => 1
    case FirstStop => 2
    case LeftTurnForward => 3
    case SecondStop => 4
    case RightTurnBackward => 5
    case StraightBackward => 6
    case AlignmentPhase => 7
    case PositionCheck => 8
    case CorrectionPhase => 9
    case PostCorrectionBackward => 10
    case ParkingCompleteStop => 11
    case FinalForward => 12
    case Completed => 13
  }

  /** Distinct phases have distinct numbers, so the ordinal order is a total order on phases. */
  lemma OrdinalInjective(p: Phase, q: Phase)
    requires Ordinal(p) == Ordinal(q)
    ensures p == q
  {
  }

  /** The keys of `phase_states`; a latch is in `phaseStates` when its entry is True. */
  datatype Latch =
    | InitialForwardStarted | FirstStopCompleted | LeftTurnStarted | SecondStopCompleted
    | RightTurnStarted | BackwardCompleted | AlignmentCompleted | StraightBackwardStarted
    | CorrectionStarted | CorrectionCompleted | PostCorrectionBackwardStarted
    | ParkingCompletionStopStarted | ParkingCompletionForwardStarted | RightTurnAfterIncreaseStarted

  /** A call on the motor controller. */
  datatype MotionCommand =
    | SetSpeed(speed: real)               // left_speed = right_speed = speed; negative reverses
    | SteerLeft(steeringSpeed: real)      // left(steering_speed)
    | SteerRight(steeringSpeed: real)     // right(steering_speed)
    | SteerStraight(steeringSpeed: real)  // stay(steering_speed)
    | ResetMotor                          // reset_motor_values()

  /** The optional timestamps of the controller. */
  datatype Timers = Timers(
    phaseStart: Option<real>,
    correction: Option<real>,
    backward: Option<real>,
    straightBackward: Option<real>,
    postCorrectionBackward: Option<real>,
    parkingCompletionStop: Option<real>,
    rightTurnAfterIncrease: Option<real>,
    additionalBackward: Option<real>)

  const NoTimers: Timers := Timers(None, None, None, None, None, None, None, None)

  /** The keys of `parking_config`. */
  datatype ConfigKey =
    | ForwardSpeed | BackwardSpeed | SteeringSpeed | LeftTurnAngle | RightTurnAngle | CorrectionAngle
    | StopDistance | AlignmentTolerance | CorrectionThreshold | StraightBackwardDuration | CorrectionDuration
    | ParkingStopDuration | RightTurnDuration | AdditionalBackwardDuration | FinalRightTurnAngle

  const ConfigKeys: set<ConfigKey> := {
    ForwardSpeed, BackwardSpeed, SteeringSpeed, LeftTurnAngle, RightTurnAngle, CorrectionAngle,
    StopDistance, AlignmentTolerance, CorrectionThreshold, StraightBackwardDuration, CorrectionDuration,
    ParkingStopDuration, RightTurnDuration, AdditionalBackwardDuration, FinalRightTurnAngle}

  /** The configuration a controller starts with. */
  const DefaultConfig: map<ConfigKey, real> := map[
    ForwardSpeed := 30.0, BackwardSpeed := 25.0, SteeringSpeed := 50.0,
    LeftTurnAngle := -20.0, RightTurnAngle := 13.0, CorrectionAngle := 15.0,
    StopDistance := 40.0, AlignmentTolerance := 3.0, CorrectionThreshold := 10.0,
    StraightBackwardDuration := 0.3, CorrectionDuration := 2.0, ParkingStopDuration := 2.0,
    RightTurnDuration := 1.5, AdditionalBackwardDuration := 0.5, FinalRightTurnAngle := 20.0]

  /** Changing only `stop_distance` to 35 leaves every other default in place. */
  lemma ConfigUpdateRoundTrip()
    ensures var c := DictUpdate(DefaultConfig, map[StopDistance := 35.0]);
      c.Keys == ConfigKeys && c[StopDistance] == 35.0
      && forall k :: k in DefaultConfig && k != StopDistance ==> c[k] == DefaultConfig[k]
  {
  }

  /** Every configuration key has a value. */
  predicate ConfigComplete(config: map<ConfigKey, real>) {
    ForwardSpeed in config && BackwardSpeed in config && SteeringSpeed in config && LeftTurnAngle in config
    && RightTurnAngle in config && CorrectionAngle in config && StopDistance in config && AlignmentTolerance in config
    && CorrectionThreshold in config && StraightBackwardDuration in config && CorrectionDuration in config
    && ParkingStopDuration in config && RightTurnDuration in config && AdditionalBackwardDuration in config
    && FinalRightTurnAngle in config
  }

  /** `_move_forward`: both wheels at `forward_speed`. */
  function Forward(config: map<ConfigKey, real>): MotionCommand
    requires ConfigComplete(config)
  {
    SetSpeed(config[ForwardSpeed])
  }

  /** `_move_backward`: both wheels at minus `backward_speed`. */
  function Backward(config: map<ConfigKey, real>): MotionCommand
    requires ConfigComplete(config)
  {
    SetSpeed(-config[BackwardSpeed])
  }

  /** `_turn_left`. */
  function TurnLeft(config: map<ConfigKey, real>): MotionCommand
    requires ConfigComplete(config)
  {
    SteerLeft(config[SteeringSpeed])
  }

  /** `_turn_right`. */
  function TurnRight(config: map<ConfigKey, real>): MotionCommand
    requires ConfigComplete(config)
  {
    SteerRight(config[SteeringSpeed])
  }

  /** `_straight_steering`. */
  function StraightSteering(config: map<ConfigKey, real>): MotionCommand
    requires ConfigComplete(config)
  {
    SteerStraight(config[SteeringSpeed])
  }

  /** `_stop_vehicle`: both wheel speeds 0, steering straight. */
  function StopVehicle(config: map<ConfigKey, real>): seq<MotionCommand>
    requires ConfigComplete(config)
  {
    [SetSpeed(0.0), SteerStraight(config[SteeringSpeed])]
  }

  /** `front_right` has come within `stop_distance`. */
  predicate WithinStopDistance(distances: map<string, real>, config: map<ConfigKey, real>)
    requires ConfigComplete(config)
  {
    SensorDistance(distances, FrontRightName) <= config[StopDistance]
  }

  /**
   * The steering issued by one RIGHT_TURN_BACKWARD tick: nothing before the
   * turn has a start time; during the first two seconds right while the ramped
   * angle is positive and straight once it is 0; straight afterwards.
   */
  function RampSteering(start: Option<real>, now: real, angle: real, steeringSpeed: real): (r: seq<MotionCommand>)
    ensures start.None? <==> r == []
    ensures start.Some? && now - start.value >= RampSeconds ==> r == [SteerStraight(steeringSpeed)]
    ensures start.Some? && angle > 0.0 && now - start.value < RampSeconds ==> r == [SteerRight(steeringSpeed)]
  {
    if start.None? then []
    else
      var elapsed := now - start.value;
      if elapsed < RampSeconds then
        (if RightTurnRamp(angle, elapsed) > 0.0 then [SteerRight(steeringSpeed)] else [SteerStraight(steeringSpeed)])
      else [SteerStraight(steeringSpeed)]
  }

  /** The steering the alignment check issues: none when aligned or a reading is invalid. */
  function AlignmentSteering(verdict: AlignmentResult, steeringSpeed: real): seq<MotionCommand> {
    match verdict
    case InvalidReading => []
    case Aligned => []
    case SteerLeftToAlign => [SteerLeft(steeringSpeed)]
    case SteerRightToAlign => [SteerRight(steeringSpeed)]
  }

  /** The start time of a one-shot timer after a tick: kept once its latch is set, otherwise recorded now. */
  function OneShotStart(latched: bool, before: Option<real>, now: real): Option<real> {
    if latched then before else Some(now)
  }

  /**
   * A one-shot timer either keeps its value or, while its latch was still
   * clear, is recorded at `now` and its latch is set by the same tick.
   */
  predicate RecordedOnce(before: Option<real>, after: Option<real>, latchedBefore: bool, latchedAfter: bool, now: real) {
    after == before || (!latchedBefore && latchedAfter && after == Some(now))
  }

  /**
   * The part of the controller a tick can change. The sensor store and the
   * configuration are read by a tick but never written by it, so they are
   * arguments of the step functions rather than part of the state.
   */
  datatype ControllerState = ControllerState(
    phase: Phase, bias: Bias, active: bool, completed: bool, previous: Samples, flags: set<Lateral>,
    latches: set<Latch>, timers: Timers, motor: seq<MotionCommand>)

  /**
   * The phase diagram: the phases a tick may enter from `p`. Every phase has one
   * successor except POSITION_CHECK, which enters CORRECTION or skips to
   * PARKING_COMPLETE_STOP; COMPLETED has none.
   */
  predicate Follows(p: Phase, q: Phase) {
    match p
    case Waiting => q == InitialForward
    case InitialForward => q == FirstStop
    case FirstStop => q == LeftTurnForward
    case LeftTurnForward => q == SecondStop
    case SecondStop => q == RightTurnBackward
    case RightTurnBackward => q == StraightBackward
    case StraightBackward => q == AlignmentPhase
    case AlignmentPhase => q == PositionCheck
    case PositionCheck => q == CorrectionPhase || q == ParkingCompleteStop
    case CorrectionPhase => q == PostCorrectionBackward
    case PostCorrectionBackward => q == ParkingCompleteStop
    case ParkingCompleteStop => q == FinalForward
    case FinalForward => q == Completed
    case Completed => false
  }

  /** Every edge of the phase diagram raises the phase number. */
  lemma FollowsRaisesOrdinal(p: Phase, q: Phase)
    requires Follows(p, q)
    ensures Ordinal(p) < Ordinal(q)
  {
  }

  /**
   * What one active tick may do to the controller: the phase either stays or
   * follows an edge of the phase diagram, and every phase change restarts the
   * phase clock; flags, latches and the motor trace only grow; stored samples
   * change only in INITIAL_FORWARD; only COMPLETED ends the maneuver; every
   * one-shot timer is written only while its latch was still clear, and the
   * same tick sets that latch (the additional-backward one is written only
   * while unset); and POST_CORRECTION_BACKWARD is
   * left only after its additional reverse time has elapsed.
   */
  predicate Tick(b: ControllerState, a: ControllerState, config: map<ConfigKey, real>, now: real)
    requires ConfigComplete(config)
  {
    (a.phase == b.phase || Follows(b.phase, a.phase))
    && (a.phase != b.phase ==> a.timers.phaseStart == Some(now))
    && b.flags <= a.flags && b.latches <= a.latches && b.motor <= a.motor
    && (a.previous != b.previous ==> b.phase == InitialForward)
    && a.active == (b.active && b.phase != Completed)
    && a.completed == (b.completed || b.phase == Completed)
    && RecordedOnce(b.timers.backward, a.timers.backward, RightTurnStarted in b.latches, RightTurnStarted in a.latches, now)
    && RecordedOnce(b.timers.straightBackward, a.timers.straightBackward,
      StraightBackwardStarted in b.latches, StraightBackwardStarted in a.latches, now)
    && RecordedOnce(b.timers.correction, a.timers.correction, CorrectionStarted in b.latches, CorrectionStarted in a.latches, now)
    && RecordedOnce(b.timers.postCorrectionBackward, a.timers.postCorrectionBackward,
      PostCorrectionBackwardStarted in b.latches, PostCorrectionBackwardStarted in a.latches, now)
    && RecordedOnce(b.timers.parkingCompletionStop, a.timers.parkingCompletionStop,
      ParkingCompletionStopStarted in b.latches, ParkingCompletionStopStarted in a.latches, now)
    && RecordedOnce(b.timers.rightTurnAfterIncrease, a.timers.rightTurnAfterIncrease,
      RightTurnAfterIncreaseStarted in b.latches, RightTurnAfterIncreaseStarted in a.latches, now)
    && RecordedOnce(b.timers.additionalBackward, a.timers.additionalBackward,
      b.timers.additionalBackward.Some?, a.timers.additionalBackward.Some?, now)
    && (b.phase == PostCorrectionBackward && a.phase != b.phase ==>
      b.timers.additionalBackward.Some? && TimeElapsed(b.timers.additionalBackward, config[AdditionalBackwardDuration], now))
  }

  /** A tick never lowers the phase number. */
  lemma TickNeverLowersPhase(b: ControllerState, a: ControllerState, config: map<ConfigKey, real>, now: real)
    requires ConfigComplete(config) && Tick(b, a, config, now)
    ensures Ordinal(b.phase) <= Ordinal(a.phase)
  {
    if a.phase != b.phase {
      FollowsRaisesOrdinal(b.phase, a.phase);
    }
  }

  /** A maneuver is never completed and active at once. */
  predicate Consistent(s: ControllerState) {
    s.completed ==> !s.active
  }

  /** The phase clock after a tick that enters a new phase exactly when `changes` holds. */
  function PhaseClock(t: Timers, changes: bool, now: real): Option<real> {
    if changes then Some(now) else t.phaseStart
  }

  /** WAITING: enter INITIAL_FORWARD the first time. */
  function WaitingStep(s: ControllerState, now: real): (r: ControllerState)
    requires s.phase == Waiting
    ensures InitialForwardStarted in r.latches
    ensures r.phase == InitialForward <==> InitialForwardStarted !in s.latches
    ensures r.motor == s.motor
  {
    var go := InitialForwardStarted !in s.latches;
    s.(phase := if go then InitialForward else s.phase, timers := s.timers.(phaseStart := PhaseClock(s.timers, go, now)),
       latches := if go then s.latches + {InitialForwardStarted} else s.latches)
  }

  /** Every WAITING step is a tick. */
  lemma WaitingStepIsTick(s: ControllerState, config: map<ConfigKey, real>, now: real)
    requires ConfigComplete(config) && s.phase == Waiting
    ensures Tick(s, WaitingStep(s, now), config, now)
  {
  }

  /**
   * INITIAL_FORWARD: drive straight ahead and run one lateral detection pass;
   * FIRST_STOP once all three lateral sensors are flagged (and the first stop
   * has not been made), otherwise store the current lateral samples.
   */
  function InitialForwardStep(s: ControllerState, distances: map<string, real>, config: map<ConfigKey, real>, now: real)
    : (r: ControllerState)
    requires ConfigComplete(config) && s.phase == InitialForward
    ensures r.flags == DetectedFlags(s.flags, s.previous, CurrentLateral(distances))
    ensures r.phase == FirstStop <==> AllFlagged(r.flags) && FirstStopCompleted !in s.latches
    ensures r.previous == if r.phase == FirstStop then s.previous else CurrentLateral(distances)
    ensures r.motor == s.motor + [Forward(config), StraightSteering(config)] && r.bias == Unbiased
  {
    var current := CurrentLateral(distances);
    var flags := DetectedFlags(s.flags, s.previous, current);
    var fires := AllFlagged(flags) && FirstStopCompleted !in s.latches;
    s.(motor := s.motor + [Forward(config), StraightSteering(config)], bias := Unbiased, flags := flags,
       previous := if fires then s.previous else current,
       phase := if fires then FirstStop else s.phase, timers := s.timers.(phaseStart := PhaseClock(s.timers, fires, now)))
  }

  /** Every INITIAL_FORWARD step is a tick. */
  lemma InitialForwardStepIsTick(s: ControllerState, distances: map<string, real>, config: map<ConfigKey, real>, now: real)
    requires ConfigComplete(config) && s.phase == InitialForward
    ensures Tick(s, InitialForwardStep(s, distances, config, now), config, now)
  {
  }

  /** FIRST_STOP: stop, latch the stop, enter LEFT_TURN_FORWARD. */
  function FirstStopStep(s: ControllerState, config: map<ConfigKey, real>, now: real): (r: ControllerState)
    requires ConfigComplete(config) && s.phase == FirstStop
    ensures r.phase == LeftTurnForward && FirstStopCompleted in r.latches
    ensures r.motor == s.motor + StopVehicle(config)
  {
    s.(motor := s.motor + StopVehicle(config), latches := s.latches + {FirstStopCompleted}, bias := Unbiased,
       phase := LeftTurnForward, timers := s.timers.(phaseStart := Some(now)))
  }

  /** Every FIRST_STOP step is a tick. */
  lemma FirstStopStepIsTick(s: ControllerState, config: map<ConfigKey, real>, now: real)
    requires ConfigComplete(config) && s.phase == FirstStop
    ensures Tick(s, FirstStopStep(s, config, now), config, now)
  {
  }

  /** LEFT_TURN_FORWARD: steer left and drive the first time; SECOND_STOP on the `rear_right` edge. */
  function LeftTurnForwardStep(s: ControllerState, distances: map<string, real>, config: map<ConfigKey, real>, now: real)
    : (r: ControllerState)
    requires ConfigComplete(config) && s.phase == LeftTurnForward
    ensures r.phase == SecondStop
        <==> SecondStopRise(s.previous.rearRight, SensorDistance(distances, RearRightName))
    ensures r.motor == s.motor + (if LeftTurnStarted in s.latches then [] else [TurnLeft(config), Forward(config)])
    ensures LeftTurnStarted in r.latches
  {
    var first := LeftTurnStarted !in s.latches;
    var fires := SecondStopRise(s.previous.rearRight, SensorDistance(distances, RearRightName));
    s.(motor := if first then s.motor + [TurnLeft(config), Forward(config)] else s.motor,
       latches := if first then s.latches + {LeftTurnStarted} else s.latches, bias := if first || fires then Unbiased else s.bias,
       phase := if fires then SecondStop else s.phase, timers := s.timers.(phaseStart := PhaseClock(s.timers, fires, now)))
  }

  /** Every LEFT_TURN_FORWARD step is a tick. */
  lemma LeftTurnForwardStepIsTick(s: ControllerState, distances: map<string, real>, config: map<ConfigKey, real>, now: real)
    requires ConfigComplete(config) && s.phase == LeftTurnForward
    ensures Tick(s, LeftTurnForwardStep(s, distances, config, now), config, now)
  {
  }

  /** SECOND_STOP: stop, latch the stop, enter RIGHT_TURN_BACKWARD. */
  function SecondStopStep(s: ControllerState, config: map<ConfigKey, real>, now: real): (r: ControllerState)
    requires ConfigComplete(config) && s.phase == SecondStop
    ensures r.phase == RightTurnBackward && SecondStopCompleted in r.latches
    ensures r.motor == s.motor + StopVehicle(config)
  {
    s.(motor := s.motor + StopVehicle(config), latches := s.latches + {SecondStopCompleted}, bias := Unbiased,
       phase := RightTurnBackward, timers := s.timers.(phaseStart := Some(now)))
  }

  /** Every SECOND_STOP step is a tick. */
  lemma SecondStopStepIsTick(s: ControllerState, config: map<ConfigKey, real>, now: real)
    requires ConfigComplete(config) && s.phase == SecondStop
    ensures Tick(s, SecondStopStep(s, config, now), config, now)
  {
  }

  /** The status after the ramp part of a RIGHT_TURN_BACKWARD tick: rewritten while the ramp runs. */
  function RampBias(start: Option<real>, now: real, bias: Bias): Bias {
    if start.Some? && now - start.value < RampSeconds then Unbiased else bias
  }

  /**
   * RIGHT_TURN_BACKWARD: steer right and reverse the first time, recording the
   * start time; steer by the ramped angle; STRAIGHT_BACKWARD once `front_right`
   * is within `stop_distance`.
   */
  function RightTurnBackwardStep(s: ControllerState, distances: map<string, real>, config: map<ConfigKey, real>, now: real)
    : (r: ControllerState)
    requires ConfigComplete(config) && s.phase == RightTurnBackward
    ensures r.phase == StraightBackward <==> WithinStopDistance(distances, config)
    ensures r.timers.backward == OneShotStart(RightTurnStarted in s.latches, s.timers.backward, now)
    ensures r.motor == s.motor + (if RightTurnStarted in s.latches then [] else [TurnRight(config), Backward(config)])
      + RampSteering(r.timers.backward, now, config[RightTurnAngle], config[SteeringSpeed])
    ensures RightTurnStarted in r.latches
  {
    var first := RightTurnStarted !in s.latches;
    var start := OneShotStart(!first, s.timers.backward, now);
    var done := WithinStopDistance(distances, config);
    s.(motor := (if first then s.motor + [TurnRight(config), Backward(config)] else s.motor)
         + RampSteering(start, now, config[RightTurnAngle], config[SteeringSpeed]),
       latches := if first then s.latches + {RightTurnStarted} else s.latches,
       timers := s.timers.(backward := start, phaseStart := PhaseClock(s.timers, done, now)),
       bias := if done then Unbiased else RampBias(start, now, if first then Unbiased else s.bias),
       phase := if done then StraightBackward else s.phase)
  }

  /** The one-shot start of RIGHT_TURN_BACKWARD: steer right, reverse, record the backward start. */
  function StartRightTurnBackward(s: ControllerState, config: map<ConfigKey, real>, now: real): ControllerState
    requires ConfigComplete(config)
  {
    if RightTurnStarted in s.latches then s
    else s.(motor := s.motor + [TurnRight(config), Backward(config)], latches := s.latches + {RightTurnStarted},
      timers := s.timers.(backward := Some(now)), bias := Unbiased)
  }

  /** The rest of a RIGHT_TURN_BACKWARD tick: the ramp, then STRAIGHT_BACKWARD once within `stop_distance`. */
  function RampAndStopCheck(s: ControllerState, distances: map<string, real>, config: map<ConfigKey, real>, now: real)
    : ControllerState
    requires ConfigComplete(config)
  {
    var done := WithinStopDistance(distances, config);
    s.(motor := s.motor + RampSteering(s.timers.backward, now, config[RightTurnAngle], config[SteeringSpeed]),
       bias := if done then Unbiased else RampBias(s.timers.backward, now, s.bias),
       phase := if done then StraightBackward else s.phase,
       timers := s.timers.(phaseStart := PhaseClock(s.timers, done, now)))
  }

  /** A RIGHT_TURN_BACKWARD tick is its two halves in turn. */
  lemma RightTurnBackwardStepHalves(s: ControllerState, distances: map<string, real>, config: map<ConfigKey, real>,
    now: real)
    requires ConfigComplete(config) && s.phase == RightTurnBackward
    ensures RightTurnBackwardStep(s, distances, config, now)
         == RampAndStopCheck(StartRightTurnBackward(s, config, now), distances, config, now)
  {
  }

  /** Every RIGHT_TURN_BACKWARD step is a tick. */
  lemma RightTurnBackwardStepIsTick(s: ControllerState, distances: map<string, real>, config: map<ConfigKey, real>,
    now: real)
    requires ConfigComplete(config) && s.phase == RightTurnBackward
    ensures Tick(s, RightTurnBackwardStep(s, distances, config, now), config, now)
  {
  }

  /** STRAIGHT_BACKWARD: reverse straight the first time, recording the start time; ALIGNMENT after `straight_backward_duration`. */
  function StraightBackwardStep(s: ControllerState, config: map<ConfigKey, real>, now: real): (r: ControllerState)
    requires ConfigComplete(config) && s.phase == StraightBackward
    ensures r.timers.straightBackward == OneShotStart(StraightBackwardStarted in s.latches, s.timers.straightBackward, now)
    ensures r.phase == AlignmentPhase <==> TimeElapsed(r.timers.straightBackward, config[StraightBackwardDuration], now)
    ensures r.motor == s.motor
      + (if StraightBackwardStarted in s.latches then [] else [StraightSteering(config), Backward(config)])
    ensures StraightBackwardStarted in r.latches
  {
    var first := StraightBackwardStarted !in s.latches;
    var start := OneShotStart(!first, s.timers.straightBackward, now);
    var done := TimeElapsed(start, config[StraightBackwardDuration], now);
    s.(motor := if first then s.motor + [StraightSteering(config), Backward(config)] else s.motor,
       latches := if first then s.latches + {StraightBackwardStarted} else s.latches,
       timers := s.timers.(straightBackward := start, phaseStart := PhaseClock(s.timers, done, now)),
       bias := if first then Unbiased else s.bias,
       phase := if done then AlignmentPhase else s.phase)
  }

  /** Every STRAIGHT_BACKWARD step is a tick. */
  lemma StraightBackwardStepIsTick(s: ControllerState, config: map<ConfigKey, real>, now: real)
    requires ConfigComplete(config) && s.phase == StraightBackward
    ensures Tick(s, StraightBackwardStep(s, config, now), config, now)
  {
  }

  /** The alignment verdict of the `front_right` and `rear_right` readings. */
  function AlignmentOf(distances: map<string, real>, config: map<ConfigKey, real>): AlignmentResult
    requires ConfigComplete(config)
  {
    AlignmentVerdict(SensorDistance(distances, FrontRightName), SensorDistance(distances, RearRightName),
      config[AlignmentTolerance])
  }

  /** ALIGNMENT: reverse while steering toward equal right-hand readings; stop and POSITION_CHECK once aligned. */
  function AlignmentStep(s: ControllerState, distances: map<string, real>, config: map<ConfigKey, real>, now: real)
    : (r: ControllerState)
    requires ConfigComplete(config) && s.phase == AlignmentPhase
    ensures r.phase == PositionCheck <==> AlignmentOf(distances, config) == Aligned
    ensures AlignmentCompleted in r.latches <==> AlignmentCompleted in s.latches || AlignmentOf(distances, config) == Aligned
    ensures r.motor == s.motor + (if AlignmentCompleted in s.latches then [] else [Backward(config)])
      + AlignmentSteering(AlignmentOf(distances, config), config[SteeringSpeed])
      + (if AlignmentOf(distances, config) == Aligned then StopVehicle(config) else [])
  {
    var first := AlignmentCompleted !in s.latches;
    var verdict := AlignmentOf(distances, config);
    var aligned := verdict == Aligned;
    var steered := (if first then s.motor + [Backward(config)] else s.motor) + AlignmentSteering(verdict, config[SteeringSpeed]);
    s.(motor := if aligned then steered + StopVehicle(config) else steered,
       bias := if first || verdict != InvalidReading then Unbiased else s.bias,
       latches := if aligned then s.latches + {AlignmentCompleted} else s.latches,
       phase := if aligned then PositionCheck else s.phase, timers := s.timers.(phaseStart := PhaseClock(s.timers, aligned, now)))
  }

  /** The first half of an ALIGNMENT tick: reverse while the alignment is not completed. */
  function StartAlignmentReverse(s: ControllerState, config: map<ConfigKey, real>): ControllerState
    requires ConfigComplete(config)
  {
    if AlignmentCompleted in s.latches then s
    else s.(motor := s.motor + [Backward(config)], bias := Unbiased)
  }

  /** The second half of an ALIGNMENT tick: steer toward alignment, or stop and enter POSITION_CHECK. */
  function AlignmentReaction(s: ControllerState, distances: map<string, real>, config: map<ConfigKey, real>, now: real)
    : ControllerState
    requires ConfigComplete(config)
  {
    var verdict := AlignmentOf(distances, config);
    var aligned := verdict == Aligned;
    var steered := s.motor + AlignmentSteering(verdict, config[SteeringSpeed]);
    s.(motor := if aligned then steered + StopVehicle(config) else steered,
       bias := if verdict != InvalidReading then Unbiased else s.bias,
       latches := if aligned then s.latches + {AlignmentCompleted} else s.latches,
       phase := if aligned then PositionCheck else s.phase, timers := s.timers.(phaseStart := PhaseClock(s.timers, aligned, now)))
  }

  /** An ALIGNMENT tick is its two halves in turn. */
  lemma AlignmentStepHalves(s: ControllerState, distances: map<string, real>, config: map<ConfigKey, real>, now: real)
    requires ConfigComplete(config) && s.phase == AlignmentPhase
    ensures AlignmentStep(s, distances, config, now)
         == AlignmentReaction(StartAlignmentReverse(s, config), distances, config, now)
  {
  }

  /** Every ALIGNMENT step is a tick. */
  lemma AlignmentStepIsTick(s: ControllerState, distances: map<string, real>, config: map<ConfigKey, real>, now: real)
    requires ConfigComplete(config) && s.phase == AlignmentPhase
    ensures Tick(s, AlignmentStep(s, distances, config, now), config, now)
  {
  }

  /** The lateral bias shown by the middle readings. */
  function BiasOf(distances: map<string, real>, config: map<ConfigKey, real>): Bias
    requires ConfigComplete(config)
  {
    PositionVerdict(SensorDistance(distances, MiddleRightName), SensorDistance(distances, MiddleLeftName),
      config[CorrectionThreshold])
  }

  /** POSITION_CHECK: CORRECTION when the middle sensors show a bias, PARKING_COMPLETE_STOP otherwise. */
  function PositionCheckStep(s: ControllerState, distances: map<string, real>, config: map<ConfigKey, real>, now: real)
    : (r: ControllerState)
    requires ConfigComplete(config) && s.phase == PositionCheck
    ensures r.bias == BiasOf(distances, config)
    ensures r.phase == (if BiasOf(distances, config) == Unbiased then ParkingCompleteStop else CorrectionPhase)
    ensures r.motor == s.motor
  {
    var bias := BiasOf(distances, config);
    s.(bias := bias, phase := if bias != Unbiased then CorrectionPhase else ParkingCompleteStop,
       timers := s.timers.(phaseStart := Some(now)))
  }

  /** Every POSITION_CHECK step is a tick. */
  lemma PositionCheckStepIsTick(s: ControllerState, distances: map<string, real>, config: map<ConfigKey, real>, now: real)
    requires ConfigComplete(config) && s.phase == PositionCheck
    ensures Tick(s, PositionCheckStep(s, distances, config, now), config, now)
  {
  }

  /** The steering of the correction: right when the car is left-biased, left otherwise. */
  function CorrectionSteering(bias: Bias, config: map<ConfigKey, real>): MotionCommand
    requires ConfigComplete(config)
  {
    if bias == LeftBiased then TurnRight(config) else TurnLeft(config)
  }

  /**
   * CORRECTION: the first time, record the start time, drive forward and steer
   * against the recorded bias; stop and POST_CORRECTION_BACKWARD after
   * `correction_duration`.
   */
  function CorrectionStep(s: ControllerState, config: map<ConfigKey, real>, now: real): (r: ControllerState)
    requires ConfigComplete(config) && s.phase == CorrectionPhase
    ensures r.bias == s.bias
    ensures r.timers.correction == OneShotStart(CorrectionStarted in s.latches, s.timers.correction, now)
    ensures r.phase == PostCorrectionBackward <==> TimeElapsed(r.timers.correction, config[CorrectionDuration], now)
    ensures r.motor == s.motor
      + (if CorrectionStarted in s.latches then [] else [Forward(config), CorrectionSteering(s.bias, config)])
      + (if r.phase == PostCorrectionBackward then StopVehicle(config) else [])
    ensures CorrectionStarted in r.latches
    ensures CorrectionCompleted in r.latches <==> CorrectionCompleted in s.latches || r.phase == PostCorrectionBackward
  {
    var first := CorrectionStarted !in s.latches;
    var start := OneShotStart(!first, s.timers.correction, now);
    var done := TimeElapsed(start, config[CorrectionDuration], now);
    var started := if first then s.motor + [Forward(config), CorrectionSteering(s.bias, config)] else s.motor;
    var latched := if first then s.latches + {CorrectionStarted} else s.latches;
    s.(motor := if done then started + StopVehicle(config) else started,
       latches := if done then latched + {CorrectionCompleted} else latched,
       timers := s.timers.(correction := start, phaseStart := PhaseClock(s.timers, done, now)),
       phase := if done then PostCorrectionBackward else s.phase)
  }

  /** Every CORRECTION step is a tick. */
  lemma CorrectionStepIsTick(s: ControllerState, config: map<ConfigKey, real>, now: real)
    requires ConfigComplete(config) && s.phase == CorrectionPhase
    ensures Tick(s, CorrectionStep(s, config, now), config, now)
  {
  }

  /**
   * POST_CORRECTION_BACKWARD: reverse straight the first time; once
   * `front_right` is within `stop_distance`, record the additional-backward
   * time the first time, and on a later such tick after
   * `additional_backward_duration` stop and enter PARKING_COMPLETE_STOP.
   */
  function PostCorrectionBackwardStep(s: ControllerState, distances: map<string, real>, config: map<ConfigKey, real>,
    now: real): (r: ControllerState)
    requires ConfigComplete(config) && s.phase == PostCorrectionBackward
    ensures r.phase == ParkingCompleteStop
        <==> (WithinStopDistance(distances, config)
          && TimeElapsed(s.timers.additionalBackward, config[AdditionalBackwardDuration], now))
    ensures r.timers.additionalBackward
        == if WithinStopDistance(distances, config) && s.timers.additionalBackward.None? then Some(now)
           else s.timers.additionalBackward
    ensures r.timers.postCorrectionBackward
        == OneShotStart(PostCorrectionBackwardStarted in s.latches, s.timers.postCorrectionBackward, now)
    ensures r.motor == s.motor
      + (if PostCorrectionBackwardStarted in s.latches then [] else [StraightSteering(config), Backward(config)])
      + (if r.phase == ParkingCompleteStop then StopVehicle(config) else [])
    ensures PostCorrectionBackwardStarted in r.latches
  {
    var first := PostCorrectionBackwardStarted !in s.latches;
    var within := WithinStopDistance(distances, config);
    var latchNow := within && s.timers.additionalBackward.None?;
    var done := within && TimeElapsed(s.timers.additionalBackward, config[AdditionalBackwardDuration], now);
    var started := if first then s.motor + [StraightSteering(config), Backward(config)] else s.motor;
    s.(motor := if done then started + StopVehicle(config) else started,
       latches := if first then s.latches + {PostCorrectionBackwardStarted} else s.latches,
       timers := s.timers.(postCorrectionBackward := OneShotStart(!first, s.timers.postCorrectionBackward, now),
         additionalBackward := if latchNow then Some(now) else s.timers.additionalBackward,
         phaseStart := PhaseClock(s.timers, done, now)),
       bias := if first || latchNow || done then Unbiased else s.bias,
       phase := if done then ParkingCompleteStop else s.phase)
  }

  /** The one-shot start of POST_CORRECTION_BACKWARD: reverse straight, recording the start time. */
  function StartPostCorrectionBackward(s: ControllerState, config: map<ConfigKey, real>, now: real): ControllerState
    requires ConfigComplete(config)
  {
    if PostCorrectionBackwardStarted in s.latches then s
    else s.(motor := s.motor + [StraightSteering(config), Backward(config)],
      latches := s.latches + {PostCorrectionBackwardStarted},
      timers := s.timers.(postCorrectionBackward := Some(now)), bias := Unbiased)
  }

  /**
   * The rest of a POST_CORRECTION_BACKWARD tick: within `stop_distance`, latch
   * the additional-backward start once, and on a later tick after
   * `additional_backward_duration` stop and enter PARKING_COMPLETE_STOP.
   */
  function AdditionalBackward(s: ControllerState, distances: map<string, real>, config: map<ConfigKey, real>, now: real)
    : ControllerState
    requires ConfigComplete(config)
  {
    if !WithinStopDistance(distances, config) then s
    else if s.timers.additionalBackward.None? then
      s.(timers := s.timers.(additionalBackward := Some(now)), bias := Unbiased)
    else if TimeElapsed(s.timers.additionalBackward, config[AdditionalBackwardDuration], now) then
      s.(motor := s.motor + StopVehicle(config), bias := Unbiased, phase := ParkingCompleteStop,
        timers := s.timers.(phaseStart := Some(now)))
    else s
  }

  /** A POST_CORRECTION_BACKWARD tick is its two halves in turn. */
  lemma PostCorrectionBackwardStepHalves(s: ControllerState, distances: map<string, real>, config: map<ConfigKey, real>,
    now: real)
    requires ConfigComplete(config) && s.phase == PostCorrectionBackward
    ensures PostCorrectionBackwardStep(s, distances, config, now)
         == AdditionalBackward(StartPostCorrectionBackward(s, config, now), distances, config, now)
  {
  }

  /** Every POST_CORRECTION_BACKWARD step is a tick. */
  lemma PostCorrectionBackwardStepIsTick(s: ControllerState, distances: map<string, real>, config: map<ConfigKey, real>,
    now: real)
    requires ConfigComplete(config) && s.phase == PostCorrectionBackward
    ensures Tick(s, PostCorrectionBackwardStep(s, distances, config, now), config, now)
  {
  }

  /** PARKING_COMPLETE_STOP: stop the first time, recording the start time; FINAL_FORWARD after `parking_stop_duration`. */
  function ParkingCompleteStopStep(s: ControllerState, config: map<ConfigKey, real>, now: real): (r: ControllerState)
    requires ConfigComplete(config) && s.phase == ParkingCompleteStop
    ensures r.timers.parkingCompletionStop == OneShotStart(ParkingCompletionStopStarted in s.latches, s.timers.parkingCompletionStop, now)
    ensures r.phase == FinalForward <==> TimeElapsed(r.timers.parkingCompletionStop, config[ParkingStopDuration], now)
    ensures r.motor == s.motor + (if ParkingCompletionStopStarted in s.latches then [] else StopVehicle(config))
    ensures ParkingCompletionStopStarted in r.latches
  {
    var first := ParkingCompletionStopStarted !in s.latches;
    var start := OneShotStart(!first, s.timers.parkingCompletionStop, now);
    var done := TimeElapsed(start, config[ParkingStopDuration], now);
    s.(motor := if first then s.motor + StopVehicle(config) else s.motor,
       latches := if first then s.latches + {ParkingCompletionStopStarted} else s.latches,
       timers := s.timers.(parkingCompletionStop := start, phaseStart := PhaseClock(s.timers, done, now)),
       bias := if first then Unbiased else s.bias,
       phase := if done then FinalForward else s.phase)
  }

  /** Every PARKING_COMPLETE_STOP step is a tick. */
  lemma ParkingCompleteStopStepIsTick(s: ControllerState, config: map<ConfigKey, real>, now: real)
    requires ConfigComplete(config) && s.phase == ParkingCompleteStop
    ensures Tick(s, ParkingCompleteStopStep(s, config, now), config, now)
  {
  }

  /**
   * FINAL_FORWARD: drive straight the first time; while `rear_right` is more
   * than 15 cm above the stored sample, steer right the first time recording
   * the time, and on a later such tick after `right_turn_duration` straighten
   * and enter COMPLETED.
   */
  function FinalForwardStep(s: ControllerState, distances: map<string, real>, config: map<ConfigKey, real>, now: real)
    : (r: ControllerState)
    requires ConfigComplete(config) && s.phase == FinalForward
    ensures r.phase == Completed
        <==> (FinalForwardRise(s.previous.rearRight, SensorDistance(distances, RearRightName))
          && RightTurnAfterIncreaseStarted in s.latches
          && TimeElapsed(s.timers.rightTurnAfterIncrease, config[RightTurnDuration], now))
    ensures ParkingCompletionForwardStarted in r.latches
    ensures RightTurnAfterIncreaseStarted in r.latches
        <==> (RightTurnAfterIncreaseStarted in s.latches
          || FinalForwardRise(s.previous.rearRight, SensorDistance(distances, RearRightName)))
    ensures r.timers.rightTurnAfterIncrease
        == if RightTurnAfterIncreaseStarted in s.latches
              || !FinalForwardRise(s.previous.rearRight, SensorDistance(distances, RearRightName))
           then s.timers.rightTurnAfterIncrease else Some(now)
    ensures r.motor == s.motor
      + (if ParkingCompletionForwardStarted in s.latches then [] else [StraightSteering(config), Forward(config)])
      + (if !FinalForwardRise(s.previous.rearRight, SensorDistance(distances, RearRightName)) then []
         else if RightTurnAfterIncreaseStarted !in s.latches then [TurnRight(config)]
         else if r.phase == Completed then [StraightSteering(config)] else [])
  {
    var first := ParkingCompletionForwardStarted !in s.latches;
    var rise := FinalForwardRise(s.previous.rearRight, SensorDistance(distances, RearRightName));
    var turnNow := rise && RightTurnAfterIncreaseStarted !in s.latches;
    var done := rise && RightTurnAfterIncreaseStarted in s.latches
      && TimeElapsed(s.timers.rightTurnAfterIncrease, config[RightTurnDuration], now);
    var started := if first then s.motor + [StraightSteering(config), Forward(config)] else s.motor;
    var latched := if first then s.latches + {ParkingCompletionForwardStarted} else s.latches;
    s.(motor := if turnNow then started + [TurnRight(config)] else if done then started + [StraightSteering(config)] else started,
       latches := if turnNow then latched + {RightTurnAfterIncreaseStarted} else latched,
       timers := s.timers.(rightTurnAfterIncrease := if turnNow then Some(now) else s.timers.rightTurnAfterIncrease,
         phaseStart := PhaseClock(s.timers, done, now)),
       bias := if first || turnNow || done then Unbiased else s.bias,
       phase := if done then Completed else s.phase)
  }

  /** The first half of a FINAL_FORWARD tick: the one-shot start of the forward motion. */
  function StartFinalForward(s: ControllerState, config: map<ConfigKey, real>): ControllerState
    requires ConfigComplete(config)
  {
    if ParkingCompletionForwardStarted in s.latches then s
    else s.(motor := s.motor + [StraightSteering(config), Forward(config)],
      latches := s.latches + {ParkingCompletionForwardStarted}, bias := Unbiased)
  }

  /** The second half of a FINAL_FORWARD tick: the reaction to the `rear_right` jump. */
  function TurnAfterIncrease(s: ControllerState, distances: map<string, real>, config: map<ConfigKey, real>, now: real)
    : ControllerState
    requires ConfigComplete(config)
  {
    if !FinalForwardRise(s.previous.rearRight, SensorDistance(distances, RearRightName)) then s
    else if RightTurnAfterIncreaseStarted !in s.latches then
      s.(timers := s.timers.(rightTurnAfterIncrease := Some(now)), latches := s.latches + {RightTurnAfterIncreaseStarted},
        motor := s.motor + [TurnRight(config)], bias := Unbiased)
    else if TimeElapsed(s.timers.rightTurnAfterIncrease, config[RightTurnDuration], now) then
      s.(motor := s.motor + [StraightSteering(config)], bias := Unbiased, phase := Completed,
        timers := s.timers.(phaseStart := Some(now)))
    else s
  }

  /** A FINAL_FORWARD tick is its two halves in turn. */
  lemma FinalForwardStepHalves(s: ControllerState, distances: map<string, real>, config: map<ConfigKey, real>, now: real)
    requires ConfigComplete(config) && s.phase == FinalForward
    ensures FinalForwardStep(s, distances, config, now)
         == TurnAfterIncrease(StartFinalForward(s, config), distances, config, now)
  {
  }

  /** Every FINAL_FORWARD step is a tick. */
  lemma FinalForwardStepIsTick(s: ControllerState, distances: map<string, real>, config: map<ConfigKey, real>, now: real)
    requires ConfigComplete(config) && s.phase == FinalForward
    ensures Tick(s, FinalForwardStep(s, distances, config, now), config, now)
  {
  }

  /** COMPLETED: stop; the maneuver is completed and no longer active. */
  function CompletedStep(s: ControllerState, config: map<ConfigKey, real>): (r: ControllerState)
    requires ConfigComplete(config) && s.phase == Completed
    ensures r.completed && !r.active && r.motor == s.motor + StopVehicle(config)
  {
    s.(motor := s.motor + StopVehicle(config), completed := true, active := false, bias := Unbiased)
  }

  /** The COMPLETED step is a tick at every clock reading. */
  lemma CompletedStepIsTick(s: ControllerState, config: map<ConfigKey, real>, now: real)
    requires ConfigComplete(config) && s.phase == Completed
    ensures Tick(s, CompletedStep(s, config), config, now)
  {
  }

  /** `execute_parking_cycle`: nothing while inactive, else the step of the current phase, which is a tick. */
  function CycleStep(s: ControllerState, distances: map<string, real>, config: map<ConfigKey, real>, now: real)
    : (r: ControllerState)
    requires ConfigComplete(config)
    ensures !s.active ==> r == s
    ensures s.active ==> Tick(s, r, config, now)
  {
    if !s.active then s
    else
      match s.phase
      case Waiting => WaitingStepIsTick(s, config, now); WaitingStep(s, now)
      case InitialForward => InitialForwardStepIsTick(s, distances, config, now); InitialForwardStep(s, distances, config, now)
      case FirstStop => FirstStopStepIsTick(s, config, now); FirstStopStep(s, config, now)
      case LeftTurnForward => LeftTurnForwardStepIsTick(s, distances, config, now); LeftTurnForwardStep(s, distances, config, now)
      case SecondStop => SecondStopStepIsTick(s, config, now); SecondStopStep(s, config, now)
      case RightTurnBackward =>
        RightTurnBackwardStepIsTick(s, distances, config, now); RightTurnBackwardStep(s, distances, config, now)
      case StraightBackward => StraightBackwardStepIsTick(s, config, now); StraightBackwardStep(s, config, now)
      case AlignmentPhase => AlignmentStepIsTick(s, distances, config, now); AlignmentStep(s, distances, config, now)
      case PositionCheck => PositionCheckStepIsTick(s, distances, config, now); PositionCheckStep(s, distances, config, now)
      case CorrectionPhase => CorrectionStepIsTick(s, config, now); CorrectionStep(s, config, now)
      case PostCorrectionBackward =>
        PostCorrectionBackwardStepIsTick(s, distances, config, now); PostCorrectionBackwardStep(s, distances, config, now)
      case ParkingCompleteStop => ParkingCompleteStopStepIsTick(s, config, now); ParkingCompleteStopStep(s, config, now)
      case FinalForward => FinalForwardStepIsTick(s, distances, config, now); FinalForwardStep(s, distances, config, now)
      case Completed => CompletedStepIsTick(s, config, now); CompletedStep(s, config)
  }

  /** A freshly constructed controller. */
  const InitialState: ControllerState := ControllerState(Waiting, Unbiased, false, false, UnsetSamples, {}, {}, NoTimers, [])

  /** `_reset_phase_states`: every latch cleared, but of the timers only the phase clock and the additional-backward time. */
  function ClearPhaseStates(s: ControllerState): (r: ControllerState)
    ensures r.latches == {}
    ensures r.timers.phaseStart.None? && r.timers.additionalBackward.None?
    ensures r.timers.(phaseStart := s.timers.phaseStart, additionalBackward := s.timers.additionalBackward) == s.timers
  {
    s.(latches := {}, timers := s.timers.(phaseStart := None, additionalBackward := None))
  }

  /** `start_parking`: active, not completed, WAITING, latches cleared; flags and stored samples are kept. */
  function StartParkingState(s: ControllerState): (r: ControllerState)
    ensures r.active && !r.completed && r.phase == Waiting && r.latches == {}
    ensures r.flags == s.flags && r.previous == s.previous && r.motor == s.motor
  {
    ClearPhaseStates(s.(active := true, completed := false, phase := Waiting, bias := Unbiased))
  }

  /** `stop_parking`: inactive and the motor reset; the phase is kept. */
  function StopParkingState(s: ControllerState): (r: ControllerState)
    ensures !r.active && r.phase == s.phase && r.motor == s.motor + [ResetMotor]
  {
    s.(active := false, motor := s.motor + [ResetMotor], bias := Unbiased)
  }

  /** `emergency_stop`, sequentially: stop the wheels, then `stop_parking`. */
  function EmergencyStopState(s: ControllerState, config: map<ConfigKey, real>): (r: ControllerState)
    requires ConfigComplete(config)
    ensures !r.active && r.phase == s.phase
    ensures r.motor == s.motor + StopVehicle(config) + [ResetMotor]
  {
    StopParkingState(s.(motor := s.motor + StopVehicle(config)))
  }

  /** `reset_system`: stop, back to WAITING, inactive, not completed, every latch and flag cleared. */
  function ResetSystemState(s: ControllerState, config: map<ConfigKey, real>): (r: ControllerState)
    requires ConfigComplete(config)
    ensures !r.active && !r.completed && r.phase == Waiting && r.latches == {} && r.flags == {}
    ensures r.motor == s.motor + StopVehicle(config)
  {
    ClearPhaseStates(s.(motor := s.motor + StopVehicle(config), active := false, completed := false,
      phase := Waiting, bias := Unbiased)).(flags := {})
  }

  /** One pass of the main loop: the sensor store after the readings of that pass, and the clock. */
  datatype Reading = Reading(distances: map<string, real>, now: real)

  /** The state after one cycle per reading, in order, under a fixed configuration. */
  function Run(s: ControllerState, config: map<ConfigKey, real>, readings: seq<Reading>): ControllerState
    requires ConfigComplete(config)
    decreases |readings|
  {
    if readings == [] then s
    else Run(CycleStep(s, readings[0].distances, config, readings[0].now), config, readings[1..])
  }

  /** A run from an inactive state is the identity. */
  lemma {:induction false} RunOfInactive(s: ControllerState, config: map<ConfigKey, real>, readings: seq<Reading>)
    requires ConfigComplete(config) && !s.active
    ensures Run(s, config, readings) == s
    decreases |readings|
  {
    if readings != [] {
      RunOfInactive(s, config, readings[1..]);
    }
  }

  /**
   * Over any run of cycles the phase never goes back, no flag or latch is
   * cleared, commands are only appended, and a run that ends the maneuver ends
   * it in COMPLETED with the maneuver marked completed.
   */
  lemma {:induction false} RunIsMonotone(s: ControllerState, config: map<ConfigKey, real>, readings: seq<Reading>)
    requires ConfigComplete(config) && Consistent(s)
    ensures var r := Run(s, config, readings);
      Ordinal(s.phase) <= Ordinal(r.phase) && s.flags <= r.flags && s.latches <= r.latches && s.motor <= r.motor
      && Consistent(r) && (s.active && !r.active ==> r.completed && r.phase == Completed)
    decreases |readings|
  {
    if readings != [] {
      var next := CycleStep(s, readings[0].distances, config, readings[0].now);
      if s.active {
        TickNeverLowersPhase(s, next, config, readings[0].now);
      }
      if s.active && !next.active {
        RunOfInactive(next, config, readings[1..]);
      }
      RunIsMonotone(next, config, readings[1..]);
    }
  }

  /** After `start_parking` the first cycle enters INITIAL_FORWARD and starts the phase clock. */
  lemma StartThenCycle(s: ControllerState, distances: map<string, real>, config: map<ConfigKey, real>, now: real)
    requires ConfigComplete(config)
    ensures var r := CycleStep(StartParkingState(s), distances, config, now);
      r.phase == InitialForward && r.active && r.timers.phaseStart == Some(now) && r.latches == {InitialForwardStarted}
  {
  }

  /** A stopped controller ignores every cycle until it is started again. */
  lemma StoppedControllerIgnoresCycles(s: ControllerState, config: map<ConfigKey, real>, readings: seq<Reading>)
    requires ConfigComplete(config)
    ensures Run(StopParkingState(s), config, readings) == StopParkingState(s)
  {
    RunOfInactive(StopParkingState(s), config, readings);
  }

  /** The COMPLETED step ends the maneuver for good: every later cycle changes nothing. */
  lemma CompletedIsFinal(s: ControllerState, distances: map<string, real>, config: map<ConfigKey, real>, now: real,
    later: seq<Reading>)
    requires ConfigComplete(config) && s.active && s.phase == Completed
    ensures var r := CycleStep(s, distances, config, now);
      r.completed && !r.active && Run(r, config, later) == r
  {
    RunOfInactive(CycleStep(s, distances, config, now), config, later);
  }

  /** After `reset_system` and `start_parking` the maneuver restarts from scratch, with no flag set. */
  lemma ResetThenStart(s: ControllerState, distances: map<string, real>, config: map<ConfigKey, real>, now: real)
    requires ConfigComplete(config)
    ensures var r := CycleStep(StartParkingState(ResetSystemState(s, config)), distances, config, now);
      r.phase == InitialForward && r.flags == {} && r.latches == {InitialForwardStarted} && !r.completed
  {
  }

  /** With a positive angle the ramp's magnitude never matters: it steers right for two seconds, then straight. */
  lemma RampIgnoresMagnitude(start: Option<real>, now: real, angle: real, other: real, steeringSpeed: real)
    requires angle > 0.0 && other > 0.0
    ensures RampSteering(start, now, angle, steeringSpeed) == RampSteering(start, now, other, steeringSpeed)
  {
  }

  // One-shot actions: after the first cycle in a phase its latch is set, so a
  // second cycle in the same phase repeats neither its commands nor its timer.
  // INITIAL_FORWARD and ALIGNMENT re-issue their motion every tick and have no
  // such action; the stop phases always leave after one tick.

  /** LEFT_TURN_FORWARD steers left and drives off once. */
  lemma LeftTurnStartsOnce(s: ControllerState, d1: map<string, real>, d2: map<string, real>,
    config: map<ConfigKey, real>, t1: real, t2: real)
    requires ConfigComplete(config) && s.active && s.phase == LeftTurnForward
    ensures var a := CycleStep(s, d1, config, t1);
      LeftTurnStarted in a.latches && (a.phase == LeftTurnForward ==> CycleStep(a, d2, config, t2).motor == a.motor)
  {
  }

  /** RIGHT_TURN_BACKWARD steers right, reverses and records its start once; later ticks only follow the ramp. */
  lemma RightTurnStartsOnce(s: ControllerState, d1: map<string, real>, d2: map<string, real>,
    config: map<ConfigKey, real>, t1: real, t2: real)
    requires ConfigComplete(config) && s.active && s.phase == RightTurnBackward
    ensures var a := CycleStep(s, d1, config, t1);
      RightTurnStarted in a.latches
      && (a.phase == RightTurnBackward ==>
        var b := CycleStep(a, d2, config, t2);
        b.timers.backward == a.timers.backward
        && b.motor == a.motor + RampSteering(a.timers.backward, t2, config[RightTurnAngle], config[SteeringSpeed]))
  {
  }

  /** STRAIGHT_BACKWARD reverses straight and records its start once. */
  lemma StraightBackwardStartsOnce(s: ControllerState, d1: map<string, real>, d2: map<string, real>,
    config: map<ConfigKey, real>, t1: real, t2: real)
    requires ConfigComplete(config) && s.active && s.phase == StraightBackward
    ensures var a := CycleStep(s, d1, config, t1);
      StraightBackwardStarted in a.latches
      && (a.phase == StraightBackward ==>
        var b := CycleStep(a, d2, config, t2);
        b.timers.straightBackward == a.timers.straightBackward && b.motor == a.motor)
  {
  }

  /** CORRECTION drives and steers against the bias once; a later tick sends at most the final stop. */
  lemma CorrectionStartsOnce(s: ControllerState, d1: map<string, real>, d2: map<string, real>,
    config: map<ConfigKey, real>, t1: real, t2: real)
    requires ConfigComplete(config) && s.active && s.phase == CorrectionPhase
    ensures var a := CycleStep(s, d1, config, t1);
      CorrectionStarted in a.latches
      && (a.phase == CorrectionPhase ==>
        var b := CycleStep(a, d2, config, t2);
        b.timers.correction == a.timers.correction
        && (b.motor == a.motor || b.motor == a.motor + StopVehicle(config)))
  {
  }

  /** POST_CORRECTION_BACKWARD reverses straight once; a later tick sends at most the final stop. */
  lemma PostCorrectionBackwardStartsOnce(s: ControllerState, d1: map<string, real>, d2: map<string, real>,
    config: map<ConfigKey, real>, t1: real, t2: real)
    requires ConfigComplete(config) && s.active && s.phase == PostCorrectionBackward
    ensures var a := CycleStep(s, d1, config, t1);
      PostCorrectionBackwardStarted in a.latches
      && (a.phase == PostCorrectionBackward ==>
        var b := CycleStep(a, d2, config, t2);
        b.timers.postCorrectionBackward == a.timers.postCorrectionBackward
        && (b.motor == a.motor || b.motor == a.motor + StopVehicle(config)))
  {
  }

  /** PARKING_COMPLETE_STOP stops and records its start once. */
  lemma ParkingCompleteStopStartsOnce(s: ControllerState, d1: map<string, real>, d2: map<string, real>,
    config: map<ConfigKey, real>, t1: real, t2: real)
    requires ConfigComplete(config) && s.active && s.phase == ParkingCompleteStop
    ensures var a := CycleStep(s, d1, config, t1);
      ParkingCompletionStopStarted in a.latches
      && (a.phase == ParkingCompleteStop ==>
        var b := CycleStep(a, d2, config, t2);
        b.timers.parkingCompletionStop == a.timers.parkingCompletionStop && b.motor == a.motor)
  {
  }

  /**
   * FINAL_FORWARD drives straight once; once the right turn has started, a
   * later tick neither turns again nor re-records the turn's start, and sends
   * at most the final straightening.
   */
  lemma FinalForwardStartsOnce(s: ControllerState, d1: map<string, real>, d2: map<string, real>,
    config: map<ConfigKey, real>, t1: real, t2: real)
    requires ConfigComplete(config) && s.active && s.phase == FinalForward
    ensures var a := CycleStep(s, d1, config, t1);
      ParkingCompletionForwardStarted in a.latches
      && (a.phase == FinalForward ==>
        var b := CycleStep(a, d2, config, t2);
        (b.motor == a.motor || b.motor == a.motor + [TurnRight(config)] || b.motor == a.motor + [StraightSteering(config)])
        && (RightTurnAfterIncreaseStarted in a.latches ==>
          b.timers.rightTurnAfterIncrease == a.timers.rightTurnAfterIncrease
          && (b.motor == a.motor || b.motor == a.motor + [StraightSteering(config)])))
  {
  }

  /**
   * Over any run of cycles, a one-shot timer whose latch is already set keeps
   * its value: only `_reset_phase_states`, which clears the latches, lets a
   * phase record its start again.
   */
  lemma {:induction false} LatchedTimersStayFixed(s: ControllerState, config: map<ConfigKey, real>, readings: seq<Reading>)
    requires ConfigComplete(config)
    ensures var r := Run(s, config, readings);
      (RightTurnStarted in s.latches ==> r.timers.backward == s.timers.backward)
      && (StraightBackwardStarted in s.latches ==> r.timers.straightBackward == s.timers.straightBackward)
      && (CorrectionStarted in s.latches ==> r.timers.correction == s.timers.correction)
      && (PostCorrectionBackwardStarted in s.latches ==> r.timers.postCorrectionBackward == s.timers.postCorrectionBackward)
      && (ParkingCompletionStopStarted in s.latches ==> r.timers.parkingCompletionStop == s.timers.parkingCompletionStop)
      && (RightTurnAfterIncreaseStarted in s.latches ==> r.timers.rightTurnAfterIncrease == s.timers.rightTurnAfterIncrease)
      && (s.timers.additionalBackward.Some? ==> r.timers.additionalBackward == s.timers.additionalBackward)
    decreases |readings|
  {
    if readings != [] {
      LatchedTimersStayFixed(CycleStep(s, readings[0].distances, config, readings[0].now), config, readings[1..]);
    }
  }
}
