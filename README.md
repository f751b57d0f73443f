# Parallel-parking controller: a Dafny model

This project models the parallel-parking maneuver of a small autonomous car.
The car drives along a row of parked cars and watches five ultrasonic distance
sensors: `front_right`, `middle_left`, `middle_right`, `rear_left` and `rear_right`.
When it finds a gap it stops twice, reverses into the gap with a right turn
that ramps down, aligns itself with the kerb, and corrects a lateral bias if
the two middle sensors show one. It then stops for two seconds and drives
forward out of the maneuver.

The maneuver exists twice in the repository, and both copies are modelled:

- **The hardware controller.** `ParkingSystemController` in
  `parking/parking_system_controller.py` is an object. An outer loop ticks it
  with `execute_parking_cycle`, and it sends commands to a motor controller.
  It is modelled as the class `ParkingController.ParkingSystemController`,
  whose fields are the fields of the source.
  - Every phase method is proved to leave the object in exactly the state that
    a pure step function of `ParkingMachine` computes from the old state, the
    sensor store and the configuration.
  - `ParkingMachine` proves what those steps promise: the phase diagram, that
    one-shot commands and timers fire once, that flags and latches are never
    cleared by a tick, that a run of cycles never lowers the phase, that
    COMPLETED is final, and what stop, reset and start do.
  - The motor controller is a trace of `MotionCommand`s, which every operation
    can only extend.
- **The simulation.** The `Vehicle` class of `pygame_simul/parking_algorithm.py`
  is driven by the `if`/`elif` chain of `pygame_simul/parking_simulation.py`. It
  is modelled as the class `Simulation.Vehicle`.
  - Each `check_*` method is proved against the decision it makes.
  - Each `start_*`, `stop_*` and `complete_*` method is proved to set exactly
    the speed, steering, latches, timestamp and phase number it sets.
  - `SimulationTick` is one pass of the loop. It is proved to keep the phase
    invariant and every milestone latch, and to move the phase number only
    along the loop's order.
- **Shared rules.** `Sensing` and `Steering` hold the sensor store, the
  rising-edge tests, the lateral-detection pass, the time gates, the ramps, and
  the alignment and position verdicts. `Variants` proves where the two copies
  part ways:
  - the alignment tolerance is 3 cm in the controller and 0 cm in the simulation;
  - the correction steering is one static command in the controller and a ramp
    in the simulation;
  - the stored sample behind a jump test is frozen in the controller and tracks
    every reading in the simulation.
- **Lane detection.** `Lanes` models the two selection steps of
  `driving/image_processor.py`. `detect_lane_center_x` is a loop that keeps
  the running maximum of the boxes' `x1`. `roi_rectangle_below` is a row slice
  with Python's index rules.

Modelling conventions:

- **Clock.** Time is the `now: real` argument of each tick.
- **Dictionaries of booleans.** `phase_states` and `sensor_flags` are sets of
  the keys whose value is `True`.
- **Stored samples.** `previous_distances` is the three-field value `Samples`.
- **Status message.** The only part of the message the maneuver reads back is
  the lateral bias that POSITION_CHECK records for CORRECTION. The message is
  therefore the `Bias` enum. Every message that names no bias is `Unbiased`.

Where the code does something other than its docstrings and names suggest, the model follows the code:

- In the controller, CORRECTION issues one static steering command, opposite
  to the recorded bias, and does not ramp it. Only the simulation ramps the
  correction angle.
- `_reset_phase_states` clears every latch but only two timers: the phase clock
  and the additional-backward time. The other one-shot timestamps survive a
  reset. Each is rewritten on the next first tick of its phase, because the
  reset cleared that phase's latch.
- `start_parking` clears neither `sensor_flags` nor `previous_distances`.
  `reset_system` clears the flags but not the stored samples.
- The controller's second-stop and final-forward tests compare `rear_right`
  against the sample stored during INITIAL_FORWARD, which never changes again.
  The simulation stores the latest reading after every call that does not fire.
- The controller's final-forward test checks only that the stored sample is
  positive. A positive current reading follows from the rise
  (`Variants.FinalForwardIsJump`).
- `update_parking_config` merges any values without validating them.

## Model

| member | source | states |
|---|---|---|
| Sensing.DictUpdate | parking/parking_system_controller.py:158-166 | after a merge the keys are the union; given keys take the new value, all others keep the old one |
| Sensing.DistanceAfterUpdate | parking/parking_system_controller.py:223-225 | reading a sensor after a merge yields the value just given, else the older value, else the 100 cm default |
| Sensing.CurrentLateral | parking/parking_system_controller.py:229-233 | each lateral sample is the store's value for that sensor's name, or 100 cm when unset |
| Sensing.DetectedFlags | parking/parking_system_controller.py:236-244 | a detection pass never clears a flag, and every new flag had a valid previous sample and rose by more than 5 cm |
| Sensing.DetectedFlagsExactly | parking/parking_system_controller.py:241-243 | a sensor is flagged after the pass if and only if it already was, or its previous sample is positive and it rose by more than 5 cm |
| Sensing.DetectedAmongLateralOrder | parking/parking_system_controller.py:236 | visiting front_right, middle_right and rear_right in order gives exactly one detection pass |
| Sensing.SteadyReadingsSetNoFlag | parking/parking_system_controller.py:241-243 | readings that do not change between passes never set a flag |
| Sensing.InvalidPreviousSetsNoFlag | parking/parking_system_controller.py:241 | a sensor whose previous sample is at most 0 cannot become flagged |
| Sensing.UnsetSamplesSetNoFlag | parking/parking_system_controller.py:70-74 | a pass against the initial -1 samples sets no flag |
| Sensing.EdgesNeedValidSamples | parking/parking_system_controller.py:258-259 | none of the four rising-edge tests fires unless both samples are strictly positive |
| Sensing.UnsetPreviousNeverFires | pygame_simul/parking_algorithm.py:152-163 | no edge test fires against the initial -1 sample |
| Steering.TimeElapsed | parking/parking_system_controller.py:329-333 | a time gate is open only for a started timer whose duration has passed |
| Steering.TimeElapsedStaysTrue | parking/parking_system_controller.py:329-333 | once a gate is open it stays open at every later clock reading |
| Steering.FreshTimerNotElapsed | parking/parking_system_controller.py:329-333 | a timer started at `now` is open at `now` exactly when its duration is at most 0 |
| Steering.RightTurnRamp | parking/parking_system_controller.py:477-478 | the ramped angle is never negative, never above the start angle, and is 0 from two seconds on |
| Steering.RightTurnRampNonIncreasing | parking/parking_system_controller.py:475-478 | the ramped angle never grows as time passes |
| Steering.RightTurnRampPositiveBeforeEnd | parking/parking_system_controller.py:481-482 | before two seconds a positive start angle is still steered right |
| Steering.RightTurnRampDefaults | parking/parking_system_controller.py:117 | with the default 13 degrees the ramp is at 6.5 after one second and 0 after two |
| Steering.AlignmentVerdict | parking/parking_system_controller.py:275-303 | invalid if and only if a reading is at most 0; aligned if and only if both are valid and within the tolerance; otherwise it steers toward the smaller difference |
| Steering.AlignmentSteersTowardZero | parking/parking_system_controller.py:294-301 | outside the tolerance it steers left when front_right is larger, and right otherwise |
| Steering.PositionVerdict | parking/parking_system_controller.py:305-327 | biased if and only if some middle reading is positive and they differ by at least the threshold; left-biased exactly when middle_right is the larger one |
| Steering.PositionVerdictExample | parking/parking_system_controller.py:319-321 | middle_right 65 and middle_left 50 give left-biased |
| ParkingMachine.Ordinal | parking/parking_system_controller.py:14-29 | the phase number runs from 0 (WAITING) to 13 (COMPLETED) |
| ParkingMachine.OrdinalInjective | parking/parking_system_controller.py:14-29 | distinct phases have distinct numbers |
| ParkingMachine.ConfigUpdateRoundTrip | parking/parking_system_controller.py:629-632 | setting stop_distance to 35 changes that key only; every other default is kept |
| ParkingMachine.RampSteering | parking/parking_system_controller.py:472-488 | no steering before the turn starts; right while the positive ramp runs; straight from two seconds on |
| ParkingMachine.RampIgnoresMagnitude | parking/parking_system_controller.py:477-484 | with any positive angle the commands are the same: the angle's size never reaches the motor |
| ParkingMachine.FollowsRaisesOrdinal | parking/parking_system_controller.py:423-610 | every edge of the phase diagram raises the phase number |
| ParkingMachine.TickNeverLowersPhase | parking/parking_system_controller.py:423-610 | a tick never lowers the phase number |
| ParkingMachine.WaitingStep | parking/parking_system_controller.py:423-427 | WAITING enters INITIAL_FORWARD if and only if its latch was clear, and latches it; no command is sent |
| ParkingMachine.WaitingStepIsTick | parking/parking_system_controller.py:423-427 | a WAITING step is a tick |
| ParkingMachine.InitialForwardStep | parking/parking_system_controller.py:429-436 | drives forward and straight; the flags are one detection pass; FIRST_STOP if and only if all three are flagged before the first stop; samples are refreshed only if it stays |
| ParkingMachine.InitialForwardStepIsTick | parking/parking_system_controller.py:429-436 | an INITIAL_FORWARD step is a tick |
| ParkingMachine.FirstStopStep | parking/parking_system_controller.py:438-443 | stops the car, latches the stop, enters LEFT_TURN_FORWARD |
| ParkingMachine.FirstStopStepIsTick | parking/parking_system_controller.py:438-443 | a FIRST_STOP step is a tick |
| ParkingMachine.LeftTurnForwardStep | parking/parking_system_controller.py:445-454 | turn left and forward only while the latch was clear, and the latch is set afterwards; SECOND_STOP if and only if rear_right rose by more than 10 cm over the stored sample |
| ParkingMachine.LeftTurnForwardStepIsTick | parking/parking_system_controller.py:445-454 | a LEFT_TURN_FORWARD step is a tick |
| ParkingMachine.SecondStopStep | parking/parking_system_controller.py:456-461 | stops the car, latches the stop, enters RIGHT_TURN_BACKWARD |
| ParkingMachine.SecondStopStepIsTick | parking/parking_system_controller.py:456-461 | a SECOND_STOP step is a tick |
| ParkingMachine.RightTurnBackwardStep | parking/parking_system_controller.py:463-491 | turn right and reverse only while the latch was clear, recording the start then, and the latch is set afterwards; then the ramp's steering; STRAIGHT_BACKWARD if and only if front_right is within stop_distance |
| ParkingMachine.RightTurnBackwardStepHalves | parking/parking_system_controller.py:463-491 | the tick is its one-shot start followed by the ramp and the exit test |
| ParkingMachine.RightTurnBackwardStepIsTick | parking/parking_system_controller.py:463-491 | a RIGHT_TURN_BACKWARD step is a tick |
| ParkingMachine.StraightBackwardStep | parking/parking_system_controller.py:493-504 | steer straight and reverse only while the latch was clear, recording the start then, and the latch is set afterwards; ALIGNMENT if and only if straight_backward_duration has passed since the start |
| ParkingMachine.StraightBackwardStepIsTick | parking/parking_system_controller.py:493-504 | a STRAIGHT_BACKWARD step is a tick |
| ParkingMachine.AlignmentStep | parking/parking_system_controller.py:506-515 | reverses on every tick until the alignment latch is set, then steers toward alignment by the verdict and stops the car once aligned; POSITION_CHECK if and only if the readings are aligned; the completion latch is set exactly then |
| ParkingMachine.AlignmentStepHalves | parking/parking_system_controller.py:506-515 | the tick is the reverse command followed by the alignment reaction |
| ParkingMachine.AlignmentStepIsTick | parking/parking_system_controller.py:506-515 | an ALIGNMENT step is a tick |
| ParkingMachine.PositionCheckStep | parking/parking_system_controller.py:517-522 | records the bias the middle sensors show; CORRECTION when biased, PARKING_COMPLETE_STOP otherwise; no command is sent |
| ParkingMachine.PositionCheckStepIsTick | parking/parking_system_controller.py:517-522 | a POSITION_CHECK step is a tick |
| ParkingMachine.CorrectionStep | parking/parking_system_controller.py:524-540 | keeps the recorded bias; forward and the steering against the bias only while the latch was clear, recording the start then, and the latch is set afterwards; POST_CORRECTION_BACKWARD with a stop if and only if correction_duration has passed, and the completion latch is set exactly then |
| ParkingMachine.CorrectionStepIsTick | parking/parking_system_controller.py:524-540 | a CORRECTION step is a tick |
| ParkingMachine.PostCorrectionBackwardStep | parking/parking_system_controller.py:542-563 | straight reverse only while the latch was clear, recording the start then, and the latch is set afterwards; PARKING_COMPLETE_STOP with a stop if and only if front_right is within stop_distance and the additional time has passed; the additional start is recorded only once, within stop_distance |
| ParkingMachine.PostCorrectionBackwardStepHalves | parking/parking_system_controller.py:542-563 | the tick is its one-shot start followed by the additional-backward logic |
| ParkingMachine.PostCorrectionBackwardStepIsTick | parking/parking_system_controller.py:542-563 | a POST_CORRECTION_BACKWARD step is a tick |
| ParkingMachine.ParkingCompleteStopStep | parking/parking_system_controller.py:565-575 | the stop is sent and its start recorded only while the latch was clear, and the latch is set afterwards; FINAL_FORWARD if and only if parking_stop_duration has passed |
| ParkingMachine.ParkingCompleteStopStepIsTick | parking/parking_system_controller.py:565-575 | a PARKING_COMPLETE_STOP step is a tick |
| ParkingMachine.FinalForwardStep | parking/parking_system_controller.py:577-602 | straight and forward only while the forward latch was clear, which is set afterwards; the right turn and its start time only on the first jump of rear_right by more than 15 cm, whose latch is set exactly then; COMPLETED, with straight steering, if and only if such a jump finds the turn started and right_turn_duration passed |
| ParkingMachine.FinalForwardStepHalves | parking/parking_system_controller.py:577-602 | the tick is the one-shot forward start followed by the reaction to the jump |
| ParkingMachine.FinalForwardStepIsTick | parking/parking_system_controller.py:577-602 | a FINAL_FORWARD step is a tick |
| ParkingMachine.CompletedStep | parking/parking_system_controller.py:604-609 | stops the car; completed and no longer active |
| ParkingMachine.CompletedStepIsTick | parking/parking_system_controller.py:604-609 | the COMPLETED step is a tick |
| ParkingMachine.CycleStep | parking/parking_system_controller.py:383-417 | an inactive controller is left unchanged; an active one takes a tick |
| ParkingMachine.LeftTurnStartsOnce | parking/parking_system_controller.py:445-451 | after a LEFT_TURN_FORWARD cycle the latch is set, and a second cycle still in that phase sends no command |
| ParkingMachine.RightTurnStartsOnce | parking/parking_system_controller.py:463-484 | after a RIGHT_TURN_BACKWARD cycle the latch is set, and a second cycle still in that phase keeps the start time and sends only the ramp's steering |
| ParkingMachine.StraightBackwardStartsOnce | parking/parking_system_controller.py:493-504 | after a STRAIGHT_BACKWARD cycle the latch is set, and a second cycle still in that phase keeps the start time and sends no command |
| ParkingMachine.CorrectionStartsOnce | parking/parking_system_controller.py:524-540 | after a CORRECTION cycle the latch is set, and a second cycle still in that phase keeps the start time and sends at most the final stop |
| ParkingMachine.PostCorrectionBackwardStartsOnce | parking/parking_system_controller.py:542-563 | after a POST_CORRECTION_BACKWARD cycle the latch is set, and a second cycle still in that phase keeps the start time and sends at most the final stop |
| ParkingMachine.ParkingCompleteStopStartsOnce | parking/parking_system_controller.py:565-575 | after a PARKING_COMPLETE_STOP cycle the latch is set, and a second cycle still in that phase keeps the start time and sends no command |
| ParkingMachine.FinalForwardStartsOnce | parking/parking_system_controller.py:577-602 | after a FINAL_FORWARD cycle the forward latch is set; a second cycle still in that phase sends at most one turn or straightening, and once the turn has started neither turns again nor re-records its start |
| ParkingMachine.LatchedTimersStayFixed | parking/parking_system_controller.py:463-602 | over any run of cycles, every one-shot timer whose latch is already set, and the additional-backward time once recorded, keeps its value |
| ParkingMachine.ClearPhaseStates | parking/parking_system_controller.py:151-156 | every latch cleared, the phase clock and the additional-backward time unset, every other timer kept |
| ParkingMachine.StartParkingState | parking/parking_system_controller.py:133-141 | active, not completed, WAITING, no latch; flags, samples and motor trace kept |
| ParkingMachine.StopParkingState | parking/parking_system_controller.py:143-149 | inactive, same phase, motor reset appended |
| ParkingMachine.EmergencyStopState | parking/parking_system_controller.py:634-640 | inactive, same phase; a stop and then a motor reset appended |
| ParkingMachine.ResetSystemState | parking/parking_system_controller.py:642-656 | inactive, not completed, WAITING, no latch, no flag; a stop appended |
| ParkingMachine.RunOfInactive | parking/parking_system_controller.py:385-386 | any run of cycles on an inactive controller changes nothing |
| ParkingMachine.RunIsMonotone | parking/parking_system_controller.py:383-610 | over any run the phase never goes back, flags, latches and commands only grow, and a run that ends the maneuver ends it in COMPLETED |
| ParkingMachine.StartThenCycle | parking/parking_system_controller.py:133-141 | after start_parking, the first cycle enters INITIAL_FORWARD with only its latch set |
| ParkingMachine.StoppedControllerIgnoresCycles | parking/parking_system_controller.py:143-149 | after stop_parking, every run of cycles leaves the controller unchanged |
| ParkingMachine.CompletedIsFinal | parking/parking_system_controller.py:604-609 | after the COMPLETED step no later cycle changes anything |
| ParkingMachine.ResetThenStart | parking/parking_system_controller.py:642-656 | reset_system then start_parking restarts the maneuver from INITIAL_FORWARD with no flag set |
| ParkingController.ParkingSystemController.constructor | parking/parking_system_controller.py:34-131 | WAITING, inactive, sensors at 100 cm, stored samples at -1, no flag, latch or timer, default configuration |
| ParkingController.ParkingSystemController.StartParking | parking/parking_system_controller.py:133-141 | the new state is the start_parking state |
| ParkingController.ParkingSystemController.StopParking | parking/parking_system_controller.py:143-149 | the new state is the stop_parking state |
| ParkingController.ParkingSystemController.ResetPhaseStates | parking/parking_system_controller.py:151-156 | latches and the two timers are cleared as ClearPhaseStates says |
| ParkingController.ParkingSystemController.UpdateSensorData | parking/parking_system_controller.py:158-166 | the sensor store is the old store merged with the new readings |
| ParkingController.ParkingSystemController.UpdateParkingConfig | parking/parking_system_controller.py:629-632 | the configuration is the old one merged with the update, and stays complete |
| ParkingController.ParkingSystemController.GetParkingConfig | parking/parking_system_controller.py:625-627 | the returned configuration is the controller's configuration, with every key |
| ParkingController.ParkingSystemController.GetStatus | parking/parking_system_controller.py:612-623 | the report carries the controller's phase, bias, active and completed flags, sensor store and detection flags; its number is the phase's ordinal; a completed maneuver is never reported active |
| ParkingController.ParkingSystemController.UpdateThenGetConfig | parking/parking_system_controller.py:625-632 | updating only stop_distance and reading the configuration back gives the new value for that key and the old value for every other key |
| ParkingController.ParkingSystemController.EmergencyStop | parking/parking_system_controller.py:634-640 | the new state is the emergency-stop state |
| ParkingController.ParkingSystemController.ResetSystem | parking/parking_system_controller.py:642-656 | the new state is the reset state |
| ParkingController.ParkingSystemController.SetPhase | parking/parking_system_controller.py:335-339 | the phase is set and the phase clock restarted, other timers untouched |
| ParkingController.ParkingSystemController.CheckSensorDetection | parking/parking_system_controller.py:227-252 | the loop's flags are one detection pass; it fires exactly when all three are flagged before the first stop; samples are refreshed only when it does not fire |
| ParkingController.ParkingSystemController.CheckSecondStopCondition | parking/parking_system_controller.py:254-263 | fires exactly on a rear_right rise of more than 10 cm between valid samples |
| ParkingController.ParkingSystemController.CheckBackwardCompletion | parking/parking_system_controller.py:265-273 | true exactly when front_right is within stop_distance |
| ParkingController.ParkingSystemController.CheckAlignmentCompletion | parking/parking_system_controller.py:275-303 | true exactly for an aligned verdict; the motor gets the steering of that verdict |
| ParkingController.ParkingSystemController.CheckPositionCorrectionNeeded | parking/parking_system_controller.py:305-327 | records the position verdict; a correction is needed exactly when it names a bias |
| ParkingController.ParkingSystemController.ExecuteWaitingPhase | parking/parking_system_controller.py:423-427 | the new state is the WAITING step |
| ParkingController.ParkingSystemController.ExecuteInitialForwardPhase | parking/parking_system_controller.py:429-436 | the new state is the INITIAL_FORWARD step |
| ParkingController.ParkingSystemController.ExecuteFirstStopPhase | parking/parking_system_controller.py:438-443 | the new state is the FIRST_STOP step |
| ParkingController.ParkingSystemController.ExecuteLeftTurnForwardPhase | parking/parking_system_controller.py:445-454 | the new state is the LEFT_TURN_FORWARD step |
| ParkingController.ParkingSystemController.ExecuteSecondStopPhase | parking/parking_system_controller.py:456-461 | the new state is the SECOND_STOP step |
| ParkingController.ParkingSystemController.SteerByRamp | parking/parking_system_controller.py:472-488 | the motor gets the ramp's steering for the elapsed time |
| ParkingController.ParkingSystemController.StartRightTurnMotion | parking/parking_system_controller.py:465-470 | the one-shot start of the right turn backward |
| ParkingController.ParkingSystemController.RampAndStopCheckStep | parking/parking_system_controller.py:472-491 | the ramp and the exit test of the right turn backward |
| ParkingController.ParkingSystemController.ExecuteRightTurnBackwardPhase | parking/parking_system_controller.py:463-491 | the new state is the RIGHT_TURN_BACKWARD step |
| ParkingController.ParkingSystemController.ExecuteStraightBackwardPhase | parking/parking_system_controller.py:493-504 | the new state is the STRAIGHT_BACKWARD step |
| ParkingController.ParkingSystemController.StartAlignmentMotion | parking/parking_system_controller.py:508-510 | reverse while the alignment is not completed |
| ParkingController.ParkingSystemController.AlignmentReactionStep | parking/parking_system_controller.py:512-515 | steer toward alignment, or stop and enter POSITION_CHECK |
| ParkingController.ParkingSystemController.ExecuteAlignmentPhase | parking/parking_system_controller.py:506-515 | the new state is the ALIGNMENT step |
| ParkingController.ParkingSystemController.ExecutePositionCheckPhase | parking/parking_system_controller.py:517-522 | the new state is the POSITION_CHECK step |
| ParkingController.ParkingSystemController.ExecuteCorrectionPhase | parking/parking_system_controller.py:524-540 | the new state is the CORRECTION step |
| ParkingController.ParkingSystemController.StartPostCorrectionMotion | parking/parking_system_controller.py:544-549 | the one-shot start of the reverse after the correction |
| ParkingController.ParkingSystemController.AdditionalBackwardStep | parking/parking_system_controller.py:551-563 | the additional reverse and the exit test |
| ParkingController.ParkingSystemController.ExecutePostCorrectionBackwardPhase | parking/parking_system_controller.py:542-563 | the new state is the POST_CORRECTION_BACKWARD step |
| ParkingController.ParkingSystemController.ExecuteParkingCompleteStopPhase | parking/parking_system_controller.py:565-575 | the new state is the PARKING_COMPLETE_STOP step |
| ParkingController.ParkingSystemController.StartFinalForwardMotion | parking/parking_system_controller.py:579-583 | the one-shot forward start of FINAL_FORWARD |
| ParkingController.ParkingSystemController.TurnAfterIncreaseStep | parking/parking_system_controller.py:585-602 | the reaction of FINAL_FORWARD to a rear_right jump |
| ParkingController.ParkingSystemController.ExecuteFinalForwardPhase | parking/parking_system_controller.py:577-602 | the new state is the FINAL_FORWARD step |
| ParkingController.ParkingSystemController.ExecuteCompletedPhase | parking/parking_system_controller.py:604-609 | the new state is the COMPLETED step |
| ParkingController.ParkingSystemController.ExecuteParkingCycle | parking/parking_system_controller.py:383-417 | the new state is CycleStep of the old one: unchanged while inactive, otherwise the current phase's tick |
| Simulation.LateralOf | pygame_simul/parking_algorithm.py:124-151 | the three right-hand readings the detection pass compares |
| Simulation.AlignmentAngleFor | pygame_simul/parking_algorithm.py:174-204 | -5 degrees to steer left, +5 to steer right, the old angle otherwise |
| Simulation.LeftCorrectionRamp | pygame_simul/parking_algorithm.py:328-348 | a left-bias correction starts at +15 degrees and stays within (-15, 15] during two seconds |
| Simulation.RightCorrectionRamp | pygame_simul/parking_algorithm.py:349-369 | a right-bias correction starts at -15 degrees and stays within [-15, 15) during two seconds |
| Simulation.CorrectionRampsMirror | pygame_simul/parking_algorithm.py:328-369 | the two correction ramps are mirror images at every instant |
| Simulation.CorrectionRampsCrossAtOneSecond | pygame_simul/parking_algorithm.py:328-369 | each ramp passes through straight exactly one second in and has changed side after that |
| Simulation.PhaseFiveSteering | pygame_simul/parking_algorithm.py:512-519 | the phase-5 angle stays within 0 to 13 degrees and is 0 from two seconds on |
| Simulation.PhaseFiveSteeringNonIncreasing | pygame_simul/parking_algorithm.py:512-519 | the phase-5 angle never grows as time passes |
| Simulation.SimFollowsRaises | pygame_simul/parking_simulation.py:441-525 | one pass never lowers the phase number and raises it by at most three |
| Simulation.Vehicle.constructor | pygame_simul/parking_algorithm.py:5-82 | phase 0, at rest, readings at 100 cm, stored samples at -1, every latch clear, no timestamp |
| Simulation.Vehicle.CheckStopCondition | pygame_simul/parking_algorithm.py:124-151 | the loop's flags are one detection pass; it fires exactly when all three are flagged before the first stop; samples are stored only when it does not fire |
| Simulation.Vehicle.CheckSecondStopCondition | pygame_simul/parking_algorithm.py:152-163 | fires exactly on a rise of more than 10 cm between valid samples; the stored sample follows every call that does not fire |
| Simulation.Vehicle.CheckBackwardCompletion | pygame_simul/parking_algorithm.py:164-173 | true exactly when front_right is within 40 cm |
| Simulation.Vehicle.CheckAlignmentCompletion | pygame_simul/parking_algorithm.py:174-204 | true exactly for the zero-tolerance aligned verdict; the steering is set to that verdict's angle |
| Simulation.Vehicle.CheckPositionCorrectionNeeded | pygame_simul/parking_algorithm.py:284-309 | records the 10 cm position verdict; a correction is needed exactly when it names a bias |
| Simulation.Vehicle.StopVehicle | pygame_simul/parking_algorithm.py:205-212 | at rest, straight, first stop latched, phase 2 |
| Simulation.Vehicle.StartLeftTurnAndForward | pygame_simul/parking_algorithm.py:213-220 | 20 degrees left, forward speed, phase 3 |
| Simulation.Vehicle.StopVehicleSecond | pygame_simul/parking_algorithm.py:221-228 | at rest, straight, second stop latched, phase 4 |
| Simulation.Vehicle.StartRightTurnAndBackward | pygame_simul/parking_algorithm.py:229-237 | 13 degrees right, reverse, backward start recorded, phase 5 |
| Simulation.Vehicle.StopBackward | pygame_simul/parking_algorithm.py:238-247 | reverse straight, straight-backward start recorded, phase 6 |
| Simulation.Vehicle.CheckStraightBackwardCompletion | pygame_simul/parking_algorithm.py:248-261 | true exactly when 0.3 s have passed since the straight-backward start |
| Simulation.Vehicle.CompleteStraightBackward | pygame_simul/parking_algorithm.py:262-269 | at rest, straight-backward latch cleared, phase 7 |
| Simulation.Vehicle.StartAlignment | pygame_simul/parking_algorithm.py:270-275 | slow reverse, phase 8 |
| Simulation.Vehicle.CompleteAlignment | pygame_simul/parking_algorithm.py:276-283 | at rest, alignment latched, phase 9 |
| Simulation.Vehicle.StartCorrection | pygame_simul/parking_algorithm.py:310-327 | correction start recorded, phase 10; the recorded bias chooses +15 or -15 degrees forward, or no motion when there is none |
| Simulation.Vehicle.CheckLeftCorrectionCompletion | pygame_simul/parking_algorithm.py:328-348 | steers the left ramp for two seconds, then stops and reports completion |
| Simulation.Vehicle.CheckRightCorrectionCompletion | pygame_simul/parking_algorithm.py:349-369 | steers the right ramp for two seconds, then stops and reports completion |
| Simulation.Vehicle.CompleteCorrection | pygame_simul/parking_algorithm.py:370-378 | at rest, running latch cleared, completed latch set, phase 11 |
| Simulation.Vehicle.StartPostCorrectionBackward | pygame_simul/parking_algorithm.py:379-387 | reverse straight, start recorded, phase 11 |
| Simulation.Vehicle.CheckPostCorrectionBackwardCompletion | pygame_simul/parking_algorithm.py:388-409 | the additional start is recorded at most once, within 40 cm; completion exactly when it is recorded and 0.5 s have passed |
| Simulation.Vehicle.CompletePostCorrectionBackward | pygame_simul/parking_algorithm.py:410-419 | at rest, running latch cleared, the two-second stop started, phase 12 |
| Simulation.Vehicle.StartParkingCompletionStop | pygame_simul/parking_algorithm.py:477-485 | at rest, stop start recorded, phase 12 |
| Simulation.Vehicle.CheckParkingCompletionStop | pygame_simul/parking_algorithm.py:486-499 | true exactly when two seconds have passed since the stop started |
| Simulation.Vehicle.StartParkingCompletionForward | pygame_simul/parking_algorithm.py:420-428 | forward, straight, start recorded, phase 13 |
| Simulation.Vehicle.CheckRearRightSuddenIncrease | pygame_simul/parking_algorithm.py:429-445 | only while driving forward after the stop; fires exactly on a rise of more than 15 cm between valid samples; the stored sample follows every other call |
| Simulation.Vehicle.StartRightTurnAfterIncrease | pygame_simul/parking_algorithm.py:446-453 | forward, 20 degrees right, start recorded |
| Simulation.Vehicle.CheckRightTurnCompletion | pygame_simul/parking_algorithm.py:454-469 | true exactly when 1.5 s have passed since the turn started, and the car is then at rest |
| Simulation.Vehicle.StartFinalForward | pygame_simul/parking_algorithm.py:470-476 | forward, straight, phase 14 |
| Simulation.Vehicle.StartInitialForward | pygame_simul/parking_algorithm.py:500-507 | forward, straight, initial-forward latched, phase 1 |
| Simulation.Vehicle.UpdateSteering | pygame_simul/parking_algorithm.py:508-519 | while moving in phase 5 the steering is the phase-5 ramp; otherwise it is unchanged |
| Simulation.Vehicle.PassOne | pygame_simul/parking_simulation.py:445-447 | the phase-1 branch keeps the invariant and the milestones; against the initial samples it stays in phase 1 |
| Simulation.Vehicle.PassTwo | pygame_simul/parking_simulation.py:450-451 | the phase-2 branch keeps the invariant and the milestones and moves at most to phase 3 |
| Simulation.Vehicle.PassThree | pygame_simul/parking_simulation.py:454-456 | the phase-3 branch keeps the invariant and the milestones and moves at most to phase 4 |
| Simulation.Vehicle.PassFour | pygame_simul/parking_simulation.py:459-460 | the phase-4 branch keeps the invariant and the milestones and moves at most to phase 5 |
| Simulation.Vehicle.PassFive | pygame_simul/parking_simulation.py:463-465 | the phase-5 branch keeps the invariant and the milestones and moves at most to phase 6 |
| Simulation.Vehicle.PassSix | pygame_simul/parking_simulation.py:468-470 | the phase-6 branch keeps the invariant and the milestones and moves at most to phase 7 |
| Simulation.Vehicle.PassSeven | pygame_simul/parking_simulation.py:473-474 | the phase-7 branch keeps the invariant and the milestones and moves at most to phase 8 |
| Simulation.Vehicle.PassEight | pygame_simul/parking_simulation.py:477-479 | the phase-8 branch keeps the invariant and the milestones and moves at most to phase 9 |
| Simulation.Vehicle.PassNine | pygame_simul/parking_simulation.py:482-487 | the phase-9 branch moves to the correction (10) or the two-second stop (12) |
| Simulation.Vehicle.PassTen | pygame_simul/parking_simulation.py:490-500 | the phase-10 branch keeps the invariant and the milestones and moves at most to phase 11 |
| Simulation.Vehicle.PassEleven | pygame_simul/parking_simulation.py:503-509 | the phase-11 branches keep the invariant and the milestones and move at most to phase 12 |
| Simulation.Vehicle.PassTwelve | pygame_simul/parking_simulation.py:512-518 | the phase-12 branches keep the invariant and the milestones and move at most to phase 13 |
| Simulation.Vehicle.PassThirteen | pygame_simul/parking_simulation.py:521-525 | the phase-13 branch keeps the invariant and the milestones and moves at most to phase 14 |
| Simulation.Vehicle.DriveEarlyPhases | pygame_simul/parking_simulation.py:445-470 | the branches for phases 1 to 6 keep the invariant and the milestones and follow the loop's order |
| Simulation.Vehicle.DriveLatePhases | pygame_simul/parking_simulation.py:473-525 | the branches for phases 7 to 13 keep the invariant and the milestones and follow the loop's order |
| Simulation.Vehicle.SimulationTick | pygame_simul/parking_simulation.py:438-528 | one pass takes the new readings, keeps the invariant and every milestone, follows the loop's order, and leaves phase 0 only for phase 1 |
| Variants.SimAlignmentIsExact | pygame_simul/parking_algorithm.py:174-204 | with zero tolerance, aligned means equal positive readings |
| Variants.AlignmentToleranceMonotone | parking/parking_system_controller.py:286-289 | a wider tolerance accepts every alignment a narrower one accepts |
| Variants.SimAlignmentStricter | parking/parking_system_controller.py:120 | every simulation alignment is a controller alignment, but 50 and 52 cm align only in the controller |
| Variants.ControllerCorrectionSteersOnce | parking/parking_system_controller.py:524-540 | after its first tick CORRECTION issues no more steering, only the final stop |
| Variants.ControllerCorrectionSide | parking/parking_system_controller.py:531-534 | the controller steers right exactly when left-biased |
| Variants.SimCorrectionReverses | pygame_simul/parking_algorithm.py:328-369 | in the second half of a simulated correction the steering has crossed over, while the controller holds its one command |
| Variants.SimEdgesAreJumps | pygame_simul/parking_algorithm.py:152-163 | the simulation's second-stop and sudden-increase tests are jumps of 10 and 15 cm |
| Variants.FinalForwardIsJump | parking/parking_system_controller.py:587-588 | the controller's final-forward test is the 15 cm jump |
| Variants.FrozenFiresOnExists | parking/parking_system_controller.py:254-263 | a frozen test fires over a run exactly when some reading jumps above the stored sample |
| Variants.LeftTurnForwardRunIsFrozenTest | parking/parking_system_controller.py:254-263 | a run of cycles from LEFT_TURN_FORWARD is still in that phase at its end exactly when the frozen 10 cm test fires on none of its rear_right readings |
| Variants.CreepingReadingsNeverFireTracking | pygame_simul/parking_algorithm.py:152-163 | a tracking test never fires on readings that creep up by at most the rise per call |
| Variants.FirstCallAgrees | pygame_simul/parking_algorithm.py:152-163 | on the first call both kinds of test decide alike |
| Variants.TrackingAndFrozenDiffer | pygame_simul/parking_algorithm.py:152-163 | the two kinds of test disagree in both directions on concrete readings |
| Variants.TrackingFiresOnAJump | pygame_simul/parking_algorithm.py:152-163 | a tracking test that fires saw a jump over the reading just before it |
| Lanes.LaneCenter | driving/image_processor.py:106 | the midpoint rounds down, as Python's floor division does |
| Lanes.LaneCenterRoundsDown | driving/image_processor.py:106 | negative sums round toward minus infinity |
| Lanes.RightmostIndex | driving/image_processor.py:99-104 | the chosen box has the largest x1, and every box before it has a strictly smaller x1 |
| Lanes.RightmostIndexUnique | driving/image_processor.py:101 | that choice is unique: the first position of the maximum |
| Lanes.DetectLaneCenterX | driving/image_processor.py:94-108 | nothing exactly when there is no box; otherwise the midpoint of the first box with the largest x1 |
| Lanes.SliceStart | driving/image_processor.py:73 | Python's slice start: negative values count from the end, and both ends are clamped |
| Lanes.RoiRectangleBelow | driving/image_processor.py:72-73 | the rows from the slice start onward, in order, each row whole |
| Lanes.RoiRectangleBelowInRange | driving/image_processor.py:72-73 | cutting at a row of the image keeps exactly the rows from it; the rows above and the result make up the image |
| Lanes.RoiRectangleBelowOutOfRange | driving/image_processor.py:72-73 | cutting at or past the end gives no rows; a negative index keeps that many rows from the bottom |

## Left out

- Hardware access is not modelled: `read_ultrasonic_sensors`, `_read_single_sensor`, the I2C register access and the `config.py` addresses. The sensor store is given to each tick.
- `_set_steering_angle` is not modelled. No operation of the maneuver calls it.
- The `Lock` is not modelled. Every operation is modelled as if it ran alone. In the source, `emergency_stop` and the exception path of `execute_parking_cycle` call `stop_parking` while holding the non-reentrant lock, which `stop_parking` takes again. The model gives their sequential effect instead.
- The `try`/`except` around the phase dispatch is not modelled, because no modelled operation raises.
- The status message text is not modelled. Only the bias that CORRECTION reads back is kept.
- `print` output is not modelled.
- The clock is read once per tick. The source calls `time.time()` again at each use within one tick, and the model uses a single `now` per call.
- Configuration keys are a closed enum. An update with an unknown key is not modelled.
- The pygame simulation's geometry is not modelled: `update_sensors`, `ray_cast_to_obstacle`, the position and heading part of `update`, the `Obstacle` class, drawing, and keyboard input, including the key that completes a correction by hand. The readings of a pass are given to `SimulationTick`.
- `Simulation.Vehicle.PassOne` … `PassThirteen`, `DriveEarlyPhases`, `DriveLatePhases`, `SimulationTick`: these state what a pass preserves (the phase invariant, the milestones, the loop's order). They do not state the full new state; the methods they call do that field by field.
- The lane model has no YOLO model, image decoding or rendering. Box coordinates are integers, so the `int(...)` casts of floating-point detector output are not modelled.
- The `main.py` thread layout and `parking_pygame.py` are not modelled.
