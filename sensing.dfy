/**
 * Sensor readings as both parking variants keep them: a dictionary of the
 * latest distance per sensor name, merged by `dict.update`, with a 100 cm
 * default, and the rising-edge rules that turn two consecutive samples of
 * one sensor into an event.
 */
module Sensing {

  /** Distance returned for a sensor that has never been reported. */
  const DefaultDistance: real := 100.0
  /** Initial "previous sample" of every edge detector: not a valid reading. */
  const UnsetPrevious: real := -1.0

  const FrontRightName: string := "front_right"
  const MiddleLeftName: string := "middle_left"
  const MiddleRightName: string := "middle_right"
  const RearLeftName: string := "rear_left"
  const RearRightName: string := "rear_right"

  /** The five sensor names of the vehicle. */
  const SensorNames: set<string> := {FrontRightName, MiddleLeftName, MiddleRightName, RearLeftName, RearRightName}

  /** The three right-hand sensors whose rising edges announce the first stop. */
  datatype Lateral = FrontRight | MiddleRight | RearRight


  /** `all(sensor_flags.values())`: every lateral sensor has been flagged. */
  predicate AllFlagged(flags: set<Lateral>) {
    FrontRight in flags && MiddleRight in flags && RearRight in flags
  }

  /** The order in which both variants visit the lateral sensors. */
  const LateralOrder: seq<Lateral> := [FrontRight, MiddleRight, RearRight]

  function Name(s: Lateral): string {
    match s
    case FrontRight => FrontRightName
    case MiddleRight => MiddleRightName
    case RearRight => RearRightName
  }

  /** The initial sensor store: every sensor at the 100 cm default. */
  const InitialDistances: map<string, real> := map[FrontRightName := DefaultDistance, MiddleLeftName := DefaultDistance,
    MiddleRightName := DefaultDistance, RearLeftName := DefaultDistance, RearRightName := DefaultDistance]

  /** `previous_distances`: one stored sample per lateral sensor (its keys never change). */
  datatype Samples = Samples(frontRight: real, middleRight: real, rearRight: real)

  /** The stored sample of one lateral sensor. */
  function At(m: Samples, s: Lateral): real {
    match s
    case FrontRight => m.frontRight
    case MiddleRight => m.middleRight
    case RearRight => m.rearRight
  }

  const UnsetSamples: Samples := Samples(UnsetPrevious, UnsetPrevious, UnsetPrevious)

  /** Python's `d.update(u)`: the keys of `u` are overwritten, every other entry is kept. */
  function DictUpdate<K, V>(d: map<K, V>, u: map<K, V>): (r: map<K, V>)
    ensures r.Keys == d.Keys + u.Keys
    ensures forall k :: k in u ==> r[k] == u[k]
    ensures forall k :: k in d && k !in u ==> r[k] == d[k]
  {
    d + u
  }

  /** `sensor_distances.get(name, 100)`. */
  function SensorDistance(distances: map<string, real>, name: string): real {
    if name in distances then distances[name] else DefaultDistance
  }

  /** Reading a sensor after a merge: the newest value given for it, else the older one, else 100 cm. */
  lemma DistanceAfterUpdate(distances: map<string, real>, update: map<string, real>, name: string)
    ensures SensorDistance(DictUpdate(distances, update), name)
         == if name in update then update[name] else SensorDistance(distances, name)
  {
  }

  /** The current lateral samples taken from the sensor store. */
  function CurrentLateral(distances: map<string, real>): (r: Samples)
    ensures forall s :: At(r, s) == SensorDistance(distances, Name(s))
  {
    Samples(SensorDistance(distances, FrontRightName), SensorDistance(distances, MiddleRightName),
      SensorDistance(distances, RearRightName))
  }

  /** The first-stop edge of one sensor: a valid previous sample and a rise of more than 5 cm. */
  predicate LateralRise(previous: real, current: real) {
    previous > 0.0 && current > previous + 5.0
  }

  /** The flag one sensor contributes to a detection pass: itself when it rose, nothing otherwise. */
  function Flagged(s: Lateral, previous: Samples, current: Samples): set<Lateral> {
    if LateralRise(At(previous, s), At(current, s)) then {s} else {}
  }

  /**
   * The flags after one lateral-detection pass: a sensor becomes flagged when it
   * was unflagged and rose; no flag is ever cleared.
   */
  function DetectedFlags(flags: set<Lateral>, previous: Samples, current: Samples): (r: set<Lateral>)
    ensures flags <= r
    ensures forall s :: s in r - flags ==> At(previous, s) > 0.0 && At(current, s) > At(previous, s) + 5.0
  {
    flags + Flagged(FrontRight, previous, current) + Flagged(MiddleRight, previous, current)
      + Flagged(RearRight, previous, current)
  }

  /** A sensor is flagged after the pass iff it already was, or its previous sample is valid and it rose by more than 5 cm. */
  lemma DetectedFlagsExactly(flags: set<Lateral>, previous: Samples, current: Samples, s: Lateral)
    ensures s in DetectedFlags(flags, previous, current)
        <==> s in flags || (At(previous, s) > 0.0 && At(current, s) > At(previous, s) + 5.0)
  {
  }

  /** The flags after visiting, in order, the sensors listed in `visited`. */
  function DetectedAmong(flags: set<Lateral>, previous: Samples, current: Samples, visited: seq<Lateral>): set<Lateral>
    decreases |visited|
  {
    if visited == [] then flags
    else DetectedAmong(flags, previous, current, visited[..|visited| - 1]) + Flagged(visited[|visited| - 1], previous, current)
  }

  /** Visiting the sensors in `LateralOrder` performs exactly one detection pass. */
  lemma {:induction false} DetectedAmongLateralOrder(flags: set<Lateral>, previous: Samples, current: Samples)
    ensures DetectedAmong(flags, previous, current, LateralOrder) == DetectedFlags(flags, previous, current)
  {
    assert LateralOrder[..2][..1] == LateralOrder[..1];
    assert LateralOrder[..1][..0] == [];
    calc {
      DetectedAmong(flags, previous, current, LateralOrder);
      DetectedAmong(flags, previous, current, LateralOrder[..2]) + Flagged(RearRight, previous, current);
      DetectedAmong(flags, previous, current, LateralOrder[..1]) + Flagged(MiddleRight, previous, current)
        + Flagged(RearRight, previous, current);
      DetectedFlags(flags, previous, current);
    }
  }

  /** Readings that do not change from one pass to the next never set a flag (a constant distance never rises). */
  lemma SteadyReadingsSetNoFlag(flags: set<Lateral>, samples: Samples)
    ensures DetectedFlags(flags, samples, samples) == flags
  {
  }

  /** While a sensor's previous sample is invalid (at most 0, e.g. the initial -1) its flag cannot be set. */
  lemma InvalidPreviousSetsNoFlag(flags: set<Lateral>, previous: Samples, current: Samples, s: Lateral)
    requires s !in flags && At(previous, s) <= 0.0
    ensures s !in DetectedFlags(flags, previous, current)
  {
  }

  /** A detection pass against the initial samples sets no flag. */
  lemma UnsetSamplesSetNoFlag(flags: set<Lateral>, current: Samples)
    ensures DetectedFlags(flags, UnsetSamples, current) == flags
  {
  }

  /** The second-stop edge of `rear_right`: both samples valid and a rise of more than 10 cm. */
  predicate SecondStopRise(previous: real, current: real) {
    current > 0.0 && previous > 0.0 && current > previous + 10.0
  }

  /** The final-forward edge of `rear_right` in the controller: a valid previous sample and a rise of more than 15 cm. */
  predicate FinalForwardRise(previous: real, current: real) {
    previous > 0.0 && current > previous + 15.0
  }

  /** The simulation's sudden-increase edge of `rear_right`: both samples valid and a rise of more than 15 cm. */
  predicate SuddenIncrease(previous: real, current: real) {
    previous > 0.0 && current > 0.0 && current > previous + 15.0
  }

  /** No edge detector fires unless both compared samples are strictly positive. */
  lemma EdgesNeedValidSamples(previous: real, current: real)
    ensures LateralRise(previous, current) ==> previous > 0.0 && current > 0.0
    ensures SecondStopRise(previous, current) ==> previous > 0.0 && current > 0.0
    ensures FinalForwardRise(previous, current) ==> previous > 0.0 && current > 0.0
    ensures SuddenIncrease(previous, current) ==> previous > 0.0 && current > 0.0
  {
  }

  /** The first call of an edge detector, against the initial -1 sample, never fires. */
  lemma UnsetPreviousNeverFires(current: real)
    ensures !LateralRise(UnsetPrevious, current)
    ensures !SecondStopRise(UnsetPrevious, current)
    ensures !FinalForwardRise(UnsetPrevious, current)
    ensures !SuddenIncrease(UnsetPrevious, current)
  {
  }
}
