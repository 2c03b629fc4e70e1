/** The kinematic vehicle of gps_simulator1.py: speed eases toward a target
    in fixed steps, heading drifts along straight segments and turns at the
    end of each, and the position is projected along the new heading.

    Every random draw the source makes during one tick is an explicit
    argument with the range the random library guarantees; a branch that
    does not draw simply ignores its argument. */
module KinematicVehicle {
  import opened Common
  import opened Angles

  const StartLatitude: real := 37.7749
  const StartLongitude: real := -122.4194
  const SpeedChangeRate: real := 0.5     // km/h per tick
  const TurnRate: real := 2.0            // degrees
  const MinTargetSpeed: real := 20.0
  const MaxTargetSpeed: real := 50.0
  const MinStraight: int := 10
  const MaxStraight: int := 30
  const RetargetChance: real := 0.1
  const SharpTurnChance: real := 0.3
  const CorrectionChance: real := 0.2
  const SharpTurns: seq<real> := [90.0, -90.0, 45.0, -45.0]
  const JitterBound: real := 0.00001
  const UpdateInterval: real := 1.0      // seconds
  const DeviceId: string := "SIM001"

  /** The module-level state of the simulator, one record per vehicle. */
  datatype Vehicle = Vehicle(
    position: Position,
    speed: real,          // current_speed, km/h
    targetSpeed: real,    // target_speed, km/h
    heading: real,        // current_heading, degrees from north
    counter: int,         // straight_segment_counter
    maxStraight: int)     // max_straight_segment

  /** The draws one call of update_movement_parameters may make, in order. */
  datatype Draws = Draws(
    retargetRoll: real,   // random.random() against the 10% re-target chance
    newTarget: real,      // random.uniform(20, 50)
    turnRoll: real,       // random.random() against the 30% sharp-turn chance
    sharpChoice: int,     // index drawn by random.choice over SharpTurns
    curve: real,          // random.uniform(-6, 6)
    newMaxStraight: int,  // random.randint(10, 30)
    correctionRoll: real, // random.random() against the 20% correction chance
    correction: real)     // random.uniform(-1, 1)

  predicate ValidDraws(d: Draws) {
    && 0.0 <= d.retargetRoll < 1.0
    && MinTargetSpeed <= d.newTarget <= MaxTargetSpeed
    && 0.0 <= d.turnRoll < 1.0
    && 0 <= d.sharpChoice < |SharpTurns|
    && -3.0 * TurnRate <= d.curve <= 3.0 * TurnRate
    && MinStraight <= d.newMaxStraight <= MaxStraight
    && 0.0 <= d.correctionRoll < 1.0
    && -TurnRate / 2.0 <= d.correction <= TurnRate / 2.0
  }

  /** The segment bookkeeping invariant: the counter sits below a threshold
      drawn from [10, 30]. */
  predicate SegmentInvariant(v: Vehicle) {
    && 0 <= v.counter < v.maxStraight
    && MinStraight <= v.maxStraight <= MaxStraight
  }

  /** Everything the model keeps true of a vehicle, where `maxSeen` is the
      largest target speed drawn so far. */
  predicate Invariant(v: Vehicle, maxSeen: real) {
    && 0.0 <= v.speed <= maxSeen
    && MinTargetSpeed <= v.targetSpeed <= maxSeen
    && v.targetSpeed <= MaxTargetSpeed
    && 0.0 <= v.heading < FullTurn
    && SegmentInvariant(v)
  }

  /** The module's start-up state, from its three initial draws. */
  function Initial(targetDraw: real, headingDraw: real, maxStraightDraw: int): (v: Vehicle)
    requires MinTargetSpeed <= targetDraw <= MaxTargetSpeed
    requires 0.0 <= headingDraw < FullTurn
    requires MinStraight <= maxStraightDraw <= MaxStraight
    ensures v.speed == 0.0 && v.targetSpeed == targetDraw
    ensures v.heading == headingDraw && v.counter == 0 && v.maxStraight == maxStraightDraw
    ensures v.position == Position(StartLatitude, StartLongitude)
    ensures Invariant(v, v.targetSpeed)
  {
    Vehicle(Position(StartLatitude, StartLongitude), 0.0, targetDraw, headingDraw, 0, maxStraightDraw)
  }

  /** The speed half of update_movement_parameters. The result is pinned
      down by three facts: it stays on the same side of the old target, its
      distance to that target shrinks by one step (or to zero), and a new
      target appears only when the old one was reached. */
  function UpdateSpeed(v: Vehicle, d: Draws): (r: Vehicle)
    requires ValidDraws(d)
    ensures r == v.(speed := r.speed, targetSpeed := r.targetSpeed)
    ensures Abs(v.speed - v.targetSpeed) < SpeedChangeRate ==> r.speed == v.targetSpeed
    ensures v.speed <= v.targetSpeed ==> v.speed <= r.speed <= v.targetSpeed
    ensures v.speed >= v.targetSpeed ==> v.targetSpeed <= r.speed <= v.speed
    ensures Abs(r.speed - v.targetSpeed) == Max(0.0, Abs(v.speed - v.targetSpeed) - SpeedChangeRate)
    ensures Abs(r.speed - v.speed) <= SpeedChangeRate
    ensures r.targetSpeed != v.targetSpeed ==>
              && Abs(v.speed - v.targetSpeed) < SpeedChangeRate
              && d.retargetRoll < RetargetChance
              && r.targetSpeed == d.newTarget
    ensures Abs(v.speed - v.targetSpeed) < SpeedChangeRate && d.retargetRoll < RetargetChance ==>
              r.targetSpeed == d.newTarget
    ensures MinTargetSpeed <= v.targetSpeed <= MaxTargetSpeed ==>
              MinTargetSpeed <= r.targetSpeed <= MaxTargetSpeed
  {
    if Abs(v.speed - v.targetSpeed) < SpeedChangeRate then
      var target := if d.retargetRoll < RetargetChance then d.newTarget else v.targetSpeed;
      v.(speed := v.targetSpeed, targetSpeed := target)
    else if v.speed < v.targetSpeed then
      v.(speed := v.speed + SpeedChangeRate)
    else
      v.(speed := v.speed - SpeedChangeRate)
  }

  /** The heading half of update_movement_parameters: count the tick, turn
      at the end of a straight segment, otherwise maybe correct slightly. */
  function UpdateHeading(v: Vehicle, d: Draws): (r: Vehicle)
    requires ValidDraws(d)
    ensures r == v.(heading := r.heading, counter := r.counter, maxStraight := r.maxStraight)
    ensures v.counter + 1 >= v.maxStraight ==> r.counter == 0 && r.maxStraight == d.newMaxStraight
    ensures v.counter + 1 < v.maxStraight ==> r.counter == v.counter + 1 && r.maxStraight == v.maxStraight
    ensures 0 <= v.counter ==> 0 <= r.counter < r.maxStraight
    ensures SegmentInvariant(v) ==> SegmentInvariant(r)
    ensures 0.0 <= v.heading < FullTurn ==> 0.0 <= r.heading < FullTurn
    ensures v.counter + 1 >= v.maxStraight && d.turnRoll < SharpTurnChance ==>
              Mod360(r.heading - v.heading) == Mod360(SharpTurns[d.sharpChoice])
    ensures v.counter + 1 >= v.maxStraight && d.turnRoll >= SharpTurnChance ==>
              Mod360(r.heading - v.heading) == Mod360(d.curve)
    ensures v.counter + 1 < v.maxStraight && d.correctionRoll < CorrectionChance ==>
              Mod360(r.heading - v.heading) == Mod360(d.correction)
    ensures v.counter + 1 < v.maxStraight && d.correctionRoll >= CorrectionChance ==>
              r.heading == v.heading
  {
    var count := v.counter + 1;
    if count >= v.maxStraight then
      var turn := if d.turnRoll < SharpTurnChance then SharpTurns[d.sharpChoice] else d.curve;
      TurnOffset(v.heading, turn);
      v.(heading := Mod360(v.heading + turn), counter := 0, maxStraight := d.newMaxStraight)
    else if d.correctionRoll < CorrectionChance then
      TurnOffset(v.heading, d.correction);
      v.(heading := Mod360(v.heading + d.correction), counter := count)
    else
      v.(counter := count)
  }

  /** update_movement_parameters: speed first, then heading. */
  function UpdateMovementParameters(v: Vehicle, d: Draws): (r: Vehicle)
    requires ValidDraws(d)
    ensures r.position == v.position
    ensures r.speed == UpdateSpeed(v, d).speed && r.targetSpeed == UpdateSpeed(v, d).targetSpeed
    ensures r.heading == UpdateHeading(v, d).heading
    ensures r.counter == UpdateHeading(v, d).counter && r.maxStraight == UpdateHeading(v, d).maxStraight
  {
    UpdateHeading(UpdateSpeed(v, d), d)
  }

  /** A new target speed is only ever drawn from [20, 50]. */
  lemma TargetStaysInRange(v: Vehicle, d: Draws)
    requires ValidDraws(d)
    requires MinTargetSpeed <= v.targetSpeed <= MaxTargetSpeed
    ensures MinTargetSpeed <= UpdateMovementParameters(v, d).targetSpeed <= MaxTargetSpeed
  {
  }

  /** One tick keeps the invariant, with the running maximum of targets
      extended by whatever target the tick leaves behind. */
  lemma UpdatePreservesInvariant(v: Vehicle, d: Draws, maxSeen: real)
    requires ValidDraws(d)
    requires Invariant(v, maxSeen)
    ensures Invariant(UpdateMovementParameters(v, d),
                      Max(maxSeen, UpdateMovementParameters(v, d).targetSpeed))
  {
    var s := UpdateSpeed(v, d);
    assert 0.0 <= s.speed <= maxSeen;
  }

  /** The heading moves by at most a sharp turn per tick; inside a straight
      segment by at most the correction bound, and not at all when the
      correction roll fails. A sharp turn moves it by exactly its angle. */
  lemma HeadingChangeBounded(v: Vehicle, d: Draws)
    requires ValidDraws(d)
    requires 0.0 <= v.heading < FullTurn
    ensures CircularDistance(v.heading, UpdateMovementParameters(v, d).heading) <= 90.0
    ensures v.counter + 1 < v.maxStraight ==>
              CircularDistance(v.heading, UpdateMovementParameters(v, d).heading) <= TurnRate / 2.0
    ensures v.counter + 1 < v.maxStraight && d.correctionRoll >= CorrectionChance ==>
              UpdateMovementParameters(v, d).heading == v.heading
    ensures v.counter + 1 >= v.maxStraight && d.turnRoll < SharpTurnChance ==>
              CircularDistance(v.heading, UpdateMovementParameters(v, d).heading)
                == Abs(SharpTurns[d.sharpChoice])
    ensures v.counter + 1 >= v.maxStraight && d.turnRoll >= SharpTurnChance ==>
              CircularDistance(v.heading, UpdateMovementParameters(v, d).heading) <= 3.0 * TurnRate
  {
    var h := v.heading;
    if v.counter + 1 >= v.maxStraight {
      var turn := if d.turnRoll < SharpTurnChance then SharpTurns[d.sharpChoice] else d.curve;
      TurnDistance(h, turn);
    } else if d.correctionRoll < CorrectionChance {
      TurnDistance(h, d.correction);
    } else {
      Mod360Normalised(0.0);
    }
  }

  /** calculate_new_position: the spherical projection of a start point along
      a heading, for a speed and an interval. Its trigonometry is not part
      of the model, so it is a parameter. */
  type Projection = (Position, real, real, real) -> Position

  /** The result of simulate_movement: the updated vehicle and the fix. */
  datatype Step = Step(vehicle: Vehicle, fix: Fix)

  /** simulate_movement: update speed and heading, project the old position
      along the NEW heading at the NEW speed for one interval, add receiver
      jitter, and report the fix. */
  function SimulateMovement(v: Vehicle, d: Draws, jitterLat: real, jitterLon: real,
                            project: Projection): (r: Step)
    requires ValidDraws(d)
    requires Abs(jitterLat) <= JitterBound && Abs(jitterLon) <= JitterBound
    ensures var m := UpdateMovementParameters(v, d);
            var p := project(v.position, m.heading, m.speed, UpdateInterval);
            && r.vehicle == m.(position := r.vehicle.position)
            && Abs(r.vehicle.position.latitude - p.latitude) <= JitterBound
            && Abs(r.vehicle.position.longitude - p.longitude) <= JitterBound
    ensures r.fix.latitude == r.vehicle.position.latitude
    ensures r.fix.longitude == r.vehicle.position.longitude
    ensures r.fix.speed == Some(r.vehicle.speed) && r.fix.heading == Some(r.vehicle.heading)
    ensures r.fix.deviceId == DeviceId && r.fix.timestamp.None?
  {
    var m := UpdateMovementParameters(v, d);
    var p := project(v.position, m.heading, m.speed, UpdateInterval);
    var moved := Position(p.latitude + jitterLat, p.longitude + jitterLon);
    var w := m.(position := moved);
    Step(w, Fix(DeviceId, moved.latitude, moved.longitude, Some(w.speed), Some(w.heading), None))
  }

  /** The vehicle after a run of ticks. */
  function Run(v: Vehicle, ds: seq<Draws>): Vehicle
    requires forall i :: 0 <= i < |ds| ==> ValidDraws(ds[i])
    decreases |ds|
  {
    if |ds| == 0 then v else Run(UpdateMovementParameters(v, ds[0]), ds[1..])
  }

  /** The largest target speed held at any point of a run, starting from
      `maxSeen`. */
  function MaxTargetSeen(v: Vehicle, ds: seq<Draws>, maxSeen: real): real
    requires forall i :: 0 <= i < |ds| ==> ValidDraws(ds[i])
    decreases |ds|
  {
    if |ds| == 0 then maxSeen
    else
      var next := UpdateMovementParameters(v, ds[0]);
      MaxTargetSeen(next, ds[1..], Max(maxSeen, next.targetSpeed))
  }

  /** Over any run the invariant holds: speed never negative and never above
      the largest target seen, heading in [0, 360), counter below threshold. */
  lemma {:induction false} RunPreservesInvariant(v: Vehicle, ds: seq<Draws>, maxSeen: real)
    requires forall i :: 0 <= i < |ds| ==> ValidDraws(ds[i])
    requires Invariant(v, maxSeen)
    ensures Invariant(Run(v, ds), MaxTargetSeen(v, ds, maxSeen))
    ensures MaxTargetSeen(v, ds, maxSeen) <= Max(maxSeen, MaxTargetSpeed)
    decreases |ds|
  {
    if |ds| > 0 {
      var next := UpdateMovementParameters(v, ds[0]);
      UpdatePreservesInvariant(v, ds[0], maxSeen);
      TargetStaysInRange(v, ds[0]);
      RunPreservesInvariant(next, ds[1..], Max(maxSeen, next.targetSpeed));
    }
  }

  /** From the start-up state, speed stays in [0, 50] and below every
      target drawn so far, for any sequence of ticks. */
  lemma SpeedBoundedFromStart(targetDraw: real, headingDraw: real, maxStraightDraw: int,
                              ds: seq<Draws>)
    requires MinTargetSpeed <= targetDraw <= MaxTargetSpeed
    requires 0.0 <= headingDraw < FullTurn
    requires MinStraight <= maxStraightDraw <= MaxStraight
    requires forall i :: 0 <= i < |ds| ==> ValidDraws(ds[i])
    ensures var v := Initial(targetDraw, headingDraw, maxStraightDraw);
            var w := Run(v, ds);
            && 0.0 <= w.speed <= MaxTargetSeen(v, ds, targetDraw) <= MaxTargetSpeed
            && 0.0 <= w.heading < FullTurn
            && SegmentInvariant(w)
  {
    var v := Initial(targetDraw, headingDraw, maxStraightDraw);
    RunPreservesInvariant(v, ds, targetDraw);
  }
}
