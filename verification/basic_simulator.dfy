/** The simple random walk of gps_simulator.py: each call nudges the
    module position by at most 0.001 degree per coordinate and reports a
    random speed. The three uniform draws are arguments. */
module BasicSimulator {
  import opened Common

  const StartLatitude: real := 37.7749
  const StartLongitude: real := -122.4194
  const MaxOffset: real := 0.001
  const MaxSpeed: real := 15.0
  const DeviceId: string := "SIM001"

  /** The module position at import time. */
  const Start: Position := Position(StartLatitude, StartLongitude)

  /** The draws of one call: two offsets and the reported speed. */
  datatype Draws = Draws(dLat: real, dLon: real, speed: real)

  predicate ValidDraws(d: Draws) {
    && -MaxOffset <= d.dLat <= MaxOffset
    && -MaxOffset <= d.dLon <= MaxOffset
    && 0.0 <= d.speed <= MaxSpeed
  }

  datatype Step = Step(position: Position, fix: Fix)

  /** simulate_movement: the new module position and the fix built from it. */
  function SimulateMovement(p: Position, d: Draws): (r: Step)
    requires ValidDraws(d)
    ensures Abs(r.position.latitude - p.latitude) <= MaxOffset
    ensures Abs(r.position.longitude - p.longitude) <= MaxOffset
    ensures r.fix.latitude == r.position.latitude && r.fix.longitude == r.position.longitude
    ensures r.fix.speed.Some? && 0.0 <= r.fix.speed.value <= MaxSpeed
    ensures r.fix.deviceId == DeviceId && r.fix.heading.None? && r.fix.timestamp.None?
  {
    var q := Position(p.latitude + d.dLat, p.longitude + d.dLon);
    Step(q, Fix(DeviceId, q.latitude, q.longitude, Some(d.speed), None, None))
  }

  /** The module position after a run of calls. */
  function Run(p: Position, ds: seq<Draws>): Position
    requires forall i :: 0 <= i < |ds| ==> ValidDraws(ds[i])
    decreases |ds|
  {
    if |ds| == 0 then p else Run(SimulateMovement(p, ds[0]).position, ds[1..])
  }

  /** After n calls the position is within n * 0.001 degree of where it
      started, in each coordinate. */
  lemma {:induction false} DriftBound(p: Position, ds: seq<Draws>)
    requires forall i :: 0 <= i < |ds| ==> ValidDraws(ds[i])
    ensures Abs(Run(p, ds).latitude - p.latitude) <= |ds| as real * MaxOffset
    ensures Abs(Run(p, ds).longitude - p.longitude) <= |ds| as real * MaxOffset
    decreases |ds|
  {
    if |ds| > 0 {
      DriftBound(SimulateMovement(p, ds[0]).position, ds[1..]);
    }
  }

  /** From the start point, after n calls the module position lies within
      n * 0.001 degree of (37.7749, -122.4194) in each coordinate. */
  lemma DriftFromStart(ds: seq<Draws>)
    requires forall i :: 0 <= i < |ds| ==> ValidDraws(ds[i])
    ensures Abs(Run(Start, ds).latitude - StartLatitude) <= |ds| as real * MaxOffset
    ensures Abs(Run(Start, ds).longitude - StartLongitude) <= |ds| as real * MaxOffset
  {
    DriftBound(Start, ds);
  }
}
