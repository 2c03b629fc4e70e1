/** Shared vocabulary of the GPS telemetry model: optional values, coordinates
    and the fix record that the simulators emit and the collector stores. */
module Common {

  /** A value that may be absent (a missing JSON key, a failed parse). */
  datatype Option<+T> = None | Some(value: T) {
    function GetOr(default: T): T {
      match this
      case Some(v) => v
      case None => default
    }
  }

  /** A latitude/longitude pair in degrees. */
  datatype Position = Position(latitude: real, longitude: real)

  /** One GPS reading. Simulators fill the optional fields they compute;
      the collector overwrites `timestamp` on receipt. */
  datatype Fix = Fix(
    deviceId: string,
    latitude: real,
    longitude: real,
    speed: Option<real>,
    heading: Option<real>,
    timestamp: Option<string>)

  function Abs(x: real): real {
    if x < 0.0 then -x else x
  }

  function Max(a: real, b: real): real {
    if a < b then b else a
  }
}
