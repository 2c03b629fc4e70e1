/** The GPSSimulator of create_gps.py: a random walk or a cyclic replay of
    the preset path, one loop iteration of `simulate` at a time. The
    clock reading and the two random offsets of a tick are arguments. */
module MockTracker {
  import opened Common
  import PresetLoader

  const StepSize: real := 0.0001
  const TrackerId: string := "mock_tracker_01"
  const StartLatitude: real := 12.9351
  const StartLongitude: real := 77.6142

  /** The mode string chosen in the UI; any other string moves nothing. */
  datatype Mode = RandomWalk | PresetPath | Unrecognised(name: string)

  function ModeOf(name: string): (m: Mode)
    ensures m == RandomWalk <==> name == "Random Walk"
    ensures m == PresetPath <==> name == "Preset Path"
  {
    if name == "Random Walk" then RandomWalk
    else if name == "Preset Path" then PresetPath
    else Unrecognised(name)
  }

  /** The simulator object: run flag, mode, position, replay cursor and the
      path loaded at construction. */
  datatype Tracker = Tracker(
    running: bool,
    mode: Mode,
    position: Position,
    index: nat,
    path: seq<Position>)

  /** The cursor never passes the end of the path. */
  predicate CursorValid(t: Tracker) {
    t.index <= |t.path|
  }

  /** GPSSimulator.__init__: the preset file (None when it cannot be
      opened) is loaded once, at construction. */
  function New(file: Option<seq<string>>, parse: PresetLoader.RealParser): (t: Tracker)
    ensures !t.running && t.mode == RandomWalk && t.index == 0
    ensures t.path == PresetLoader.LoadPresetPath(file, parse)
    ensures file.None? ==> t.path == []
    ensures t.position == Position(StartLatitude, StartLongitude)
  {
    Tracker(false, RandomWalk, Position(StartLatitude, StartLongitude), 0,
            PresetLoader.LoadPresetPath(file, parse))
  }

  /** start(mode): select the mode, raise the run flag, rewind the cursor.
      Position and path are kept. */
  function Start(t: Tracker, name: string): (r: Tracker)
    ensures r.running && r.mode == ModeOf(name) && r.index == 0
    ensures r.position == t.position && r.path == t.path
    ensures CursorValid(r)
  {
    t.(mode := ModeOf(name), running := true, index := 0)
  }

  /** stop(): lower the run flag and touch nothing else. */
  function Stop(t: Tracker): (r: Tracker)
    ensures !r.running
    ensures r.(running := t.running) == t
  {
    t.(running := false)
  }

  /** Stopping twice is the same as stopping once. */
  lemma StopIdempotent(t: Tracker)
    ensures Stop(Stop(t)) == Stop(t)
  {
  }

  /** The draws and clock reading of one loop iteration. */
  datatype TickInput = TickInput(dLat: real, dLon: real, now: string)

  predicate ValidInput(i: TickInput) {
    -StepSize <= i.dLat <= StepSize && -StepSize <= i.dLon <= StepSize
  }

  /** The record handed to the UI callback. */
  function MakeFix(p: Position, now: string): Fix {
    Fix(TrackerId, p.latitude, p.longitude, None, None, Some(now))
  }

  /** The result of one iteration: the new state and the fix delivered to
      the callback, if any. */
  datatype TickResult = TickResult(tracker: Tracker, emitted: Option<Fix>)

  /** One iteration of the `simulate` loop. A stopped tracker exits the
      loop; an empty preset path skips the iteration without emitting. */
  function Tick(t: Tracker, input: TickInput): (r: TickResult)
    requires ValidInput(input)
    requires CursorValid(t)
    ensures CursorValid(r.tracker)
    ensures r.tracker.path == t.path && r.tracker.mode == t.mode && r.tracker.running == t.running
    ensures r.emitted.Some? ==>
              && r.emitted.value.deviceId == TrackerId
              && r.emitted.value.latitude == r.tracker.position.latitude
              && r.emitted.value.longitude == r.tracker.position.longitude
              && r.emitted.value.timestamp == Some(input.now)
              && r.emitted.value.speed.None? && r.emitted.value.heading.None?
    ensures r.emitted.None? <==> !t.running || (t.mode == PresetPath && |t.path| == 0)
    ensures r.emitted.None? ==> r.tracker == t
    ensures t.mode != PresetPath ==> r.tracker.index == t.index
    ensures t.mode == RandomWalk ==>
              && Abs(r.tracker.position.latitude - t.position.latitude) <= StepSize
              && Abs(r.tracker.position.longitude - t.position.longitude) <= StepSize
    ensures t.running && t.mode.Unrecognised? ==> r.tracker == t
    ensures t.running && t.mode == PresetPath && |t.path| > 0 ==>
              && r.tracker.position == t.path[if t.index == |t.path| then 0 else t.index]
              && 1 <= r.tracker.index <= |t.path|
  {
    if !t.running then TickResult(t, None)
    else
      var next :=
        match t.mode
        case RandomWalk =>
          Some(t.(position := Position(t.position.latitude + input.dLat,
                                       t.position.longitude + input.dLon)))
        case PresetPath =>
          if |t.path| == 0 then None
          else
            var i := if t.index >= |t.path| then 0 else t.index;
            Some(t.(position := t.path[i], index := i + 1))
        case Unrecognised(_) => Some(t);
      match next
      case None => TickResult(t, None)
      case Some(u) => TickResult(u, Some(MakeFix(u.position, input.now)))
  }

  /** A run of iterations: the final state and the fixes emitted, in order. */
  function Run(t: Tracker, inputs: seq<TickInput>): (r: (Tracker, seq<Fix>))
    requires CursorValid(t)
    requires forall i :: 0 <= i < |inputs| ==> ValidInput(inputs[i])
    ensures CursorValid(r.0)
    decreases |inputs|
  {
    if |inputs| == 0 then (t, [])
    else
      var step := Tick(t, inputs[0]);
      var rest := Run(step.tracker, inputs[1..]);
      (rest.0, (match step.emitted case Some(f) => [f] case None => []) + rest.1)
  }

  /** Replaying a non-empty path from cursor `i` emits one fix per
      iteration, and the k-th of them is at path[(i + k) mod len]: the
      path is played cyclically. */
  lemma {:induction false} PresetReplayIsCyclic(t: Tracker, inputs: seq<TickInput>)
    requires CursorValid(t)
    requires forall i :: 0 <= i < |inputs| ==> ValidInput(inputs[i])
    requires t.running && t.mode == PresetPath && |t.path| > 0
    ensures var (u, fixes) := Run(t, inputs);
            && |fixes| == |inputs|
            && u.running && u.mode == PresetPath && u.path == t.path
            && forall k :: 0 <= k < |fixes| ==>
                 && fixes[k].latitude == t.path[(t.index + k) % |t.path|].latitude
                 && fixes[k].longitude == t.path[(t.index + k) % |t.path|].longitude
                 && fixes[k].timestamp == Some(inputs[k].now)
                 && fixes[k].deviceId == TrackerId
    decreases |inputs|
  {
    if |inputs| > 0 {
      var n := |t.path|;
      var step := Tick(t, inputs[0]);
      var u := step.tracker;
      PresetReplayIsCyclic(u, inputs[1..]);
      var fixes := Run(t, inputs).1;
      var rest := Run(u, inputs[1..]).1;
      assert fixes == [step.emitted.value] + rest;
      if t.index == n {
        ModUnique(n, n, 1, 0);
      } else {
        ModUnique(t.index, n, 0, t.index);
      }
      assert u.index == t.index % n + 1;
      forall k | 1 <= k < |fixes|
        ensures fixes[k] == rest[k - 1]
        ensures (u.index + (k - 1)) % n == (t.index + k) % n
      {
        ShiftMod(t.index, k, n);
      }
    }
  }

  /** Wrapping the cursor before advancing agrees with plain modular
      counting from the unwrapped cursor. */
  lemma ShiftMod(i: nat, k: nat, n: nat)
    requires 0 < n && i <= n && 1 <= k
    ensures (i % n + 1 + (k - 1)) % n == (i + k) % n
  {
    if i == n {
      ModUnique(n, n, 1, 0);
      ModPlusN(k, n);
    } else {
      ModUnique(i, n, 0, i);
    }
  }

  lemma MulAtLeast(d: int, n: int)
    requires d >= 1 && n > 0
    ensures d * n >= n
  {
    assert d * n == (d - 1) * n + n;
  }

  /** Euclidean division has a unique remainder. */
  lemma ModUnique(a: int, n: int, q: int, r: int)
    requires 0 <= r < n
    requires a == q * n + r
    ensures a % n == r
  {
    var q0, r0 := a / n, a % n;
    assert a == q0 * n + r0;
    assert (q - q0) * n == r0 - r;
    if q > q0 {
      MulAtLeast(q - q0, n);
    } else if q < q0 {
      MulAtLeast(q0 - q, n);
    }
  }

  lemma ModPlusN(a: int, n: int)
    requires 0 < n
    ensures (a + n) % n == a % n
  {
    ModUnique(a + n, n, a / n + 1, a % n);
  }

  /** Starting a preset replay from start() emits path[k mod len] at the
      k-th iteration. */
  lemma ReplayFromStart(t: Tracker, inputs: seq<TickInput>)
    requires forall i :: 0 <= i < |inputs| ==> ValidInput(inputs[i])
    requires |t.path| > 0
    ensures var s := Start(t, "Preset Path");
            var fixes := Run(s, inputs).1;
            && |fixes| == |inputs|
            && forall k :: 0 <= k < |fixes| ==>
                 Position(fixes[k].latitude, fixes[k].longitude) == t.path[k % |t.path|]
  {
    var s := Start(t, "Preset Path");
    PresetReplayIsCyclic(s, inputs);
  }

  /** With an empty path a preset replay never moves and never emits. */
  lemma {:induction false} EmptyPresetHolds(t: Tracker, inputs: seq<TickInput>)
    requires CursorValid(t)
    requires forall i :: 0 <= i < |inputs| ==> ValidInput(inputs[i])
    requires t.mode == PresetPath && |t.path| == 0
    ensures Run(t, inputs) == (t, [])
    decreases |inputs|
  {
    if |inputs| > 0 {
      assert Tick(t, inputs[0]) == TickResult(t, None);
      EmptyPresetHolds(t, inputs[1..]);
      assert Run(t, inputs).1 == [] + Run(t, inputs[1..]).1;
    }
  }

  /** A running random walk drifts by at most one step per iteration in
      each coordinate, and emits one fix per iteration. */
  lemma {:induction false} RandomWalkDrift(t: Tracker, inputs: seq<TickInput>)
    requires CursorValid(t)
    requires forall i :: 0 <= i < |inputs| ==> ValidInput(inputs[i])
    requires t.running && t.mode == RandomWalk
    ensures var (u, fixes) := Run(t, inputs);
            && |fixes| == |inputs|
            && u.index == t.index && u.mode == RandomWalk
            && Abs(u.position.latitude - t.position.latitude) <= |inputs| as real * StepSize
            && Abs(u.position.longitude - t.position.longitude) <= |inputs| as real * StepSize
    decreases |inputs|
  {
    if |inputs| > 0 {
      var u := Tick(t, inputs[0]).tracker;
      RandomWalkDrift(u, inputs[1..]);
    }
  }
}
