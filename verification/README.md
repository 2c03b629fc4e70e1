# GPS telemetry simulators and collector — a Dafny model

This project models the decision logic of a GPS telemetry demo: three
movement simulators that produce location fixes, and the HTTP collector that
receives fixes, optionally injects packet loss, and keeps a bounded history.

- `KinematicVehicle` (vehicle.dfy) — the vehicle of `gps_simulator1.py`.
  Speed eases toward a target speed in steps of 0.5 km/h. A counter
  measures straight segments against a threshold drawn from [10, 30]. At
  the threshold the vehicle turns sharply or curves gently; before it, the
  heading may get a small correction. The position is projected along the
  new heading, and receiver jitter is added.
- `Ingestion` (ingestion.dfy) — `receive_gps` and `get_history` of
  `app.py`. The handler overwrites the timestamp and applies the
  fault-injection gate. It keeps a FIFO history capped at 100 fixes.
- `PresetLoader` (preset_loader.dfy) — `load_preset_path` of
  `create_gps.py`. It reads `lat,lon` lines up to the first malformed one.
  `str.split(",")` is modelled exactly, and `str.strip` on ASCII whitespace.
- `MockTracker` (mock_tracker.dfy) — `GPSSimulator` of `create_gps.py`:
  `start`, `stop`, and one iteration of the `simulate` loop in random-walk
  or preset-replay mode.
- `BasicSimulator` (basic_simulator.dfy) — the random walk of
  `gps_simulator.py`.
- `Angles` (angles.dfy) — Python's float `% 360` on exact reals, and the
  shortest angular distance between two headings.
- `Common` (common.dfy) — `Option`, `Position` and the `Fix` record.

The state is immutable: vehicle, log and tracker are records, and every
operation is a pure one-tick transition. Each random draw of the source
(`random.random`, `random.uniform`, `random.randint`, `random.choice`) is an
explicit argument. Its `requires` gives the range the random library
guarantees. The server clock and the tracker's UTC clock are string
arguments. `calculate_new_position` is a function-typed parameter
(`KinematicVehicle.Projection`), and so is `float()`
(`PresetLoader.RealParser`). Coordinates, speeds and headings are exact
`real`s.

Three behaviours of the code that are easy to miss:
- In preset mode with an empty path, an iteration emits nothing and changes
  nothing, because `continue` skips the rest of the loop body.
- The replay cursor wraps lazily, just before the next read. After an
  iteration it may equal the path length.
- Fault injection is on only for the exact query string `true`.

## Model

| member | source | states |
|---|---|---|
| Angles.Mod360 | gps_simulator1.py:86-99 | the heading after `% 360` always lies in [0, 360) |
| Angles.TurnOffset | gps_simulator1.py:86-99 | turning by any t and renormalising changes the heading by t modulo 360, so the sign and size of the turn survive the wrap |
| Angles.TurnDistance | gps_simulator1.py:83-99 | turning by t degrees (|t| ≤ 180) and renormalising moves the heading by exactly |t| around the circle, from any start |
| KinematicVehicle.Initial | gps_simulator1.py:13-24 | the start-up vehicle is at the city-centre start point with speed 0, counter 0, and target, heading and threshold equal to their three draws; it satisfies the full invariant: target in [20,50], heading in [0,360), 0 ≤ counter < threshold ∈ [10,30] |
| KinematicVehicle.UpdateSpeed | gps_simulator1.py:66-75 | within 0.5 of the target the speed snaps to it exactly; otherwise it moves 0.5 toward it without crossing it; it moves at most 0.5 per tick; the target changes exactly when the speed snaps and the roll is below 0.1, and then it becomes the new draw, which lies in [20,50]; nothing but speed and target changes |
| KinematicVehicle.UpdateHeading | gps_simulator1.py:77-99 | the counter resets and a new threshold is drawn exactly when counter+1 reaches the threshold, otherwise it increments; 0 ≤ counter < threshold ∈ [10,30] is preserved; a heading in [0,360) stays there; the heading changes by the sharp angle, the gentle curve or the correction (modulo 360), whichever the counter and rolls select, and does not change when the correction roll fails; speed and position are untouched |
| KinematicVehicle.UpdateMovementParameters | gps_simulator1.py:62-99 | speed update first, then heading update on the result; the position does not move |
| KinematicVehicle.TargetStaysInRange | gps_simulator1.py:69-71 | a target speed in [20,50] stays in [20,50] after any tick |
| KinematicVehicle.UpdatePreservesInvariant | gps_simulator1.py:62-99 | one tick keeps 0 ≤ speed ≤ largest target seen, target in [20,50], heading in [0,360) and the counter invariant |
| KinematicVehicle.HeadingChangeBounded | gps_simulator1.py:80-99 | per tick the heading moves at most 90° around the circle; exactly 45° or 90° on a sharp turn; at most 6° on a gentle curve; at most 1° inside a straight segment; not at all when the 20% correction roll fails |
| KinematicVehicle.SimulateMovement | gps_simulator1.py:101-123 | the old position is projected along the UPDATED heading at the UPDATED speed for one interval; each coordinate then lies within 1e-5 of the projection; the fix carries that position, the updated speed and heading, and device id "SIM001" |
| KinematicVehicle.RunPreservesInvariant | gps_simulator1.py:62-99 | over any number of ticks the invariant holds, with the bound being the largest target seen along the run, which never exceeds 50 |
| KinematicVehicle.SpeedBoundedFromStart | gps_simulator1.py:17-99 | from the start-up state, after any run of ticks the speed is in [0, largest target seen] ⊆ [0,50], the heading in [0,360), and the counter below its threshold |
| Ingestion.FaultInjectionEnabled | app.py:28 | fault injection is on if and only if the `simulate_issues` parameter is present and exactly "true"; a missing parameter counts as "false" |
| Ingestion.Stamp | app.py:25 | the stored fix's timestamp is the server clock reading, whatever the device sent; every other field is the payload's |
| Ingestion.Append | app.py:37-42 | the new fix is the last entry; below capacity nothing else changes; at capacity only the oldest entry goes and the rest keep their order; a log of at most 100 stays at most 100 |
| Ingestion.ReceiveGps | app.py:19-47 | the reply is status "packet_lost" with code 408 exactly when injection is on and the loss roll is below 0.2, and then the log is unchanged and nothing is broadcast; otherwise the stamped fix is appended and broadcast, and stored_entries equals the new log length, with status "success" and code 200 |
| Ingestion.GetHistory | app.py:49-51 | the history returned is the stored log itself, entry for entry, oldest first |
| Ingestion.SuccessfulReceive | app.py:37-47 | after a successful request the history's newest entry is the whole payload, every field kept, with its timestamp replaced by the server reading; its length is the reported stored_entries, i.e. min(old length + 1, 100); the older entries are the old log minus at most its oldest entry |
| Ingestion.AppendAllKeepsNewest | app.py:37-42 | after any run of insertions the log equals the last 100 of the old log followed by everything inserted, in order |
| Ingestion.FromEmpty | app.py:37-42 | from an empty log, n insertions leave exactly the last min(n,100) fixes in insertion order (150 insertions leave the last 100) |
| Ingestion.AlwaysLossKeepsHistory | app.py:27-35 | with injection on and every loss roll below 0.2, no number of requests changes the log |
| Ingestion.FirstSubmission | app.py:19-51 | submitting device "t1" at (10, 20) to an empty collector with injection off replies success with stored_entries 1, and the history is exactly that fix with the server timestamp |
| PresetLoader.TrimStart | create_gps.py:21 | the result is a suffix of the line, everything dropped is whitespace, and it does not start with whitespace |
| PresetLoader.TrimEnd | create_gps.py:21 | the result is a prefix of the line, everything dropped is whitespace, and it does not end with whitespace |
| PresetLoader.Split | create_gps.py:21 | split on a one-character separator gives at least one field, no field contains the separator, and joining the fields back with it gives the input |
| PresetLoader.SplitTwoFields | create_gps.py:21 | a comma split yields two fields exactly when the text has one comma, and then they are the text before and after it |
| PresetLoader.ParseLineMeaning | create_gps.py:21-22 | a line parses to a pair exactly when its stripped text has one comma and both sides parse as floats, and then the pair is (left, right) |
| PresetLoader.LoadLines | create_gps.py:20-22 | the path is no longer than the file; every pair is the parse of the line at the same index; if it stops early, the line where it stopped is malformed |
| PresetLoader.LoadPresetPath | create_gps.py:16-25 | a missing file gives an empty path; otherwise the path is the parsed prefix of its lines, and no error escapes |
| PresetLoader.MalformedFirstLine | create_gps.py:19-25 | a malformed first line gives an empty path, whatever follows |
| PresetLoader.LoadExtends | create_gps.py:19-24 | appending lines to a file only extends the loaded path; after a malformed line the appended lines change nothing |
| MockTracker.ModeOf | create_gps.py:51-54 | the mode is random walk exactly for the string "Random Walk" and preset replay exactly for "Preset Path" |
| MockTracker.New | create_gps.py:28-36 | a new simulator is stopped, in random-walk mode, at the Bangalore start point, with cursor 0, and its path is what load_preset_path reads from the file (empty when the file cannot be opened) |
| MockTracker.Start | create_gps.py:38-44 | start sets the mode, raises the run flag and rewinds the cursor to 0; position and path are kept |
| MockTracker.Stop | create_gps.py:46-47 | stop lowers the run flag and changes nothing else |
| MockTracker.StopIdempotent | create_gps.py:46-47 | stopping a stopped simulator changes nothing |
| MockTracker.Tick | create_gps.py:49-70 | a stopped simulator, or preset mode with an empty path, emits nothing and changes nothing; otherwise one fix "mock_tracker_01" with the new position and clock reading, and no speed or heading, goes to the callback; a random-walk step moves each coordinate at most 0.0001 and leaves the cursor; a preset step emits path[cursor], wrapping first if the cursor is at the end, and leaves the cursor in [1, len] |
| MockTracker.Run | create_gps.py:50-70 | over any run of iterations the cursor never passes the end of the path |
| MockTracker.PresetReplayIsCyclic | create_gps.py:54-60 | a running preset replay over a non-empty path emits one fix per iteration, and the k-th is at path[(cursor + k) mod len] with that iteration's clock reading |
| MockTracker.ReplayFromStart | create_gps.py:38-60 | after start("Preset Path") the k-th emitted position is path[k mod len] |
| MockTracker.EmptyPresetHolds | create_gps.py:54-56 | with an empty path a preset replay never moves, never emits and never errors |
| MockTracker.RandomWalkDrift | create_gps.py:51-53 | n random-walk iterations emit n fixes, keep the cursor, and move each coordinate at most n·0.0001 |
| BasicSimulator.SimulateMovement | gps_simulator.py:16-27 | each call moves latitude and longitude by at most 0.001 each; the fix carries the new position, a speed in [0,15] and device id "SIM001" |
| BasicSimulator.DriftBound | gps_simulator.py:16-20 | after n calls each coordinate is within n·0.001 of where it started |
| BasicSimulator.DriftFromStart | gps_simulator.py:12-20 | from the module's start point (37.7749, -122.4194), after n calls each coordinate is within n·0.001 of it |

## Left out

- The trigonometry of `calculate_new_position` (asin, atan2, sin, cos). It is float numerics with no exact counterpart, so it is the parameter `KinematicVehicle.Projection`.
- Float rounding. This covers `round(..., 6)` on the tracker's fix and the float `% 360` case where a tiny negative heading rounds to 360.0. All arithmetic is exact.
- KinematicVehicle.Initial: the initial heading draw is taken in [0, 360). A float `uniform(0, 360)` may in principle return 360.0, which the source does not renormalise until the first turn.
- The fault-injection delay draw and every `time.sleep` (app.py, gps_simulator1.py, create_gps.py). They only delay, so they do not change any outcome.
- The `main` loops of both vehicle simulators. This covers the HTTP `requests.post`, the status printing and the caught connection errors.
- Flask routing, `render_template` and `request.json` parsing. The payload is a `Fix` record, not an arbitrary JSON object, so extra keys are not modelled. A missing or non-object body would make the source raise; that is not modelled either.
- The SocketIO broadcast. It appears only as the `broadcast` field of the handler's outcome.
- Concurrency. This covers the history shared between concurrent requests, the tracker's thread, the racy `running` flag, and a second `start` while running, which starts a second thread. Each operation is one atomic step.
- The busy spin of an empty preset path (`continue` without sleep). It is modelled as one iteration that does nothing.
- PresetLoader.ParseLine: `float()` is the parameter `RealParser`. Non-finite values (`nan`, `inf`) and the parser's own whitespace handling belong to it.
- PresetLoader.TrimStart: only ASCII whitespace is stripped (`PresetLoader.IsSpace`). Python's `str.strip` also removes non-ASCII Unicode spaces.
- PresetLoader.TrimEnd: the same ASCII-only whitespace set as `TrimStart`.
- Opening and reading the preset file, and I/O errors part-way through it. The file is the list of its lines, or `None` when it cannot be opened.
- The tkinter `GPSApp` window.
- `datetime` formatting. Timestamps are opaque strings supplied by the caller.
