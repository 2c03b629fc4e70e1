/** The collector endpoint of app.py: stamp the received fix with the
    server time, optionally drop it through fault injection, otherwise
    append it to a bounded FIFO history and broadcast it. */
module Ingestion {
  import opened Common

  const Capacity: nat := 100
  const LossChance: real := 0.2

  /** The handler's reply: 200 with the history size, or 408 on an induced loss. */
  datatype Response = Success(storedEntries: nat) | PacketLost {
    function StatusCode(): int {
      match this
      case Success(_) => 200
      case PacketLost => 408
    }
    function Status(): string {
      match this
      case Success(_) => "success"
      case PacketLost => "packet_lost"
    }
  }

  /** What one request leaves behind: the new history, the reply, and the
      fix pushed to subscribers (if any). */
  datatype Outcome = Outcome(log: seq<Fix>, response: Response, broadcast: Option<Fix>)

  /** Fault injection runs only when the query parameter is exactly "true";
      a missing parameter counts as "false". */
  predicate FaultInjectionEnabled(simulateIssues: Option<string>)
    ensures FaultInjectionEnabled(simulateIssues) <==> simulateIssues == Some("true")
  {
    simulateIssues.GetOr("false") == "true"
  }

  /** The payload with its timestamp replaced by the server's clock reading. */
  function Stamp(payload: Fix, now: string): (f: Fix)
    ensures f.timestamp == Some(now)
    ensures f.(timestamp := payload.timestamp) == payload
  {
    payload.(timestamp := Some(now))
  }

  /** The last `n` elements of `s` (all of them when there are fewer). */
  function LastN<T>(s: seq<T>, n: nat): (r: seq<T>)
    ensures |r| == if |s| < n then |s| else n
    ensures r == s[|s| - |r|..]
  {
    if |s| <= n then s else s[|s| - n..]
  }

  /** Append and, when the log grows past capacity, drop its first entry. */
  function Append(log: seq<Fix>, f: Fix): (r: seq<Fix>)
    ensures |r| > 0 && r[|r| - 1] == f
    ensures |log| < Capacity ==> r == log + [f]
    ensures |log| >= Capacity ==> r[..|r| - 1] == log[1..]
    ensures |log| <= Capacity ==> |r| <= Capacity
  {
    if |log| + 1 > Capacity then log[1..] + [f] else log + [f]
  }

  /** receive_gps. `now` is the server clock reading and `lossRoll` the
      random.random() draw of the loss decision; the delay draw and the
      sleep do not affect the outcome and are not modelled. */
  function ReceiveGps(log: seq<Fix>, payload: Fix, simulateIssues: Option<string>,
                      now: string, lossRoll: real): (r: Outcome)
    requires 0.0 <= lossRoll < 1.0
    ensures r.response.PacketLost? <==> FaultInjectionEnabled(simulateIssues) && lossRoll < LossChance
    ensures r.response.PacketLost? ==>
              && r.log == log
              && r.broadcast.None?
              && r.response.StatusCode() == 408 && r.response.Status() == "packet_lost"
    ensures r.response.Success? ==>
              && r.log == Append(log, Stamp(payload, now))
              && r.broadcast == Some(Stamp(payload, now))
              && r.response.storedEntries == |r.log|
              && r.response.StatusCode() == 200 && r.response.Status() == "success"
  {
    var data := Stamp(payload, now);
    if FaultInjectionEnabled(simulateIssues) && lossRoll < LossChance then
      Outcome(log, PacketLost, None)
    else
      var stored := Append(log, data);
      Outcome(stored, Success(|stored|), Some(data))
  }

  /** get_history: the stored fixes, oldest first. */
  function GetHistory(log: seq<Fix>): (h: seq<Fix>)
    ensures |h| == |log|
    ensures forall i :: 0 <= i < |h| ==> h[i] == log[i]
  {
    log
  }

  /** A successful insertion leaves a history whose newest entry is the
      stamped fix, whose length is the reported `stored_entries`, which is
      the old length plus one capped at 100, and whose older entries are
      the old history minus at most its oldest entry. */
  lemma SuccessfulReceive(log: seq<Fix>, payload: Fix, simulateIssues: Option<string>,
                          now: string, lossRoll: real)
    requires 0.0 <= lossRoll < 1.0
    requires |log| <= Capacity
    requires ReceiveGps(log, payload, simulateIssues, now, lossRoll).response.Success?
    ensures var r := ReceiveGps(log, payload, simulateIssues, now, lossRoll);
            var h := GetHistory(r.log);
            && |h| == r.response.storedEntries
            && |h| == (if |log| < Capacity then |log| + 1 else Capacity)
            && h[|h| - 1] == payload.(timestamp := Some(now))
            && h[..|h| - 1] == (if |log| < Capacity then log else log[1..])
  {
  }

  /** A run of successful insertions. */
  function AppendAll(log: seq<Fix>, fs: seq<Fix>): seq<Fix>
    decreases |fs|
  {
    if |fs| == 0 then log else AppendAll(Append(log, fs[0]), fs[1..])
  }

  /** After any run of insertions the history is exactly the last 100 of
      everything ever stored, in insertion order. */
  lemma {:induction false} AppendAllKeepsNewest(log: seq<Fix>, fs: seq<Fix>)
    requires |log| <= Capacity
    ensures AppendAll(log, fs) == LastN(log + fs, Capacity)
    decreases |fs|
  {
    if |fs| > 0 {
      var next := Append(log, fs[0]);
      AppendAllKeepsNewest(next, fs[1..]);
      var all := log + fs;
      assert LastN(log + [fs[0]], Capacity) == next;
      assert next + fs[1..] == (log + [fs[0]])[|log + [fs[0]]| - |next|..] + fs[1..];
      assert (log + [fs[0]]) + fs[1..] == all;
      LastNOfSuffix(log + [fs[0]], fs[1..], |log + [fs[0]]| - |next|);
    }
  }

  /** Dropping a prefix of the front does not change the last 100 elements
      as long as at least 100 remain (or nothing is dropped). */
  lemma LastNOfSuffix(a: seq<Fix>, b: seq<Fix>, k: nat)
    requires k <= |a|
    requires k == 0 || |a| - k == Capacity
    ensures LastN(a[k..] + b, Capacity) == LastN(a + b, Capacity)
  {
    if k > 0 {
      assert (a + b)[k..] == a[k..] + b;
    }
  }

  /** From an empty history, inserting n fixes leaves the newest
      min(n, 100) of them, in order. */
  lemma FromEmpty(fs: seq<Fix>)
    ensures |AppendAll([], fs)| == (if |fs| < Capacity then |fs| else Capacity)
    ensures AppendAll([], fs) == fs[|fs| - |AppendAll([], fs)|..]
  {
    AppendAllKeepsNewest([], fs);
    assert [] + fs == fs;
  }

  /** A run of requests sharing one query flag, each with its own clock
      reading and loss draw. */
  function ReceiveAll(log: seq<Fix>, payloads: seq<Fix>, simulateIssues: Option<string>,
                      nows: seq<string>, rolls: seq<real>): (r: seq<Fix>)
    requires |nows| == |payloads| && |rolls| == |payloads|
    requires forall i :: 0 <= i < |rolls| ==> 0.0 <= rolls[i] < 1.0
    decreases |payloads|
  {
    if |payloads| == 0 then log
    else
      var o := ReceiveGps(log, payloads[0], simulateIssues, nows[0], rolls[0]);
      ReceiveAll(o.log, payloads[1..], simulateIssues, nows[1..], rolls[1..])
  }

  /** When every loss draw falls under 20% and fault injection is on, no
      request changes the history. */
  lemma {:induction false} AlwaysLossKeepsHistory(log: seq<Fix>, payloads: seq<Fix>,
                                                  nows: seq<string>, rolls: seq<real>)
    requires |nows| == |payloads| && |rolls| == |payloads|
    requires forall i :: 0 <= i < |rolls| ==> 0.0 <= rolls[i] < LossChance
    ensures ReceiveAll(log, payloads, Some("true"), nows, rolls) == log
    decreases |payloads|
  {
    if |payloads| > 0 {
      AlwaysLossKeepsHistory(log, payloads[1..], nows[1..], rolls[1..]);
    }
  }

  /** Submitting {device_id: "t1", latitude: 10, longitude: 20} to an empty
      collector with fault injection off stores exactly that fix, stamped. */
  lemma FirstSubmission(now: string, lossRoll: real)
    requires 0.0 <= lossRoll < 1.0
    ensures var t1 := Fix("t1", 10.0, 20.0, None, None, None);
            var r := ReceiveGps([], t1, Some("false"), now, lossRoll);
            && r.response == Success(1)
            && GetHistory(r.log) == [Fix("t1", 10.0, 20.0, None, None, Some(now))]
  {
  }
}
