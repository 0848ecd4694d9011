/** The tool-loop monitor of one turn (internal/room/tool_loop.go).

    Fingerprints are SHA-256 in the code; here they are any two functions, one
    for an attempt and one for a list of attempt fingerprints.
 */
module ToolLoop {
  import opened Options

  const TRACKED: nat := 256
  const WINDOW: nat := 12

  datatype Hash = Hash(sign: (string, string) -> int, key: seq<int> -> int)

  datatype Phase = Started | Completed | OtherPhase

  datatype Outcome = Failed | Succeeded | UnknownOutcome

  datatype Observation = Observation(id: string, operation: string, phase: Phase, outcome: Outcome, result: string, complete: bool, nonTransient: bool)

  datatype Execution = Execution(start: Observation, end: Option<Observation>, overlapped: bool)

  datatype Attempt = Attempt(signature: int, eligible: bool)

  datatype Monitor = Monitor(executions: map<string, Execution>, inFlight: int, attempts: seq<Attempt>, warned: Option<int>, disabled: bool)

  const FRESH := Monitor(map[], 0, [], None, false)

  datatype Decision = Silent | LimitReached | Report(size: nat, recover: bool)

  function Reset(m: Monitor): Monitor { m.(attempts := [], warned := None) }

  function Disable(m: Monitor): Monitor { Reset(m).(disabled := true) }

  // ----- cycles

  /** The last `3 * size` attempts repeat with this period. */
  predicate Repeats(attempts: seq<Attempt>, size: nat) {
    size > 0 && |attempts| >= 3 * size && Periodic(Tail(attempts, 3 * size), size)
  }

  predicate Periodic(tail: seq<Attempt>, size: nat)
    requires size > 0
  {
    forall i :: 0 <= i < |tail| ==> tail[i].signature == tail[i % size].signature
  }

  predicate AllEligible(attempts: seq<Attempt>) { forall i :: 0 <= i < |attempts| ==> attempts[i].eligible }

  /** The smallest period of 1 to 4 that the attempts repeat with, or 0. */
  function Cycle(attempts: seq<Attempt>): (r: nat)
    ensures r <= 4
    ensures r > 0 ==> 3 * r <= |attempts|
  {
    if Repeats(attempts, 1) then 1
    else if Repeats(attempts, 2) then 2
    else if Repeats(attempts, 3) then 3
    else if Repeats(attempts, 4) then 4
    else 0
  }

  function Signatures(attempts: seq<Attempt>): (r: seq<int>)
    ensures |r| == |attempts| && forall i :: 0 <= i < |r| ==> r[i] == attempts[i].signature
  {
    seq(|attempts|, i requires 0 <= i < |attempts| => attempts[i].signature)
  }

  function Rotate(keys: seq<int>, n: nat): seq<int>
    requires n <= |keys|
  {
    keys[n..] + keys[..n]
  }

  /** The least key of the rotations by fewer than `n`. */
  function Least(key: seq<int> -> int, keys: seq<int>, n: nat): int
    requires 1 <= n <= |keys|
  {
    if n == 1 then key(keys)
    else
      var w, k := Least(key, keys, n - 1), key(Rotate(keys, n - 1));
      if k < w then k else w
  }

  function Warning(key: seq<int> -> int, keys: seq<int>): int
    requires keys != []
  {
    Least(key, keys, |keys|)
  }

  /** The cycle at the end of the attempts. */
  function CycleKeys(attempts: seq<Attempt>, size: nat): seq<int>
    requires 0 < size && 3 * size <= |attempts|
  {
    Signatures(Tail(attempts, 3 * size)[..size])
  }

  /** A failed sequential attempt: what is remembered and what is reported. */
  function Judge(h: Hash, attempts: seq<Attempt>, warned: Option<int>): (Option<int>, Decision) {
    var size := Cycle(attempts);
    if size == 0 then (warned, Silent)
    else
      var w := Warning(h.key, CycleKeys(attempts, size));
      if warned == Some(w) then (warned, Silent) else (Some(w), Report(size, AllEligible(Tail(attempts, 3 * size))))
  }

  function AttemptOf(h: Hash, v: Observation): Attempt { Attempt(h.sign(v.operation, v.result), v.nonTransient) }

  function Attempted(h: Hash, m: Monitor, a: Attempt): (Monitor, Decision) {
    var attempts := Tail(m.attempts + [a], WINDOW);
    var (warned, decision) := Judge(h, attempts, m.warned);
    (m.(attempts := attempts, warned := warned), decision)
  }

  // ----- observations

  function MarkOverlapped(executions: map<string, Execution>): map<string, Execution> {
    map id | id in executions :: if executions[id].end.None? then executions[id].(overlapped := true) else executions[id]
  }

  function Start(m: Monitor, v: Observation): Monitor {
    var overlapped := m.inFlight > 0;
    var m' := if overlapped then Reset(m).(executions := MarkOverlapped(m.executions)) else m;
    m'.(executions := m'.executions[v.id := Execution(v, None, overlapped)], inFlight := m.inFlight + 1)
  }

  /** Completed, failed, and by itself from its start to its end. */
  predicate Sequential(e: Execution, v: Observation, inFlight: int) {
    e.start.operation == v.operation && !e.overlapped && inFlight == 0 && v.outcome == Failed && v.result != ""
  }

  function Finish(h: Hash, m: Monitor, v: Observation): (Monitor, Decision)
    requires v.id in m.executions
  {
    var e := m.executions[v.id];
    var m' := m.(executions := m.executions[v.id := e.(end := Some(v))], inFlight := m.inFlight - 1);
    if Sequential(e, v, m'.inFlight) then Attempted(h, m', AttemptOf(h, v)) else (Reset(m'), Silent)
  }

  predicate Usable(v: Observation) { v.id != "" && v.operation != "" && v.complete }

  predicate Starts(m: Monitor, v: Observation) {
    Usable(v) && !m.disabled && v.phase == Started && v.id !in m.executions && |m.executions| < TRACKED
  }

  predicate Finishes(m: Monitor, v: Observation) {
    Usable(v) && !m.disabled && v.phase == Completed && v.id in m.executions && m.executions[v.id].end.None?
  }

  function Observe(h: Hash, m: Monitor, value: Option<Observation>): (Monitor, Decision) {
    if value.None? then (Disable(m), Silent)
    else
      var v := value.value;
      if m.disabled then (m, Silent)
      else if !Usable(v) then (Disable(m), Silent)
      else if v.phase == Started then
        if v.id in m.executions then (if m.executions[v.id].start != v then Disable(m) else m, Silent)
        else if |m.executions| >= TRACKED then (Disable(m), LimitReached)
        else (Start(m, v), Silent)
      else if v.phase != Completed || v.id !in m.executions then (Disable(m), Silent)
      else if m.executions[v.id].end.Some? then (if m.executions[v.id].end.value != v then Disable(m) else m, Silent)
      else Finish(h, m, v)
  }
}
