/** The tool-loop monitor as it is updated in place (internal/room/tool_loop.go). */
module SharedToolLoop {
  import opened Options
  import opened L = ToolLoop

  /** The smallest size from `k` on that repeats, or 0. */
  function CycleFrom(attempts: seq<Attempt>, k: nat): nat
    decreases 5 - k
  {
    if k > 4 then 0 else if Repeats(attempts, k) then k else CycleFrom(attempts, k + 1)
  }

  class WorkflowLoopMonitor {
    var executions: map<string, Execution>
    var inFlight: int
    var attempts: seq<Attempt>
    var warned: Option<int>
    var disabled: bool

    ghost function View(): Monitor
      reads this
    {
      Monitor(executions, inFlight, attempts, warned, disabled)
    }

    constructor ()
      ensures View() == FRESH
    {
      executions, inFlight, attempts, warned, disabled := map[], 0, [], None, false;
    }

    method ResetSequence()
      modifies this`attempts, this`warned
      ensures View() == Reset(old(View()))
    {
      attempts, warned := [], None;
    }

    method DisableAll()
      modifies this`attempts, this`warned, this`disabled
      ensures View() == Disable(old(View()))
    {
      disabled := true;
      ResetSequence();
    }

    /** Every execution in flight overlaps the new one. */
    method MarkOthers()
      modifies this`executions
      ensures executions == MarkOverlapped(old(executions))
    {
      var todo := executions.Keys;
      while todo != {}
        invariant todo <= executions.Keys == old(executions).Keys
        invariant forall id :: id in executions ==>
          executions[id] == if id in todo then old(executions)[id] else MarkOverlapped(old(executions))[id]
        decreases |todo|
      {
        var id :| id in todo;
        if executions[id].end.None? {
          executions := executions[id := executions[id].(overlapped := true)];
        }
        todo := todo - {id};
      }
    }

    method StartOne(v: Observation)
      modifies this`executions, this`inFlight, this`attempts, this`warned
      ensures View() == Start(old(View()), v)
    {
      var overlapped := inFlight > 0;
      if overlapped {
        ResetSequence();
        MarkOthers();
      }
      executions := executions[v.id := Execution(v, None, overlapped)];
      inFlight := inFlight + 1;
    }

    /** Do the last three rounds match, and is every attempt eligible. */
    static method Match(attempts: seq<Attempt>, size: nat) returns (match_: bool, eligible: bool)
      requires 1 <= size <= 4 && |attempts| >= 3 * size
      ensures match_ == Repeats(attempts, size) && eligible == AllEligible(Tail(attempts, 3 * size))
    {
      var tail := attempts[|attempts| - 3 * size..];
      match_, eligible := true, true;
      var i := 0;
      while i < |tail|
        invariant i <= |tail|
        invariant match_ == forall k :: 0 <= k < i ==> tail[k].signature == tail[k % size].signature
        invariant eligible == forall k :: 0 <= k < i ==> tail[k].eligible
      {
        eligible := eligible && tail[i].eligible;
        if tail[i].signature != tail[i % size].signature {
          match_ := false;
        }
        i := i + 1;
      }
    }

    /** The least key of all rotations. */
    static method LeastKey(h: Hash, keys: seq<int>) returns (warning: int)
      requires keys != []
      ensures warning == Warning(h.key, keys)
    {
      warning := h.key(keys);
      var offset := 1;
      while offset < |keys|
        invariant 1 <= offset <= |keys| && warning == Least(h.key, keys, offset)
      {
        var key := h.key(keys[offset..] + keys[..offset]);
        if key < warning {
          warning := key;
        }
        offset := offset + 1;
      }
    }

    method Report(h: Hash, size: nat, eligible: bool) returns (d: Decision)
      requires 1 <= size <= 4 && Cycle(attempts) == size && 3 * size <= |attempts| && eligible == AllEligible(Tail(attempts, 3 * size))
      modifies this`warned
      ensures (warned, d) == Judge(h, attempts, old(warned))
    {
      var warning := LeastKey(h, CycleKeys(attempts, size));
      if warned == Some(warning) {
        return Silent;
      }
      warned := Some(warning);
      d := L.Report(size, eligible);
    }

    /** The search for the smallest cycle. */
    method Detect(h: Hash) returns (d: Decision)
      modifies this`warned
      ensures (warned, d) == Judge(h, attempts, old(warned))
    {
      var size := 1;
      while size <= 4
        invariant 1 <= size <= 5 && CycleFrom(attempts, size) == Cycle(attempts) && warned == old(warned)
      {
        if |attempts| >= 3 * size {
          var found, eligible := Match(attempts, size);
          if found {
            d := Report(h, size, eligible);
            return;
          }
        }
        size := size + 1;
      }
      d := Silent;
    }

    method Append(h: Hash, a: Attempt) returns (d: Decision)
      modifies this`attempts, this`warned
      ensures (View(), d) == Attempted(h, old(View()), a)
    {
      ghost var was := View();
      attempts := attempts + [a];
      if |attempts| > WINDOW {
        attempts := attempts[|attempts| - WINDOW..];
      }
      assert attempts == Tail(was.attempts + [a], WINDOW);
      d := Detect(h);
      assert View() == was.(attempts := attempts, warned := warned);
    }

    method FinishOne(h: Hash, v: Observation) returns (d: Decision)
      requires v.id in executions
      modifies this`executions, this`inFlight, this`attempts, this`warned
      ensures (View(), d) == Finish(h, old(View()), v)
    {
      var e := executions[v.id];
      executions := executions[v.id := e.(end := Some(v))];
      inFlight := inFlight - 1;
      if e.start.operation != v.operation || e.overlapped || inFlight != 0 || v.outcome != Failed || v.result == "" {
        ResetSequence();
        return Silent;
      }
      d := Append(h, AttemptOf(h, v));
    }

    method Observe(h: Hash, value: Option<Observation>) returns (d: Decision)
      modifies this
      ensures (View(), d) == L.Observe(h, old(View()), value)
    {
      d := Silent;
      if value.None? {
        DisableAll();
        return;
      }
      var v := value.value;
      if disabled {
        return;
      }
      if v.id == "" || v.operation == "" || !v.complete {
        DisableAll();
        return;
      }
      if v.phase == Started {
        if v.id in executions {
          if executions[v.id].start != v {
            DisableAll();
          }
        } else if |executions| >= TRACKED {
          DisableAll();
          d := LimitReached;
        } else {
          StartOne(v);
        }
        return;
      }
      if v.phase != Completed || v.id !in executions {
        DisableAll();
        return;
      }
      if executions[v.id].end.Some? {
        if executions[v.id].end.value != v {
          DisableAll();
        }
        return;
      }
      d := FinishOne(h, v);
    }
  }
}
