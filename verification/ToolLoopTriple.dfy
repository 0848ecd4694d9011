/** A cycle of four with three equal attempts in a row is reported and then
    reported again: the traces that make it so. */
module ToolLoopTriple {
  import opened Options
  import opened ToolLoop
  import opened ToolLoopTrace
  import opened ToolLoopCycles
  import opened ToolLoopSilence

  // ----- failures one after the other

  function Begin(id: string, operation: string): Observation {
    Observation(id, operation, Started, UnknownOutcome, "", true, false)
  }

  function Fail(id: string, operation: string): Observation {
    Observation(id, operation, Completed, Failed, "error", true, false)
  }

  /** Every execution has its own identity. */
  function Id(i: nat): (r: string)
    ensures |r| == i + 1
  {
    seq(i + 1, _ => 'x')
  }

  /** Each operation is started and fails before the next one is started. */
  function Failures(operations: seq<string>): (r: seq<Option<Observation>>)
    ensures |r| == 2 * |operations|
  {
    if operations == [] then []
    else
      var n := |operations| - 1;
      Failures(operations[..n]) + [Some(Begin(Id(n), operations[n])), Some(Fail(Id(n), operations[n]))]
  }

  function FailedAttempt(h: Hash, operation: string): Attempt { AttemptOf(h, Fail(Id(0), operation)) }

  function AllFailed(h: Hash, operations: seq<string>): (r: seq<Attempt>)
    ensures |r| == |operations|
  {
    seq(|operations|, i requires 0 <= i < |operations| => FailedAttempt(h, operations[i]))
  }

  lemma {:induction false} ExecPlus(h: Hash, s: System, a: seq<Option<Observation>>, b: seq<Option<Observation>>)
    ensures Exec(h, s, a + b) == Exec(h, Exec(h, s, a), b)
    decreases |a|
  {
    if a == [] {
      assert a + b == b;
    } else {
      assert (a + b)[1..] == a[1..] + b;
      ExecPlus(h, Next(h, s, a[0]), a[1..], b);
    }
  }

  /** Nothing is in flight, and `n` executions are tracked. */
  ghost predicate Rests(m: Monitor, n: nat) {
    !m.disabled && m.inFlight == 0 && |m.executions| == n && forall id :: id in m.executions ==> |id| <= n
  }

  /** The monitor just before the failure of this execution. */
  function Begun(m: Monitor, n: nat, operation: string): Monitor { Start(m, Begin(Id(n), operation)) }

  lemma FailOnce(h: Hash, m: Monitor, n: nat, operation: string)
    requires Rests(m, n) && n < TRACKED && operation != ""
    ensures Observe(h, m, Some(Begin(Id(n), operation))) == (Begun(m, n, operation), Silent)
    ensures var (m', d) := Observe(h, Begun(m, n, operation), Some(Fail(Id(n), operation)));
      && Rests(m', n + 1)
      && (m'.attempts, m'.warned, d) ==
         (Attempted(h, m, FailedAttempt(h, operation)).0.attempts, Attempted(h, m, FailedAttempt(h, operation)).0.warned, Attempted(h, m, FailedAttempt(h, operation)).1)
  {
    assert Id(n) !in m.executions;
    var b := Begun(m, n, operation);
    assert b.executions[Id(n)] == Execution(Begin(Id(n), operation), None, false);
  }

  lemma ExecTwo(h: Hash, s: System, x: Option<Observation>, y: Option<Observation>)
    ensures Exec(h, s, [x, y]) == Next(h, Next(h, s, x), y)
  {
    assert [x, y][1..] == [y] && [y][1..] == [];
    assert Exec(h, Next(h, s, x), [y]) == Exec(h, Next(h, Next(h, s, x), y), []);
  }

  /** One more failing operation. */
  lemma FailuresPlus(h: Hash, operations: seq<string>, operation: string)
    requires operation != "" && |operations| < TRACKED
    requires Rests(Exec(h, START, Failures(operations)).monitor, |operations|)
    ensures var m, m' := Exec(h, START, Failures(operations)).monitor, Exec(h, START, Failures(operations + [operation])).monitor;
      && Rests(m', |operations| + 1)
      && (m'.attempts, m'.warned) == (Attempted(h, m, FailedAttempt(h, operation)).0.attempts, Attempted(h, m, FailedAttempt(h, operation)).0.warned)
  {
    var s, n := Exec(h, START, Failures(operations)), |operations|;
    var x, y := Some(Begin(Id(n), operation)), Some(Fail(Id(n), operation));
    assert (operations + [operation])[..n] == operations;
    ExecPlus(h, START, Failures(operations), [x, y]);
    ExecTwo(h, s, x, y);
    FailOnce(h, s.monitor, n, operation);
  }

  lemma AllFailedPlus(h: Hash, operations: seq<string>, operation: string)
    ensures Tail(Tail(AllFailed(h, operations), WINDOW) + [FailedAttempt(h, operation)], WINDOW) == Tail(AllFailed(h, operations + [operation]), WINDOW)
  {
    TailAppend(AllFailed(h, operations), [FailedAttempt(h, operation)], WINDOW);
    assert AllFailed(h, operations) + [FailedAttempt(h, operation)] == AllFailed(h, operations + [operation]);
  }

  lemma RestsAtFirst(h: Hash)
    ensures Rests(Exec(h, START, Failures([])).monitor, 0) && Exec(h, START, Failures([])).monitor.attempts == []
  {
  }

  /** The failures are the attempts retained. */
  lemma {:induction false} FailuresRetained(h: Hash, operations: seq<string>)
    requires |operations| <= TRACKED && forall i :: 0 <= i < |operations| ==> operations[i] != ""
    ensures var m := Exec(h, START, Failures(operations)).monitor;
      Rests(m, |operations|) && m.attempts == Tail(AllFailed(h, operations), WINDOW)
  {
    if operations == [] {
      RestsAtFirst(h);
    } else {
      var n := |operations| - 1;
      var before, last := operations[..n], operations[n];
      assert before + [last] == operations;
      FailuresRetained(h, before);
      FailuresPlus(h, before, last);
      AllFailedPlus(h, before, last);
    }
  }

  // ----- a cycle of four

  function Twelve(a: string, b: string): seq<string> { [a, a, a, b, a, a, a, b, a, a, a, b] }

  function Keys(h: Hash, a: string, b: string): seq<int> {
    var x, y := FailedAttempt(h, a).signature, FailedAttempt(h, b).signature;
    [x, x, x, y]
  }

  lemma TwelveEnds(h: Hash, a: string, b: string)
    ensures Ends(AllFailed(h, Twelve(a, b)), Keys(h, a, b))
  {
    var s, t := Signatures(AllFailed(h, Twelve(a, b))), Keys(h, a, b) + Keys(h, a, b) + Keys(h, a, b);
    assert s == t;
  }

  /** A failing attempt that completes a cycle leaves it as the one reported
      last. */
  lemma EndsReported(h: Hash, m: Monitor, a: Attempt, keys: seq<int>)
    requires Ends(Tail(m.attempts + [a], WINDOW), keys) && Primitive(keys)
    requires !(|keys| == 4 && keys[1] == keys[2] && keys[2] == keys[3])
    ensures Reported(h, Attempted(h, m, a).0, keys)
  {
    var all := Tail(m.attempts + [a], WINDOW);
    CycleFound(all, keys);
    EndsRepeats(all, keys);
  }

  /** After three rounds of three failures of one operation and one of another,
      the cycle of four has been reported last. */
  lemma FourReported(h: Hash, a: string, b: string)
    requires a != "" && b != "" && FailedAttempt(h, a).signature != FailedAttempt(h, b).signature
    ensures var m := Exec(h, START, Failures(Twelve(a, b))).monitor;
      && Rests(m, 12) && Reported(h, m, Keys(h, a, b)) && HasTriple(Keys(h, a, b))
  {
    var all := Twelve(a, b);
    var before, last := all[..11], FailedAttempt(h, b);
    FailuresRetained(h, before);
    assert before + [b] == all;
    FailuresPlus(h, before, b);
    var m := Exec(h, START, Failures(before)).monitor;
    assert AllFailed(h, before) + [last] == AllFailed(h, all);
    TwelveEnds(h, a, b);
    EndsReported(h, m, last, Keys(h, a, b));
  }

  /** And the third of the failures that follow is reported again, as a cycle of
      one. */
  lemma TripleReportedAgain(h: Hash, a: string, b: string)
    requires a != "" && b != "" && FailedAttempt(h, a).signature != FailedAttempt(h, b).signature
    requires h.key([FailedAttempt(h, a).signature]) != Warning(h.key, Keys(h, a, b))
    ensures var m := Exec(h, START, Failures(Twelve(a, b))).monitor;
      Reported(h, m, Keys(h, a, b)) && HasTriple(Keys(h, a, b))
    ensures var m := Exec(h, START, Failures(Twelve(a, b) + [a, a])).monitor;
      && Observe(h, m, Some(Begin(Id(14), a))).1 == Silent
      && Observe(h, Observe(h, m, Some(Begin(Id(14), a))).0, Some(Fail(Id(14), a))).1 == Report(1, false)
  {
    FourReported(h, a, b);
    var twelve, keys := Twelve(a, b), Keys(h, a, b);
    OneMore(h, twelve, keys, a);
    OneMore(h, twelve + [a], Turned(keys), a);
    assert twelve + [a] + [a] == twelve + [a, a];
    var m := Exec(h, START, Failures(twelve + [a, a])).monitor;
    TurnsTwice(h, keys);
    Third(h, m, Turned(Turned(keys)), FailedAttempt(h, a));
    FailOnce(h, m, 14, a);
  }

  /** A further failure of the cycle that does not end in three equal ones. */
  lemma OneMore(h: Hash, operations: seq<string>, keys: seq<int>, a: string)
    requires a != "" && |operations| < TRACKED && |keys| == 4 && Rests(Exec(h, START, Failures(operations)).monitor, |operations|)
    requires Reported(h, Exec(h, START, Failures(operations)).monitor, keys)
    requires FailedAttempt(h, a).signature == keys[0] && !(keys[2] == keys[3] && keys[3] == keys[0])
    ensures var m := Exec(h, START, Failures(operations + [a])).monitor;
      Rests(m, |operations| + 1) && Reported(h, m, Turned(keys))
  {
    FailuresPlus(h, operations, a);
    NextAttempt(h, Exec(h, START, Failures(operations)).monitor, keys, FailedAttempt(h, a));
  }

  lemma TurnsTwice(h: Hash, keys: seq<int>)
    requires |keys| == 4
    ensures Turned(Turned(keys)) == [keys[2], keys[3], keys[0], keys[1]]
    ensures Warning(h.key, Turned(Turned(keys))) == Warning(h.key, keys)
  {
    WarningIsCanonical(h.key, keys, 1);
    WarningIsCanonical(h.key, Turned(keys), 1);
  }

  /** The last of three equal attempts that end the list is a report. */
  lemma Third(h: Hash, m: Monitor, keys: seq<int>, v: Attempt)
    requires |keys| == 4 && keys[0] == keys[2] == keys[3] == v.signature && Primitive(keys) && !v.eligible
    requires Reported(h, m, keys) && h.key([keys[0]]) != Warning(h.key, keys)
    ensures Attempted(h, m, v).1 == Report(1, false)
  {
    NextAttempt(h, m, keys, v);
    ThirdIsOne(m.attempts, keys, v);
  }

  lemma ThirdIsOne(attempts: seq<Attempt>, keys: seq<int>, v: Attempt)
    requires |keys| == 4 && keys[0] == keys[2] == keys[3] == v.signature && Primitive(keys) && !v.eligible
    requires Ends(attempts, keys)
    ensures var all := Tail(attempts + [v], WINDOW); Cycle(all) == 1 && |all| >= 3 && !AllEligible(Tail(all, 3))
  {
    var all := Tail(attempts + [v], WINDOW);
    EndsOn(attempts, keys, v);
    TurnedPrimitive(keys);
    CycleFound(all, Turned(keys));
    assert Tail(all, 3)[2] == v;
  }
}
