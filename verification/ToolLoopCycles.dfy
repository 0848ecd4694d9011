/** Cycles, their warnings, and when a reported cycle stays silent. */
module ToolLoopCycles {
  import opened Options
  import opened ToolLoop
  import opened ToolLoopTrace

  // ----- the window loses nothing

  /** The 12 retained attempts decide as all the failures since the last reset
      would. */
  lemma WindowDecides(h: Hash, all: seq<Attempt>, warned: Option<int>)
    ensures Judge(h, Tail(all, WINDOW), warned) == Judge(h, all, warned)
  {
    assert Cycle(Tail(all, WINDOW)) == Cycle(all);
  }

  // ----- recovery is sound

  lemma {:induction false} PairsSplit(a: seq<Done>, b: seq<Done>)
    ensures Pairs(a + b) == Pairs(a) + Pairs(b)
    decreases |b|
  {
    if b == [] {
      assert a + b == a;
    } else {
      var d := b[|b| - 1];
      var b' := b[..|b| - 1];
      assert a + b == (a + b') + [d] && b == b' + [d];
      PairsSplit(a, b');
    }
  }

  lemma EndsWithTail(log: seq<Effect>, run: seq<Done>, k: nat)
    requires EndsWith(log, Pairs(run))
    ensures EndsWith(log, Pairs(Tail(run, k)))
  {
    if |run| > k {
      var a, b := run[..|run| - k], run[|run| - k..];
      assert run == a + b;
      PairsSplit(a, b);
    }
  }

  /** The executions are non-transient failures that repeat with the period. */
  ghost predicate Stuck(h: Hash, x: seq<Done>, size: nat) {
    && 1 <= size <= 4 && |x| == 3 * size
    && (forall i :: 0 <= i < |x| ==> Failure(x[i]) && x[i].end.nonTransient)
    && forall i :: 0 <= i < |x| ==> h.sign(x[i].end.operation, x[i].end.result) == h.sign(x[i % size].end.operation, x[i % size].end.result)
  }

  lemma CycleRepeats(a: seq<Attempt>)
    requires Cycle(a) > 0
    ensures Repeats(a, Cycle(a))
  {
  }

  /** Recovery is decided only when the tracked starts and completions end with
      3n executions, n at most 4, each started after the one before had finished,
      all of them non-transient failures that repeat with period n. */
  lemma RecoverIsSound(h: Hash, trace: seq<Option<Observation>>, value: Option<Observation>) returns (x: seq<Done>)
    requires var d := Observe(h, Exec(h, START, trace).monitor, value).1; d.Report? && d.recover
    ensures Stuck(h, x, Observe(h, Exec(h, START, trace).monitor, value).1.size)
    ensures EndsWith(Next(h, Exec(h, START, trace), value).log, Pairs(x))
  {
    StartFaithful(h);
    RunFaithful(h, START, trace);
    var s := Exec(h, START, trace);
    x := StuckAt(h, s, value);
  }

  lemma StuckAt(h: Hash, s: System, value: Option<Observation>) returns (x: seq<Done>)
    requires Faithful(h, s) && Observe(h, s.monitor, value).1.Report? && Observe(h, s.monitor, value).1.recover
    ensures Stuck(h, x, Observe(h, s.monitor, value).1.size)
    ensures EndsWith(Next(h, s, value).log, Pairs(x))
  {
    var s' := Next(h, s, value);
    StepFaithful(h, s, value);
    var size := Observe(h, s.monitor, value).1.size;
    CycleRepeats(s'.monitor.attempts);
    x := Tail(s'.run, 3 * size);
    EndsWithTail(s'.log, s'.run, 3 * size);
    StuckRun(h, s'.run, size);
  }

  lemma StuckRun(h: Hash, run: seq<Done>, size: nat)
    requires 0 < size <= 4 && forall i :: 0 <= i < |run| ==> Failure(run[i])
    requires var a := Tail(Attempts(h, run), WINDOW); Repeats(a, size) && AllEligible(Tail(a, 3 * size))
    ensures Stuck(h, Tail(run, 3 * size), size)
  {
    var x := Tail(run, 3 * size);
    var t := Attempts(h, x);
    assert AllEligible(t) && Periodic(t, size);
    forall i | 0 <= i < |x|
      ensures Failure(x[i]) && x[i].end.nonTransient
      ensures h.sign(x[i].end.operation, x[i].end.result) == h.sign(x[i % size].end.operation, x[i % size].end.result)
    {
      assert t[i].eligible && t[i].signature == t[i % size].signature;
    }
  }

  // ----- every rotation has the same warning

  lemma {:induction false} LeastIs(key: seq<int> -> int, keys: seq<int>, n: nat) returns (i: nat)
    requires 1 <= n <= |keys|
    ensures i < n && Least(key, keys, n) == key(Rotate(keys, i))
    ensures forall j :: 0 <= j < n ==> Least(key, keys, n) <= key(Rotate(keys, j))
    decreases n
  {
    assert Rotate(keys, 0) == keys;
    if n == 1 {
      i := 0;
    } else {
      i := LeastIs(key, keys, n - 1);
      if key(Rotate(keys, n - 1)) < Least(key, keys, n - 1) {
        i := n - 1;
      }
    }
  }

  /** A rotation of a rotation is a rotation. */
  lemma RotateTwice(keys: seq<int>, n: nat, i: nat)
    requires n < |keys| && i < |keys|
    ensures Rotate(Rotate(keys, n), i) == Rotate(keys, if n + i < |keys| then n + i else n + i - |keys|)
  {
  }

  lemma WarningAtMost(key: seq<int> -> int, keys: seq<int>, n: nat)
    requires n < |keys|
    ensures Warning(key, Rotate(keys, n)) <= Warning(key, keys)
  {
    var i := LeastIs(key, keys, |keys|);
    var j := LeastIs(key, Rotate(keys, n), |keys|);
    var k := if n <= i then i - n else i + |keys| - n;
    RotateTwice(keys, n, k);
  }

  lemma RotateBack(keys: seq<int>, n: nat)
    requires 0 < n < |keys|
    ensures Rotate(Rotate(keys, n), |keys| - n) == keys
  {
  }

  /** A cycle and its rotations have one warning key. */
  lemma WarningIsCanonical(key: seq<int> -> int, keys: seq<int>, n: nat)
    requires n < |keys|
    ensures Warning(key, Rotate(keys, n)) == Warning(key, keys)
  {
    WarningAtMost(key, keys, n);
    if n > 0 {
      WarningAtMost(key, Rotate(keys, n), |keys| - n);
      RotateBack(keys, n);
    } else {
      assert Rotate(keys, 0) == keys;
    }
  }
}
