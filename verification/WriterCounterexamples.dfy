/** Three runs in which one rule of WriterRules.dfy is broken, and with it the
    promise that the rule protects. */
module WriterCounterexamples {
  import opened Options
  import opened WriterLease
  import opened WriterTurns
  import opened WriterSafety
  import opened WriterTheorems

  lemma {:induction false} ExecAppend(s: System, run: seq<Step>, step: Step)
    requires Legal(s, run) && Enabled(Exec(s, run), step)
    ensures Legal(s, run + [step]) && Exec(s, run + [step]) == Next(Exec(s, run), step)
    decreases |run|
  {
    if run == [] {
      assert run + [step] == [step] && [step][1..] == [];
      assert Exec(s, [step]) == Exec(Next(s, step), []);
    } else {
      assert (run + [step])[1..] == run[1..] + [step];
      ExecAppend(Next(s, run[0]), run[1..], step);
    }
  }

  lemma Then(run: seq<Step>, s: System, step: Step) returns (run': seq<Step>, s': System)
    requires Legal(START, run) && s == Exec(START, run) && Enabled(s, step)
    ensures run' == run + [step] && s' == Next(s, step)
    ensures Legal(START, run') && s' == Exec(START, run')
  {
    ExecAppend(START, run, step);
    run', s' := run + [step], Next(s, step);
  }

  const A := Key(Room("a", "w"), "1")
  const B := Key(Room("b", "w"), "2")

  /** The parts of the state the runs below are about: one checkout, two keys. */
  ghost predicate At(s: System, owner: Option<Key>, queue: seq<Key>, waitA: int, err: bool) {
    && Owner(s.store.lease, "w") == owner && Queue(s.store.lease, "w") == queue
    && Number(s.store.lease.waiters, A) == waitA && Number(s.store.lease.waiters, B) == 0
    && Number(s.store.lease.turns, B) == 0
    && "w" !in s.store.ledger.recovery && s.store.ledger.journalErr == err
  }

  /** A turn of an elected key begins and registers. */
  lemma Arrives(run: seq<Step>, s: System, id: nat, k: Key) returns (run': seq<Step>, s': System)
    requires Legal(START, run) && s == Exec(START, run) && id !in s.turns && Elected(s, k)
    ensures Legal(START, run') && s' == Exec(START, run')
    ensures s'.elected == s.elected && s'.turns == s.turns[id := Turn(k, Registered)] && s'.store.lease == s.store.lease
    ensures s'.store.ledger == RegisterWriter(s.store.ledger, k)
  {
    var run1, s1 := Then(run, s, Begin(id, k));
    run', s' := Then(run1, s1, Register(id));
    assert s'.turns == s.turns[id := Turn(k, Registered)];
  }

  /** A registered turn finds the lease free. */
  lemma Enters(run: seq<Step>, s: System, id: nat, k: Key) returns (run': seq<Step>, s': System)
    requires Legal(START, run) && s == Exec(START, run) && id in s.turns && s.turns[id] == Turn(k, Registered)
    requires k == A || k == B
    requires At(s, None, [], 0, false)
    ensures Legal(START, run') && s' == Exec(START, run')
    ensures s'.elected == s.elected && s'.turns == s.turns[id := Turn(k, Granted)] && At(s', Some(k), [], 0, false)
    ensures Number(s'.store.lease.turns, A) == Number(s.store.lease.turns, A)
  {
    var j := Join(s, k);
    assert Queue(j.store.lease, "w") == [k] && MayAcquire(j.store, k);
    run', s' := Then(run, s, Enter(id, false, true));
  }

  /** Two running turns of different workflows on one checkout. */
  predicate Clash(s: System) {
    && In(s, 1, Running) && s.turns[1].key == A
    && In(s, 2, Running) && s.turns[2].key == B
  }

  /** The turn of `A` is given the lease, and its workflow ends before the check. */
  lemma GrantedThenEnded() returns (run: seq<Step>, s: System)
    ensures Legal(START, run) && s == Exec(START, run) && At(s, None, [], 0, false)
    ensures s.elected == map[] && s.turns == map[1 := Turn(A, Granted)]
  {
    run, s := Then([], START, Elect(A));
    run, s := Arrives(run, s, 1, A);
    run, s := Enters(run, s, 1, A);
    run, s := Then(run, s, End(A, true));
  }

  /** A turn of `B` takes the free lease and runs. */
  lemma OtherRuns(run: seq<Step>, s: System) returns (run': seq<Step>, s': System)
    requires Legal(START, run) && s == Exec(START, run) && At(s, None, [], 0, false)
    requires B.room !in s.elected && 2 !in s.turns
    ensures Legal(START, run') && s' == Exec(START, run')
    ensures s'.elected == s.elected[B.room := B.workflow] && s'.turns == s.turns[2 := Turn(B, Running)]
  {
    var run1, s1 := Then(run, s, Elect(B));
    run1, s1 := Arrives(run1, s1, 2, B);
    run1, s1 := Enters(run1, s1, 2, B);
    run', s' := Then(run1, s1, Check(2, true));
    assert s'.turns == s.turns[2 := Turn(B, Running)];
  }

  /** A workflow ends between the grant and the check of its turn, another one
      takes the lease, and the first is elected again: two writers run. */
  lemma ReelectionBreaksExclusion() returns (run: seq<Step>, s: System)
    ensures Legal(START, run) && s == Exec(START, run) && Clash(s)
  {
    run, s := GrantedThenEnded();
    run, s := OtherRuns(run, s);
    run, s := Then(run, s, Elect(A));
    run, s := Then(run, s, Check(1, true));
  }

  /** A registered turn of `A` has to wait while saving fails. */
  lemma Waits(run: seq<Step>, s: System, id: nat, waitA: nat) returns (run': seq<Step>, s': System)
    requires Legal(START, run) && s == Exec(START, run) && id in s.turns && s.turns[id] == Turn(A, Registered)
    requires At(s, None, if waitA == 0 then [] else [A], waitA, true)
    ensures Legal(START, run') && s' == Exec(START, run')
    ensures s'.elected == s.elected && s'.turns == s.turns[id := Turn(A, Waiting)] && At(s', None, [A], waitA + 1, true)
    ensures s'.store.ledger == s.store.ledger && Number(s'.store.lease.turns, A) == Number(s.store.lease.turns, A)
  {
    run', s' := Then(run, s, Enter(id, false, true));
  }

  /** The host confirms the checkout, which nobody owns: every save, and every
      failure to save, in the runs below.  A saved confirmation wakes all waiters. */
  lemma Saves(run: seq<Step>, s: System, ok: bool, queue: seq<Key>, waitA: int)
    returns (run': seq<Step>, s': System)
    requires Legal(START, run) && s == Exec(START, run) && At(s, None, queue, waitA, s.store.ledger.journalErr)
    ensures Legal(START, run') && s' == Exec(START, run') && At(s', None, queue, waitA, !ok)
    ensures s'.turns == s.turns && s'.elected == s.elected && s'.store.lease == s.store.lease
    ensures s'.store.ledger == s.store.ledger.(journalErr := !ok)
  {
    run', s' := Then(run, s, Confirm("w", ok));
  }

  /** The first of two waiting turns of `A` wakes up and runs. */
  lemma FirstWakes(run: seq<Step>, s: System) returns (run': seq<Step>, s': System)
    requires Legal(START, run) && s == Exec(START, run) && Elected(s, A)
    requires 1 in s.turns && s.turns[1] == Turn(A, Waiting) && At(s, None, [A], 2, false)
    ensures Legal(START, run') && s' == Exec(START, run')
    ensures s'.elected == s.elected && s'.turns == s.turns[1 := Turn(A, Running)] && At(s', Some(A), [A], 1, false)
  {
    var run1, s1 := Then(run, s, Wake(1, false, true));
    assert At(s1, Some(A), [A], 1, false);
    run', s' := Then(run1, s1, Check(1, true));
    assert s'.turns == s.turns[1 := Turn(A, Running)];
  }

  /** The second one wakes up beside it, and its ownership cannot be saved. */
  lemma SecondFails(run: seq<Step>, s: System) returns (run': seq<Step>, s': System)
    requires Legal(START, run) && s == Exec(START, run)
    requires 3 in s.turns && s.turns[3] == Turn(A, Waiting) && At(s, Some(A), [A], 1, false)
    ensures Legal(START, run') && s' == Exec(START, run')
    ensures s'.elected == s.elected && s'.turns == s.turns - {3} && At(s', None, [], 0, true)
  {
    run', s' := Then(run, s, Wake(3, false, false));
    assert Drop([A], A) == [];
  }

  lemma TwoTurnsWait() returns (run: seq<Step>, s: System)
    ensures Legal(START, run) && s == Exec(START, run) && At(s, None, [A], 2, true)
    ensures s.elected == map[A.room := A.workflow] && s.turns == map[1 := Turn(A, Waiting), 3 := Turn(A, Waiting)]
  {
    run, s := Then([], START, Elect(A));
    run, s := Saves(run, s, false, [], 0);
    run, s := Arrives(run, s, 1, A);
    run, s := Waits(run, s, 1, 0);
    run, s := Arrives(run, s, 3, A);
    run, s := Waits(run, s, 3, 1);
  }

  /** A second waiter of the owning workflow fails to save and thereby drops the
      lease under the running first one: two writers run. */
  lemma FailedSaveBreaksExclusion() returns (run: seq<Step>, s: System)
    ensures Legal(START, run) && s == Exec(START, run) && Clash(s)
  {
    run, s := TwoTurnsWait();
    run, s := Saves(run, s, true, [A], 2);
    run, s := FirstWakes(run, s);
    run, s := SecondFails(run, s);
    run, s := Saves(run, s, true, [], 0);
    run, s := OtherRuns(run, s);
  }

  lemma WaitsAndArrives() returns (run: seq<Step>, s: System)
    ensures Legal(START, run) && s == Exec(START, run) && At(s, None, [A], 1, true)
    ensures Elected(s, A) && s.turns == map[1 := Turn(A, Waiting), 3 := Turn(A, Registered)]
    ensures s.store.ledger.revisions == map[]
  {
    run, s := Then([], START, Elect(A));
    run, s := Saves(run, s, false, [], 0);
    run, s := Arrives(run, s, 1, A);
    run, s := Waits(run, s, 1, 0);
    run, s := Arrives(run, s, 3, A);
  }

  lemma CancelledBetween() returns (run: seq<Step>, s: System)
    ensures Legal(START, run) && s == Exec(START, run) && At(s, None, [], 0, true)
    ensures Elected(s, A) && s.turns == map[3 := Turn(A, Registered)]
    ensures s.store.ledger.revisions == map[] && A !in s.store.ledger.records
  {
    run, s := WaitsAndArrives();
    run, s := Then(run, s, Wake(1, true, true));
    assert Drop([A], A) == [];
    assert s.turns == map[3 := Turn(A, Registered)];
  }

  /** One turn's wait is cancelled between the registration and the wait of
      another: the other runs without a record, and a crash leaves no hold. */
  lemma CancelledWaitBreaksCrashSafety() returns (run: seq<Step>, s: System)
    ensures Legal(START, run) && s == Exec(START, run)
    ensures In(s, 3, Running) && s.turns[3].key == A
    ensures !Names(s.store.journal, "w") && "w" !in Next(s, Crash).store.ledger.recovery
  {
    run, s := CancelledBetween();
    run, s := Saves(run, s, true, [], 0);
    run, s := EntersUnrecorded(run, s, 3);
    run, s := Then(run, s, Check(3, true));
  }

  lemma EntersUnrecorded(run: seq<Step>, s: System, id: nat) returns (run': seq<Step>, s': System)
    requires Legal(START, run) && s == Exec(START, run) && id in s.turns && s.turns[id] == Turn(A, Registered)
    requires At(s, None, [], 0, false) && A !in s.store.ledger.records && "w" !in s.store.ledger.revisions
    ensures Legal(START, run') && s' == Exec(START, run')
    ensures s'.elected == s.elected && s'.turns == s.turns[id := Turn(A, Granted)]
    ensures "w" !in s'.store.journal
  {
    var j := Join(s, A);
    assert Queue(j.store.lease, "w") == [A] && MayAcquire(j.store, A);
    run', s' := Then(run, s, Enter(id, false, true));
  }
}
