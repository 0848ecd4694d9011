/** The rules of WriterRules.dfy are exact: from a safe state, a step keeps them
    if and only if no orderly run behind it breaks the promise they protect. */
module WriterExact {
  import opened Options
  import opened WriterLease
  import opened WriterTurns
  import opened WriterRules
  import opened WriterSafety
  import opened WriterExclusion
  import opened WriterRecords
  import opened WriterRuns

  // ----- breaking a lease rule leaves a turn running without the lease

  ghost predicate Bare(s: System, id: nat, k: Key) { Runs(s, id, k) && !Owns(s.store.lease, k) && Sound(s, k) }

  /** A granted turn of an elected workflow that lost the lease still runs. */
  lemma ChecksBare(s: System, id: nat, k: Key) returns (run: seq<Step>, e: System)
    requires Sound(s, k) && id in s.turns && s.turns[id] == Turn(k, Granted) && Elected(s, k) && !Owns(s.store.lease, k)
    ensures Reaches(s, run, e, AllRules) && Bare(e, id, k)
  {
    run, e := Steps(s, [], s, Check(id, true), AllRules);
    StepSound(s, Check(id, true), k);
  }

  lemma GaveUpBare(s: System, j: System, id: nat, k: Key, s': System) returns (run: seq<Step>, other: nat, e: System)
    requires Safe(s) && Joined(s, j, id, k) && GivesUp(j, id, false, false) && !WriterRules.Unused(s, id)
    requires s' == Round(j, id, false, false) && Sound(s', k)
    ensures Reaches(s', run, e, AllRules) && Bare(e, other, k)
  {
    TakeLease(j.store, k, false);
    assert OneTurn(s, s', id, k);
    if i :| i in s.turns && i != id && s.turns[i] == Turn(k, Running) {
      assert Runs(s', i, k);
      run, other, e := [], i, s';
    } else {
      var i :| i in s.turns && i != id && s.turns[i] == Turn(k, Granted);
      other := i;
      run, e := ChecksBare(s', i, k);
    }
  }

  /** While the lease of an elected workflow closes, its last running turn takes
      the lease with it. */
  lemma ClosesUnder(s: System, k: Key, g: nat) returns (run: seq<Step>, e: System)
    requires Sound(s, k) && Elected(s, k) && Owns(s.store.lease, k) && k in s.store.lease.closing
    requires Number(s.store.lease.turns, k) > 0 && g in s.turns && s.turns[g] == Turn(k, Granted)
    ensures Reaches(s, run, e, AllRules) && Sound(e, k) && !Owns(e.store.lease, k)
    ensures Elected(e, k) && g in e.turns && e.turns[g] == Turn(k, Granted)
    decreases Number(s.store.lease.turns, k)
  {
    CountRunning(s, k);
    var id :| Runs(s, id, k);
    var m, step := Next(s, Finish(id, true)), Finish(id, true);
    FinishLease(s.store, k, true);
    StepSound(s, step, k);
    run, e := Steps(s, [], s, step, AllRules);
    if Owns(m.store.lease, k) {
      var rest, e2 := ClosesUnder(m, k, g);
      Joins(s, run, m, rest, e2, AllRules);
      run, e := run + rest, e2;
    }
  }

  /** A new turn of an elected owner is granted the lease at once. */
  lemma Reenters(s: System, k: Key) returns (run: seq<Step>, g: nat, e: System)
    requires Sound(s, k) && Elected(s, k) && Owns(s.store.lease, k)
    ensures Reaches(s, run, e, AllRules) && Sound(e, k) && e.elected == s.elected && e.store.lease == s.store.lease
    ensures g in e.turns && e.turns[g] == Turn(k, Granted)
  {
    g := Above(s.turns);
    StepSound(s, Begin(g, k), k);
    run, e := Steps(s, [], s, Begin(g, k), AllRules);
    StepSound(e, Register(g), k);
    run, e := Steps(s, run, e, Register(g), AllRules);
    StepSound(e, Enter(g, false, true), k);
    run, e := Steps(s, run, e, Enter(g, false, true), AllRules);
  }

  lemma ElectBare(s: System, k: Key) returns (run: seq<Step>, id: nat, e: System)
    requires Safe(s) && Journaled(s.store) && Enabled(s, Elect(k)) && !KeepsLease(s, Elect(k))
    ensures Reaches(Next(s, Elect(k)), run, e, AllRules) && Bare(e, id, k)
  {
    var s' := Next(s, Elect(k));
    assert KeySafe(s, k);
    StepSound(s, Elect(k), k);
    if k in s.store.lease.closing {
      var run1, m;
      run1, id, m := Reenters(s', k);
      var run2, n := ClosesUnder(m, k, id);
      Joins(s', run1, m, run2, n, AllRules);
      var run3;
      run3, e := ChecksBare(n, id, k);
      Joins(s', run1 + run2, n, run3, e, AllRules);
      run := run1 + run2 + run3;
    } else {
      var g :| In(s, g, Granted) && s.turns[g].key == k;
      id := g;
      assert s'.turns[g] == Turn(k, Granted);
      run, e := ChecksBare(s', g, k);
    }
  }

  /** The key of a step that may break a rule. */
  function Breaker(s: System, step: Step): Key
    requires Enabled(s, step) && (step.Elect? || step.Enter? || step.Wake?)
  {
    if step.Elect? then step.key else s.turns[step.id].key
  }

  lemma LeaseBroken(s: System, step: Step) returns (run: seq<Step>, id: nat, k: Key, e: System)
    requires Safe(s) && Journaled(s.store) && Enabled(s, step) && !KeepsLease(s, step)
    ensures Reaches(Next(s, step), run, e, AllRules) && Bare(e, id, k)
  {
    k := Breaker(s, step);
    if step.Elect? {
      run, id, e := ElectBare(s, k);
    } else {
      StepSound(s, step, k);
      var j := if step.Enter? then Join(s, k) else s;
      run, id, e := GaveUpBare(s, j, step.id, k, Next(s, step));
    }
  }

  // ----- and so two workflows write to one checkout

  ghost predicate Exclusive(s: System) {
    forall a, b :: In(s, a, Running) && In(s, b, Running) && s.turns[a].key.room.workspace == s.turns[b].key.room.workspace ==>
      s.turns[a].key == s.turns[b].key
  }

  /** The waits of the key are given up. */
  lemma StopsWaiting(s: System, k: Key, i: nat) returns (run: seq<Step>, e: System)
    requires Calm(s, k) && Bare(s, i, k)
    ensures Reaches(s, run, e, LeaseRules) && Calm(e, k) && Bare(e, i, k) && Number(e.store.lease.waiters, k) == 0
    decreases |s.turns|
  {
    if id :| id in Who(s, k, Waiting) {
      var step := Wake(id, true, true);
      var m := Next(s, step);
      assert m.turns == s.turns - {id} && s.turns == m.turns[id := s.turns[id]];
      StepSound(s, step, k);
      var run1, m' := Steps(s, [], s, step, LeaseRules);
      var run2;
      run2, e := StopsWaiting(m, k, i);
      Joins(s, run1, m, run2, e, LeaseRules);
      run := run1 + run2;
    } else {
      assert Who(s, k, Waiting) == {};
      run, e := [], s;
    }
  }

  /** A workflow of another room writes to a checkout that nobody owns. */
  lemma AnotherWrites(s: System, k: Key, i: nat) returns (run: seq<Step>, e: System)
    requires Calm(s, k) && Bare(s, i, k) && Number(s.store.lease.waiters, k) == 0
    requires k.room.workspace !in s.store.ledger.recovery && !s.store.ledger.journalErr
    ensures Reaches(s, run, e, LeaseRules) && !Exclusive(e)
  {
    var b := Key(Room(k.room.id + "x", k.room.workspace), "x");
    assert |b.room.id| == |k.room.id| + 1 && b != k;
    OthersFree(s, k, b);
    CalmFree(s, k);
    assert KeySafe(s, b);
    assert b.room !in s.elected;
    run, e := Steps(s, [], s, Elect(b), LeaseRules);
    var n := Above(s.turns);
    run, e := Steps(s, run, e, Begin(n, b), LeaseRules);
    run, e := Steps(s, run, e, Register(n), LeaseRules);
    var m, q := e, Queue(s.store.lease, k.room.workspace);
    assert k !in q && q == [];
    run, e := EntersFree(s, run, m, n, b);
    run, e := Steps(s, run, e, Check(n, true), LeaseRules);
    assert In(e, n, Running) && In(e, i, Running);
  }

  lemma EntersFree(s: System, run: seq<Step>, m: System, n: nat, b: Key) returns (run': seq<Step>, e: System)
    requires Reaches(s, run, m, LeaseRules) && n in m.turns && m.turns[n] == Turn(b, Registered)
    requires b.room.workspace !in m.store.lease.writers && Queue(m.store.lease, b.room.workspace) == []
    requires Number(m.store.lease.waiters, b) == 0
    requires b.room.workspace !in m.store.ledger.recovery && !m.store.ledger.journalErr
    ensures Reaches(s, run', e, LeaseRules) && e.turns == m.turns[n := Turn(b, Granted)] && e.elected == m.elected
  {
    var j := Join(m, b);
    assert Queue(j.store.lease, b.room.workspace) == [b] && MayAcquire(j.store, b);
    run', e := Steps(s, run, m, Enter(n, false, true), LeaseRules);
  }

  lemma BareClashes(s: System, id: nat, k: Key) returns (run: seq<Step>, e: System)
    requires Bare(s, id, k)
    ensures Reaches(s, run, e, LeaseRules) && !Exclusive(e)
  {
    var run1, a := Clear(s, k);
    Weakens(s, run1, a);
    var run2, b := StopsWaiting(a, k, id);
    Joins(s, run1, a, run2, b, LeaseRules);
    var run3, c := ConfirmsBare(b, k, id);
    Joins(s, run1 + run2, b, run3, c, LeaseRules);
    var run4;
    run4, e := AnotherWrites(c, k, id);
    Joins(s, run1 + run2 + run3, c, run4, e, LeaseRules);
    run := run1 + run2 + run3 + run4;
  }

  lemma ConfirmsBare(s: System, k: Key, id: nat) returns (run: seq<Step>, e: System)
    requires Calm(s, k) && Bare(s, id, k)
    ensures Reaches(s, run, e, LeaseRules) && Calm(e, k) && Bare(e, id, k) && e.store.lease == s.store.lease
    ensures k.room.workspace !in e.store.ledger.recovery && !e.store.ledger.journalErr
  {
    run := [Confirm(k.room.workspace, true)];
    e := Confirms(s, k);
    Weakens(s, run, e);
  }

  ghost predicate StaysExclusive(s: System) {
    forall run :: Legal(s, run) && Orderly(s, run, LeaseRules) ==> Exclusive(Exec(s, run))
  }

  /** A step from a safe state keeps the lease rules if and only if no run behind
      it that keeps them lets two workflows write to one checkout. */
  lemma ExclusionExact(s: System, step: Step)
    requires Safe(s) && Journaled(s.store) && Enabled(s, step)
    ensures KeepsLease(s, step) <==> StaysExclusive(Next(s, step))
  {
    var s' := Next(s, step);
    if KeepsLease(s, step) {
      StepSafe(s, step);
      forall run | Legal(s', run) && Orderly(s', run, LeaseRules) ensures Exclusive(Exec(s', run)) {
        RunSafe(s', run, LeaseRules);
        SafeGuarded(Exec(s', run));
      }
    } else {
      var run1, id, k, m := LeaseBroken(s, step);
      Weakens(s', run1, m);
      var run2, e := BareClashes(m, id, k);
      Joins(s', run1, m, run2, e, LeaseRules);
      assert !Exclusive(Exec(s', run1 + run2));
    }
  }
}
