/** Runs put together step by step, and how to empty a checkout: the workflows
    of other rooms end, their turns finish or give up, and nothing is broken. */
module WriterRuns {
  import opened Options
  import opened WriterLease
  import opened WriterTurns
  import opened WriterRules
  import opened WriterSafety
  import opened WriterExclusion

  ghost predicate Reaches(s: System, run: seq<Step>, e: System, r: Rules) {
    Legal(s, run) && Orderly(s, run, r) && Exec(s, run) == e
  }

  lemma {:induction false} Joins(s: System, a: seq<Step>, m: System, b: seq<Step>, e: System, r: Rules)
    requires Reaches(s, a, m, r) && Reaches(m, b, e, r)
    ensures Reaches(s, a + b, e, r)
    decreases |a|
  {
    if a == [] {
      assert a + b == b;
    } else {
      assert (a + b)[1..] == a[1..] + b;
      Joins(Next(s, a[0]), a[1..], m, b, e, r);
    }
  }

  lemma Steps(s: System, run: seq<Step>, m: System, step: Step, r: Rules) returns (run': seq<Step>, e: System)
    requires Reaches(s, run, m, r) && Enabled(m, step) && Keeps(m, step, r)
    ensures run' == run + [step] && e == Next(m, step) && Reaches(s, run', e, r)
  {
    run', e := run + [step], Next(m, step);
    assert [step][1..] == [] && Exec(m, [step]) == Exec(e, []);
    Joins(s, run, m, [step], e, r);
  }

  lemma {:induction false} Weakens(s: System, run: seq<Step>, e: System)
    requires Reaches(s, run, e, AllRules)
    ensures Reaches(s, run, e, LeaseRules)
    decreases |run|
  {
    if run != [] {
      Weakens(Next(s, run[0]), run[1..], e);
    }
  }

  // ----- all keys but one

  /** Every other key is safe, and so are counters, queues and the journal. */
  ghost predicate Sound(s: System, k: Key) {
    Books(s) && Journaled(s.store) && forall x :: x != k ==> KeySafe(s, x)
  }

  /** A step of the key, or of a key that keeps the lease rules. */
  lemma StepSound(s: System, step: Step, k: Key)
    requires Sound(s, k) && Enabled(s, step) && (KeepsLease(s, step) || (Concerns(s, step, k) && !step.Crash?))
    ensures Sound(Next(s, step), k)
  {
    StepBooks(s, step);
    StepJournaled(s, step);
    forall x | x != k ensures KeySafe(Next(s, step), x) {
      assert KeySafe(s, x);
      StepKeySafe(s, step, x);
    }
  }

  lemma UntouchedTrans(a: System, b: System, c: System, k: Key)
    requires Untouched(a, b, k) && Untouched(b, c, k)
    ensures Untouched(a, c, k)
  {
  }

  // ----- emptying a checkout

  predicate Passive(t: Turn) { t.phase == Begun || t.phase == Registered }

  /** No other workflow is elected, and no other turn waits for a lease or has one. */
  ghost predicate Calm(s: System, k: Key) {
    && (forall room :: room in s.elected ==> Key(room, s.elected[room]) == k)
    && (forall id :: id in s.turns && s.turns[id].key != k ==> Passive(s.turns[id]))
  }

  /** The step by which the turn of a workflow that is not elected goes. */
  function Goes(id: nat, t: Turn): Step {
    if t.phase == Waiting then Wake(id, true, true) else if t.phase == Granted then Check(id, true) else Finish(id, true)
  }

  /** A step of another key after which fewer workflows and turns are left. */
  ghost predicate Clears(s: System, step: Step, k: Key) {
    && Enabled(s, step) && Keeps(s, step, AllRules) && !Concerns(s, step, k)
    && |Next(s, step).elected| + |Next(s, step).turns| < |s.elected| + |s.turns|
  }

  lemma GoesAway(s: System, id: nat, k: Key)
    requires id in s.turns && !Passive(s.turns[id]) && !Elected(s, s.turns[id].key) && s.turns[id].key != k
    ensures Clears(s, Goes(id, s.turns[id]), k)
  {
    var s' := Next(s, Goes(id, s.turns[id]));
    assert s'.turns == s.turns - {id} && s'.elected == s.elected;
    assert s.turns == s'.turns[id := s.turns[id]];
  }

  lemma EndsAway(s: System, room: Room, k: Key)
    requires room in s.elected && Key(room, s.elected[room]) != k
    ensures Clears(s, End(Key(room, s.elected[room]), true), k)
  {
    var s' := Next(s, End(Key(room, s.elected[room]), true));
    assert s'.turns == s.turns && s'.elected == s.elected - {room};
    assert s.elected == s'.elected[room := s.elected[room]];
  }

  lemma Clear(s: System, k: Key) returns (run: seq<Step>, e: System)
    requires Sound(s, k)
    ensures Reaches(s, run, e, AllRules) && Sound(e, k) && Untouched(s, e, k) && Calm(e, k)
    decreases |s.elected| + |s.turns|
  {
    if room :| room in s.elected && Key(room, s.elected[room]) != k {
      EndsAway(s, room, k);
      run, e := ClearOn(s, k, End(Key(room, s.elected[room]), true));
    } else if id :| id in s.turns && s.turns[id].key != k && !Passive(s.turns[id]) {
      GoesAway(s, id, k);
      run, e := ClearOn(s, k, Goes(id, s.turns[id]));
    } else {
      run, e := [], s;
    }
  }

  lemma ClearOn(s: System, k: Key, step: Step) returns (run: seq<Step>, e: System)
    requires Sound(s, k) && Clears(s, step, k)
    ensures Reaches(s, run, e, AllRules) && Sound(e, k) && Untouched(s, e, k) && Calm(e, k)
    decreases |s.elected| + |s.turns|, 0
  {
    var m := Next(s, step);
    StepSound(s, step, k);
    StepElsewhere(s, step, k);
    var run2;
    run2, e := Clear(m, k);
    UntouchedTrans(s, m, e, k);
    var run1, m' := Steps(s, [], s, step, AllRules);
    Joins(s, run1, m, run2, e, AllRules);
    run := run1 + run2;
  }

  lemma OthersFree(s: System, k: Key, c: Key)
    requires Sound(s, k) && Calm(s, k) && c != k
    ensures !Owns(s.store.lease, c) && Number(s.store.lease.waiters, c) == 0
  {
    assert KeySafe(s, c) && !Elected(s, c) && !Live(s, c);
    assert forall id :: id in s.turns ==> s.turns[id] != Turn(c, Waiting);
    assert Who(s, c, Waiting) == {};
  }

  /** Then nobody owns the checkout, unless it is the key itself, and nobody else
      waits for it. */
  lemma CalmFree(s: System, k: Key)
    requires Sound(s, k) && Calm(s, k) && !Owns(s.store.lease, k)
    ensures k.room.workspace !in s.store.lease.writers
    ensures forall x :: x in Queue(s.store.lease, k.room.workspace) ==> x == k
    ensures Queue(s.store.lease, k.room.workspace) == [] || k in Queue(s.store.lease, k.room.workspace)
  {
    var l, w := s.store.lease, k.room.workspace;
    assert Queue(l, w) == [] || Queue(l, w)[0] in Queue(l, w);
    forall c | c != k ensures !Owns(l, c) && c !in Queue(l, w) {
      OthersFree(s, k, c);
    }
    assert w in l.writers ==> Owns(l, l.writers[w]);
  }

  /** Confirming lifts the hold, mends the journal, and leaves the turns alone. */
  lemma Confirms(s: System, k: Key) returns (e: System)
    requires Sound(s, k) && Calm(s, k) && !Owns(s.store.lease, k)
    ensures Reaches(s, [Confirm(k.room.workspace, true)], e, AllRules) && Sound(e, k) && Untouched(s, e, k) && Calm(e, k)
    ensures e.turns == s.turns && e.elected == s.elected && e.store.lease == s.store.lease && e.store.ledger.records == s.store.ledger.records
    ensures k.room.workspace !in e.store.ledger.recovery && !e.store.ledger.journalErr && !Names(e.store.journal, k.room.workspace)
  {
    var step := Confirm(k.room.workspace, true);
    CalmFree(s, k);
    var run;
    run, e := Steps(s, [], s, step, AllRules);
    assert run == [step];
    StepSound(s, step, k);
    StepElsewhere(s, step, k);
  }

  /** A number that no turn has. */
  lemma Above(m: map<nat, Turn>) returns (n: nat)
    ensures forall x :: x in m ==> x < n
    decreases |m|
  {
    if x :| x in m {
      var rest := m - {x};
      assert m == rest[x := m[x]];
      n := Above(rest);
      if n <= x {
        n := x + 1;
      }
      forall y | y in m ensures y < n {
        assert y != x ==> y in rest;
      }
    } else {
      n := 0;
    }
  }
}
