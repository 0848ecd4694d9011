/** The record rules are exact as well: a step from a safe state keeps all the
    rules if and only if no run behind it that keeps them has a writer running
    whose checkout has no owner in the saved journal. */
module WriterJournalExact {
  import opened Options
  import opened WriterLease
  import opened WriterTurns
  import opened WriterRules
  import opened WriterSafety
  import opened WriterExclusion
  import opened WriterRecords
  import opened WriterRuns
  import opened WriterExact

  // ----- a turn that runs without the lease

  lemma BareOffFile(s: System, id: nat, k: Key) returns (run: seq<Step>, e: System)
    requires Bare(s, id, k)
    ensures Reaches(s, run, e, AllRules) && !OnFile(e)
  {
    var run1, a := Clear(s, k);
    e := Confirms(a, k);
    run := run1 + [Confirm(k.room.workspace, true)];
    Joins(s, run1, a, [Confirm(k.room.workspace, true)], e, AllRules);
    assert In(e, id, Running) && e.turns[id].key == k;
  }

  // ----- a turn that is given the lease without a record

  /** A turn of an elected workflow has lost the record, and nobody holds the lease. */
  ghost predicate Unfiled(s: System, t: nat, k: Key) {
    && Safe(s) && Journaled(s.store) && Elected(s, k) && !Owns(s.store.lease, k) && k !in s.store.ledger.records
    && t in s.turns && s.turns[t].key == k && Queueing(s.turns[t])
  }

  lemma TakenOffFile(s: Store, k: Key)
    requires MayAcquire(s, k) && k !in s.ledger.records
    ensures Owns(Take(s, k, true).lease, k) && !Names(Take(s, k, true).journal, k.room.workspace)
  {
  }

  lemma Admits(s: System, t: nat, k: Key) returns (run: seq<Step>, e: System)
    requires Sound(s, k) && Calm(s, k) && Elected(s, k) && !Owns(s.store.lease, k) && k !in s.store.ledger.records
    requires t in s.turns && s.turns[t].key == k && Queueing(s.turns[t])
    requires k.room.workspace !in s.store.ledger.recovery && !s.store.ledger.journalErr
    ensures Reaches(s, run, e, AllRules) && !OnFile(e)
  {
    CalmFree(s, k);
    var j := if s.turns[t].phase == Registered then Join(s, k) else s;
    var step := if s.turns[t].phase == Registered then Enter(t, false, true) else Wake(t, false, true);
    HeadsQueue(s, t, k);
    TakenOffFile(j.store, k);
    run, e := Steps(s, [], s, step, AllRules);
    run, e := Steps(s, run, e, Check(t, true), AllRules);
    assert In(e, t, Running) && e.turns[t].key == k;
  }

  lemma HeadsQueue(s: System, t: nat, k: Key)
    requires Sound(s, k) && Calm(s, k) && !Owns(s.store.lease, k)
    requires t in s.turns && s.turns[t].key == k && Queueing(s.turns[t])
    requires k.room.workspace !in s.store.ledger.recovery && !s.store.ledger.journalErr
    ensures MayAcquire(if s.turns[t].phase == Registered then Join(s, k).store else s.store, k)
  {
    CalmFree(s, k);
    var l, w := s.store.lease, k.room.workspace;
    if s.turns[t].phase == Waiting {
      assert t in Who(s, k, Waiting);
      assert Number(l.waiters, k) > 0 && k in Queue(l, w) && Queue(l, w)[0] in Queue(l, w);
    } else {
      var q := Queue(Enqueue(l, k), w);
      assert q == Queue(l, w) + if Number(l.waiters, k) == 0 then [k] else [];
      assert k in q && q[0] in q;
    }
  }

  lemma UnfiledOffFile(s: System, t: nat, k: Key) returns (run: seq<Step>, e: System)
    requires Unfiled(s, t, k)
    ensures Reaches(s, run, e, AllRules) && !OnFile(e)
  {
    var run1, a := Clear(s, k);
    var b := Confirms(a, k);
    var run2 := [Confirm(k.room.workspace, true)];
    Joins(s, run1, a, run2, b, AllRules);
    var run3;
    run3, e := Admits(b, t, k);
    Joins(s, run1 + run2, b, run3, e, AllRules);
    run := run1 + run2 + run3;
  }

  // ----- a turn that owns a lease which is not in the journal

  /** Whatever the journal says now, the next save names no owner. */
  lemma SavedOffFile(s: System, k: Key) returns (run: seq<Step>, e: System)
    requires Journaled(s.store) && Owns(s.store.lease, k) && !Documented(s.store, k)
    ensures Reaches(s, run, e, AllRules) && e.turns == s.turns && !Names(e.store.journal, k.room.workspace)
  {
    if !Names(s.store.journal, k.room.workspace) {
      run, e := [], s;
    } else {
      var v := Elsewhere(s.store.lease.writers);
      run, e := Steps(s, [], s, Confirm(v, true), AllRules);
    }
  }

  /** A checkout that nobody owns. */
  lemma Elsewhere(m: map<string, Key>) returns (v: string)
    ensures v !in m
  {
    v := Longer(m);
    assert v in m ==> |v| < |v|;
  }

  lemma Longer(m: map<string, Key>) returns (v: string)
    ensures forall w :: w in m ==> |w| < |v|
    decreases |m|
  {
    if x :| x in m {
      var rest := m - {x};
      assert m == rest[x := m[x]];
      v := Longer(rest);
      if |v| <= |x| {
        v := x + "x";
      }
      forall w | w in m ensures |w| < |v| {
        assert w != x ==> w in rest;
      }
    } else {
      v := "";
    }
  }

  lemma ElectOffFile(s: System, k: Key) returns (run: seq<Step>, e: System)
    requires Safe(s) && Recorded(s) && Enabled(s, Elect(k)) && KeepsLease(s, Elect(k)) && !KeepsRecord(s, Elect(k))
    ensures Reaches(Next(s, Elect(k)), run, e, AllRules) && !OnFile(e)
  {
    var s' := Next(s, Elect(k));
    assert KeySafe(s, k) && RecordSafe(s, k);
    StepSafe(s, Elect(k));
    StepJournaled(s, Elect(k));
    if Owns(s.store.lease, k) && !Documented(s.store, k) {
      var g :| g in s.turns && s.turns[g].key == k && (s.turns[g].phase == Granted || s.turns[g].phase == Running);
      assert Filed(s, g);
      assert s'.turns[g] == Turn(k, Granted);
      StepJournaled(s', Check(g, true));
      var run1, m := Steps(s', [], s', Check(g, true), AllRules);
      var run2;
      run2, e := SavedOffFile(m, k);
      Joins(s', run1, m, run2, e, AllRules);
      run := run1 + run2;
      assert In(e, g, Running) && e.turns[g].key == k;
    } else {
      var t :| t in s.turns && s.turns[t].key == k && s.turns[t].phase != Begun;
      assert Filed(s, t) && User(s, t);
      run, e := UnfiledOffFile(s', t, k);
    }
  }

  // ----- a record that is dropped under a registered turn

  lemma DropLosesRecord(j: System, id: nat, ctx: bool, saved: bool, k: Key)
    requires id in j.turns && j.turns[id].key == k && Drops(j, id, ctx, saved)
    ensures var s' := Round(j, id, ctx, saved); k !in s'.store.ledger.records && !Owns(s'.store.lease, k)
  {
  }

  lemma DropOffFile(s: System, step: Step) returns (run: seq<Step>, e: System)
    requires Safe(s) && Recorded(s) && Enabled(s, step) && KeepsLease(s, step) && !KeepsRecord(s, step)
    requires step.Enter? || step.Wake?
    ensures Reaches(Next(s, step), run, e, AllRules) && !OnFile(e)
  {
    var k, id := s.turns[step.id].key, step.id;
    StepSafe(s, step);
    StepJournaled(s, step);
    var j := if step.Enter? then Join(s, k) else s;
    DropLosesRecord(j, id, step.ctx, step.saved, k);
    var t :| t in s.turns && t != id && s.turns[t].key == k && s.turns[t].phase == Registered;
    run, e := UnfiledOffFile(Next(s, step), t, k);
  }

  lemma RecordBroken(s: System, step: Step) returns (run: seq<Step>, e: System)
    requires Safe(s) && Recorded(s) && Enabled(s, step) && KeepsLease(s, step) && !KeepsRecord(s, step)
    ensures Reaches(Next(s, step), run, e, AllRules) && !OnFile(e)
  {
    if step.Elect? {
      run, e := ElectOffFile(s, step.key);
    } else {
      run, e := DropOffFile(s, step);
    }
  }

  // ----- exactly

  ghost predicate StaysOnFile(s: System) {
    forall run :: Legal(s, run) && Orderly(s, run, AllRules) ==> OnFile(Exec(s, run))
  }

  lemma Stays(s: System)
    requires Safe(s) && Recorded(s)
    ensures StaysOnFile(s)
  {
    forall run | Legal(s, run) && Orderly(s, run, AllRules) ensures OnFile(Exec(s, run)) {
      RunRecorded(s, run);
      RecordedOnFile(Exec(s, run));
    }
  }

  /** A step from a safe state keeps all the rules if and only if no run behind it
      that keeps them has a writer running that the saved journal does not name. */
  lemma JournalExact(s: System, step: Step)
    requires Safe(s) && Recorded(s) && Enabled(s, step)
    ensures Keeps(s, step, AllRules) <==> StaysOnFile(Next(s, step))
  {
    var s' := Next(s, step);
    if Keeps(s, step, AllRules) {
      StepSafe(s, step);
      StepRecorded(s, step);
      Stays(s');
    } else if !KeepsLease(s, step) {
      var run1, id, k, m := LeaseBroken(s, step);
      var run2, e := BareOffFile(m, id, k);
      Joins(s', run1, m, run2, e, AllRules);
      assert !OnFile(Exec(s', run1 + run2));
    } else {
      var run, e := RecordBroken(s, step);
      assert !OnFile(Exec(s', run));
    }
  }
}
