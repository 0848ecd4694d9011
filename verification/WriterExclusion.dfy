/** The lease protects running turns: exclusion, under the lease rules of
    WriterRules.dfy.  Safety is stated key by key, since a step concerns one key. */
module WriterExclusion {
  import opened Options
  import opened WriterLease
  import opened WriterTurns
  import opened WriterRules
  import opened WriterSafety

  ghost predicate Runs(s: System, id: nat, k: Key) { id in s.turns && s.turns[id] == Turn(k, Running) }

  /** A turn of the key was given the lease and has not finished. */
  ghost predicate Live(s: System, k: Key) {
    exists id :: id in s.turns && s.turns[id].key == k && (s.turns[id].phase == Granted || s.turns[id].phase == Running)
  }

  /** A turn that runs, or may still run, owns the lease. */
  predicate User(s: System, id: nat)
    requires id in s.turns
  {
    var k, p := s.turns[id].key, s.turns[id].phase;
    p == Running || (p == Granted && Elected(s, k)) ==> Owns(s.store.lease, k)
  }

  /** A lease has a reason, and a closing one waits for its last turn. */
  ghost predicate Justified(s: System, k: Key) {
    && (Owns(s.store.lease, k) && !Elected(s, k) ==> Live(s, k))
    && (k in s.store.lease.closing ==> !Elected(s, k) && Owns(s.store.lease, k) && Number(s.store.lease.turns, k) > 0)
    && (!Elected(s, k) ==> forall id :: Runs(s, id, k) ==> k in s.store.lease.closing)
  }

  ghost predicate Users(s: System, k: Key) { forall id :: id in s.turns && s.turns[id].key == k ==> User(s, id) }

  ghost predicate KeySafe(s: System, k: Key) { Justified(s, k) && Users(s, k) }

  ghost predicate Safe(s: System) { Books(s) && forall k :: KeySafe(s, k) }

  // ----- a step concerns one key

  /** Nothing about the key differs between the two states. */
  ghost predicate Untouched(s: System, s': System, k: Key) {
    && (Elected(s', k) <==> Elected(s, k))
    && SameLease(s.store, s'.store, k)
    && (forall id :: id in s.turns && s.turns[id].key == k ==> id in s'.turns && s'.turns[id] == s.turns[id])
    && (forall id :: id in s'.turns && s'.turns[id].key == k ==> id in s.turns && s'.turns[id] == s.turns[id])
  }

  predicate SameLease(s: Store, s': Store, k: Key) {
    && (Owns(s'.lease, k) <==> Owns(s.lease, k))
    && (k in s'.lease.closing <==> k in s.lease.closing)
    && Number(s'.lease.turns, k) == Number(s.lease.turns, k)
    && Number(s'.lease.waiters, k) == Number(s.lease.waiters, k)
    && Get(s'.ledger.records, k) == Get(s.ledger.records, k)
  }

  lemma UntouchedSafe(s: System, s': System, k: Key)
    requires Untouched(s, s', k) && KeySafe(s, k)
    ensures KeySafe(s', k)
  {
    assert forall id :: Runs(s', id, k) ==> Runs(s, id, k);
    if Live(s, k) {
      var id :| id in s.turns && s.turns[id].key == k && (s.turns[id].phase == Granted || s.turns[id].phase == Running);
      assert id in s'.turns;
    }
    forall id | id in s'.turns && s'.turns[id].key == k ensures User(s', id) {
      assert User(s, id);
    }
  }

  predicate Concerns(s: System, step: Step, k: Key)
    requires Enabled(s, step)
  {
    match step
    case Elect(x) => x == k
    case End(x, _) => x == k
    case Begin(_, x) => x == k
    case Register(id) => s.turns[id].key == k
    case Enter(id, _, _) => s.turns[id].key == k
    case Wake(id, _, _) => s.turns[id].key == k
    case Check(id, _) => s.turns[id].key == k
    case Finish(id, _) => s.turns[id].key == k
    case ReportFiles(_, _) => false
    case Confirm(_, _) => false
    case Crash => true
  }

  lemma TakeElsewhere(s: Store, k: Key, saved: bool, x: Key)
    requires MayAcquire(s, k) && x != k
    ensures SameLease(s, Take(s, k, saved), x)
  {
  }

  lemma FreeElsewhere(s: Store, k: Key, saved: bool, x: Key)
    requires Owns(s.lease, k) && x != k
    ensures SameLease(s, Free(s, k, saved), x)
  {
  }

  lemma ReleaseElsewhere(s: Store, k: Key, saved: bool, x: Key)
    requires x != k
    ensures SameLease(s, Release(s, k, saved), x)
  {
    if Owns(s.lease, k) && Number(s.lease.turns, k) <= 0 {
      FreeElsewhere(s, k, saved, x);
    }
  }

  lemma FinishElsewhere(s: Store, k: Key, saved: bool, x: Key)
    requires x != k
    ensures SameLease(s, FinishTurn(s, k, saved), x)
  {
    if Number(s.lease.turns, k) <= 1 && k in s.lease.closing && Owns(s.lease, k) {
      FreeElsewhere(s.(lease := Unretain(s.lease, k)), k, saved, x);
    }
  }

  lemma RoundElsewhere(s: System, id: nat, ctx: bool, saved: bool, x: Key)
    requires id in s.turns && s.turns[id].key != x
    ensures Untouched(s, Round(s, id, ctx, saved), x)
  {
    if MayAcquire(s.store, s.turns[id].key) {
      TakeElsewhere(s.store, s.turns[id].key, saved, x);
    }
  }

  lemma EnterElsewhere(s: System, id: nat, ctx: bool, saved: bool, x: Key)
    requires In(s, id, Registered) && s.turns[id].key != x
    ensures Untouched(s, Next(s, Enter(id, ctx, saved)), x)
  {
    if !Owns(s.store.lease, s.turns[id].key) {
      RoundElsewhere(Join(s, s.turns[id].key), id, ctx, saved, x);
    }
  }

  lemma CheckElsewhere(s: System, id: nat, saved: bool, x: Key)
    requires In(s, id, Granted) && s.turns[id].key != x
    ensures Untouched(s, Next(s, Check(id, saved)), x)
  {
    ReleaseElsewhere(s.store, s.turns[id].key, saved, x);
  }

  lemma QuietElsewhere(s: System, step: Step, x: Key)
    requires Enabled(s, step) && !Concerns(s, step, x) && !step.Enter? && !step.Wake? && !step.Check? && !step.Finish?
    ensures Untouched(s, Next(s, step), x)
  {
    if step.End? {
      ReleaseElsewhere(s.store, step.key, step.saved, x);
    }
  }

  lemma StepElsewhere(s: System, step: Step, x: Key)
    requires Enabled(s, step) && !Concerns(s, step, x)
    ensures Untouched(s, Next(s, step), x)
  {
    match step {
      case Enter(id, ctx, saved) => EnterElsewhere(s, id, ctx, saved, x);
      case Wake(id, ctx, saved) => RoundElsewhere(s, id, ctx, saved, x);
      case Check(id, saved) => CheckElsewhere(s, id, saved, x);
      case Finish(id, saved) => FinishElsewhere(s.store, s.turns[id].key, saved, x);
      case _ => QuietElsewhere(s, step, x);
    }
  }

  // ----- what the counters say

  lemma CountRunning(s: System, k: Key)
    requires Books(s)
    ensures Number(s.store.lease.turns, k) > 0 <==> exists id :: Runs(s, id, k)
  {
    if Number(s.store.lease.turns, k) > 0 {
      var id :| id in Who(s, k, Running);
      assert Runs(s, id, k);
    }
    if id :| Runs(s, id, k) {
      assert id in Who(s, k, Running);
    }
  }

  lemma CountOtherRunning(s: System, id: nat, k: Key)
    requires Books(s) && Runs(s, id, k)
    ensures Number(s.store.lease.turns, k) >= 1
    ensures Number(s.store.lease.turns, k) > 1 <==> exists x :: x != id && Runs(s, x, k)
  {
    var w := Who(s, k, Running);
    assert id in w && |w - {id}| == |w| - 1;
    if |w| > 1 {
      assert w - {id} != {};
      var x :| x in w - {id};
      assert Runs(s, x, k);
    }
    if x :| x != id && Runs(s, x, k) {
      assert x in w - {id};
    }
  }

  // ----- elections and releases

  lemma ElectSafe(s: System, k: Key)
    requires Books(s) && KeySafe(s, k) && Enabled(s, Elect(k)) && KeepsLease(s, Elect(k))
    ensures KeySafe(Next(s, Elect(k)), k)
  {
    var s' := Next(s, Elect(k));
    if Elected(s, k) {
      assert s'.elected == s.elected && s' == s;
    } else {
      forall id | id in s'.turns && s'.turns[id].key == k ensures User(s', id) {
        assert User(s, id) && (s.turns[id].phase == Running ==> Runs(s, id, k));
      }
    }
  }

  /** Releasing the lease of a key that is no longer elected. */
  lemma ReleaseSafe(s: System, s': System, k: Key, saved: bool)
    requires Books(s) && KeySafe(s, k) && s'.store == Release(s.store, k, saved) && !Elected(s', k)
    requires forall id :: id in s'.turns ==> id in s.turns && s'.turns[id] == s.turns[id]
    requires forall id :: id in s.turns && s.turns[id].phase == Running ==> id in s'.turns
    ensures KeySafe(s', k)
  {
    CountRunning(s, k);
    forall id | Runs(s', id, k) ensures k in s'.store.lease.closing && Owns(s'.store.lease, k) {
      assert Runs(s, id, k) && User(s, id);
    }
    if Owns(s'.store.lease, k) {
      var id :| Runs(s, id, k);
      assert Runs(s', id, k) && Live(s', k);
    }
    forall id | id in s'.turns && s'.turns[id].key == k ensures User(s', id) {
      assert s'.turns[id].phase == Running ==> Runs(s', id, k);
    }
  }

  // ----- a turn takes part

  /** The turn `id` changes its phase or leaves, and no other turn does. */
  ghost predicate OneTurn(s: System, s': System, id: nat, k: Key) {
    && id in s.turns && s.turns[id].key == k && s'.elected == s.elected
    && (id in s'.turns ==> s'.turns[id].key == k)
    && (forall i :: i != id ==> (i in s'.turns <==> i in s.turns) && (i in s.turns ==> s'.turns[i] == s.turns[i]))
  }

  predicate Queueing(t: Turn) { t.phase == Registered || t.phase == Waiting }

  /** The lease does not change hands, and the turn that moves on does not run. */
  lemma QuietSafe(s: System, s': System, id: nat, k: Key)
    requires KeySafe(s, k) && OneTurn(s, s', id, k) && s.turns[id].phase != Granted && s.turns[id].phase != Running
    requires id in s'.turns ==> s'.turns[id].phase != Running && User(s', id)
    requires Owns(s'.store.lease, k) == Owns(s.store.lease, k) && (k in s'.store.lease.closing <==> k in s.store.lease.closing)
    requires Number(s'.store.lease.turns, k) == Number(s.store.lease.turns, k)
    ensures KeySafe(s', k)
  {
    assert forall i :: Runs(s', i, k) ==> Runs(s, i, k);
    if Live(s, k) {
      var i :| i in s.turns && s.turns[i].key == k && (s.turns[i].phase == Granted || s.turns[i].phase == Running);
      assert i != id && i in s'.turns;
    }
    forall i | i in s'.turns && s'.turns[i].key == k ensures User(s', i) {
      assert i != id ==> User(s, i);
    }
  }

  lemma BeginSafe(s: System, id: nat, k: Key)
    requires KeySafe(s, k) && Enabled(s, Begin(id, k))
    ensures KeySafe(Next(s, Begin(id, k)), k)
  {
    var s' := Next(s, Begin(id, k));
    assert forall i :: Runs(s', i, k) <==> Runs(s, i, k);
    forall i | i in s'.turns && s'.turns[i].key == k ensures User(s', i) {
      assert i != id ==> User(s, i);
    }
  }

  /** The turn is granted the lease, which was free or already its workflow's. */
  lemma TakenSafe(s: System, s': System, id: nat, k: Key)
    requires KeySafe(s, k) && OneTurn(s, s', id, k) && Queueing(s.turns[id]) && In(s', id, Granted)
    requires Owns(s'.store.lease, k)
    requires s'.store.lease.closing == s.store.lease.closing && s'.store.lease.turns == s.store.lease.turns
    ensures KeySafe(s', k)
  {
    assert forall i :: Runs(s', i, k) ==> Runs(s, i, k);
    assert Live(s', k);
  }

  /** Ownership could not be saved: the turn fails and the lease is free. */
  lemma UnsavedSafe(s: System, s': System, id: nat, k: Key)
    requires Books(s) && KeySafe(s, k) && OneTurn(s, s', id, k) && Queueing(s.turns[id]) && id !in s'.turns
    requires Unused(s, id) && !Owns(s'.store.lease, k)
    requires s'.store.lease.closing == s.store.lease.closing && s'.store.lease.turns == s.store.lease.turns
    ensures KeySafe(s', k)
  {
    assert forall i :: !Runs(s, i, k);
    CountRunning(s, k);
  }

  lemma CheckSafe(s: System, id: nat, saved: bool)
    requires Books(s) && In(s, id, Granted) && KeySafe(s, s.turns[id].key)
    ensures KeySafe(Next(s, Check(id, saved)), s.turns[id].key)
  {
    var s', k := Next(s, Check(id, saved)), s.turns[id].key;
    if Elected(s, k) {
      assert User(s, id);
      forall i | i in s'.turns && s'.turns[i].key == k ensures User(s', i) {
        assert User(s, i);
      }
    } else {
      ReleaseSafe(s, s', k, saved);
    }
  }

  lemma FinishLease(s: Store, k: Key, saved: bool)
    requires Owns(s.lease, k)
    ensures var s' := FinishTurn(s, k, saved);
      && Number(s'.lease.turns, k) == (if Number(s.lease.turns, k) > 1 then Number(s.lease.turns, k) - 1 else 0)
      && (if Number(s.lease.turns, k) <= 1 && k in s.lease.closing then !Owns(s'.lease, k) && k !in s'.lease.closing
          else s'.ledger == s.ledger && s'.lease == Unretain(s.lease, k))
  {
  }

  lemma FinishSafe(s: System, id: nat, saved: bool)
    requires Books(s) && In(s, id, Running) && KeySafe(s, s.turns[id].key)
    ensures KeySafe(Next(s, Finish(id, saved)), s.turns[id].key)
  {
    var s', k := Next(s, Finish(id, saved)), s.turns[id].key;
    assert s.turns[id] == Turn(s.turns[id].key, s.turns[id].phase);
    assert User(s, id) && Runs(s, id, k);
    CountOtherRunning(s, id, k);
    FinishLease(s.store, k, saved);
    forall i: nat ensures Runs(s', i, k) <==> i != id && Runs(s, i, k) {
    }
    if Number(s.store.lease.turns, k) > 1 {
      var x :| x != id && Runs(s, x, k);
      assert Live(s', k);
    }
    forall i | i in s'.turns && s'.turns[i].key == k ensures User(s', i) {
      assert User(s, i);
      assert s'.turns[i].phase == Running ==> Runs(s', i, k);
    }
  }

  // ----- one round of the waiting loop

  lemma TakeLease(s: Store, k: Key, saved: bool)
    requires MayAcquire(s, k)
    ensures var l := Take(s, k, saved).lease;
      l.closing == s.lease.closing && l.turns == s.lease.turns && Owns(l, k) == saved
  {
  }

  /** `j` is `s` after the turn was counted as a waiter. */
  predicate Joined(s: System, j: System, id: nat, k: Key) {
    && id in s.turns && s.turns[id].key == k && Queueing(s.turns[id])
    && j.turns == s.turns && j.elected == s.elected
    && j.store.lease.writers == s.store.lease.writers && j.store.lease.closing == s.store.lease.closing
    && j.store.lease.turns == s.store.lease.turns
  }

  lemma JoinedRound(s: System, j: System, id: nat, k: Key, ctx: bool, saved: bool)
    requires Books(s) && KeySafe(s, k) && Joined(s, j, id, k)
    requires GivesUp(j, id, ctx, saved) ==> Unused(s, id)
    ensures KeySafe(Round(j, id, ctx, saved), k)
  {
    var s' := Round(j, id, ctx, saved);
    assert OneTurn(s, s', id, k) && User(s, id);
    if !ctx && MayAcquire(j.store, k) {
      TakeLease(j.store, k, saved);
      if saved {
        TakenSafe(s, s', id, k);
      } else {
        UnsavedSafe(s, s', id, k);
      }
    } else {
      QuietSafe(s, s', id, k);
    }
  }

  lemma EnterSafe(s: System, id: nat, ctx: bool, saved: bool)
    requires Books(s) && In(s, id, Registered) && KeySafe(s, s.turns[id].key) && KeepsLease(s, Enter(id, ctx, saved))
    ensures KeySafe(Next(s, Enter(id, ctx, saved)), s.turns[id].key)
  {
    var k := s.turns[id].key;
    if Owns(s.store.lease, k) {
      QuietSafe(s, Next(s, Enter(id, ctx, saved)), id, k);
    } else {
      JoinedRound(s, Join(s, k), id, k, ctx, saved);
    }
  }

  // ----- every step, every run

  /** A step that keeps the lease rules keeps every key safe; one that does not
      still keeps the keys safe that it does not concern. */
  lemma StepKeySafe(s: System, step: Step, k: Key)
    requires Books(s) && KeySafe(s, k) && Enabled(s, step)
    requires Concerns(s, step, k) ==> KeepsLease(s, step)
    ensures KeySafe(Next(s, step), k)
  {
    if !Concerns(s, step, k) {
      StepElsewhere(s, step, k);
      UntouchedSafe(s, Next(s, step), k);
    } else {
      match step {
        case Elect(_) => ElectSafe(s, k);
        case End(_, saved) => ReleaseSafe(s, Next(s, step), k, saved);
        case Begin(id, _) => BeginSafe(s, id, k);
        case Register(id) => QuietSafe(s, Next(s, step), id, k);
        case Enter(id, ctx, saved) => EnterSafe(s, id, ctx, saved);
        case Wake(id, ctx, saved) => JoinedRound(s, s, id, k, ctx, saved);
        case Check(id, saved) => CheckSafe(s, id, saved);
        case Finish(id, saved) => FinishSafe(s, id, saved);
        case Crash =>
      }
    }
  }

  lemma StepSafe(s: System, step: Step)
    requires Safe(s) && Enabled(s, step) && KeepsLease(s, step)
    ensures Safe(Next(s, step))
  {
    StepBooks(s, step);
    forall k ensures KeySafe(Next(s, step), k) {
      assert KeySafe(s, k);
      StepKeySafe(s, step, k);
    }
  }

  lemma {:induction false} RunSafe(s: System, run: seq<Step>, r: Rules)
    requires Safe(s) && Legal(s, run) && Orderly(s, run, r)
    ensures Safe(Exec(s, run))
    decreases |run|
  {
    if run != [] {
      StepSafe(s, run[0]);
      RunSafe(Next(s, run[0]), run[1..], r);
    }
  }

  function Boot(journal: Journal): System { System(Restart(journal), map[], map[]) }

  lemma BootSafe(journal: Journal)
    ensures Safe(Boot(journal))
  {
    var s := Boot(journal);
    assert forall k, p :: Who(s, k, p) == {};
    assert forall w: string :: Queue(s.store.lease, w) == [];
  }

  /** Every running turn's workflow owns its checkout. */
  ghost predicate Guarded(s: System) { forall id :: In(s, id, Running) ==> Owns(s.store.lease, s.turns[id].key) }

  lemma SafeGuarded(s: System)
    requires Safe(s)
    ensures Guarded(s)
  {
    forall id | In(s, id, Running) ensures Owns(s.store.lease, s.turns[id].key) {
      assert KeySafe(s, s.turns[id].key) && User(s, id);
    }
  }

  /** Exclusion: in every run that keeps the lease rules, from any saved journal,
      two running writer turns on one checkout belong to the same workflow, which
      owns it. */
  lemma WriterExclusion(journal: Journal, run: seq<Step>, a: nat, b: nat)
    requires Legal(Boot(journal), run) && Orderly(Boot(journal), run, LeaseRules)
    requires var e := Exec(Boot(journal), run);
      In(e, a, Running) && In(e, b, Running) && e.turns[a].key.room.workspace == e.turns[b].key.room.workspace
    ensures var e := Exec(Boot(journal), run);
      e.turns[a].key == e.turns[b].key && Owns(e.store.lease, e.turns[a].key)
  {
    BootSafe(journal);
    RunSafe(Boot(journal), run, LeaseRules);
    SafeGuarded(Exec(Boot(journal), run));
  }
}
