/** A running turn's checkout has an owner in the saved journal, under all the
    rules of WriterRules.dfy. */
module WriterRecords {
  import opened Options
  import opened WriterLease
  import opened WriterTurns
  import opened WriterRules
  import opened WriterSafety
  import opened WriterExclusion

  /** A running turn is in the journal; a turn that may come to run has the record
      that will put it there. */
  predicate Filed(s: System, id: nat)
    requires id in s.turns
  {
    var k, p := s.turns[id].key, s.turns[id].phase;
    && (p == Running ==> Documented(s.store, k))
    && (p != Begun && Elected(s, k) ==> k in s.store.ledger.records)
  }

  ghost predicate AllFiled(s: System, k: Key) { forall id :: id in s.turns && s.turns[id].key == k ==> Filed(s, id) }

  ghost predicate RecordSafe(s: System, k: Key) {
    AllFiled(s, k) && (Owns(s.store.lease, k) && Elected(s, k) ==> Documented(s.store, k))
  }

  ghost predicate Recorded(s: System) { Journaled(s.store) && forall k :: RecordSafe(s, k) }

  // ----- steps of other keys

  lemma PersistDocuments(s: Store, saved: bool, x: Key)
    requires Owns(s.lease, x) && Documented(s, x)
    ensures Documented(Persist(s, saved), x)
  {
  }

  lemma TakeDocuments(s: Store, k: Key, saved: bool, x: Key)
    requires MayAcquire(s, k) && x != k && Owns(s.lease, x) && Documented(s, x)
    ensures Documented(Take(s, k, saved), x)
  {
    PersistDocuments(Store(Give(s.lease, k), WriterAcquired(s.ledger, k), s.journal), saved, x);
  }

  lemma FreeDocuments(s: Store, k: Key, saved: bool, x: Key)
    requires Owns(s.lease, k) && x != k && Owns(s.lease, x) && Documented(s, x)
    ensures Documented(Free(s, k, saved), x)
  {
    PersistDocuments(Store(Vacate(s.lease, k).(closing := s.lease.closing - {k}), WriterReleased(s.ledger, k), s.journal), saved, x);
  }

  lemma ReleaseDocuments(s: Store, k: Key, saved: bool, x: Key)
    requires x != k && Owns(s.lease, x) && Documented(s, x)
    ensures Documented(Release(s, k, saved), x)
  {
    if Owns(s.lease, k) && Number(s.lease.turns, k) <= 0 {
      FreeDocuments(s, k, saved, x);
    }
  }

  lemma FinishDocuments(s: Store, k: Key, saved: bool, x: Key)
    requires x != k && Owns(s.lease, x) && Documented(s, x)
    ensures Documented(FinishTurn(s, k, saved), x)
  {
    if Number(s.lease.turns, k) <= 1 && k in s.lease.closing && Owns(s.lease, k) {
      FreeDocuments(s.(lease := Unretain(s.lease, k)), k, saved, x);
    }
  }

  lemma ConfirmDocuments(s: Store, w: string, saved: bool, x: Key)
    requires MayConfirm(s, w) && Owns(s.lease, x) && Documented(s, x)
    ensures Documented(ConfirmStopped(s, w, saved), x)
  {
    PersistDocuments(s.(ledger := Cleared(s.ledger, w)), saved, x);
  }

  lemma RoundDocuments(s: System, id: nat, ctx: bool, saved: bool, x: Key)
    requires id in s.turns && s.turns[id].key != x && Owns(s.store.lease, x) && Documented(s.store, x)
    ensures Documented(Round(s, id, ctx, saved).store, x)
  {
    if MayAcquire(s.store, s.turns[id].key) {
      TakeDocuments(s.store, s.turns[id].key, saved, x);
    }
  }

  lemma StepDocuments(s: System, step: Step, x: Key)
    requires Enabled(s, step) && !Concerns(s, step, x) && Owns(s.store.lease, x) && Documented(s.store, x)
    ensures Documented(Next(s, step).store, x)
  {
    match step {
      case End(k, saved) => ReleaseDocuments(s.store, k, saved, x);
      case Enter(id, ctx, saved) => RoundDocuments(Join(s, s.turns[id].key), id, ctx, saved, x);
      case Wake(id, ctx, saved) => RoundDocuments(s, id, ctx, saved, x);
      case Check(id, saved) => ReleaseDocuments(s.store, s.turns[id].key, saved, x);
      case Finish(id, saved) => FinishDocuments(s.store, s.turns[id].key, saved, x);
      case ReportFiles(_, saved) => PersistDocuments(s.store, saved, x);
      case Confirm(w, saved) =>
        if MayConfirm(s.store, w) {
          ConfirmDocuments(s.store, w, saved, x);
        }
      case _ =>
    }
  }

  lemma UntouchedRecords(s: System, step: Step, x: Key)
    requires KeySafe(s, x) && RecordSafe(s, x) && Enabled(s, step) && !Concerns(s, step, x)
    ensures RecordSafe(Next(s, step), x)
  {
    var s' := Next(s, step);
    StepElsewhere(s, step, x);
    if Owns(s.store.lease, x) && Documented(s.store, x) {
      StepDocuments(s, step, x);
    }
    forall id | id in s'.turns && s'.turns[id].key == x ensures Filed(s', id) {
      assert Filed(s, id) && User(s, id);
    }
  }

  // ----- steps of the key itself

  lemma ElectRecords(s: System, k: Key)
    requires RecordSafe(s, k) && Enabled(s, Elect(k)) && KeepsRecord(s, Elect(k))
    ensures RecordSafe(Next(s, Elect(k)), k)
  {
    var s' := Next(s, Elect(k));
    forall id | id in s'.turns && s'.turns[id].key == k ensures Filed(s', id) {
      assert Filed(s, id);
      assert s.turns[id].phase != Begun ==> InFlight(s, k);
    }
  }

  /** The record of a key without running turns does not matter once the key is no
      longer elected. */
  lemma ReleaseRecords(s: System, s': System, k: Key, saved: bool)
    requires Books(s) && RecordSafe(s, k) && s'.store == Release(s.store, k, saved) && !Elected(s', k)
    requires forall id :: id in s'.turns ==> id in s.turns && s'.turns[id] == s.turns[id]
    ensures RecordSafe(s', k)
  {
    CountRunning(s, k);
    forall id | id in s'.turns && s'.turns[id].key == k ensures Filed(s', id) {
      assert Filed(s, id) && (s.turns[id].phase == Running ==> Runs(s, id, k));
    }
  }

  lemma BeginRecords(s: System, id: nat, k: Key)
    requires RecordSafe(s, k) && Enabled(s, Begin(id, k))
    ensures RecordSafe(Next(s, Begin(id, k)), k)
  {
    var s' := Next(s, Begin(id, k));
    forall i | i in s'.turns && s'.turns[i].key == k ensures Filed(s', i) {
      assert i != id ==> Filed(s, i);
    }
  }

  lemma RegisterRecords(s: System, id: nat)
    requires In(s, id, Begun) && RecordSafe(s, s.turns[id].key)
    ensures RecordSafe(Next(s, Register(id)), s.turns[id].key)
  {
    var s', k := Next(s, Register(id)), s.turns[id].key;
    forall i | i in s'.turns && s'.turns[i].key == k ensures Filed(s', i) {
      assert Filed(s, i);
    }
  }

  /** The turn moves on, and the record stays. */
  lemma KeptRecords(s: System, s': System, id: nat, k: Key)
    requires RecordSafe(s, k) && OneTurn(s, s', id, k) && Owns(s'.store.lease, k) == Owns(s.store.lease, k)
    requires Documented(s.store, k) ==> Documented(s'.store, k)
    requires k in s.store.ledger.records ==> k in s'.store.ledger.records
    requires id in s'.turns ==> Filed(s', id)
    ensures RecordSafe(s', k)
  {
    forall i | i in s'.turns && s'.turns[i].key == k ensures Filed(s', i) {
      assert i != id ==> Filed(s, i);
    }
  }

  lemma CountOtherWaiting(s: System, id: nat, x: nat)
    requires Books(s) && id in s.turns && x in s.turns && x != id
    requires s.turns[x] == Turn(s.turns[id].key, Waiting)
    ensures Number(s.store.lease.waiters, s.turns[id].key) > if s.turns[id].phase == Waiting then 1 else 0
  {
    var w := Who(s, s.turns[id].key, Waiting);
    assert x in w;
    if s.turns[id].phase == Waiting {
      assert id in w && x in w - {id} && |w - {id}| == |w| - 1;
    }
  }

  /** The turn leaves without the lease, and the record goes if this was the last
      wait: nobody else needs it. */
  lemma DroppedRecords(s: System, s': System, id: nat, k: Key, last: bool)
    requires Books(s) && KeySafe(s, k) && RecordSafe(s, k)
    requires OneTurn(s, s', id, k) && Queueing(s.turns[id]) && id !in s'.turns && !Owns(s'.store.lease, k)
    requires Owns(s.store.lease, k) ==> Unused(s, id)
    requires last == (Number(s.store.lease.waiters, k) <= if s.turns[id].phase == Waiting then 1 else 0)
    requires last && Elected(s, k) ==> Alone(s, id, Registered)
    requires !last && k in s.store.ledger.records ==> k in s'.store.ledger.records
    ensures RecordSafe(s', k)
  {
    forall i | i in s'.turns && s'.turns[i].key == k ensures Filed(s', i) {
      assert Filed(s, i) && User(s, i);
      if last && s.turns[i].phase == Waiting {
        CountOtherWaiting(s, id, i);
      }
    }
  }

  lemma TakenDocumented(s: Store, k: Key)
    requires MayAcquire(s, k) && Tidy(s.lease, s.ledger) && k in s.ledger.records
    ensures Documented(Take(s, k, true), k)
  {
  }

  lemma TakenRecords(s: System, s': System, id: nat, k: Key)
    requires RecordSafe(s, k) && KeySafe(s, k) && OneTurn(s, s', id, k) && Queueing(s.turns[id]) && In(s', id, Granted)
    requires k in s.store.ledger.records ==> Documented(s'.store, k)
    ensures RecordSafe(s', k)
  {
    assert Filed(s, id);
    forall i | i in s'.turns && s'.turns[i].key == k ensures Filed(s', i) {
      assert i != id ==> Filed(s, i);
    }
  }

  /** What joining the queue does not change, beside the waiter it adds. */
  predicate JoinedWaiter(s: System, j: System, id: nat, k: Key) {
    && Joined(s, j, id, k) && j.store.ledger == s.store.ledger && j.store.journal == s.store.journal
    && Number(j.store.lease.waiters, k) == Number(s.store.lease.waiters, k) + if s.turns[id].phase == Waiting then 0 else 1
  }

  lemma GaveUp(j: Store, k: Key)
    requires MayAcquire(j, k)
    ensures var s' := Take(j, k, false);
      !Owns(s'.lease, k) && (Number(j.lease.waiters, k) > 1 && k in j.ledger.records ==> k in s'.ledger.records)
  {
  }

  lemma RoundRecords(s: System, j: System, id: nat, k: Key, ctx: bool, saved: bool)
    requires Books(s) && KeySafe(s, k) && RecordSafe(s, k) && Journaled(s.store) && JoinedWaiter(s, j, id, k)
    requires GivesUp(j, id, ctx, saved) ==> Unused(s, id)
    requires Drops(j, id, ctx, saved) ==> !Elected(s, k) || Alone(s, id, Registered)
    ensures RecordSafe(Round(j, id, ctx, saved), k)
  {
    var s', last := Round(j, id, ctx, saved), Number(j.store.lease.waiters, k) <= 1;
    assert OneTurn(s, s', id, k) && Filed(s, id);
    if ctx && !Owns(s.store.lease, k) {
      DroppedRecords(s, s', id, k, last);
    } else if !ctx && MayAcquire(j.store, k) {
      if saved {
        if k in j.store.ledger.records {
          TakenDocumented(j.store, k);
        }
        TakenRecords(s, s', id, k);
      } else {
        GaveUp(j.store, k);
        DroppedRecords(s, s', id, k, last);
      }
    } else {
      KeptRecords(s, s', id, k);
    }
  }

  lemma EnterRecords(s: System, id: nat, ctx: bool, saved: bool)
    requires In(s, id, Registered)
    requires Books(s) && KeySafe(s, s.turns[id].key) && RecordSafe(s, s.turns[id].key) && Journaled(s.store)
    requires KeepsLease(s, Enter(id, ctx, saved)) && KeepsRecord(s, Enter(id, ctx, saved))
    ensures RecordSafe(Next(s, Enter(id, ctx, saved)), s.turns[id].key)
  {
    var k := s.turns[id].key;
    assert Filed(s, id);
    if Owns(s.store.lease, k) {
      KeptRecords(s, Next(s, Enter(id, ctx, saved)), id, k);
    } else {
      RoundRecords(s, Join(s, k), id, k, ctx, saved);
    }
  }

  lemma CheckRecords(s: System, id: nat, saved: bool)
    requires Books(s) && In(s, id, Granted) && KeySafe(s, s.turns[id].key) && RecordSafe(s, s.turns[id].key)
    ensures RecordSafe(Next(s, Check(id, saved)), s.turns[id].key)
  {
    var s', k := Next(s, Check(id, saved)), s.turns[id].key;
    if Elected(s, k) {
      assert User(s, id) && Filed(s, id);
      KeptRecords(s, s', id, k);
    } else {
      ReleaseRecords(s, s', k, saved);
    }
  }

  lemma FinishRecords(s: System, id: nat, saved: bool)
    requires Books(s) && In(s, id, Running) && KeySafe(s, s.turns[id].key) && RecordSafe(s, s.turns[id].key)
    ensures RecordSafe(Next(s, Finish(id, saved)), s.turns[id].key)
  {
    var s', k := Next(s, Finish(id, saved)), s.turns[id].key;
    assert s.turns[id] == Turn(k, Running);
    assert User(s, id) && Runs(s, id, k);
    CountOtherRunning(s, id, k);
    FinishLease(s.store, k, saved);
    forall i | i in s'.turns && s'.turns[i].key == k ensures Filed(s', i) {
      assert Filed(s, i) && (s.turns[i].phase == Running ==> Runs(s, i, k));
    }
  }

  // ----- every step, every run

  lemma StepRecordSafe(s: System, step: Step, k: Key)
    requires Books(s) && KeySafe(s, k) && RecordSafe(s, k) && Journaled(s.store) && Enabled(s, step)
    requires Concerns(s, step, k) ==> KeepsLease(s, step) && KeepsRecord(s, step)
    ensures RecordSafe(Next(s, step), k)
  {
    if !Concerns(s, step, k) {
      UntouchedRecords(s, step, k);
    } else {
      match step {
        case Elect(_) => ElectRecords(s, k);
        case End(_, saved) => ReleaseRecords(s, Next(s, step), k, saved);
        case Begin(id, _) => BeginRecords(s, id, k);
        case Register(id) => RegisterRecords(s, id);
        case Enter(id, ctx, saved) => EnterRecords(s, id, ctx, saved);
        case Wake(id, ctx, saved) => RoundRecords(s, s, id, k, ctx, saved);
        case Check(id, saved) => CheckRecords(s, id, saved);
        case Finish(id, saved) => FinishRecords(s, id, saved);
        case Crash =>
      }
    }
  }

  lemma StepRecorded(s: System, step: Step)
    requires Safe(s) && Recorded(s) && Enabled(s, step) && Keeps(s, step, AllRules)
    ensures Recorded(Next(s, step))
  {
    StepJournaled(s, step);
    forall k ensures RecordSafe(Next(s, step), k) {
      assert KeySafe(s, k) && RecordSafe(s, k);
      StepRecordSafe(s, step, k);
    }
  }

  lemma {:induction false} RunRecorded(s: System, run: seq<Step>)
    requires Safe(s) && Recorded(s) && Legal(s, run) && Orderly(s, run, AllRules)
    ensures Recorded(Exec(s, run))
    decreases |run|
  {
    if run != [] {
      StepSafe(s, run[0]);
      StepRecorded(s, run[0]);
      RunRecorded(Next(s, run[0]), run[1..]);
    }
  }

  lemma BootRecorded(journal: Journal)
    ensures Recorded(Boot(journal))
  {
  }

  /** Every running turn's checkout has an owner in the saved journal. */
  ghost predicate OnFile(s: System) { forall id :: In(s, id, Running) ==> Names(s.store.journal, s.turns[id].key.room.workspace) }

  lemma RecordedOnFile(s: System)
    requires Recorded(s)
    ensures OnFile(s)
  {
    forall id | In(s, id, Running) ensures Names(s.store.journal, s.turns[id].key.room.workspace) {
      assert RecordSafe(s, s.turns[id].key) && Filed(s, id);
    }
  }
}
