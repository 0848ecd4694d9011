/** What every run of writer turns keeps, whatever its callers do: the journal,
    the counters and the queues. */
module WriterSafety {
  import opened Options
  import opened WriterLease
  import opened WriterTurns

  // ----- the journal

  predicate Acquired(g: Ledger, k: Key) { k in g.records && g.records[k].acquired }

  predicate Held(s: Store, k: Key) { Owns(s.lease, k) && Acquired(s.ledger, k) }

  ghost predicate Tidy(l: Lease, g: Ledger) {
    && (forall w :: w in l.writers ==> l.writers[w].room.workspace == w && w !in g.recovery)
    && (forall k :: Acquired(g, k) ==> k.room.workspace in g.revisions)
  }

  ghost predicate Covered(s: Store) {
    && (forall k :: Held(s, k) ==> Names(s.journal, k.room.workspace))
    && (forall w :: w in s.ledger.recovery ==> Names(s.journal, w))
  }

  /** The saved journal names an owner for each workspace held or under recovery. */
  ghost predicate Journaled(s: Store) { Tidy(s.lease, s.ledger) && Covered(s) }

  lemma PersistCovers(s: Store, saved: bool)
    requires Tidy(s.lease, s.ledger) && (saved || Covered(s))
    ensures Journaled(Persist(s, saved))
  {
    var s' := Persist(s, saved);
    forall k | Held(s', k) ensures Names(s'.journal, k.room.workspace) {
      assert Held(s, k);
    }
  }

  lemma RemoveJournaled(s: Store, k: Key)
    requires Journaled(s)
    ensures Journaled(Remove(s, k))
  {
  }

  lemma GiveUpJournaled(s: Store, k: Key)
    requires Journaled(s) && MayAcquire(s, k)
    ensures Journaled(Store(Vacate(Give(s.lease, k), k), WriterAcquired(s.ledger, k).(journalErr := true), s.journal))
  {
    var s' := Store(Vacate(Give(s.lease, k), k), WriterAcquired(s.ledger, k).(journalErr := true), s.journal);
    assert forall x :: Acquired(s'.ledger, x) ==> Acquired(WriterAcquired(s.ledger, k), x);
    forall x | Held(s', x) ensures Acquired(s.ledger, x) {
      assert x != k;
    }
  }

  lemma TakeJournaled(s: Store, k: Key, saved: bool)
    requires Journaled(s) && MayAcquire(s, k)
    ensures Journaled(Take(s, k, saved))
  {
    if saved {
      var s' := Store(Give(s.lease, k), WriterAcquired(s.ledger, k), s.journal);
      PersistCovers(s', true);
      RemoveJournaled(Persist(s', true), k);
    } else {
      GiveUpJournaled(s, k);
      RemoveJournaled(Store(Vacate(Give(s.lease, k), k), WriterAcquired(s.ledger, k).(journalErr := true), s.journal), k);
    }
  }

  lemma FreeJournaled(s: Store, k: Key, saved: bool)
    requires Journaled(s)
    ensures Journaled(Free(s, k, saved))
  {
    var s' := Store(Vacate(s.lease, k).(closing := s.lease.closing - {k}), WriterReleased(s.ledger, k), s.journal);
    assert forall x :: Acquired(s'.ledger, x) ==> Acquired(s.ledger, x);
    PersistCovers(s', saved);
  }

  lemma ReleaseJournaled(s: Store, k: Key, saved: bool)
    requires Journaled(s)
    ensures Journaled(Release(s, k, saved))
  {
    FreeJournaled(s, k, saved);
  }

  lemma FinishJournaled(s: Store, k: Key, saved: bool)
    requires Journaled(s)
    ensures Journaled(FinishTurn(s, k, saved))
  {
    var s' := s.(lease := Unretain(s.lease, k));
    FreeJournaled(s', k, saved);
  }

  lemma ConfirmJournaled(s: Store, w: string, saved: bool)
    requires Journaled(s) && MayConfirm(s, w)
    ensures Journaled(ConfirmStopped(s, w, saved))
  {
    if saved {
      var s' := s.(ledger := Cleared(s.ledger, w));
      assert forall k :: Acquired(s'.ledger, k) ==> Acquired(s.ledger, k);
      PersistCovers(s', true);
    } else {
      var s' := ConfirmStopped(s, w, false);
      assert forall k :: Acquired(s'.ledger, k) ==> Acquired(s.ledger, k);
    }
  }

  lemma RoundJournaled(s: System, id: nat, ctx: bool, saved: bool)
    requires Journaled(s.store) && id in s.turns
    ensures Journaled(Round(s, id, ctx, saved).store)
  {
    RemoveJournaled(s.store, s.turns[id].key);
    if MayAcquire(s.store, s.turns[id].key) {
      TakeJournaled(s.store, s.turns[id].key, saved);
    }
  }

  lemma RegisterJournaled(s: Store, k: Key)
    requires Journaled(s)
    ensures Journaled(s.(ledger := RegisterWriter(s.ledger, k)))
  {
    var s' := s.(ledger := RegisterWriter(s.ledger, k));
    assert forall x :: Acquired(s'.ledger, x) ==> Acquired(s.ledger, x);
  }

  /** Every step keeps the journal in line. */
  lemma StepJournaled(s: System, step: Step)
    requires Journaled(s.store) && Enabled(s, step)
    ensures Journaled(Next(s, step).store)
  {
    match step {
      case Elect(_) =>
      case Begin(_, _) =>
      case End(k, saved) => ReleaseJournaled(s.store, k, saved);
      case Register(id) => RegisterJournaled(s.store, s.turns[id].key);
      case Enter(id, ctx, saved) =>
        RoundJournaled(Join(s, s.turns[id].key), id, ctx, saved);
      case Wake(id, ctx, saved) => RoundJournaled(s, id, ctx, saved);
      case Check(id, saved) =>
        ReleaseJournaled(s.store, s.turns[id].key, saved);
      case Finish(id, saved) => FinishJournaled(s.store, s.turns[id].key, saved);
      case ReportFiles(_, saved) => PersistCovers(s.store, saved);
      case Confirm(w, saved) =>
        if MayConfirm(s.store, w) {
          ConfirmJournaled(s.store, w, saved);
        }
      case Crash => assert forall k :: !Held(Restart(s.store.journal), k);
    }
  }

  // ----- counters and queues

  ghost function Who(s: System, k: Key, phase: Phase): set<nat> {
    set id | id in s.turns && s.turns[id] == Turn(k, phase)
  }

  /** The counters of the shared object count turns. */
  ghost predicate Counted(s: System) {
    forall k :: Number(s.store.lease.waiters, k) == |Who(s, k, Waiting)| && Number(s.store.lease.turns, k) == |Who(s, k, Running)|
  }

  /** A key waits exactly once in the queue of its workspace. */
  ghost predicate Queued(l: Lease) {
    && (forall w: string, i, j :: 0 <= i < j < |Queue(l, w)| ==> Queue(l, w)[i] != Queue(l, w)[j])
    && (forall w: string, k: Key :: k in Queue(l, w) ==> k.room.workspace == w)
    && (forall k: Key :: k in Queue(l, k.room.workspace) <==> Number(l.waiters, k) > 0)
  }

  ghost predicate Books(s: System) { Counted(s) && Queued(s.store.lease) }

  lemma {:induction false} DropFacts(q: seq<Key>, k: Key)
    requires forall i, j :: 0 <= i < j < |q| ==> q[i] != q[j]
    ensures forall i, j :: 0 <= i < j < |Drop(q, k)| ==> Drop(q, k)[i] != Drop(q, k)[j]
    ensures forall x :: x in Drop(q, k) <==> x in q && x != k
  {
    if q != [] {
      assert q == [q[0]] + q[1..];
      assert q[0] !in q[1..];
      if q[0] != k {
        DropFacts(q[1..], k);
        assert q[0] !in Drop(q[1..], k);
      }
    }
  }

  lemma UnwaitQueued(l: Lease, k: Key)
    requires Queued(l)
    ensures Queued(Unwait(l, k))
  {
    var w, l' := k.room.workspace, Unwait(l, k);
    if Number(l.waiters, k) - 1 <= 0 {
      DropFacts(Queue(l, w), k);
      assert Queue(l', w) == Drop(Queue(l, w), k);
    }
    assert forall w': string :: w' != w ==> Queue(l', w') == Queue(l, w');
  }

  lemma EnqueueQueued(l: Lease, k: Key)
    requires Queued(l) && Number(l.waiters, k) >= 0
    ensures Queued(Enqueue(l, k))
  {
    var w, l' := k.room.workspace, Enqueue(l, k);
    assert forall w': string :: w' != w ==> Queue(l', w') == Queue(l, w');
    assert Queue(l', w) == Queue(l, w) + if Number(l.waiters, k) == 0 then [k] else [];
  }

  predicate SameQueues(l: Lease, l': Lease) { l'.queues == l.queues && l'.waiters == l.waiters }

  lemma QueuedAgain(l: Lease, l': Lease)
    requires Queued(l) && SameQueues(l, l')
    ensures Queued(l')
  {
    assert forall w: string :: Queue(l', w) == Queue(l, w);
  }

  function Hit(t: Option<Turn>, k: Key, phase: Phase): int { if t == Some(Turn(k, phase)) then 1 else 0 }

  ghost predicate SameBut(s: System, s': System, id: nat) {
    forall x: nat :: x != id ==> Get(s'.turns, x) == Get(s.turns, x)
  }

  lemma WithOrWithout(a: set<nat>, b: set<nat>, id: nat)
    requires a - {id} == b - {id}
    ensures |a| - (if id in a then 1 else 0) == |b| - (if id in b then 1 else 0)
  {
    assert a == (a - {id}) + if id in a then {id} else {};
    assert b == (b - {id}) + if id in b then {id} else {};
  }

  lemma InWho(s: System, k: Key, p: Phase, id: nat)
    ensures id in Who(s, k, p) <==> Hit(Get(s.turns, id), k, p) == 1
  {
  }

  lemma TurnCount(s: System, s': System, id: nat, k: Key, p: Phase)
    requires SameBut(s, s', id)
    ensures |Who(s', k, p)| == |Who(s, k, p)| - Hit(Get(s.turns, id), k, p) + Hit(Get(s'.turns, id), k, p)
  {
    var a, b := Who(s', k, p), Who(s, k, p);
    forall x: nat | x != id ensures x in a <==> x in b {
      InWho(s, k, p, x);
      InWho(s', k, p, x);
      assert Get(s'.turns, x) == Get(s.turns, x);
    }
    assert a - {id} == b - {id};
    WithOrWithout(a, b, id);
    InWho(s, k, p, id);
    InWho(s', k, p, id);
  }

  /** Changing, adding or dropping one turn moves the counts by one. */
  lemma TurnCounts(s: System, s': System, id: nat)
    requires SameBut(s, s', id)
    ensures forall k, p :: |Who(s', k, p)| == |Who(s, k, p)| - Hit(Get(s.turns, id), k, p) + Hit(Get(s'.turns, id), k, p)
  {
    forall k, p
      ensures |Who(s', k, p)| == |Who(s, k, p)| - Hit(Get(s.turns, id), k, p) + Hit(Get(s'.turns, id), k, p)
    {
      TurnCount(s, s', id, k, p);
    }
  }

  lemma UnwaitNumber(l: Lease, k: Key)
    requires Number(l.waiters, k) >= 1
    ensures forall x :: Number(Unwait(l, k).waiters, x) == Number(l.waiters, x) - if x == k then 1 else 0
  {
  }

  /** The turn stops waiting: it leaves, or goes on with the lease. */
  lemma WaitEnds(s: System, s': System, id: nat)
    requires Queued(s.store.lease) && id in s.turns && SameBut(s, s', id)
    requires s.turns[id].phase == Registered || s.turns[id].phase == Waiting
    requires forall k :: Number(s.store.lease.turns, k) == |Who(s, k, Running)|
    requires forall k :: Number(s.store.lease.waiters, k) == |Who(s, k, Waiting)| + Hit(Some(s.turns[id]), k, Registered)
    requires Get(s'.turns, id) == None || Get(s'.turns, id) == Some(Turn(s.turns[id].key, Granted))
    requires SameQueues(Unwait(s.store.lease, s.turns[id].key), s'.store.lease) && s'.store.lease.turns == s.store.lease.turns
    ensures Books(s')
  {
    var l, l', k := s.store.lease, s'.store.lease, s.turns[id].key;
    InWho(s, k, Waiting, id);
    assert Number(l.waiters, k) >= 1;
    TurnCounts(s, s', id);
    UnwaitNumber(l, k);
    assert forall x :: Number(l'.waiters, x) == Number(l.waiters, x) - if x == k then 1 else 0;
    UnwaitQueued(l, k);
    QueuedAgain(Unwait(l, k), l');
  }

  lemma GoOnWaiting(s: System, id: nat)
    requires Queued(s.store.lease) && id in s.turns
    requires s.turns[id].phase == Registered || s.turns[id].phase == Waiting
    requires forall k :: Number(s.store.lease.turns, k) == |Who(s, k, Running)|
    requires forall k :: Number(s.store.lease.waiters, k) == |Who(s, k, Waiting)| + Hit(Some(s.turns[id]), k, Registered)
    ensures Books(Move(s, id, Waiting, s.store))
  {
    TurnCounts(s, Move(s, id, Waiting, s.store), id);
  }

  lemma TakeCounters(s: Store, k: Key, saved: bool)
    ensures var l := Take(s, k, saved).lease;
      SameQueues(Unwait(s.lease, k), l) && l.turns == s.lease.turns
  {
  }

  lemma RoundBooks(s: System, id: nat, ctx: bool, saved: bool)
    requires Queued(s.store.lease) && id in s.turns
    requires s.turns[id].phase == Registered || s.turns[id].phase == Waiting
    requires forall k :: Number(s.store.lease.turns, k) == |Who(s, k, Running)|
    requires forall k :: Number(s.store.lease.waiters, k) == |Who(s, k, Waiting)| + Hit(Some(s.turns[id]), k, Registered)
    ensures Books(Round(s, id, ctx, saved))
  {
    var s', k := Round(s, id, ctx, saved), s.turns[id].key;
    if ctx {
      WaitEnds(s, s', id);
    } else if MayAcquire(s.store, k) {
      TakeCounters(s.store, k, saved);
      WaitEnds(s, s', id);
    } else {
      GoOnWaiting(s, id);
    }
  }

  lemma EnterBooks(s: System, id: nat, ctx: bool, saved: bool)
    requires Books(s) && In(s, id, Registered)
    ensures Books(Next(s, Enter(id, ctx, saved)))
  {
    var k := s.turns[id].key;
    if Owns(s.store.lease, k) {
      TurnCounts(s, Next(s, Enter(id, ctx, saved)), id);
    } else {
      EnqueueQueued(s.store.lease, k);
      RoundBooks(Join(s, k), id, ctx, saved);
    }
  }

  lemma FinishBooks(s: System, id: nat, saved: bool)
    requires Books(s) && In(s, id, Running)
    ensures Books(Next(s, Finish(id, saved)))
  {
    var s' := Next(s, Finish(id, saved));
    TurnCounts(s, s', id);
    assert id in Who(s, s.turns[id].key, Running);
    assert s'.store.lease.turns == Unretain(s.store.lease, s.turns[id].key).turns;
    QueuedAgain(s.store.lease, s'.store.lease);
  }

  lemma CheckBooks(s: System, id: nat, saved: bool)
    requires Books(s) && In(s, id, Granted)
    ensures Books(Next(s, Check(id, saved)))
  {
    var s', l, k := Next(s, Check(id, saved)), s.store.lease, s.turns[id].key;
    TurnCounts(s, s', id);
    if Elected(s, k) {
      assert s'.store.lease == Retain(l, k);
      assert forall x :: Number(s'.store.lease.turns, x) == Number(l.turns, x) + if x == k then 1 else 0;
      QueuedAgain(l, s'.store.lease);
    } else {
      ReleaseCounters(s.store, k, saved);
      QueuedAgain(l, s'.store.lease);
    }
  }

  lemma ReleaseCounters(s: Store, k: Key, saved: bool)
    ensures SameQueues(s.lease, Release(s, k, saved).lease) && Release(s, k, saved).lease.turns == s.lease.turns
  {
  }

  lemma QuietBooks(s: System, s': System)
    requires Books(s) && s'.turns == s.turns
    requires SameQueues(s.store.lease, s'.store.lease) && s'.store.lease.turns == s.store.lease.turns
    ensures Books(s')
  {
    QueuedAgain(s.store.lease, s'.store.lease);
  }

  lemma CrashBooks(s: System)
    ensures Books(Next(s, Crash))
  {
    var s' := Next(s, Crash);
    assert forall k, p :: Who(s', k, p) == {};
    assert forall w: string :: Queue(s'.store.lease, w) == [];
  }

  lemma EndBooks(s: System, k: Key, saved: bool)
    requires Books(s) && Elected(s, k)
    ensures Books(Next(s, End(k, saved)))
  {
    ReleaseCounters(s.store, k, saved);
    QuietBooks(s, Next(s, End(k, saved)));
  }

  lemma RegisterBooks(s: System, id: nat)
    requires Books(s) && In(s, id, Begun)
    ensures Books(Next(s, Register(id)))
  {
    TurnCounts(s, Next(s, Register(id)), id);
  }

  lemma BeginBooks(s: System, id: nat, k: Key)
    requires Books(s) && Enabled(s, Begin(id, k))
    ensures Books(Next(s, Begin(id, k)))
  {
    TurnCounts(s, Next(s, Begin(id, k)), id);
  }

  lemma StepBooks(s: System, step: Step)
    requires Books(s) && Enabled(s, step)
    ensures Books(Next(s, step))
  {
    match step {
      case Begin(id, k) => BeginBooks(s, id, k);
      case Register(id) => RegisterBooks(s, id);
      case Enter(id, ctx, saved) => EnterBooks(s, id, ctx, saved);
      case Wake(id, ctx, saved) => RoundBooks(s, id, ctx, saved);
      case Check(id, saved) => CheckBooks(s, id, saved);
      case Finish(id, saved) => FinishBooks(s, id, saved);
      case Crash => CrashBooks(s);
      case End(k, saved) => EndBooks(s, k, saved);
      case Elect(_) => QuietBooks(s, Next(s, step));
      case ReportFiles(_, _) => QuietBooks(s, Next(s, step));
      case Confirm(_, _) => QuietBooks(s, Next(s, step));
    }
  }
}
