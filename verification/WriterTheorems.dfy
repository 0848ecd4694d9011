/** The promises of the write lease over whole runs: crash safety, and handing
    the lease over in the order of first waits. */
module WriterTheorems {
  import opened Options
  import opened WriterLease
  import opened WriterTurns
  import opened WriterRules
  import opened WriterSafety
  import opened WriterExclusion
  import opened WriterRecords

  /** While a writer turn runs, the saved journal names an owner for its checkout. */
  lemma RunningIsJournaled(journal: Journal, run: seq<Step>, id: nat)
    requires Legal(Boot(journal), run) && Orderly(Boot(journal), run, AllRules)
    requires In(Exec(Boot(journal), run), id, Running)
    ensures var e := Exec(Boot(journal), run); Names(e.store.journal, e.turns[id].key.room.workspace)
  {
    BootSafe(journal);
    BootRecorded(journal);
    RunRecorded(Boot(journal), run);
    RecordedOnFile(Exec(Boot(journal), run));
  }

  // ----- crashes

  /** No writer is admitted to the checkout, now or by a later process. */
  ghost predicate Blocked(s: System, w: string) {
    && w in s.store.ledger.recovery && w !in s.store.lease.writers && Names(s.store.journal, w)
    && forall id :: id in s.turns && s.turns[id].key.room.workspace == w ==> s.turns[id].phase !in {Granted, Running}
  }

  predicate Unblocks(step: Step, w: string) { step == Confirm(w, true) }

  lemma PersistNames(s: Store, saved: bool, w: string)
    requires w in s.ledger.recovery && Names(s.journal, w)
    ensures Names(Persist(s, saved).journal, w)
  {
  }

  lemma FreeBlocked(s: Store, k: Key, saved: bool, w: string)
    requires w in s.ledger.recovery && w !in s.lease.writers && Names(s.journal, w)
    ensures var s' := Free(s, k, saved); w in s'.ledger.recovery && w !in s'.lease.writers && Names(s'.journal, w)
  {
    PersistNames(Store(Vacate(s.lease, k).(closing := s.lease.closing - {k}), WriterReleased(s.ledger, k), s.journal), saved, w);
  }

  lemma RoundBlocked(s: System, id: nat, ctx: bool, saved: bool, w: string)
    requires Blocked(s, w) && id in s.turns && (s.turns[id].phase == Registered || s.turns[id].phase == Waiting)
    ensures Blocked(Round(s, id, ctx, saved), w)
  {
  }

  lemma CheckBlocked(s: System, id: nat, saved: bool, w: string)
    requires Blocked(s, w) && In(s, id, Granted)
    ensures Blocked(Next(s, Check(id, saved)), w)
  {
    FreeBlocked(s.store, s.turns[id].key, saved, w);
  }

  lemma FinishBlocked(s: System, id: nat, saved: bool, w: string)
    requires Blocked(s, w) && In(s, id, Running)
    ensures Blocked(Next(s, Finish(id, saved)), w)
  {
    var k := s.turns[id].key;
    FreeBlocked(s.store.(lease := Unretain(s.store.lease, k)), k, saved, w);
  }

  lemma ConfirmBlocked(s: System, v: string, saved: bool, w: string)
    requires Blocked(s, w) && !(v == w && saved)
    ensures Blocked(Next(s, Confirm(v, saved)), w)
  {
    if saved {
      PersistNames(s.store.(ledger := Cleared(s.store.ledger, v)), saved, w);
    }
  }

  /** No step but a saved confirmation lifts the hold; this needs no rules. */
  lemma StepBlocked(s: System, step: Step, w: string)
    requires Blocked(s, w) && Enabled(s, step) && !Unblocks(step, w)
    ensures Blocked(Next(s, step), w)
  {
    match step {
      case Elect(_) =>
      case End(k, saved) => FreeBlocked(s.store, k, saved, w);
      case Begin(_, _) =>
      case Register(_) =>
      case Enter(id, ctx, saved) =>
        if !Owns(s.store.lease, s.turns[id].key) {
          RoundBlocked(Join(s, s.turns[id].key), id, ctx, saved, w);
        }
      case Wake(id, ctx, saved) => RoundBlocked(s, id, ctx, saved, w);
      case Check(id, saved) => CheckBlocked(s, id, saved, w);
      case Finish(id, saved) => FinishBlocked(s, id, saved, w);
      case ReportFiles(_, saved) => PersistNames(s.store, saved, w);
      case Confirm(v, saved) => ConfirmBlocked(s, v, saved, w);
      case Crash =>
    }
  }

  lemma {:induction false} RunBlocked(s: System, run: seq<Step>, w: string)
    requires Blocked(s, w) && Legal(s, run) && forall step :: step in run ==> !Unblocks(step, w)
    ensures Blocked(Exec(s, run), w)
    decreases |run|
  {
    if run != [] {
      StepBlocked(s, run[0], w);
      RunBlocked(Next(s, run[0]), run[1..], w);
    }
  }

  /** Crash safety: after a crash while a writer turn runs, no process admits a
      writer to its checkout, through any number of further crashes, until a
      confirmation for that checkout is saved. */
  lemma CrashSafety(journal: Journal, run: seq<Step>, id: nat, later: seq<Step>)
    requires Legal(Boot(journal), run) && Orderly(Boot(journal), run, AllRules)
    requires In(Exec(Boot(journal), run), id, Running)
    requires var e := Exec(Boot(journal), run); var w := e.turns[id].key.room.workspace;
      Legal(Next(e, Crash), later) && forall step :: step in later ==> !Unblocks(step, w)
    ensures var e := Exec(Boot(journal), run);
      Blocked(Exec(Next(e, Crash), later), e.turns[id].key.room.workspace)
  {
    var e := Exec(Boot(journal), run);
    RunningIsJournaled(journal, run, id);
    RunBlocked(Next(e, Crash), later, e.turns[id].key.room.workspace);
  }

  // ----- handing the lease over

  /** The key is at the head of the queue of its checkout, or joins an empty one. */
  predicate Heads(s: System, step: Step, k: Key) {
    var q := Queue(s.store.lease, k.room.workspace);
    if q != [] then q[0] == k else step.Enter? && step.id in s.turns && s.turns[step.id].key == k
  }

  /** Only a round of the waiting loop hands out a lease. */
  lemma OnlyRoundsGive(s: System, step: Step, w: string, k: Key)
    requires Enabled(s, step) && !step.Enter? && !step.Wake?
    ensures Owner(Next(s, step).store.lease, w) == Some(k) ==> Owner(s.store.lease, w) == Some(k)
  {
  }

  lemma EnterGives(s: System, id: nat, ctx: bool, saved: bool, w: string, k: Key)
    requires In(s, id, Registered) && !Owns(s.store.lease, s.turns[id].key)
    requires Owner(s.store.lease, w) != Some(k) && Owner(Next(s, Enter(id, ctx, saved)).store.lease, w) == Some(k)
    ensures Owner(s.store.lease, w) == None && k.room.workspace == w && Heads(s, Enter(id, ctx, saved), k)
  {
    var j := Join(s, s.turns[id].key);
    assert Queue(j.store.lease, w) == Queue(s.store.lease, w) + if Number(s.store.lease.waiters, k) == 0 then [k] else [];
  }

  /** A lease only ever passes from an owner to nobody, and from nobody to the
      head of the queue of first waits. */
  lemma LeasePassesToHead(s: System, step: Step, w: string, k: Key)
    requires Enabled(s, step)
    requires Owner(s.store.lease, w) != Some(k) && Owner(Next(s, step).store.lease, w) == Some(k)
    ensures Owner(s.store.lease, w) == None && k.room.workspace == w && Heads(s, step, k)
  {
    if step.Enter? {
      EnterGives(s, step.id, step.ctx, step.saved, w, k);
    } else if step.Wake? {
    } else {
      OnlyRoundsGive(s, step, w, k);
    }
  }

  /** A lease is given up only when the last turn that retained it has ended. */
  lemma LeaseOutlivesTurns(s: System, step: Step, k: Key)
    requires Safe(s) && Enabled(s, step) && KeepsLease(s, step)
    ensures !Owns(Next(s, step).store.lease, k) ==> forall id :: !Runs(Next(s, step), id, k)
  {
    StepSafe(s, step);
    SafeGuarded(Next(s, step));
    assert forall id :: Runs(Next(s, step), id, k) ==> In(Next(s, step), id, Running);
  }

  // ----- the order of first waits

  /** `a` waits, and `b` is nowhere before it. */
  ghost predicate Behind(q: seq<Key>, a: Key, b: Key) {
    exists i :: 0 <= i < |q| && q[i] == a && b !in q[..i]
  }

  lemma AppendBehind(q: seq<Key>, x: Key, a: Key, b: Key)
    requires Behind(q, a, b)
    ensures Behind(q + [x], a, b)
  {
    var i :| 0 <= i < |q| && q[i] == a && b !in q[..i];
    assert (q + [x])[i] == a && (q + [x])[..i] == q[..i];
  }

  lemma {:induction false} DropBehind(q: seq<Key>, x: Key, a: Key, b: Key)
    requires Behind(q, a, b) && x != a
    ensures Behind(Drop(q, x), a, b)
  {
    var i :| 0 <= i < |q| && q[i] == a && b !in q[..i];
    if q[0] == x {
      assert Drop(q, x)[i - 1] == a && forall y :: y in Drop(q, x)[..i - 1] ==> y in q[..i];
    } else if i == 0 {
      assert Drop(q, x)[0] == a;
    } else {
      assert q[1..][i - 1] == a && forall y :: y in q[1..][..i - 1] ==> y in q[..i];
      DropBehind(q[1..], x, a, b);
      var p := Drop(q[1..], x);
      var j :| 0 <= j < |p| && p[j] == a && b !in p[..j];
      assert q[0] in q[..i];
      assert ([q[0]] + p)[j + 1] == a && ([q[0]] + p)[..j + 1] == [q[0]] + p[..j];
    }
  }

  lemma EnqueueBehind(l: Lease, k: Key, a: Key, b: Key, w: string)
    requires Behind(Queue(l, w), a, b)
    ensures Behind(Queue(Enqueue(l, k), w), a, b)
  {
    AppendBehind(Queue(l, w), k, a, b);
  }

  lemma UnwaitBehind(l: Lease, k: Key, a: Key, b: Key, w: string)
    requires Queued(l) && Behind(Queue(l, w), a, b) && a in Queue(Unwait(l, k), w)
    ensures Behind(Queue(Unwait(l, k), w), a, b)
  {
    DropFacts(Queue(l, w), k);
    if k != a {
      DropBehind(Queue(l, w), k, a, b);
    }
  }

  lemma RoundBehind(s: System, id: nat, ctx: bool, saved: bool, a: Key, b: Key, w: string)
    requires id in s.turns && Queued(s.store.lease) && Behind(Queue(s.store.lease, w), a, b)
    requires a in Queue(Round(s, id, ctx, saved).store.lease, w)
    ensures Behind(Queue(Round(s, id, ctx, saved).store.lease, w), a, b)
  {
    var l, l' := s.store.lease, Round(s, id, ctx, saved).store.lease;
    if !SameQueues(l, l') {
      UnwaitBehind(l, s.turns[id].key, a, b, w);
    }
  }

  /** Only turns that enter or wake, and crashes, touch the queues. */
  lemma QueuesKept(s: System, step: Step)
    requires Enabled(s, step) && !step.Enter? && !step.Wake? && !step.Crash?
    ensures SameQueues(s.store.lease, Next(s, step).store.lease)
  {
    match step {
      case End(k, saved) => ReleaseCounters(s.store, k, saved);
      case Check(id, saved) => ReleaseCounters(s.store, s.turns[id].key, saved);
      case Finish(id, saved) => FinishQueues(s.store, s.turns[id].key, saved);
      case _ =>
    }
  }

  lemma FinishQueues(s: Store, k: Key, saved: bool)
    ensures SameQueues(s.lease, FinishTurn(s, k, saved).lease)
  {
  }

  /** Queues grow at the end and lose keys, but never change their order. */
  lemma StepBehind(s: System, step: Step, a: Key, b: Key, w: string)
    requires Books(s) && Enabled(s, step) && Behind(Queue(s.store.lease, w), a, b)
    requires a in Queue(Next(s, step).store.lease, w)
    ensures Behind(Queue(Next(s, step).store.lease, w), a, b)
  {
    match step {
      case Enter(id, ctx, saved) =>
        var k := s.turns[id].key;
        if !Owns(s.store.lease, k) {
          EnqueueBehind(s.store.lease, k, a, b, w);
          EnqueueQueued(s.store.lease, k);
          RoundBehind(Join(s, k), id, ctx, saved, a, b, w);
        }
      case Wake(id, ctx, saved) => RoundBehind(s, id, ctx, saved, a, b, w);
      case Crash =>
      case _ => QueuesKept(s, step);
    }
  }

  /** `a` is still queued, and has not been given the lease, after every step. */
  ghost predicate Patient(s: System, run: seq<Step>, a: Key)
    requires Legal(s, run)
    decreases |run|
  {
    && a in Queue(s.store.lease, a.room.workspace) && !Owns(s.store.lease, a)
    && (run == [] || Patient(Next(s, run[0]), run[1..], a))
  }

  /** First waits are served in order: as long as `a` waits, no workflow that is
      behind it, or that comes or comes back later, is given the lease. */
  lemma {:induction false} FirstWaitFirst(s: System, run: seq<Step>, a: Key, b: Key)
    requires Books(s) && Legal(s, run) && Patient(s, run, a)
    requires a != b && b.room.workspace == a.room.workspace
    requires Behind(Queue(s.store.lease, a.room.workspace), a, b) && !Owns(s.store.lease, b)
    ensures !Owns(Exec(s, run).store.lease, b)
    decreases |run|
  {
    if run != [] {
      var s', w := Next(s, run[0]), a.room.workspace;
      assert Patient(s', run[1..], a);
      StepBooks(s, run[0]);
      StepBehind(s, run[0], a, b, w);
      if Owns(s'.store.lease, b) {
        LeasePassesToHead(s, run[0], w, b);
        assert false;
      }
      FirstWaitFirst(s', run[1..], a, b);
    }
  }
}
