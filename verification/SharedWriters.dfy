/** The write lease as it is updated in place (internal/room/shared.go,
    internal/room/workspace.go, internal/room/workspace_journal.go).

    One method per critical section, each proved to compute the function of
    WriterLease.dfy that the runs are made of.  `journal` is the saved document;
    a `saved` argument says whether writing it succeeds.
 */
module SharedWriters {
  import opened Options
  import opened WriterLease

  /** The fields read from the journal so far. */
  ghost predicate Loaded(saved: Journal, seen: set<string>, last: map<string, Writer>, revs: map<string, int>, held: map<string, Writer>) {
    && (forall w :: Get(last, w) == if w in seen && w in saved then saved[w].last else None)
    && (forall w :: Get(revs, w) == if w in seen && w in saved then Some(saved[w].revision) else None)
    && (forall w :: Get(held, w) == if w in seen && w in saved then saved[w].owner else None)
  }

  lemma LoadOne(saved: Journal, seen: set<string>, w: string, last: map<string, Writer>, revs: map<string, int>, held: map<string, Writer>)
    requires Loaded(saved, seen, last, revs, held) && w in saved && w !in seen
    ensures Loaded(saved, seen + {w},
      if saved[w].last.Some? then last[w := saved[w].last.value] else last,
      revs[w := saved[w].revision],
      if saved[w].owner.Some? then held[w := saved[w].owner.value] else held)
  {
  }

  lemma SameMap<V>(a: map<string, V>, b: map<string, V>)
    requires forall w :: Get(a, w) == Get(b, w)
    ensures a == b
  {
    assert forall w :: w in a <==> Get(a, w).Some?;
    assert forall w :: w in b <==> Get(b, w).Some?;
    assert forall w :: w in a ==> Get(a, w) == Some(a[w]) == Get(b, w) == Some(b[w]);
  }

  class SharedCapacity {
    var writers: map<string, Key>
    var writerQueue: map<string, seq<Key>>
    var waiters: map<Key, int>
    var writerTurns: map<Key, int>
    var writerClosing: set<Key>
    var records: map<Key, Writer>
    var lastWriters: map<string, Writer>
    var revisions: map<string, int>
    var recovery: map<string, Writer>
    var journalErr: bool
    var journal: Journal

    ghost function View(): Store
      reads this
    {
      Store(Lease(writers, writerQueue, waiters, writerTurns, writerClosing),
            Ledger(records, lastWriters, revisions, recovery, journalErr), journal)
    }

    constructor ()
      ensures View() == EMPTY
    {
      writers, writerQueue, waiters, writerTurns, writerClosing := map[], map[], map[], map[], {};
      records, lastWriters, revisions, recovery, journalErr, journal := map[], map[], map[], map[], false, map[];
    }

    /** A new process reads the journal of the one before it, workspace by workspace. */
    method ConfigureWorkspaceJournal(saved: Journal)
      requires View() == EMPTY
      modifies this`lastWriters, this`revisions, this`recovery, this`journal
      ensures View() == Restart(saved)
    {
      LoadWorkspaces(saved);
      journal := saved;
    }

    method LoadWorkspaces(saved: Journal)
      requires lastWriters == map[] && revisions == map[] && recovery == map[]
      modifies this`lastWriters, this`revisions, this`recovery
      ensures Loaded(saved, saved.Keys, lastWriters, revisions, recovery)
    {
      var todo := saved.Keys;
      while todo != {}
        invariant todo <= saved.Keys
        invariant Loaded(saved, saved.Keys - todo, lastWriters, revisions, recovery)
        decreases |todo|
      {
        var w :| w in todo;
        ghost var seen := saved.Keys - todo;
        LoadWorkspace(saved, seen, w);
        assert saved.Keys - (todo - {w}) == seen + {w};
        todo := todo - {w};
      }
      assert saved.Keys - todo == saved.Keys;
    }

    method LoadWorkspace(saved: Journal, ghost seen: set<string>, w: string)
      requires w in saved && w !in seen && Loaded(saved, seen, lastWriters, revisions, recovery)
      modifies this`lastWriters, this`revisions, this`recovery
      ensures Loaded(saved, seen + {w}, lastWriters, revisions, recovery)
    {
      var a := saved[w];
      LoadOne(saved, seen, w, lastWriters, revisions, recovery);
      if a.last.Some? {
        lastWriters := lastWriters[w := a.last.value];
      }
      revisions := revisions[w := a.revision];
      if a.owner.Some? {
        recovery := recovery[w := a.owner.value];
      }
    }

    method RegisterWriter(key: Key)
      modifies this`records
      ensures View() == old(View()).(ledger := WriterLease.RegisterWriter(old(View()).ledger, key))
    {
      if key !in records {
        records := records[key := Writer(key, false, false)];
      }
    }

    method WriterAcquired(key: Key)
      modifies this`records, this`revisions
      ensures View() == old(View()).(ledger := WriterLease.WriterAcquired(old(View()).ledger, key))
    {
      if key in records && !records[key].acquired {
        records := records[key := records[key].(acquired := true)];
        revisions := revisions[key.room.workspace := Number(revisions, key.room.workspace) + 1];
      }
    }

    method WriterReleased(key: Key)
      modifies this`records, this`revisions, this`lastWriters
      ensures View() == old(View()).(ledger := WriterLease.WriterReleased(old(View()).ledger, key))
    {
      if key in records {
        lastWriters := lastWriters[key.room.workspace := records[key].(released := true)];
        records := records - {key};
        revisions := revisions[key.room.workspace := Number(revisions, key.room.workspace) + 1];
      }
    }

    /** Build the document workspace by workspace, then replace the saved one. */
    method PersistWorkspace(saved: bool) returns (ok: bool)
      modifies this`journal, this`journalErr
      ensures View() == Persist(old(View()), saved) && ok == saved
    {
      var document: Journal := map[];
      var todo := revisions.Keys + recovery.Keys;
      while todo != {}
        invariant todo <= revisions.Keys + recovery.Keys
        invariant document == map w | w in revisions.Keys + recovery.Keys && w !in todo :: Snapshot(View().lease, View().ledger, w)
        decreases |todo|
      {
        var w :| w in todo;
        var owner := if w in writers then Get(records, writers[w]) else None;
        document := document[w := Activity(if w in recovery then Some(recovery[w]) else owner, Get(lastWriters, w), Number(revisions, w))];
        todo := todo - {w};
      }
      if saved {
        assert document == Document(View().lease, View().ledger);
        journal := document;
      }
      journalErr := !saved;
      ok := saved;
    }

    /** The first entry of the key leaves the queue, the others keep their order. */
    static method Dropped(q: seq<Key>, key: Key) returns (r: seq<Key>)
      ensures r == Drop(q, key)
    {
      var i := 0;
      while i < |q| && q[i] != key
        invariant 0 <= i <= |q|
        invariant Drop(q, key) == q[..i] + Drop(q[i..], key)
      {
        assert q[i..][1..] == q[i + 1..];
        assert q[..i] + [q[i]] == q[..i + 1];
        i := i + 1;
      }
      if i < |q| {
        assert Drop(q[i..], key) == q[i + 1..];
        r := q[..i] + q[i + 1..];
      } else {
        r := q;
      }
    }

    /** One waiter of the key gives up its place. */
    method Remove(key: Key)
      modifies this`waiters, this`records, this`writerQueue
      ensures View() == WriterLease.Remove(old(View()), key)
    {
      var w, n := key.room.workspace, Number(waiters, key) - 1;
      if n > 0 {
        waiters := waiters[key := n];
      } else {
        waiters := waiters - {key};
        if Get(writers, w) != Some(key) {
          records := records - {key};
        }
        var q := Dropped(if w in writerQueue then writerQueue[w] else [], key);
        writerQueue := writerQueue[w := q];
      }
    }

    /** Joining the queue at the start of an acquisition. */
    method Join(key: Key)
      modifies this`waiters, this`writerQueue
      ensures View() == old(View()).(lease := Enqueue(old(View()).lease, key))
    {
      if Number(waiters, key) == 0 {
        var w := key.room.workspace;
        writerQueue := writerQueue[w := (if w in writerQueue then writerQueue[w] else []) + [key]];
      }
      waiters := waiters[key := Number(waiters, key) + 1];
    }

    /** One round of the waiting loop whose context has not ended. */
    method TryAcquire(key: Key, saved: bool) returns (granted: bool, failed: bool)
      modifies this
      ensures granted == (MayAcquire(old(View()), key) && saved) && failed == (MayAcquire(old(View()), key) && !saved)
      ensures View() == if MayAcquire(old(View()), key) then Take(old(View()), key, saved) else old(View())
    {
      var w := key.room.workspace;
      var q := if w in writerQueue then writerQueue[w] else [];
      granted, failed := false, false;
      if w !in recovery && !journalErr && (Get(writers, w) == Some(key) || (w !in writers && q != [] && q[0] == key)) {
        writers := writers[w := key];
        WriterAcquired(key);
        var ok := PersistWorkspace(saved);
        if !ok {
          writers := writers - {w};
        }
        Remove(key);
        granted, failed := ok, !ok;
      }
    }

    method Free(key: Key, saved: bool)
      modifies this
      ensures View() == WriterLease.Free(old(View()), key, saved)
    {
      WriterReleased(key);
      writers := writers - {key.room.workspace};
      writerClosing := writerClosing - {key};
      var _ := PersistWorkspace(saved);
    }

    method ReleaseWriter(key: Key, saved: bool)
      modifies this
      ensures View() == Release(old(View()), key, saved)
    {
      if Get(writers, key.room.workspace) == Some(key) {
        if Number(writerTurns, key) > 0 {
          writerClosing := writerClosing + {key};
          return;
        }
        Free(key, saved);
      }
    }

    method RetainWriterTurn(key: Key)
      modifies this`writerTurns
      ensures View() == old(View()).(lease := Retain(old(View()).lease, key))
    {
      writerTurns := writerTurns[key := Number(writerTurns, key) + 1];
    }

    method FinishWriterTurn(key: Key, saved: bool)
      modifies this
      ensures View() == FinishTurn(old(View()), key, saved)
    {
      var n := Number(writerTurns, key) - 1;
      if n > 0 {
        writerTurns := writerTurns[key := n];
      } else {
        writerTurns := writerTurns - {key};
        if key in writerClosing && Get(writers, key.room.workspace) == Some(key) {
          Free(key, saved);
        }
      }
    }

    method ConfirmWorkspaceStopped(workspace: string, saved: bool) returns (ok: bool)
      modifies this
      ensures ok == (MayConfirm(old(View()), workspace) && saved)
      ensures View() == if MayConfirm(old(View()), workspace) then ConfirmStopped(old(View()), workspace, saved) else old(View())
    {
      if workspace in writers {
        return false;
      }
      var before := recovery;
      if workspace in recovery {
        lastWriters := lastWriters[workspace := recovery[workspace].(released := true)];
        recovery := recovery - {workspace};
        revisions := revisions[workspace := Number(revisions, workspace) + 1];
      }
      ok := PersistWorkspace(saved);
      if !ok {
        recovery := before;
      }
    }
  }
}
