/** The workspace write lease and its journal (internal/room/shared.go,
    internal/room/workspace.go, internal/room/workspace_journal.go).

    `Store` holds the fields of the shared object, split into the lease itself
    and the ledger of writers, beside the saved journal.  Each function that
    returns a `Store` is one critical section; WriterTurns.dfy composes them
    into runs of many turns.
 */
module WriterLease {
  import opened Options

  /** A room works on one canonical checkout. */
  datatype Room = Room(id: string, workspace: string)

  /** The lease key "room:workflow". */
  datatype Key = Key(room: Room, workflow: string)

  datatype Writer = Writer(key: Key, acquired: bool, released: bool)

  datatype Activity = Activity(owner: Option<Writer>, last: Option<Writer>, revision: int)

  datatype Lease = Lease(
    writers: map<string, Key>,
    queues: map<string, seq<Key>>,
    waiters: map<Key, int>,
    turns: map<Key, int>,
    closing: set<Key>)

  datatype Ledger = Ledger(
    records: map<Key, Writer>,
    lastWriters: map<string, Writer>,
    revisions: map<string, int>,
    recovery: map<string, Writer>,
    journalErr: bool)

  type Journal = map<string, Activity>

  datatype Store = Store(lease: Lease, ledger: Ledger, journal: Journal)

  /** The saved journal names an owner for the checkout. */
  predicate Names(journal: Journal, workspace: string) {
    workspace in journal && journal[workspace].owner.Some?
  }

  const NO_LEASE := Lease(map[], map[], map[], map[], {})
  const EMPTY := Store(NO_LEASE, Ledger(map[], map[], map[], map[], false), map[])

  function Number<K>(m: map<K, int>, k: K): int { if k in m then m[k] else 0 }

  function Owner(l: Lease, workspace: string): Option<Key> { Get(l.writers, workspace) }

  predicate Owns(l: Lease, k: Key) { Owner(l, k.room.workspace) == Some(k) }

  function Queue(l: Lease, workspace: string): seq<Key> {
    if workspace in l.queues then l.queues[workspace] else []
  }

  /** The queue without the first occurrence of the key. */
  function Drop(q: seq<Key>, k: Key): seq<Key> {
    if q == [] then [] else if q[0] == k then q[1..] else [q[0]] + Drop(q[1..], k)
  }

  // ----- the ledger of writers

  function RegisterWriter(g: Ledger, k: Key): Ledger {
    if k in g.records then g else g.(records := g.records[k := Writer(k, false, false)])
  }

  function Bump(g: Ledger, workspace: string): map<string, int> {
    g.revisions[workspace := Number(g.revisions, workspace) + 1]
  }

  function WriterAcquired(g: Ledger, k: Key): Ledger {
    if k in g.records && !g.records[k].acquired then
      g.(records := g.records[k := g.records[k].(acquired := true)], revisions := Bump(g, k.room.workspace))
    else g
  }

  function WriterReleased(g: Ledger, k: Key): Ledger {
    if k in g.records then
      g.(lastWriters := g.lastWriters[k.room.workspace := g.records[k].(released := true)],
         records := g.records - {k}, revisions := Bump(g, k.room.workspace))
    else g
  }

  function Snapshot(l: Lease, g: Ledger, workspace: string): Activity {
    var owner := if workspace in l.writers then Get(g.records, l.writers[workspace]) else None;
    Activity(if workspace in g.recovery then Some(g.recovery[workspace]) else owner,
             Get(g.lastWriters, workspace), Number(g.revisions, workspace))
  }

  function Document(l: Lease, g: Ledger): Journal {
    map workspace | workspace in g.revisions.Keys + g.recovery.Keys :: Snapshot(l, g, workspace)
  }

  /** Save the journal; a failed save leaves the old document in place. */
  function Persist(s: Store, saved: bool): Store {
    Store(s.lease, s.ledger.(journalErr := !saved), if saved then Document(s.lease, s.ledger) else s.journal)
  }

  /** A new process that read the journal: every owner becomes a recovery hold. */
  function Restart(journal: Journal): Store {
    Store(NO_LEASE,
          Ledger(map[],
                 map w | w in journal && journal[w].last.Some? :: journal[w].last.value,
                 map w | w in journal :: journal[w].revision,
                 map w | w in journal && journal[w].owner.Some? :: journal[w].owner.value,
                 false),
          journal)
  }

  // ----- the lease

  function Enqueue(l: Lease, k: Key): Lease {
    var w, n := k.room.workspace, Number(l.waiters, k);
    l.(queues := if n == 0 then l.queues[w := Queue(l, w) + [k]] else l.queues,
       waiters := l.waiters[k := n + 1])
  }

  /** One waiter of the key stops waiting; the last one leaves the queue. */
  function Unwait(l: Lease, k: Key): Lease {
    var w, n := k.room.workspace, Number(l.waiters, k) - 1;
    if n > 0 then l.(waiters := l.waiters[k := n])
    else l.(waiters := l.waiters - {k}, queues := l.queues[w := Drop(Queue(l, w), k)])
  }

  /** The record of a key whose last wait ends without the lease is dropped. */
  function Forget(l: Lease, g: Ledger, k: Key): Ledger {
    if Number(l.waiters, k) - 1 <= 0 && !Owns(l, k) then g.(records := g.records - {k}) else g
  }

  function Remove(s: Store, k: Key): Store {
    Store(Unwait(s.lease, k), Forget(s.lease, s.ledger, k), s.journal)
  }

  predicate MayAcquire(s: Store, k: Key) {
    var w := k.room.workspace;
    && w !in s.ledger.recovery && !s.ledger.journalErr
    && (Owns(s.lease, k) || (Owner(s.lease, w) == None && Queue(s.lease, w) != [] && Queue(s.lease, w)[0] == k))
  }

  function Give(l: Lease, k: Key): Lease { l.(writers := l.writers[k.room.workspace := k]) }

  function Vacate(l: Lease, k: Key): Lease {
    l.(writers := l.writers - {k.room.workspace})
  }

  function Take(s: Store, k: Key, saved: bool): Store {
    var p := Persist(Store(Give(s.lease, k), WriterAcquired(s.ledger, k), s.journal), saved);
    Remove(if saved then p else p.(lease := Vacate(p.lease, k)), k)
  }

  function Free(s: Store, k: Key, saved: bool): Store {
    Persist(Store(Vacate(s.lease, k).(closing := s.lease.closing - {k}), WriterReleased(s.ledger, k), s.journal), saved)
  }

  function Release(s: Store, k: Key, saved: bool): Store {
    if !Owns(s.lease, k) then s
    else if Number(s.lease.turns, k) > 0 then s.(lease := s.lease.(closing := s.lease.closing + {k}))
    else Free(s, k, saved)
  }

  function Retain(l: Lease, k: Key): Lease { l.(turns := l.turns[k := Number(l.turns, k) + 1]) }

  function Unretain(l: Lease, k: Key): Lease {
    var n := Number(l.turns, k) - 1;
    l.(turns := if n > 0 then l.turns[k := n] else l.turns - {k})
  }

  function FinishTurn(s: Store, k: Key, saved: bool): Store {
    var s' := s.(lease := Unretain(s.lease, k));
    if Number(s.lease.turns, k) - 1 <= 0 && k in s.lease.closing && Owns(s.lease, k) then Free(s', k, saved) else s'
  }

  /** The local recovery action is refused while a current writer is active. */
  predicate MayConfirm(s: Store, workspace: string) { workspace !in s.lease.writers }

  function Cleared(g: Ledger, workspace: string): Ledger {
    if workspace !in g.recovery then g
    else g.(lastWriters := g.lastWriters[workspace := g.recovery[workspace].(released := true)],
            recovery := g.recovery - {workspace}, revisions := Bump(g, workspace))
  }

  function ConfirmStopped(s: Store, workspace: string, saved: bool): Store {
    var p := Persist(s.(ledger := Cleared(s.ledger, workspace)), saved);
    if saved then p else p.(ledger := p.ledger.(recovery := s.ledger.recovery))
  }
}
