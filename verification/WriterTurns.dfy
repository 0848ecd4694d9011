/** Runs of many turns over the write lease (internal/room/shared.go).

    A writer turn passes through `acquireSharedTurn`: it registers its writer,
    waits for the lease, checks under the room's lock that its workflow is still
    the room's writer, retains the lease, runs, and finishes.  Every step below is
    one critical section, so a run is an interleaving of any number of turns
    with elections, endings, recovery confirmations and crashes.
 */
module WriterTurns {
  import opened Options
  import opened WriterLease

  datatype Phase = Begun | Registered | Waiting | Granted | Running

  datatype Turn = Turn(key: Key, phase: Phase)

  datatype System = System(store: Store, elected: map<Room, string>, turns: map<nat, Turn>)

  /** `ctx`: the turn's context has ended.  `saved`: the journal save succeeds.  A
      turn may wake up more often than it is woken; it then only looks again. */
  datatype Step =
    | Elect(key: Key)
    | End(key: Key, saved: bool)
    | Begin(id: nat, key: Key)
    | Register(id: nat)
    | Enter(id: nat, ctx: bool, saved: bool)
    | Wake(id: nat, ctx: bool, saved: bool)
    | Check(id: nat, saved: bool)
    | Finish(id: nat, saved: bool)
    | ReportFiles(key: Key, saved: bool)
    | Confirm(workspace: string, saved: bool)
    | Crash

  predicate Elected(s: System, k: Key) { Get(s.elected, k.room) == Some(k.workflow) }

  predicate In(s: System, id: nat, phase: Phase) { id in s.turns && s.turns[id].phase == phase }

  predicate Enabled(s: System, step: Step) {
    match step
    case Elect(k) => k.room !in s.elected || Elected(s, k)
    case End(k, _) => Elected(s, k)
    case Begin(id, k) => id !in s.turns && Elected(s, k)
    case Register(id) => In(s, id, Begun)
    case Enter(id, _, _) => In(s, id, Registered)
    case Wake(id, _, _) => In(s, id, Waiting)
    case Check(id, _) => In(s, id, Granted)
    case Finish(id, _) => In(s, id, Running)
    case ReportFiles(k, _) => k in s.store.ledger.records
    case _ => true
  }

  function Move(s: System, id: nat, phase: Phase, store: Store): System
    requires id in s.turns
  {
    System(store, s.elected, s.turns[id := Turn(s.turns[id].key, phase)])
  }

  function Leave(s: System, id: nat, store: Store): System { System(store, s.elected, s.turns - {id}) }

  /** One round of the waiting loop, for a turn that is counted as a waiter. */
  function Round(s: System, id: nat, ctx: bool, saved: bool): System
    requires id in s.turns
  {
    var k := s.turns[id].key;
    if ctx then Leave(s, id, Remove(s.store, k))
    else if MayAcquire(s.store, k) then
      if saved then Move(s, id, Granted, Take(s.store, k, true)) else Leave(s, id, Take(s.store, k, false))
    else Move(s, id, Waiting, s.store)
  }

  /** Joining the queue, before the first round. */
  function Join(s: System, k: Key): System { s.(store := s.store.(lease := Enqueue(s.store.lease, k))) }

  function Next(s: System, step: Step): System
    requires Enabled(s, step)
  {
    match step
    case Elect(k) => s.(elected := s.elected[k.room := k.workflow])
    case End(k, saved) => System(Release(s.store, k, saved), s.elected - {k.room}, s.turns)
    case Begin(id, k) => s.(turns := s.turns[id := Turn(k, Begun)])
    case Register(id) => Move(s, id, Registered, s.store.(ledger := RegisterWriter(s.store.ledger, s.turns[id].key)))
    case Enter(id, ctx, saved) =>
      if Owns(s.store.lease, s.turns[id].key) then
        if ctx then Leave(s, id, s.store) else Move(s, id, Granted, s.store)
      else Round(Join(s, s.turns[id].key), id, ctx, saved)
    case Wake(id, ctx, saved) => Round(s, id, ctx, saved)
    case Check(id, saved) =>
      var k := s.turns[id].key;
      if Elected(s, k) then Move(s, id, Running, s.store.(lease := Retain(s.store.lease, k)))
      else Leave(s, id, Release(s.store, k, saved))
    case Finish(id, saved) => Leave(s, id, FinishTurn(s.store, s.turns[id].key, saved))
    case ReportFiles(_, saved) => s.(store := Persist(s.store, saved))
    case Confirm(w, saved) => if MayConfirm(s.store, w) then s.(store := ConfirmStopped(s.store, w, saved)) else s
    case Crash => System(Restart(s.store.journal), map[], map[])
  }

  ghost predicate Legal(s: System, run: seq<Step>)
    decreases |run|
  {
    run == [] || (Enabled(s, run[0]) && Legal(Next(s, run[0]), run[1..]))
  }

  function Exec(s: System, run: seq<Step>): System
    requires Legal(s, run)
    decreases |run|
  {
    if run == [] then s else Exec(Next(s, run[0]), run[1..])
  }

  const START := System(EMPTY, map[], map[])
}
