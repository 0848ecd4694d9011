/** What callers of the write lease must not do, rule by rule
    (internal/room/shared.go). */
module WriterRules {
  import opened Options
  import opened WriterLease
  import opened WriterTurns

  /** No other turn of the key is in the phase. */
  ghost predicate Alone(s: System, id: nat, phase: Phase)
    requires id in s.turns
  {
    forall other :: other in s.turns && other != id && s.turns[other].key == s.turns[id].key ==> s.turns[other].phase != phase
  }

  // ----- the rules that exclusion needs

  /** A turn of the waiting loop takes the lease and cannot save it.  `j` is the
      state in which the turn is counted as a waiter. */
  predicate GivesUp(j: System, id: nat, ctx: bool, saved: bool)
    requires id in j.turns
  {
    !ctx && !saved && MayAcquire(j.store, j.turns[id].key)
  }

  /** No other turn uses the lease of the key, or is about to. */
  ghost predicate Unused(s: System, id: nat)
    requires id in s.turns
  {
    Alone(s, id, Running) && (Elected(s, s.turns[id].key) ==> Alone(s, id, Granted))
  }

  /** Do not elect a workflow again while its lease is closing, or while a turn
      that was granted the lease before is in flight without it; do not lose the
      save of an ownership that another turn uses. */
  ghost predicate KeepsLease(s: System, step: Step)
    requires Enabled(s, step)
  {
    match step
    case Elect(k) =>
      Elected(s, k) || (k !in s.store.lease.closing && (Owns(s.store.lease, k) || forall id :: !In(s, id, Granted) || s.turns[id].key != k))
    case Enter(id, ctx, saved) =>
      var k := s.turns[id].key;
      Owns(s.store.lease, k) || !GivesUp(Join(s, k), id, ctx, saved) || Unused(s, id)
    case Wake(id, ctx, saved) => !GivesUp(s, id, ctx, saved) || Unused(s, id)
    case _ => true
  }

  // ----- the rules that crash safety needs besides

  /** The journal names an owner for the checkout of the key, and goes on doing so
      as long as the key owns it. */
  predicate Documented(s: Store, k: Key) {
    k in s.ledger.records && k.room.workspace in s.ledger.revisions && Names(s.journal, k.room.workspace)
  }

  /** A turn of the waiting loop drops the record of its key. */
  predicate Drops(j: System, id: nat, ctx: bool, saved: bool)
    requires id in j.turns
  {
    var k := j.turns[id].key;
    Number(j.store.lease.waiters, k) <= 1 && if ctx then !Owns(j.store.lease, k) else GivesUp(j, id, ctx, saved)
  }

  ghost predicate InFlight(s: System, k: Key) { exists id :: id in s.turns && s.turns[id].key == k && s.turns[id].phase != Begun }

  /** Do not elect a workflow again whose turns in flight have lost their record,
      or whose lease is not in the journal; do not drop the record that another
      turn has registered and not used yet. */
  ghost predicate KeepsRecord(s: System, step: Step)
    requires Enabled(s, step)
  {
    match step
    case Elect(k) =>
      Elected(s, k) || ((InFlight(s, k) ==> k in s.store.ledger.records) && (Owns(s.store.lease, k) ==> Documented(s.store, k)))
    case Enter(id, ctx, saved) =>
      var k := s.turns[id].key;
      Owns(s.store.lease, k) || !Drops(Join(s, k), id, ctx, saved) || !Elected(s, k) || Alone(s, id, Registered)
    case Wake(id, ctx, saved) => !Drops(s, id, ctx, saved) || !Elected(s, s.turns[id].key) || Alone(s, id, Registered)
    case _ => true
  }

  // ----- runs under the rules

  datatype Rules = LeaseRules | AllRules

  ghost predicate Keeps(s: System, step: Step, r: Rules)
    requires Enabled(s, step)
  {
    KeepsLease(s, step) && (r == AllRules ==> KeepsRecord(s, step))
  }

  ghost predicate Orderly(s: System, run: seq<Step>, r: Rules)
    requires Legal(s, run)
    decreases |run|
  {
    run == [] || (Keeps(s, run[0], r) && Orderly(Next(s, run[0]), run[1..], r))
  }
}
