/** What a second reconciliation of the same room changes: no handoff and no
    registered review, and nothing at all while the history keeps the events. */
module ReconcileTwice {
  import opened Options
  import opened Rooms
  import opened Continuations
  import opened Handoffs
  import opened ReconcileEvents
  import opened ReconcileFixpoint

  // ----- a result that has its handoff

  ghost predicate SameKeys(a: seq<Handoff>, b: seq<Handoff>) {
    |a| == |b| && forall i :: 0 <= i < |a| ==> b[i].id == a[i].id && b[i].facts == a[i].facts
  }

  lemma {:induction false} LatestSame(a: seq<Handoff>, b: seq<Handoff>, base: Base)
    requires SameKeys(a, b)
    ensures Latest(a, base) == Latest(b, base)
    decreases |a|
  {
    if a != [] {
      var n := |a| - 1;
      LatestSame(a[..n], b[..n], base);
    }
  }

  /** The family's latest handoff already stands for this result. */
  predicate Handed(hs: seq<Handoff>, base: Base, facts: Facts) {
    Latest(hs, base).Some? && !IsLater(facts, hs[Latest(hs, base).value])
  }

  function LatestId(hs: seq<Handoff>, base: Base): Option<ResultId> {
    if Latest(hs, base).Some? then Some(hs[Latest(hs, base).value].id) else None
  }

  /** A result of another job leaves the family alone. */
  lemma HandOther(hs: seq<Handoff>, base: Base, facts: Facts, legacy: int, other: Base, theirs: Facts)
    requires base != other
    ensures var r := Hand(hs, base, facts, legacy).0;
      (Handed(hs, other, theirs) ==> Handed(r, other, theirs) && LatestId(r, other) == LatestId(hs, other))
  {
    var latest := Latest(hs, base);
    if latest.None? {
    } else if IsLater(facts, hs[latest.value]) {
      var i := latest.value;
      var a := hs[i := Supersede(hs[i], facts.readyAt)];
      assert SameKeys(hs, a);
      LatestSame(hs, a, other);
    }
  }

  // ----- processing events

  /** The event concerns a result, is not covered by a completion, and the run
      still hands results over. */
  predicate Relevant(l: Ledger, e: Event) { e.kind == ResultEvent && e.result.Some? && e.at > l.marks.completedThrough }

  predicate Stable(l: Ledger, e: Event, room: Room) {
    Relevant(l, e) ==> Handed(l.handoffs, e.result.value.base, FactsFor(e, l.start, room))
  }

  /** What the loop over the events does not touch. */
  predicate SameFrame(l: Ledger, l': Ledger) {
    && l'.run.id == l.run.id && l'.run.reviews == l.run.reviews && l'.start == l.start
    && l'.marks.completedThrough == l.marks.completedThrough && l'.marks.legacyThrough == l.marks.legacyThrough
    && (Handing(l.run.state) ==> Handing(l'.run.state))
  }

  lemma NotedFrame(l: Ledger, e: Event)
    ensures SameFrame(l, Noted(l, e)) && Noted(l, e).handoffs == l.handoffs
  {
  }

  lemma ProcessFrame(l: Ledger, e: Event, room: Room)
    requires Handing(l.run.state)
    ensures SameFrame(l, Process(l, e, room)) && Extends(l.handoffs, Process(l, e, room).handoffs)
    ensures Stable(Process(l, e, room), e, room)
  {
    if Relevant(l, e) {
      var base, facts := e.result.value.base, FactsFor(e, l.start, room);
      var (handoffs, id) := Hand(l.handoffs, base, facts, l.marks.legacyThrough);
      NotedFrame(l.(handoffs := handoffs), Renamed(e, id));
    } else {
      NotedFrame(l, e);
    }
  }

  lemma ProcessOther(l: Ledger, e: Event, room: Room, x: Event)
    requires Handing(l.run.state) && !Clash(e, x) && Stable(l, x, room)
    ensures Stable(Process(l, e, room), x, room)
    ensures Relevant(l, x) ==> LatestId(Process(l, e, room).handoffs, x.result.value.base) == LatestId(l.handoffs, x.result.value.base)
  {
    ProcessFrame(l, e, room);
    if Relevant(l, e) && Relevant(l, x) {
      var facts := FactsFor(e, l.start, room);
      HandOther(l.handoffs, e.result.value.base, facts, l.marks.legacyThrough, x.result.value.base, FactsFor(x, l.start, room));
      NotedFrame(l.(handoffs := Hand(l.handoffs, e.result.value.base, facts, l.marks.legacyThrough).0),
                 Renamed(e, Hand(l.handoffs, e.result.value.base, facts, l.marks.legacyThrough).1));
    } else if !Relevant(l, e) {
      NotedFrame(l, e);
    }
  }

  lemma {:induction false} ProcessAllFrame(l: Ledger, events: seq<Event>, room: Room)
    requires Handing(l.run.state)
    ensures SameFrame(l, ProcessAll(l, events, room)) && Extends(l.handoffs, ProcessAll(l, events, room).handoffs)
    decreases |events|
  {
    if events != [] {
      var p := Process(l, events[0], room);
      ProcessFrame(l, events[0], room);
      ProcessAllFrame(p, events[1..], room);
    }
  }

  lemma {:induction false} ProcessAllOther(l: Ledger, events: seq<Event>, room: Room, x: Event)
    requires Handing(l.run.state) && Apart(x, events) && Stable(l, x, room)
    ensures Stable(ProcessAll(l, events, room), x, room)
    ensures Relevant(l, x) ==>
      LatestId(ProcessAll(l, events, room).handoffs, x.result.value.base) == LatestId(l.handoffs, x.result.value.base)
    decreases |events|
  {
    if events != [] {
      assert events[0] in events;
      ProcessFrame(l, events[0], room);
      ProcessOther(l, events[0], room, x);
      assert forall y :: y in events[1..] ==> y in events;
      ProcessAllOther(Process(l, events[0], room), events[1..], room, x);
    }
  }

  lemma {:induction false} ProcessAllStable(l: Ledger, events: seq<Event>, room: Room)
    requires Handing(l.run.state) && Unique(events)
    ensures forall x :: x in events ==> Stable(ProcessAll(l, events, room), x, room)
    decreases |events|
  {
    if events != [] {
      var p := Process(l, events[0], room);
      ProcessFrame(l, events[0], room);
      ProcessAllOther(p, events[1..], room, events[0]);
      ProcessAllStable(p, events[1..], room);
      assert events == [events[0]] + events[1..];
    }
  }

  ghost predicate AllStable(l: Ledger, events: seq<Event>, room: Room) {
    forall i :: 0 <= i < |events| ==> Stable(l, events[i], room)
  }

  lemma {:induction false} StableAllQuiet(l: Ledger, events: seq<Event>, room: Room)
    requires Handing(l.run.state) && AllStable(l, events, room)
    ensures ProcessAll(l, events, room).handoffs == l.handoffs && SameFrame(l, ProcessAll(l, events, room))
    decreases |events|
  {
    if events != [] {
      var p := Process(l, events[0], room);
      forall i | 0 <= i < |events[1..]|
        ensures Stable(p, events[1..][i], room)
      {
        assert Stable(l, events[i + 1], room);
      }
      StableAllQuiet(p, events[1..], room);
    }
  }

  // ----- waits

  /** No reply job has the identity of a workflow. */
  ghost predicate Separate(room: Room) { forall i :: 0 <= i < |room.jobs| ==> room.jobs[i].id !in room.workflows }

  lemma {:induction false} NoJob(jobs: seq<Job>, id: string, active: bool)
    requires forall i :: 0 <= i < |jobs| ==> jobs[i].id != id
    ensures JobActive(jobs, id, active) == active
    decreases |jobs|
  {
    if jobs != [] {
      NoJob(jobs[1..], id, active);
    }
  }

  lemma EndWaitsAwaits(hs: seq<Handoff>, room: Room, start: nat, now: int)
    requires AwaitDone(hs, room, start) && Separate(room)
    ensures AwaitDone(EndWaits(hs, room, now), room, start)
  {
    var r := EndWaits(hs, room, now);
    forall id, i | id in room.order && Underway(room, start, id) && 0 <= i < |r|
      ensures Awaits(r[i], id)
    {
      assert Awaits(hs[i], id);
      NoJob(room.jobs, id, true);
    }
  }

  lemma EndWaitsTwice(hs: seq<Handoff>, room: Room, order: seq<string>, now: int, later: int)
    ensures EndWaits(EndWaits(hs, room, now), room.(order := order), later) == EndWaits(hs, room, now)
  {
    var r := EndWaits(hs, room, now);
    forall i | 0 <= i < |r|
      ensures EndWait(r[i], room.(order := order), later) == r[i]
    {
    }
    assert EndWaits(r, room.(order := order), later) == r;
  }

  lemma {:induction false} ProcessAllAwaits(l: Ledger, events: seq<Event>, room: Room)
    requires Handing(l.run.state) && AwaitDone(l.handoffs, room, l.start)
    requires forall e, id :: e in events && e.result.Some? && Underway(room, l.start, id) ==> e.result.value.base != Work(id)
    ensures AwaitDone(ProcessAll(l, events, room).handoffs, room, l.start)
    decreases |events|
  {
    if events != [] {
      var p := Process(l, events[0], room);
      ProcessFrame(l, events[0], room);
      ProcessAwaits(l, events[0], room);
      assert forall y :: y in events[1..] ==> y in events;
      ProcessAllAwaits(p, events[1..], room);
    }
  }

  lemma ProcessAwaits(l: Ledger, e: Event, room: Room)
    requires Handing(l.run.state) && AwaitDone(l.handoffs, room, l.start)
    requires forall id :: e.result.Some? && Underway(room, l.start, id) ==> e.result.value.base != Work(id)
    ensures AwaitDone(Process(l, e, room).handoffs, room, l.start)
  {
    if Relevant(l, e) {
      var base, facts := e.result.value.base, FactsFor(e, l.start, room);
      var (handoffs, id) := Hand(l.handoffs, base, facts, l.marks.legacyThrough);
      NotedFrame(l.(handoffs := handoffs), Renamed(e, id));
    } else {
      NotedFrame(l, e);
    }
  }

}
