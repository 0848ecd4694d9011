/** The second reconciliation of a run that is pending or blocked. */
module ReconcileTheorems {
  import opened Options
  import opened Rooms
  import opened Continuations
  import opened Handoffs
  import opened ReconcileEvents
  import opened ReconcileFixpoint
  import opened ReconcileTwice

  /** The map of workflows visited in some order. */
  ghost predicate Visit(order: seq<string>, room: Room) { Distinct(order) && forall id :: id in order <==> id in room.workflows }

  /** Identities are not shared, and accepted dispatches name handoffs that exist. */
  ghost predicate Suits(l: Ledger, room: Room) {
    && DistinctJobs(room.jobs) && Separate(room) && Visit(room.order, room)
    && AllNamed(l.handoffs, room.messages, l.run.id, l.start, room)
  }

  /** Besides, the run hands results over. */
  ghost predicate Fit(l: Ledger, room: Room) { Handing(l.run.state) && Suits(l, room) }

  // ----- after the first

  lemma PreparedDone(l: Ledger, room: Room)
    requires Suits(l, room)
    ensures var p := Prepared(l, room);
      && AllAccounted(p.handoffs, room.messages, l.run.id, l.start, room)
      && AllRegistered(p.run.reviews, room.messages, l.run.id, l.start, room)
      && AwaitDone(p.handoffs, room, l.start)
    ensures Extends(l.handoffs, Prepared(l, room).handoffs)
  {
    var a := AcceptAll(l.handoffs, room.messages, l.run.id, l.start, room);
    AcceptAllAnswers(l.handoffs, room.messages, l.run.id, l.start, room);
    AcceptAllExtends(l.handoffs, room.messages, l.run.id, l.start, room);
    AwaitAllDone(a, room, l.start);
    AccountedExtends(a, Prepared(l, room).handoffs, room.messages, l.run.id, l.start, room);
    RegisterAllFinds(l.run.reviews, room.messages, l.run.id, l.start, room);
  }

  lemma AccountedExtends(a: seq<Handoff>, b: seq<Handoff>, messages: seq<Message>, run: string, start: nat, room: Room)
    requires AllAccounted(a, messages, run, start, room) && Extends(a, b)
    ensures AllAccounted(b, messages, run, start, room)
  {
    forall k | 0 <= k < |messages| && Names(messages[k], run, start, room)
      ensures Accounted(b, messages[k].dispatch.value.handoff.value)
    {
    }
  }

  function Loop(l: Ledger, room: Room): Ledger { ProcessAll(Prepared(l, room), ByTime(Collect(l, room)), room) }

  lemma LoopDone(l: Ledger, room: Room)
    requires Fit(l, room)
    ensures var q := Loop(l, room);
      && SameFrame(Prepared(l, room), q) && Extends(Prepared(l, room).handoffs, q.handoffs)
      && AwaitDone(q.handoffs, room, l.start)
      && l.marks.assignment <= q.marks.assignment && l.marks.result <= q.marks.result
    ensures forall e :: e in Collect(l, room) ==> Stable(Loop(l, room), e, room)
  {
    var p, events := Prepared(l, room), ByTime(Collect(l, room));
    CollectIs(l, room);
    ByTimeIs(Collect(l, room));
    ByTimeUnique(Collect(l, room));
    PreparedDone(l, room);
    ProcessAllFrame(p, events, room);
    ProcessAllStable(p, events, room);
    MarksRise(p, events, room, l.marks.assignment, l.marks.result, l.marks.success);
    forall e, id | e in events && e.result.Some? && Underway(room, p.start, id)
      ensures e.result.value.base != Work(id)
    {
    }
    ProcessAllAwaits(p, events, room);
  }

  lemma StableSettled(q: Ledger, room: Room, now: int, e: Event)
    requires Stable(q, e, room)
    ensures Stable(Settled(q, room, now), e, room)
    ensures Relevant(q, e) ==> LatestId(Settled(q, room, now).handoffs, e.result.value.base) == LatestId(q.handoffs, e.result.value.base)
  {
    if Relevant(q, e) {
      LatestSame(q.handoffs, EndWaits(q.handoffs, room, now), e.result.value.base);
    }
  }

  /** The run after its first reconciliation. */
  ghost predicate Reconciled(l: Ledger, l1: Ledger, room: Room) {
    && l1.run.id == l.run.id && l1.start == l.start
    && AllAccounted(l1.handoffs, room.messages, l.run.id, l.start, room)
    && AllRegistered(l1.run.reviews, room.messages, l.run.id, l.start, room)
    && AwaitDone(l1.handoffs, room, l.start)
    && l.marks.assignment <= l1.marks.assignment && l.marks.result <= l1.marks.result
  }

  lemma AfterFirst(l: Ledger, room: Room, now: int)
    requires Fit(l, room)
    ensures Reconciled(l, Reconcile(l, room, now), room) && Handing(Reconcile(l, room, now).run.state)
    ensures forall e :: e in Collect(l, room) ==> Stable(Reconcile(l, room, now), e, room)
  {
    var p, q, l1 := Prepared(l, room), Loop(l, room), Reconcile(l, room, now);
    PreparedDone(l, room);
    LoopDone(l, room);
    AccountedExtends(p.handoffs, l1.handoffs, room.messages, l.run.id, l.start, room);
    EndWaitsAwaits(q.handoffs, room, l.start, now);
    forall e | e in Collect(l, room)
      ensures Stable(l1, e, room)
    {
      StableSettled(q, room, now, e);
    }
  }

  // ----- the second

  lemma PreparedAgain(l: Ledger, l1: Ledger, room: Room, order: seq<string>)
    requires Reconciled(l, l1, room) && forall id :: id in order ==> id in room.order
    ensures Prepared(l1, room.(order := order)) == l1
  {
    var room' := room.(order := order);
    AcceptNothing(l1.handoffs, room.messages, l1.run.id, l1.start, room');
    AwaitNothing(l1.handoffs, room, order, l1.start);
    RegisterNothing(l1.run.reviews, room.messages, l1.run.id, l1.start, room');
  }

  function Again(l: Ledger, room: Room, order: seq<string>): seq<Event> { ByTime(Collect(l, room.(order := order))) }

  lemma AgainStable(l: Ledger, room: Room, order: seq<string>, now: int)
    requires Fit(l, room) && Visit(order, room)
    ensures var l1 := Reconcile(l, room, now); AllStable(l1, Again(l1, room, order), room.(order := order))
    ensures var l1 := Reconcile(l, room, now); forall e :: e in Again(l1, room, order) ==> e in Collect(l, room)
  {
    var l1 := Reconcile(l, room, now);
    AfterFirst(l, room, now);
    ByTimeIs(Collect(l1, room.(order := order)));
    forall e | e in Again(l1, room, order)
      ensures Stable(l1, e, room.(order := order)) && e in Collect(l, room)
    {
      CollectFewer(l, l1, room, order, e);
    }
  }

  /** Reconciling again, later and in whatever order the workflows are visited,
      changes no handoff and no registered review. */
  lemma ReconcileIsSettled(l: Ledger, room: Room, now: int, order: seq<string>, later: int)
    requires Fit(l, room) && Visit(order, room)
    ensures var l1 := Reconcile(l, room, now);
      var l2 := Reconcile(l1, room.(order := order), later);
      l2.handoffs == l1.handoffs && l2.run.reviews == l1.run.reviews
  {
    var l1, room' := Reconcile(l, room, now), room.(order := order);
    AfterFirst(l, room, now);
    PreparedAgain(l, l1, room, order);
    AgainStable(l, room, order, now);
    StableAllQuiet(l1, Again(l1, room, order), room');
    EndWaitsTwice(Loop(l, room).handoffs, room, order, now, later);
  }

  // ----- and the history

  /** The identity under which the event is looked up in the history. */
  function Entry(l: Ledger, e: Event): Event {
    if Relevant(l, e) && LatestId(l.handoffs, e.result.value.base).Some? then Renamed(e, LatestId(l.handoffs, e.result.value.base).value) else e
  }

  /** The event would not be recorded: the run completed after it, or the history
      still has it. */
  predicate Retained(l: Ledger, e: Event) {
    (e.kind == ResultEvent && e.at <= l.marks.completedThrough) || Known(l.events, Entry(l, e))
  }

  lemma RetainedQuiet(l: Ledger, e: Event, room: Room)
    requires Handing(l.run.state) && Stable(l, e, room) && (e.kind == ResultEvent ==> e.result.Some?)
    ensures Process(l, e, room) == l <==> Retained(l, e)
  {
    if Relevant(l, e) {
      var base := e.result.value.base;
      assert Hand(l.handoffs, base, FactsFor(e, l.start, room), l.marks.legacyThrough) == (l.handoffs, LatestId(l.handoffs, base).value);
      assert l.(handoffs := l.handoffs) == l;
      NotedQuiet(l, Entry(l, e));
    } else if e.kind != ResultEvent {
      NotedQuiet(l, e);
    }
  }

  lemma NotedQuiet(l: Ledger, e: Event)
    ensures Noted(l, e) == l <==> Known(l.events, e)
  {
    if !Known(l.events, e) {
      var events := Record(l.events, e);
      assert events[|events| - 1] == e;
    }
  }

  /** The loop records nothing: it leaves the run as it is after every event. */
  ghost predicate Quiet(l: Ledger, events: seq<Event>, room: Room) {
    forall k :: 0 <= k < |events| ==> Process(l, events[k], room) == l
  }

  lemma {:induction false} QuietLoop(l: Ledger, events: seq<Event>, room: Room)
    requires Quiet(l, events, room)
    ensures ProcessAll(l, events, room) == l
    decreases |events|
  {
    if events != [] {
      assert Process(l, events[0], room) == l;
      forall k | 0 <= k < |events[1..]|
        ensures Process(l, events[1..][k], room) == l
      {
        assert events[1..][k] == events[k + 1];
      }
      QuietLoop(l, events[1..], room);
    }
  }

  /** The second reconciliation records nothing exactly when the history still has
      every event that it collects; then the whole run is left as it is. */
  lemma QuietIffRetained(l: Ledger, room: Room, now: int, order: seq<string>, later: int)
    requires Fit(l, room) && Visit(order, room)
    ensures var l1 := Reconcile(l, room, now);
      var room' := room.(order := order);
      && (Quiet(l1, Again(l1, room, order), room') <==> forall e :: e in Again(l1, room, order) ==> Retained(l1, e))
      && (Quiet(l1, Again(l1, room, order), room') ==> Reconcile(l1, room', later) == l1)
  {
    var l1, room' := Reconcile(l, room, now), room.(order := order);
    AfterFirst(l, room, now);
    PreparedAgain(l, l1, room, order);
    AgainStable(l, room, order, now);
    CollectIs(l, room);
    var events := Again(l1, room, order);
    forall k | 0 <= k < |events|
      ensures Process(l1, events[k], room') == l1 <==> Retained(l1, events[k])
    {
      assert events[k] in events;
      assert Stable(l1, events[k], room');
      RetainedQuiet(l1, events[k], room');
    }
    if Quiet(l1, events, room') {
      QuietLoop(l1, events, room');
      EndWaitsTwice(Loop(l, room).handoffs, room, order, now, later);
    }
  }

  // ----- while the history has room

  lemma NotedRemembers(l: Ledger, e: Event)
    requires |l.events| < HISTORY
    ensures l.events <= Noted(l, e).events && |Noted(l, e).events| <= |l.events| + 1
    ensures Known(Noted(l, e).events, e)
  {
    if !Known(l.events, e) {
      assert Noted(l, e).events == l.events + [e];
      assert Noted(l, e).events[|l.events|] == e;
    }
  }

  lemma ProcessRemembers(l: Ledger, e: Event, room: Room)
    requires Handing(l.run.state) && |l.events| < HISTORY && (e.kind == ResultEvent ==> e.result.Some?)
    ensures var p := Process(l, e, room); l.events <= p.events && |p.events| <= |l.events| + 1 && Retained(p, e)
  {
    if Relevant(l, e) {
      var base, facts := e.result.value.base, FactsFor(e, l.start, room);
      var (handoffs, id) := Hand(l.handoffs, base, facts, l.marks.legacyThrough);
      NotedRemembers(l.(handoffs := handoffs), Renamed(e, id));
      NotedFrame(l.(handoffs := handoffs), Renamed(e, id));
    } else if e.kind != ResultEvent {
      NotedRemembers(l, e);
    }
  }

  ghost predicate Proper(events: seq<Event>) { forall e :: e in events && e.kind == ResultEvent ==> e.result.Some? }

  lemma {:induction false} LoopRemembers(l: Ledger, events: seq<Event>, room: Room)
    requires Handing(l.run.state) && Unique(events) && Proper(events) && |l.events| + |events| <= HISTORY
    ensures l.events <= ProcessAll(l, events, room).events
    ensures forall x :: x in events ==> Retained(ProcessAll(l, events, room), x)
    decreases |events|
  {
    if events != [] {
      var p, q := Process(l, events[0], room), ProcessAll(l, events, room);
      assert events[0] in events;
      ProcessFrame(l, events[0], room);
      ProcessRemembers(l, events[0], room);
      assert forall e :: e in events[1..] ==> e in events;
      LoopRemembers(p, events[1..], room);
      ProcessAllFrame(p, events[1..], room);
      ProcessAllOther(p, events[1..], room, events[0]);
      assert events == [events[0]] + events[1..];
    }
  }

  lemma RetainedSettled(q: Ledger, room: Room, now: int, e: Event)
    requires Stable(q, e, room) && Retained(q, e)
    ensures Retained(Settled(q, room, now), e)
  {
    StableSettled(q, room, now, e);
  }

  lemma FirstRemembers(l: Ledger, room: Room, now: int)
    requires Fit(l, room) && |l.events| + |Collect(l, room)| <= HISTORY
    ensures forall e :: e in Collect(l, room) ==> Retained(Reconcile(l, room, now), e)
  {
    var p, events := Prepared(l, room), ByTime(Collect(l, room));
    CollectIs(l, room);
    ByTimeIs(Collect(l, room));
    ByTimeUnique(Collect(l, room));
    LoopRemembers(p, events, room);
    LoopDone(l, room);
    forall e | e in Collect(l, room)
      ensures Retained(Reconcile(l, room, now), e)
    {
      RetainedSettled(Loop(l, room), room, now, e);
    }
  }

  /** While the history holds what there is to record, a second reconciliation
      leaves the whole run as it is, high-water marks included. */
  lemma RoomForAll(l: Ledger, room: Room, now: int, order: seq<string>, later: int)
    requires Fit(l, room) && Visit(order, room) && |l.events| + |Collect(l, room)| <= HISTORY
    ensures Reconcile(Reconcile(l, room, now), room.(order := order), later) == Reconcile(l, room, now)
  {
    var l1 := Reconcile(l, room, now);
    FirstRemembers(l, room, now);
    AgainStable(l, room, order, now);
    QuietIffRetained(l, room, now, order, later);
  }
}
