/** The second reconciliation of a run that is complete on entry. */
module ReconcileComplete {
  import opened Options
  import opened Rooms
  import opened Continuations
  import opened Handoffs
  import opened ReconcileEvents
  import opened ReconcileFixpoint
  import opened ReconcileTwice
  import opened ReconcileTheorems

  // ----- assignments come before results of their time

  predicate IsAssignment(e: Event) { e.kind == AssignmentEvent }

  ghost predicate AssignmentsFirst(s: seq<Event>) {
    forall i, j :: 0 <= i < j < |s| && !IsAssignment(s[i]) && IsAssignment(s[j]) ==> s[i].at < s[j].at
  }

  ghost predicate NoAssignment(s: seq<Event>) { forall e :: e in s ==> !IsAssignment(e) }

  /** `a` stands at `k`, behind earlier events only. */
  lemma InsertedFirst(a: Event, s: seq<Event>, r: seq<Event>, k: nat)
    requires IsAssignment(a) && AssignmentsFirst(s) && k <= |s| && |r| == |s| + 1 && r[k] == a
    requires forall i :: 0 <= i < k ==> r[i] == s[i] && s[i].at < a.at
    requires forall i :: k < i < |r| ==> r[i] == s[i - 1]
    ensures AssignmentsFirst(r)
  {
  }

  lemma InsertFirst(a: Event, s: seq<Event>)
    requires IsAssignment(a) && Sorted(s) && AssignmentsFirst(s)
    ensures AssignmentsFirst(InsertByTime(a, s))
  {
    var k := InsertStable(a, s);
    InsertedFirst(a, s, InsertByTime(a, s), k);
  }

  lemma {:induction false} ByTimeFirst(assignments: seq<Event>, results: seq<Event>)
    requires (forall e :: e in assignments ==> IsAssignment(e)) && NoAssignment(results)
    ensures AssignmentsFirst(ByTime(assignments + results))
    decreases |assignments|
  {
    if assignments == [] {
      assert [] + results == results;
      ByTimeIs(results);
    } else {
      var rest := assignments[1..] + results;
      assert (assignments + results)[1..] == rest;
      assert forall e :: e in assignments[1..] ==> e in assignments;
      ByTimeFirst(assignments[1..], results);
      ByTimeSorts(rest);
      InsertFirst(assignments[0], ByTime(rest));
    }
  }

  lemma CollectFirst(l: Ledger, room: Room)
    ensures AssignmentsFirst(ByTime(Collect(l, room)))
  {
    var a := Assignments(room.messages, l.start, l.marks.assignment);
    var b := Replies(room.jobs, room.messages, l.start, l.marks.result);
    var c := Ends(room.order, room, l.start, l.marks.result);
    AssignmentsAre(room.messages, l.start, l.marks.assignment);
    RepliesSince(room.jobs, room.messages, l.start, l.marks.result);
    EndsSince(room.order, room, l.start, l.marks.result);
    assert Collect(l, room) == a + (b + c);
    ByTimeFirst(a, b + c);
  }

  // ----- assignments are new to the history

  function AssignmentOf(m: Message): Event {
    Event(OfAssignment(m.sequence), AssignmentEvent, m.createdAt, None, m.sequence, "", "", NO_UPDATE)
  }

  /** Messages have their own sequences, and an assignment that the history has is
      not after its high-water time. */
  ghost predicate Numbered(l: Ledger, room: Room) {
    && (forall i, j :: 0 <= i < j < |room.messages| ==> room.messages[i].sequence != room.messages[j].sequence)
    && forall m :: m in room.messages && Known(l.events, AssignmentOf(m)) ==> m.createdAt <= l.marks.assignment
  }

  lemma {:induction false} AssignmentsFrom(messages: seq<Message>, start: nat, after: int, e: Event) returns (k: nat)
    requires e in Assignments(messages, start, after)
    ensures k < |messages| && e == AssignmentOf(messages[k]) && messages[k].createdAt > after
    decreases |messages|
  {
    if e in Assignments(messages[1..], start, after) {
      k := AssignmentsFrom(messages[1..], start, after, e);
      k := k + 1;
    } else {
      k := 0;
    }
  }

  ghost predicate AllNew(l: Ledger, events: seq<Event>) { forall e :: e in events && IsAssignment(e) ==> !Known(l.events, e) }

  lemma CollectNew(l: Ledger, room: Room)
    requires Numbered(l, room)
    ensures AllNew(l, Collect(l, room))
  {
    RepliesSince(room.jobs, room.messages, l.start, l.marks.result);
    EndsSince(room.order, room, l.start, l.marks.result);
    forall e | e in Collect(l, room) && IsAssignment(e)
      ensures !Known(l.events, e)
    {
      var k := AssignmentsFrom(room.messages, l.start, l.marks.assignment, e);
      assert room.messages[k] in room.messages;
    }
  }

  // ----- the loop over a complete run

  lemma ProcessFirst(l: Ledger, e: Event, rest: seq<Event>, room: Room)
    ensures ProcessAll(l, [e] + rest, room) == ProcessAll(Process(l, e, room), rest, room)
  {
    assert ([e] + rest)[1..] == rest;
  }

  lemma {:induction false} ProcessAllPlus(l: Ledger, a: seq<Event>, b: seq<Event>, room: Room)
    ensures ProcessAll(l, a + b, room) == ProcessAll(ProcessAll(l, a, room), b, room)
    decreases |a|
  {
    if a == [] {
      assert [] + b == b;
    } else {
      assert (a + b)[1..] == a[1..] + b;
      ProcessAllPlus(Process(l, a[0], room), a[1..], b, room);
    }
  }

  /** Everything but history and marks. */
  predicate SameRun(l: Ledger, l': Ledger) {
    && l'.run == l.run && l'.start == l.start && l'.handoffs == l.handoffs
    && l'.marks.completedThrough == l.marks.completedThrough && l'.marks.legacyThrough == l.marks.legacyThrough
  }

  /** Results are recorded while the run is complete, and none is handed over. */
  lemma {:induction false} PassesOver(l: Ledger, events: seq<Event>, room: Room, a: Event)
    requires l.run.state == Complete && NoAssignment(events) && IsAssignment(a)
    ensures SameRun(l, ProcessAll(l, events, room))
    ensures !Known(l.events, a) ==> !Known(ProcessAll(l, events, room).events, a)
    decreases |events|
  {
    if events != [] {
      assert events[0] in events && forall e :: e in events[1..] ==> e in events;
      PassesOver(Process(l, events[0], room), events[1..], room, a);
    }
  }

  lemma ResumesRun(l: Ledger, a: Event, room: Room)
    requires l.run.state == Complete && IsAssignment(a) && !Known(l.events, a)
    ensures Process(l, a, room).run == l.run.(state := Pending)
    ensures SameRun(l, Process(l, a, room).(run := l.run))
  {
  }

  // ----- what a result's family looks like afterwards

  lemma HandOtherIff(hs: seq<Handoff>, base: Base, facts: Facts, legacy: int, other: Base, theirs: Facts)
    requires base != other
    ensures Handed(Hand(hs, base, facts, legacy).0, other, theirs) <==> Handed(hs, other, theirs)
  {
    var latest := Latest(hs, base);
    if latest.Some? && IsLater(facts, hs[latest.value]) {
      LatestSame(hs, hs[latest.value := Supersede(hs[latest.value], facts.readyAt)], other);
    }
  }

  lemma {:induction false} OthersHandedIff(l: Ledger, events: seq<Event>, room: Room, x: Event, theirs: Facts)
    requires Handing(l.run.state) && Apart(x, events) && x.result.Some?
    ensures Handed(ProcessAll(l, events, room).handoffs, x.result.value.base, theirs) <==> Handed(l.handoffs, x.result.value.base, theirs)
    decreases |events|
  {
    if events != [] {
      var e, p := events[0], Process(l, events[0], room);
      assert e in events && forall y :: y in events[1..] ==> y in events;
      ProcessFrame(l, e, room);
      if Relevant(l, e) {
        HandOtherIff(l.handoffs, e.result.value.base, FactsFor(e, l.start, room), l.marks.legacyThrough, x.result.value.base, theirs);
        NotedFrame(l.(handoffs := Hand(l.handoffs, e.result.value.base, FactsFor(e, l.start, room), l.marks.legacyThrough).0),
                   Renamed(e, Hand(l.handoffs, e.result.value.base, FactsFor(e, l.start, room), l.marks.legacyThrough).1));
      }
      OthersHandedIff(p, events[1..], room, x, theirs);
    }
  }

  lemma {:induction false} UniqueApart(a: seq<Event>, b: seq<Event>, x: Event)
    requires Unique(a + b) && x in a
    ensures Apart(x, b)
    decreases |a|
  {
    var all := a + b;
    assert all[0] == a[0] && all[1..] == a[1..] + b;
    if x == a[0] {
      assert forall y :: y in b ==> y in a[1..] + b;
    } else {
      UniqueApart(a[1..], b, x);
    }
  }

  lemma {:induction false} UniqueRest(a: seq<Event>, b: seq<Event>)
    requires Unique(a + b)
    ensures Unique(b)
    decreases |a|
  {
    if a == [] {
      assert a + b == b;
    } else {
      assert (a + b)[1..] == a[1..] + b;
      UniqueRest(a[1..], b);
    }
  }

  /** A result that is not handed over opens a handoff in the next loop. */
  lemma {:induction false} UnstableGrows(l: Ledger, events: seq<Event>, room: Room)
    requires Handing(l.run.state) && !AllStable(l, events, room)
    ensures |ProcessAll(l, events, room).handoffs| > |l.handoffs|
    decreases |events|
  {
    var e, p := events[0], Process(l, events[0], room);
    ProcessFrame(l, e, room);
    if Stable(l, e, room) {
      StableAllQuiet(l, [e], room);
      assert [e][1..] == [] && ProcessAll(l, [e], room) == ProcessAll(p, [], room) == p;
      var i :| 0 <= i < |events| && !Stable(l, events[i], room);
      assert events[1..][i - 1] == events[i] && !Stable(p, events[1..][i - 1], room);
      UnstableGrows(p, events[1..], room);
    } else {
      NotedFrame(l.(handoffs := Hand(l.handoffs, e.result.value.base, FactsFor(e, l.start, room), l.marks.legacyThrough).0),
                 Renamed(e, Hand(l.handoffs, e.result.value.base, FactsFor(e, l.start, room), l.marks.legacyThrough).1));
      ProcessAllFrame(p, events[1..], room);
    }
  }

  // ----- the first reconciliation, cut at its first assignment

  lemma {:induction false} FirstAssignment(events: seq<Event>) returns (j: nat)
    ensures j <= |events| && NoAssignment(events[..j]) && (j < |events| ==> IsAssignment(events[j]))
    decreases |events|
  {
    if events == [] || IsAssignment(events[0]) {
      j := 0;
    } else {
      var k := FirstAssignment(events[1..]);
      j := k + 1;
      assert events[..j] == [events[0]] + events[1..][..k];
    }
  }

  /** The run before its first assignment, behind it, and after the loop. */
  ghost predicate Cut(l: Ledger, room: Room, j: nat, n: Ledger) {
    var p, events := Prepared(l, room), ByTime(Collect(l, room));
    && l.run.state == Complete && j < |events| && NoAssignment(events[..j]) && IsAssignment(events[j])
    && n.run == p.run.(state := Pending) && SameRun(p, n.(run := p.run))
    && Loop(l, room) == ProcessAll(n, events[j + 1..], room)
  }

  lemma CutAt(l: Ledger, room: Room, j: nat) returns (n: Ledger)
    requires l.run.state == Complete && Numbered(l, room)
    requires var events := ByTime(Collect(l, room)); j < |events| && NoAssignment(events[..j]) && IsAssignment(events[j])
    ensures Cut(l, room, j, n)
  {
    var p, events := Prepared(l, room), ByTime(Collect(l, room));
    ByTimeIs(Collect(l, room));
    CollectNew(l, room);
    assert events[j] in events && !Known(p.events, events[j]);
    n := CutLoop(p, events, room, j);
  }

  lemma CutLoop(p: Ledger, events: seq<Event>, room: Room, j: nat) returns (n: Ledger)
    requires p.run.state == Complete && j < |events| && NoAssignment(events[..j])
    requires IsAssignment(events[j]) && !Known(p.events, events[j])
    ensures n.run == p.run.(state := Pending) && SameRun(p, n.(run := p.run))
    ensures ProcessAll(p, events, room) == ProcessAll(n, events[j + 1..], room)
  {
    var a, rest := events[j], events[j + 1..];
    PassesOver(p, events[..j], room, a);
    var c := ProcessAll(p, events[..j], room);
    n := Process(c, a, room);
    ResumesRun(c, a, room);
    assert events == events[..j] + ([a] + rest) && ([a] + rest)[1..] == rest;
    ProcessAllPlus(p, events[..j], [a] + rest, room);
  }

  /** After the first reconciliation the room has nothing new but results. */
  lemma CutReconciled(l: Ledger, room: Room, now: int, j: nat, n: Ledger)
    requires Suits(l, room) && Cut(l, room, j, n)
    ensures Reconciled(l, Reconcile(l, room, now), room) && Handing(Reconcile(l, room, now).run.state)
  {
    var p, q, l1, rest := Prepared(l, room), Loop(l, room), Reconcile(l, room, now), ByTime(Collect(l, room))[j + 1..];
    PreparedDone(l, room);
    ProcessAllFrame(n, rest, room);
    assert Extends(p.handoffs, q.handoffs) && Extends(q.handoffs, l1.handoffs);
    AccountedExtends(p.handoffs, q.handoffs, room.messages, l.run.id, l.start, room);
    AccountedExtends(q.handoffs, l1.handoffs, room.messages, l.run.id, l.start, room);
    CollectIs(l, room);
    ByTimeIs(Collect(l, room));
    forall e, id | e in rest && e.result.Some? && Underway(room, n.start, id)
      ensures e.result.value.base != Work(id)
    {
      assert e in ByTime(Collect(l, room));
    }
    ProcessAllAwaits(n, rest, room);
    EndWaitsAwaits(q.handoffs, room, l.start, now);
    MarksNeverFall(l, room, now);
  }

  lemma WholeReconciled(l: Ledger, room: Room, now: int)
    requires Suits(l, room) && l.run.state == Complete && NoAssignment(ByTime(Collect(l, room)))
    ensures Reconciled(l, Reconcile(l, room, now), room) && Reconcile(l, room, now).run.state == Complete
    ensures Reconcile(l, room, now).handoffs == EndWaits(Prepared(l, room).handoffs, room, now)
  {
    var p, q, l1 := Prepared(l, room), Loop(l, room), Reconcile(l, room, now);
    PreparedDone(l, room);
    PassesOver(p, ByTime(Collect(l, room)), room, Event(OfAssignment(0), AssignmentEvent, 0, None, 0, "", "", NO_UPDATE));
    assert Extends(p.handoffs, q.handoffs) && Extends(q.handoffs, l1.handoffs);
    AccountedExtends(p.handoffs, q.handoffs, room.messages, l.run.id, l.start, room);
    AccountedExtends(q.handoffs, l1.handoffs, room.messages, l.run.id, l.start, room);
    EndWaitsAwaits(q.handoffs, room, l.start, now);
    MarksNeverFall(l, room, now);
  }

  // ----- which results were passed over

  /** A result after the completion, and at or after the mark, for which its family
      has no handoff. */
  predicate Missed(l: Ledger, room: Room, mark: int, e: Event) {
    && e.kind == ResultEvent && e.result.Some? && e.at > l.marks.completedThrough && e.at >= mark
    && !Handed(Prepared(l, room).handoffs, e.result.value.base, FactsFor(e, l.start, room))
  }

  /** An assignment is collected behind such a result, and none before it. */
  ghost predicate Overtaken(l: Ledger, room: Room, mark: int) {
    var c := Collect(l, room);
    && (exists a :: a in c && IsAssignment(a))
    && exists e :: e in c && Missed(l, room, mark, e) && forall a :: a in c && IsAssignment(a) ==> e.at < a.at
  }

  lemma StableIff(l: Ledger, q: Ledger, room: Room, order: seq<string>, now: int, e: Event)
    ensures Stable(Settled(q, room, now), e, room.(order := order)) <==> Stable(q, e, room)
  {
    if Relevant(q, e) {
      LatestSame(q.handoffs, EndWaits(q.handoffs, room, now), e.result.value.base);
    }
  }

  /** The results before the first assignment are the ones at an earlier time. */
  lemma BeforeIff(l: Ledger, room: Room, j: nat, i: nat)
    requires var events := ByTime(Collect(l, room));
      j < |events| && i < |events| && NoAssignment(events[..j]) && IsAssignment(events[j]) && !IsAssignment(events[i])
    ensures var events := ByTime(Collect(l, room));
      i < j <==> forall a :: a in Collect(l, room) && IsAssignment(a) ==> events[i].at < a.at
  {
    var events := ByTime(Collect(l, room));
    CollectFirst(l, room);
    ByTimeSorts(Collect(l, room));
    ByTimeIs(Collect(l, room));
    assert events[j] in events;
    assert forall k :: 0 <= k < j ==> events[k] in events[..j];
    if i < j {
      forall a | a in Collect(l, room) && IsAssignment(a)
        ensures events[i].at < a.at
      {
        var k :| 0 <= k < |events| && events[k] == a;
      }
    }
  }

  lemma BehindCutStable(l: Ledger, room: Room, j: nat, n: Ledger, i: nat)
    requires Suits(l, room) && Cut(l, room, j, n) && j < i < |ByTime(Collect(l, room))|
    ensures Stable(Loop(l, room), ByTime(Collect(l, room))[i], room)
  {
    var events := ByTime(Collect(l, room));
    var rest := events[j + 1..];
    CollectIs(l, room);
    ByTimeUnique(Collect(l, room));
    assert events == events[..j + 1] + rest && rest[i - j - 1] == events[i];
    UniqueRest(events[..j + 1], rest);
    ProcessAllStable(n, rest, room);
  }

  lemma BeforeCutIff(l: Ledger, room: Room, j: nat, n: Ledger, i: nat)
    requires Suits(l, room) && Cut(l, room, j, n) && i < j && ByTime(Collect(l, room))[i].result.Some?
    ensures var e := ByTime(Collect(l, room))[i];
      var facts := FactsFor(e, l.start, room);
      Handed(Loop(l, room).handoffs, e.result.value.base, facts) <==> Handed(Prepared(l, room).handoffs, e.result.value.base, facts)
  {
    var events := ByTime(Collect(l, room));
    var e, rest := events[i], events[j + 1..];
    CollectIs(l, room);
    ByTimeUnique(Collect(l, room));
    assert events == events[..j + 1] + rest && events[..j + 1][i] == e;
    UniqueApart(events[..j + 1], rest, e);
    OthersHandedIff(n, rest, room, e, FactsFor(e, l.start, room));
  }

  lemma CutFrame(l: Ledger, room: Room, j: nat, n: Ledger)
    requires Cut(l, room, j, n)
    ensures Loop(l, room).start == l.start && Loop(l, room).marks.completedThrough == l.marks.completedThrough
  {
    ProcessAllFrame(n, ByTime(Collect(l, room))[j + 1..], room);
  }

  /** After the loop, a result is handed over unless the loop passed it over. */
  lemma StableAfterCut(l: Ledger, room: Room, j: nat, n: Ledger, i: nat, mark: int)
    requires Suits(l, room) && Cut(l, room, j, n) && i < |ByTime(Collect(l, room))| && i != j
    requires var e := ByTime(Collect(l, room))[i]; e.kind == ResultEvent && e.result.Some? && e.at >= mark
    ensures var e := ByTime(Collect(l, room))[i];
      Stable(Loop(l, room), e, room) <==> !(Missed(l, room, mark, e) && i < j)
  {
    CutFrame(l, room, j, n);
    if i < j {
      BeforeCutIff(l, room, j, n, i);
    } else {
      BehindCutStable(l, room, j, n, i);
    }
  }

  // ----- the second reconciliation

  lemma {:induction false} RepliesAgain(jobs: seq<Job>, messages: seq<Message>, start: nat, a: int, b: int, e: Event)
    requires e in Replies(jobs, messages, start, a) && e.at >= b
    ensures e in Replies(jobs, messages, start, b)
    decreases |jobs|
  {
    if e in Replies(jobs[1..], messages, start, a) {
      RepliesAgain(jobs[1..], messages, start, a, b, e);
    }
  }

  /** A result at or after the final result mark is collected again. */
  lemma ResultAgain(l: Ledger, l1: Ledger, room: Room, order: seq<string>, e: Event)
    requires l1.start == l.start && e in Collect(l, room) && e.kind == ResultEvent && e.at >= l1.marks.result
    requires Visit(room.order, room) && Visit(order, room)
    ensures e in Again(l1, room, order)
  {
    var room' := room.(order := order);
    AssignmentsAre(room.messages, l.start, l.marks.assignment);
    ByTimeIs(Collect(l1, room'));
    if e in Replies(room.jobs, room.messages, l.start, l.marks.result) {
      RepliesAgain(room.jobs, room.messages, l.start, l.marks.result, l1.marks.result, e);
    } else {
      var id := EndsFrom(room.order, room, l.start, l.marks.result, e);
      EndsHave(order, room', l.start, l1.marks.result, id);
    }
  }

  lemma AgainFrom(l: Ledger, l1: Ledger, room: Room, order: seq<string>)
    requires Reconciled(l, l1, room) && Visit(room.order, room) && Visit(order, room)
    ensures forall e :: e in Again(l1, room, order) ==> e in Collect(l, room)
    ensures forall e :: e in Again(l1, room, order) && !IsAssignment(e) ==> e.kind == ResultEvent && e.at >= l1.marks.result
  {
    var room' := room.(order := order);
    ByTimeIs(Collect(l1, room'));
    AssignmentsAre(room.messages, l1.start, l1.marks.assignment);
    RepliesSince(room.jobs, room.messages, l1.start, l1.marks.result);
    EndsSince(order, room', l1.start, l1.marks.result);
    forall e | e in Again(l1, room, order)
      ensures e in Collect(l, room)
    {
      CollectFewer(l, l1, room, order, e);
    }
  }

  ghost predicate SameHandoffs(l: Ledger, room: Room, now: int, order: seq<string>, later: int) {
    var l1 := Reconcile(l, room, now);
    Reconcile(l1, room.(order := order), later).handoffs == l1.handoffs
  }

  ghost predicate SameReviews(l: Ledger, room: Room, now: int, order: seq<string>, later: int) {
    var l1 := Reconcile(l, room, now);
    Reconcile(l1, room.(order := order), later).run.reviews == l1.run.reviews
  }

  /** A complete run without a new assignment settles at once. */
  lemma WholeSettles(l: Ledger, room: Room, now: int, order: seq<string>, later: int)
    requires Suits(l, room) && Visit(order, room) && l.run.state == Complete && NoAssignment(ByTime(Collect(l, room)))
    ensures SameHandoffs(l, room, now, order, later) && SameReviews(l, room, now, order, later)
  {
    var l1 := Reconcile(l, room, now);
    WholeReconciled(l, room, now);
    PreparedAgain(l, l1, room, order);
    AgainFrom(l, l1, room, order);
    ByTimeIs(Collect(l, room));
    PassesOver(l1, Again(l1, room, order), room.(order := order), Event(OfAssignment(0), AssignmentEvent, 0, None, 0, "", "", NO_UPDATE));
    EndWaitsTwice(Prepared(l, room).handoffs, room, order, now, later);
  }

  lemma MoreHandoffs(l1: Ledger, events: seq<Event>, room: Room, later: int)
    requires Handing(l1.run.state) && !AllStable(l1, events, room)
    ensures Settled(ProcessAll(l1, events, room), room, later).handoffs != l1.handoffs
  {
    UnstableGrows(l1, events, room);
  }

  /** Once it hands results over, it settles if and only if all are handed over. */
  lemma CutSettlesIff(l: Ledger, room: Room, now: int, order: seq<string>, later: int)
    requires l.run.state == Complete && Visit(room.order, room) && Visit(order, room)
    requires var l1 := Reconcile(l, room, now); Reconciled(l, l1, room) && Handing(l1.run.state)
    ensures var l1 := Reconcile(l, room, now);
      SameHandoffs(l, room, now, order, later) <==> AllStable(l1, Again(l1, room, order), room.(order := order))
    ensures SameReviews(l, room, now, order, later)
  {
    var l1, room' := Reconcile(l, room, now), room.(order := order);
    var events := Again(l1, room, order);
    PreparedAgain(l, l1, room, order);
    ProcessAllFrame(l1, events, room');
    if AllStable(l1, events, room') {
      StableAllQuiet(l1, events, room');
      EndWaitsTwice(Loop(l, room).handoffs, room, order, now, later);
    } else {
      MoreHandoffs(l1, events, room', later);
    }
  }

  /** What is said of one result: it is collected again, and handed over unless it
      was missed before every assignment. */
  ghost predicate Sifted(l: Ledger, l1: Ledger, room: Room, order: seq<string>, e: Event) {
    && e in Again(l1, room, order)
    && (Stable(l1, e, room.(order := order)) <==>
          !(Missed(l, room, l1.marks.result, e) && forall a :: a in Collect(l, room) && IsAssignment(a) ==> e.at < a.at))
  }

  lemma SiftedAt(l: Ledger, room: Room, now: int, order: seq<string>, j: nat, n: Ledger, i: nat)
    requires Suits(l, room) && Visit(order, room) && Cut(l, room, j, n) && Reconciled(l, Reconcile(l, room, now), room)
    requires var all := ByTime(Collect(l, room));
      i < |all| && all[i].kind == ResultEvent && all[i].at >= Reconcile(l, room, now).marks.result
    ensures Sifted(l, Reconcile(l, room, now), room, order, ByTime(Collect(l, room))[i])
  {
    var l1, all := Reconcile(l, room, now), ByTime(Collect(l, room));
    ByTimeIs(Collect(l, room));
    CollectIs(l, room);
    assert all[i] in all && i != j;
    ResultAgain(l, l1, room, order, all[i]);
    StableAfterCut(l, room, j, n, i, l1.marks.result);
    StableIff(l, Loop(l, room), room, order, now, all[i]);
    BeforeIff(l, room, j, i);
  }

  lemma SiftedAll(l: Ledger, l1: Ledger, room: Room, order: seq<string>)
    requires exists a :: a in Collect(l, room) && IsAssignment(a)
    requires forall e :: e in Again(l1, room, order) ==> e in Collect(l, room)
    requires forall e :: e in Again(l1, room, order) && !IsAssignment(e) ==> e.kind == ResultEvent && e.at >= l1.marks.result
    requires forall e :: e in Collect(l, room) && e.kind == ResultEvent && e.at >= l1.marks.result ==> Sifted(l, l1, room, order, e)
    ensures AllStable(l1, Again(l1, room, order), room.(order := order)) <==> !Overtaken(l, room, l1.marks.result)
  {
    var room', events := room.(order := order), Again(l1, room, order);
    if AllStable(l1, events, room') {
      forall e | e in Collect(l, room) && Missed(l, room, l1.marks.result, e)
        ensures !(forall a :: a in Collect(l, room) && IsAssignment(a) ==> e.at < a.at)
      {
        assert Sifted(l, l1, room, order, e);
        var k :| 0 <= k < |events| && events[k] == e;
        assert Stable(l1, events[k], room');
      }
    } else {
      var k :| 0 <= k < |events| && !Stable(l1, events[k], room');
      assert events[k] in events;
      assert Sifted(l, l1, room, order, events[k]);
    }
  }

  /** All are handed over if and only if the first loop passed none over. */
  lemma StableIffNotOvertaken(l: Ledger, room: Room, now: int, order: seq<string>, j: nat, n: Ledger)
    requires Suits(l, room) && Visit(order, room) && Cut(l, room, j, n) && Reconciled(l, Reconcile(l, room, now), room)
    ensures var l1 := Reconcile(l, room, now);
      AllStable(l1, Again(l1, room, order), room.(order := order)) <==> !Overtaken(l, room, l1.marks.result)
  {
    var l1, all := Reconcile(l, room, now), ByTime(Collect(l, room));
    ByTimeIs(Collect(l, room));
    AgainFrom(l, l1, room, order);
    assert all[j] in all;
    forall e | e in Collect(l, room) && e.kind == ResultEvent && e.at >= l1.marks.result
      ensures Sifted(l, l1, room, order, e)
    {
      var i :| 0 <= i < |all| && all[i] == e;
      SiftedAt(l, room, now, order, j, n, i);
    }
    SiftedAll(l, l1, room, order);
  }

  /** A run that is complete on entry settles at once, unless an assignment is
      collected behind a result that was not handed over: one after the
      completion, at or after the final result mark, and not already its family's
      latest.  Its registered reviews settle in any case. */
  lemma CompleteSettlesIff(l: Ledger, room: Room, now: int, order: seq<string>, later: int)
    requires l.run.state == Complete && Suits(l, room) && Visit(order, room) && Numbered(l, room)
    ensures SameHandoffs(l, room, now, order, later) <==> !Overtaken(l, room, Reconcile(l, room, now).marks.result)
    ensures SameReviews(l, room, now, order, later)
  {
    var all := ByTime(Collect(l, room));
    ByTimeIs(Collect(l, room));
    var j := FirstAssignment(all);
    if j == |all| {
      assert all[..j] == all;
      WholeSettles(l, room, now, order, later);
    } else {
      var n := CutAt(l, room, j);
      CutReconciled(l, room, now, j, n);
      CutSettlesIff(l, room, now, order, later);
      StableIffNotOvertaken(l, room, now, order, j, n);
    }
  }
}
