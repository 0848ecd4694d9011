/** When reconciliation moves a high-water mark, and when a second one moves none,
    whatever the bounded history has lost. */
module ReconcileMarks {
  import opened Options
  import opened Rooms
  import opened Continuations
  import opened Handoffs
  import opened ReconcileEvents
  import opened ReconcileFixpoint
  import opened ReconcileTwice
  import opened ReconcileTheorems
  import opened ReconcileHistory
  import opened ReconcileComplete

  // ----- one event

  /** Recording the event would change a mark: of the events collected, every
      assignment, every result later than the result mark, and a success at the
      result mark when the success mark is another time. */
  predicate Moves(m: Marks, e: Event) { Marked(m, e) != m }

  /** The entry under which the event would be recorded. */
  function EntryNow(l: Ledger, e: Event, room: Room): Event {
    if e.kind == ResultEvent && e.result.Some? && Handing(l.run.state) then
      Renamed(e, Hand(l.handoffs, e.result.value.base, FactsFor(e, l.start, room), l.marks.legacyThrough).1)
    else e
  }

  /** The event is passed over: the run completed after it, or the history has it. */
  predicate Filed(l: Ledger, e: Event, room: Room) {
    (e.kind == ResultEvent && e.at <= l.marks.completedThrough) || Known(l.events, EntryNow(l, e, room))
  }

  lemma ProcessMarks(l: Ledger, e: Event, room: Room)
    ensures Process(l, e, room).marks == if Filed(l, e, room) then l.marks else Marked(l.marks, e)
  {
  }

  // ----- marks that have moved do not come back

  /** What is collected for these marks. */
  ghost predicate InTime(m: Marks, events: seq<Event>) {
    forall e :: e in events ==> if IsAssignment(e) then e.at > m.assignment else e.at >= m.result
  }

  lemma CollectInTime(l: Ledger, room: Room)
    ensures InTime(l.marks, ByTime(Collect(l, room))) && Sorted(ByTime(Collect(l, room)))
  {
    AssignmentsAre(room.messages, l.start, l.marks.assignment);
    RepliesSince(room.jobs, room.messages, l.start, l.marks.result);
    EndsSince(room.order, room, l.start, l.marks.result);
    ByTimeIs(Collect(l, room));
    ByTimeSorts(Collect(l, room));
  }

  predicate Beyond(m: Marks, n: Marks) {
    n.assignment > m.assignment || n.result > m.result || (n.success == n.result == m.result && m.success != m.result)
  }

  lemma MovesBeyond(m: Marks, e: Event)
    requires Moves(m, e) && InTime(m, [e])
    ensures Beyond(m, Marked(m, e))
  {
    assert e in [e];
  }

  lemma StepBeyond(l: Ledger, e: Event, room: Room, m: Marks)
    requires Beyond(m, l.marks) && m.result <= l.marks.result
    requires if IsAssignment(e) then e.at > m.assignment else e.at >= l.marks.result
    ensures var p := Process(l, e, room); Beyond(m, p.marks) && m.result <= p.marks.result
  {
    ProcessMarks(l, e, room);
  }

  lemma SortedRest(events: seq<Event>)
    requires events != [] && Sorted(events)
    ensures Sorted(events[1..]) && forall e :: e in events[1..] ==> e in events && e.at >= events[0].at
  {
    forall e | e in events[1..]
      ensures e in events && e.at >= events[0].at
    {
      var i :| 0 <= i < |events[1..]| && events[1..][i] == e;
      assert events[i + 1] == e;
    }
  }

  ghost predicate Onward(l: Ledger, events: seq<Event>, m: Marks) {
    Sorted(events) && forall e :: e in events ==> if IsAssignment(e) then e.at > m.assignment else e.at >= l.marks.result
  }

  lemma StepOnward(l: Ledger, events: seq<Event>, room: Room, m: Marks)
    requires events != [] && Onward(l, events, m)
    ensures Onward(Process(l, events[0], room), events[1..], m)
  {
    ProcessMarks(l, events[0], room);
    SortedRest(events);
  }

  lemma {:induction false} StaysBeyond(l: Ledger, events: seq<Event>, room: Room, m: Marks)
    requires Beyond(m, l.marks) && m.result <= l.marks.result && Onward(l, events, m)
    ensures Beyond(m, ProcessAll(l, events, room).marks)
    decreases |events|
  {
    if events != [] {
      assert events[0] in events;
      StepBeyond(l, events[0], room, m);
      StepOnward(l, events, room, m);
      StaysBeyond(Process(l, events[0], room), events[1..], room, m);
    }
  }

  /** The first event that moves a mark decides. */
  lemma MovedForGood(l: Ledger, events: seq<Event>, room: Room)
    requires events != [] && Sorted(events) && InTime(l.marks, events)
    requires Process(l, events[0], room).marks != l.marks
    ensures ProcessAll(l, events, room).marks != l.marks
  {
    var e, p := events[0], Process(l, events[0], room);
    ProcessMarks(l, e, room);
    assert e in events;
    MovesBeyond(l.marks, e);
    StepOnward(l, events, room, l.marks);
    StaysBeyond(p, events[1..], room, l.marks);
  }

  lemma InTimeRest(m: Marks, events: seq<Event>)
    requires events != [] && Sorted(events) && InTime(m, events)
    ensures Sorted(events[1..]) && InTime(m, events[1..])
  {
    SortedRest(events);
  }

  // ----- one reconciliation

  /** Every event that would move a mark is passed over when its turn comes. */
  ghost predicate AllFiled(l: Ledger, m: Marks, events: seq<Event>, room: Room) {
    forall k :: 0 <= k < |events| && Moves(m, events[k]) ==> Filed(ProcessAll(l, events[..k], room), events[k], room)
  }

  lemma Before(l: Ledger, events: seq<Event>, room: Room, k: nat)
    requires k < |events| - 1
    ensures events[1..][k] == events[k + 1] && events[..k + 1][1..] == events[1..][..k]
    ensures ProcessAll(l, events[..k + 1], room) == ProcessAll(Process(l, events[0], room), events[1..][..k], room)
  {
  }

  lemma AllFiledStep(l: Ledger, m: Marks, events: seq<Event>, room: Room)
    requires events != []
    ensures AllFiled(l, m, events, room) <==>
      (Moves(m, events[0]) ==> Filed(l, events[0], room)) && AllFiled(Process(l, events[0], room), m, events[1..], room)
  {
    assert events[..0] == [];
    if AllFiled(l, m, events, room) {
      forall k | 0 <= k < |events[1..]| && Moves(m, events[1..][k])
        ensures Filed(ProcessAll(Process(l, events[0], room), events[1..][..k], room), events[1..][k], room)
      {
        Before(l, events, room, k);
      }
    } else {
      var k :| 0 <= k < |events| && Moves(m, events[k]) && !Filed(ProcessAll(l, events[..k], room), events[k], room);
      if k > 0 {
        Before(l, events, room, k - 1);
      }
    }
  }

  lemma {:induction false} LoopStaysIff(l: Ledger, events: seq<Event>, room: Room)
    requires Sorted(events) && InTime(l.marks, events)
    ensures ProcessAll(l, events, room).marks == l.marks <==> AllFiled(l, l.marks, events, room)
    decreases |events|
  {
    if events != [] {
      var p := Process(l, events[0], room);
      ProcessMarks(l, events[0], room);
      AllFiledStep(l, l.marks, events, room);
      if p.marks == l.marks {
        InTimeRest(l.marks, events);
        LoopStaysIff(p, events[1..], room);
      } else {
        MovedForGood(l, events, room);
      }
    }
  }

  /** Whatever the state of the run, one reconciliation leaves all marks alone if
      and only if it passes over every event that would move one. */
  lemma MarksStayIff(l: Ledger, room: Room, now: int)
    requires l.run.state != Stopped
    ensures Reconcile(l, room, now).marks == l.marks <==> AllFiled(Prepared(l, room), l.marks, ByTime(Collect(l, room)), room)
  {
    CollectInTime(l, room);
    LoopStaysIff(Prepared(l, room), ByTime(Collect(l, room)), room);
  }

  // ----- the second reconciliation

  /** The events at the result mark that move nothing. */
  function AtMark(m: Marks, events: seq<Event>): seq<Event> {
    if events == [] then [] else (if Moves(m, events[0]) then [] else [events[0]]) + AtMark(m, events[1..])
  }

  lemma {:induction false} AtMarkPlus(m: Marks, a: seq<Event>, b: seq<Event>)
    ensures AtMark(m, a + b) == AtMark(m, a) + AtMark(m, b)
    decreases |a|
  {
    if a == [] {
      assert a + b == b;
    } else {
      assert (a + b)[1..] == a[1..] + b;
      AtMarkPlus(m, a[1..], b);
    }
  }

  lemma {:induction false} AtMarkNone(m: Marks, events: seq<Event>)
    requires forall i :: 0 <= i < |events| ==> Moves(m, events[i])
    ensures AtMark(m, events) == []
    decreases |events|
  {
    if events != [] {
      AtMarkNone(m, events[1..]);
    }
  }

  /** Every event that would move a mark is retained when the earlier events at the
      mark have been recorded again. */
  ghost predicate AllRetained(l: Ledger, m: Marks, events: seq<Event>, room: Room) {
    forall k :: 0 <= k < |events| && Moves(m, events[k]) ==>
      Retained(ProcessAll(l, AtMark(m, events[..k]), room), events[k])
  }

  lemma AtMarkBefore(m: Marks, events: seq<Event>, k: nat)
    requires k < |events| - 1
    ensures events[1..][k] == events[k + 1]
    ensures AtMark(m, events[..k + 1]) == (if Moves(m, events[0]) then [] else [events[0]]) + AtMark(m, events[1..][..k])
  {
    assert events[..k + 1][1..] == events[1..][..k];
  }

  lemma RetainedLater(l: Ledger, m: Marks, events: seq<Event>, room: Room, k: nat)
    requires k < |events| - 1
    ensures var p := if Moves(m, events[0]) then l else Process(l, events[0], room);
      ProcessAll(l, AtMark(m, events[..k + 1]), room) == ProcessAll(p, AtMark(m, events[1..][..k]), room)
  {
    AtMarkBefore(m, events, k);
    var rest := AtMark(m, events[1..][..k]);
    assert [] + rest == rest;
    ProcessFirst(l, events[0], rest, room);
  }

  lemma AllRetainedStep(l: Ledger, m: Marks, events: seq<Event>, room: Room)
    requires events != []
    ensures AllRetained(l, m, events, room) <==>
      if Moves(m, events[0]) then Retained(l, events[0]) && AllRetained(l, m, events[1..], room)
      else AllRetained(Process(l, events[0], room), m, events[1..], room)
  {
    assert events[..0] == [] && AtMark(m, []) == [];
    var p := if Moves(m, events[0]) then l else Process(l, events[0], room);
    if AllRetained(l, m, events, room) {
      forall k | 0 <= k < |events[1..]| && Moves(m, events[1..][k])
        ensures Retained(ProcessAll(p, AtMark(m, events[1..][..k]), room), events[1..][k])
      {
        RetainedLater(l, m, events, room, k);
        assert events[1..][k] == events[k + 1];
      }
    } else {
      var k :| 0 <= k < |events| && Moves(m, events[k]) && !Retained(ProcessAll(l, AtMark(m, events[..k]), room), events[k]);
      if k > 0 {
        RetainedLater(l, m, events, room, k - 1);
        assert events[1..][k - 1] == events[k];
      }
    }
  }

  lemma {:induction false} LoopSettlesIff(l: Ledger, events: seq<Event>, room: Room)
    requires Handing(l.run.state) && AllStable(l, events, room) && Proper(events)
    requires Sorted(events) && InTime(l.marks, events)
    ensures ProcessAll(l, events, room).marks == l.marks <==> AllRetained(l, l.marks, events, room)
    decreases |events|
  {
    if events != [] {
      var e, p := events[0], Process(l, events[0], room);
      assert e in events && Stable(l, e, room);
      StableRecords(l, e, room);
      AllRetainedStep(l, l.marks, events, room);
      if p.marks == l.marks {
        InTimeRest(l.marks, events);
        StableNext(l, events, room);
        assert forall x :: x in events[1..] ==> x in events;
        LoopSettlesIff(p, events[1..], room);
      } else {
        MovedForGood(l, events, room);
      }
    }
  }

  /** The second reconciliation of a pending or blocked run moves no mark, however
      full the history, if and only if every event it collects that would move one
      is retained when the earlier events at the result mark have been replayed. */
  lemma MarksSettleIff(l: Ledger, room: Room, now: int, order: seq<string>, later: int)
    requires Fit(l, room) && Visit(order, room)
    ensures var l1, room' := Reconcile(l, room, now), room.(order := order);
      Reconcile(l1, room', later).marks == l1.marks <==> AllRetained(l1, l1.marks, Again(l1, room, order), room')
  {
    var l1, room' := Reconcile(l, room, now), room.(order := order);
    AfterFirst(l, room, now);
    PreparedAgain(l, l1, room, order);
    AgainStable(l, room, order, now);
    CollectIs(l, room);
    CollectInTime(l1, room');
    LoopSettlesIff(l1, Again(l1, room, order), room');
  }

  /** No event collected again moves a mark: the marks settle, whatever the history
      has lost. */
  lemma MarksSettle(l: Ledger, room: Room, now: int, order: seq<string>, later: int)
    requires Fit(l, room) && Visit(order, room)
    requires var l1 := Reconcile(l, room, now); forall e :: e in Again(l1, room, order) ==> !Moves(l1.marks, e)
    ensures Reconcile(Reconcile(l, room, now), room.(order := order), later).marks == Reconcile(l, room, now).marks
  {
    MarksSettleIff(l, room, now, order, later);
  }

  // ----- without the turns

  /** Only results later than the mark move one. */
  ghost predicate OnlyLater(m: Marks, events: seq<Event>) {
    Sorted(events) && forall e :: e in events ==> !IsAssignment(e) && (Moves(m, e) <==> e.at > m.result)
  }

  /** Then all events at the mark come first. */
  lemma AtMarkUpTo(m: Marks, events: seq<Event>, k: nat)
    requires OnlyLater(m, events) && k < |events| && Moves(m, events[k])
    ensures AtMark(m, events[..k]) == AtMark(m, events)
  {
    var later := events[k..];
    forall i | 0 <= i < |later|
      ensures Moves(m, later[i])
    {
      assert later[i] == events[k + i] && events[k + i] in events && events[k] in events;
    }
    AtMarkNone(m, later);
    AtMarkPlus(m, events[..k], events[k..]);
    assert events[..k] + events[k..] == events;
  }

  lemma LateIff(l: Ledger, m: Marks, events: seq<Event>, room: Room)
    requires OnlyLater(m, events)
    ensures AllRetained(l, m, events, room) <==>
      forall e :: e in events && e.at > m.result ==> Retained(ProcessAll(l, AtMark(m, events), room), e)
  {
    forall k | 0 <= k < |events| && Moves(m, events[k])
      ensures AtMark(m, events[..k]) == AtMark(m, events)
    {
      AtMarkUpTo(m, events, k);
    }
    RetainedAll(l, AtMark(m, events), m, events, room);
  }

  lemma RetainedAll(l: Ledger, replayed: seq<Event>, m: Marks, events: seq<Event>, room: Room)
    requires OnlyLater(m, events)
    requires forall k :: 0 <= k < |events| && Moves(m, events[k]) ==> AtMark(m, events[..k]) == replayed
    ensures AllRetained(l, m, events, room) <==>
      forall e :: e in events && e.at > m.result ==> Retained(ProcessAll(l, replayed, room), e)
  {
    var q := ProcessAll(l, replayed, room);
    if AllRetained(l, m, events, room) {
      forall e | e in events && e.at > m.result
        ensures Retained(q, e)
      {
        var k :| 0 <= k < |events| && events[k] == e;
        assert Moves(m, events[k]);
      }
    } else {
      var k :| 0 <= k < |events| && Moves(m, events[k]) && !Retained(ProcessAll(l, AtMark(m, events[..k]), room), events[k]);
      assert events[k] in events && !Retained(q, events[k]);
    }
  }

  /** An assignment that is new to the history leaves its mark at or behind it. */
  lemma {:induction false} MarkReaches(l: Ledger, events: seq<Event>, room: Room, x: Event, r: int)
    requires x in events && IsAssignment(x) && !Known(l.events, x) && Sorted(events) && r <= l.marks.result
    requires forall e :: e in events && IsAssignment(e) && e.id == x.id ==> e == x
    requires forall e :: e in events && !IsAssignment(e) ==> e.at >= r
    ensures x.at <= ProcessAll(l, events, room).marks.assignment
    decreases |events|
  {
    var e, p, rest := events[0], Process(l, events[0], room), events[1..];
    assert e in events && events == [e] + rest;
    SortedRest(events);
    if e == x {
      MarksRise(p, rest, room, x.at, r, 0);
    } else {
      StillNew(l, e, room, x);
      MarkReaches(p, rest, room, x, r);
    }
  }

  lemma StillNew(l: Ledger, e: Event, room: Room, x: Event)
    requires IsAssignment(x) && !Known(l.events, x) && (IsAssignment(e) ==> e.id != x.id)
    ensures !Known(Process(l, e, room).events, x)
    ensures !IsAssignment(e) ==> Process(l, e, room).marks.result == l.marks.result || Process(l, e, room).marks.result == e.at
    ensures IsAssignment(e) ==> Process(l, e, room).marks.result == l.marks.result
  {
    ProcessMarks(l, e, room);
  }

  lemma AssignmentOnce(l: Ledger, room: Room, x: Event, e: Event)
    requires Numbered(l, room) && x in Collect(l, room) && e in Collect(l, room)
    requires IsAssignment(x) && IsAssignment(e) && e.id == x.id
    ensures e == x
  {
    RepliesSince(room.jobs, room.messages, l.start, l.marks.result);
    EndsSince(room.order, room, l.start, l.marks.result);
    var i := AssignmentsFrom(room.messages, l.start, l.marks.assignment, x);
    var j := AssignmentsFrom(room.messages, l.start, l.marks.assignment, e);
  }

  /** Numbered assignments are collected once. */
  lemma NoAssignmentAgain(l: Ledger, room: Room, now: int, order: seq<string>)
    requires Fit(l, room) && Visit(order, room) && Numbered(l, room)
    ensures NoAssignment(Again(Reconcile(l, room, now), room, order))
  {
    var l1, events := Reconcile(l, room, now), ByTime(Collect(l, room));
    AgainStable(l, room, order, now);
    CollectInTime(l1, room.(order := order));
    CollectInTime(l, room);
    ByTimeIs(Collect(l, room));
    CollectNew(l, room);
    forall x | x in Again(l1, room, order)
      ensures !IsAssignment(x)
    {
      if IsAssignment(x) {
        assert x in events;
        forall e | e in events && IsAssignment(e) && e.id == x.id
          ensures e == x
        {
          AssignmentOnce(l, room, x, e);
        }
        MarkReaches(Prepared(l, room), events, room, x, l.marks.result);
        assert false;
      }
    }
  }

  /** So, unless a success at the result mark is collected while the success mark is
      another time, the marks settle if and only if every later result is retained
      once the results at the mark have been replayed. */
  lemma LateMarksSettleIff(l: Ledger, room: Room, now: int, order: seq<string>, later: int)
    requires Fit(l, room) && Visit(order, room) && Numbered(l, room)
    requires var l1 := Reconcile(l, room, now);
      forall e :: e in Again(l1, room, order) && e.at == l1.marks.result ==> !Moves(l1.marks, e)
    ensures var l1, room' := Reconcile(l, room, now), room.(order := order);
      var events := Again(l1, room, order);
      Reconcile(l1, room', later).marks == l1.marks <==>
        forall e :: e in events && e.at > l1.marks.result ==> Retained(ProcessAll(l1, AtMark(l1.marks, events), room'), e)
  {
    var l1, room' := Reconcile(l, room, now), room.(order := order);
    var events := Again(l1, room, order);
    MarksSettleIff(l, room, now, order, later);
    NoAssignmentAgain(l, room, now, order);
    CollectInTime(l1, room');
    LateIff(l1, l1.marks, events, room');
  }

  // ----- all of it

  /** Reconciling a pending or blocked run twice is reconciling it once: always for
      handoffs and reviews, for the marks exactly when every event that would move
      one is retained in its turn, and for the history as well while it has room. */
  lemma ReconcileTwiceIsOnce(l: Ledger, room: Room, now: int, order: seq<string>, later: int)
    requires Fit(l, room) && Visit(order, room)
    ensures var l1, room' := Reconcile(l, room, now), room.(order := order);
      var l2 := Reconcile(l1, room', later);
      && l2.handoffs == l1.handoffs && l2.run.reviews == l1.run.reviews
      && (l2.marks == l1.marks <==> AllRetained(l1, l1.marks, Again(l1, room, order), room'))
      && (|l.events| + |Collect(l, room)| <= HISTORY ==> l2 == l1)
  {
    ReconcileIsSettled(l, room, now, order, later);
    MarksSettleIff(l, room, now, order, later);
    if |l.events| + |Collect(l, room)| <= HISTORY {
      RoomForAll(l, room, now, order, later);
    }
  }
}
