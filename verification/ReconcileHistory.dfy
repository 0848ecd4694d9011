/** When a second reconciliation leaves the whole run as it is. */
module ReconcileHistory {
  import opened Options
  import opened Rooms
  import opened Continuations
  import opened Handoffs
  import opened HandoffReports
  import opened HandoffShape
  import opened ReconcileEvents
  import opened ReconcileFixpoint
  import opened ReconcileTwice
  import opened ReconcileTheorems

  // ----- no entry twice

  ghost predicate NoEntryTwice(events: seq<Event>) {
    forall i, j :: 0 <= i < j < |events| ==> events[i].id != events[j].id || events[i].kind != events[j].kind
  }

  lemma RecordOnce(events: seq<Event>, e: Event)
    requires NoEntryTwice(events)
    ensures NoEntryTwice(Record(events, e))
  {
    if !Known(events, e) {
      var all := events + [e];
      forall i, j | 0 <= i < j < |all|
        ensures all[i].id != all[j].id || all[i].kind != all[j].kind
      {
        assert j == |events| ==> !(events[i].id == e.id && events[i].kind == e.kind);
      }
    }
  }

  lemma {:induction false} ProcessAllOnce(l: Ledger, events: seq<Event>, room: Room)
    requires NoEntryTwice(l.events)
    ensures NoEntryTwice(ProcessAll(l, events, room).events)
    decreases |events|
  {
    if events != [] {
      var e := events[0];
      ProcessOnce(l, e, room);
      ProcessAllOnce(Process(l, e, room), events[1..], room);
    }
  }

  lemma ProcessOnce(l: Ledger, e: Event, room: Room)
    requires NoEntryTwice(l.events)
    ensures NoEntryTwice(Process(l, e, room).events)
  {
    RecordOnce(l.events, e);
    if e.result.Some? {
      var h := Hand(l.handoffs, e.result.value.base, FactsFor(e, l.start, room), l.marks.legacyThrough);
      RecordOnce(l.events, Renamed(e, h.1));
    }
  }

  lemma ReconcileOnce(l: Ledger, room: Room, now: int)
    requires NoEntryTwice(l.events)
    ensures NoEntryTwice(Reconcile(l, room, now).events)
  {
    ProcessAllOnce(Prepared(l, room), ByTime(Collect(l, room)), room);
  }

  // ----- what a settled run records

  /** An event that changes no handoff is recorded under its entry, or not at all. */
  lemma StableRecords(l: Ledger, e: Event, room: Room)
    requires Handing(l.run.state) && Stable(l, e, room) && (e.kind == ResultEvent ==> e.result.Some?)
    ensures Process(l, e, room) == if Retained(l, e) then l else Noted(l, Entry(l, e))
  {
    RetainedQuiet(l, e, room);
    if Relevant(l, e) {
      var base := e.result.value.base;
      assert Hand(l.handoffs, base, FactsFor(e, l.start, room), l.marks.legacyThrough) == (l.handoffs, LatestId(l.handoffs, base).value);
      assert l.(handoffs := l.handoffs) == l;
    }
  }

  lemma StableNext(l: Ledger, events: seq<Event>, room: Room)
    requires Handing(l.run.state) && events != [] && AllStable(l, events, room)
    ensures var p := Process(l, events[0], room); Handing(p.run.state) && AllStable(p, events[1..], room)
  {
    var p := Process(l, events[0], room);
    StableAllQuiet(l, [events[0]], room);
    assert [events[0]][1..] == [] && ProcessAll(l, [events[0]], room) == ProcessAll(p, [], room) == p;
    forall i | 0 <= i < |events[1..]|
      ensures Stable(p, events[1..][i], room)
    {
      assert Stable(l, events[i + 1], room);
    }
  }

  /** What the event adds to the history, if anything. */
  function Added(l: Ledger, e: Event): seq<Event> { if Retained(l, e) then [] else [Entry(l, e)] }

  lemma StepAppends(l: Ledger, e: Event, room: Room)
    requires Handing(l.run.state) && Stable(l, e, room) && (e.kind == ResultEvent ==> e.result.Some?) && |l.events| <= HISTORY
    ensures var p := Process(l, e, room); p.events == Tail(l.events + Added(l, e), HISTORY) && (Added(l, e) == [] ==> p == l)
  {
    StableRecords(l, e, room);
    if Retained(l, e) {
      assert l.events + [] == l.events;
    } else {
      RetainedQuiet(l, e, room);
      assert !Known(l.events, Entry(l, e));
    }
  }

  /** The loop appends what it records and drops as many entries from the front. */
  lemma {:induction false} LoopAppends(l: Ledger, events: seq<Event>, room: Room) returns (added: seq<Event>)
    requires Handing(l.run.state) && AllStable(l, events, room) && Proper(events) && |l.events| <= HISTORY
    ensures ProcessAll(l, events, room).events == Tail(l.events + added, HISTORY)
    ensures |added| <= |events| && (added == [] ==> forall e :: e in events ==> Retained(l, e))
    ensures added != [] ==> !Known(l.events, added[0])
    decreases |events|
  {
    if events == [] {
      added := [];
      assert l.events + [] == l.events;
    } else {
      var e, p := events[0], Process(l, events[0], room);
      assert e in events && events == [e] + events[1..];
      assert Stable(l, e, room);
      StepAppends(l, e, room);
      StableNext(l, events, room);
      var rest := LoopAppends(p, events[1..], room);
      added := Added(l, e) + rest;
      TwoTails(l.events, Added(l, e), rest);
      if Added(l, e) == [] {
        assert added == rest;
      }
    }
  }

  lemma TwoTails(events: seq<Event>, a: seq<Event>, b: seq<Event>)
    ensures Tail(Tail(events + a, HISTORY) + b, HISTORY) == Tail(events + (a + b), HISTORY)
  {
    TailAppend(events + a, b, HISTORY);
    assert events + (a + b) == (events + a) + b;
  }

  /** No more entries than the history holds, the first of them new, cannot bring
      it back to itself. */
  lemma AppendedDiffers(events: seq<Event>, added: seq<Event>)
    requires NoEntryTwice(events) && |events| <= HISTORY && 0 < |added| <= HISTORY && !Known(events, added[0])
    ensures Tail(events + added, HISTORY) != events
  {
    var all := events + added;
    if |all| > HISTORY && |events| == HISTORY {
      if |added| < HISTORY {
        assert Tail(all, HISTORY)[0] == all[|added|] == events[|added|];
      } else {
        assert Tail(all, HISTORY)[0] == added[0];
      }
    }
  }

  /** While no more events are collected than the history holds, a second
      reconciliation leaves the run as it is if and only if the history still has
      every event that it collects, or the run was completed after it. */
  lemma SameIffRetained(l: Ledger, room: Room, now: int, order: seq<string>, later: int)
    requires Fit(l, room) && Visit(order, room) && NoEntryTwice(l.events) && |l.events| <= HISTORY
    requires |Again(Reconcile(l, room, now), room, order)| <= HISTORY
    ensures var l1 := Reconcile(l, room, now);
      Reconcile(l1, room.(order := order), later) == l1 <==> forall e :: e in Again(l1, room, order) ==> Retained(l1, e)
  {
    var l1, room' := Reconcile(l, room, now), room.(order := order);
    var events := Again(l1, room, order);
    QuietIffRetained(l, room, now, order, later);
    AfterFirst(l, room, now);
    PreparedAgain(l, l1, room, order);
    AgainStable(l, room, order, now);
    CollectIs(l, room);
    ReconcileOnce(l, room, now);
    HistoryBounded(l, room, now);
    var added := LoopAppends(l1, events, room');
    if added != [] {
      AppendedDiffers(l1.events, added);
    }
  }

  lemma {:induction false} ProcessAllBounded(l: Ledger, events: seq<Event>, room: Room)
    requires |l.events| <= HISTORY
    ensures |ProcessAll(l, events, room).events| <= HISTORY
    decreases |events|
  {
    if events != [] {
      ProcessAllBounded(Process(l, events[0], room), events[1..], room);
    }
  }

  lemma HistoryBounded(l: Ledger, room: Room, now: int)
    requires |l.events| <= HISTORY
    ensures |Reconcile(l, room, now).events| <= HISTORY
  {
    ProcessAllBounded(Prepared(l, room), ByTime(Collect(l, room)), room);
  }

  // ----- and every reachable history is like that

  /** No entry twice, no more entries than it holds, and the success mark at or
      behind the result mark. */
  ghost predicate Kept(l: Ledger) { NoEntryTwice(l.events) && |l.events| <= HISTORY && l.marks.success <= l.marks.result }

  predicate SameBook(l: Ledger, l': Ledger) {
    l'.events == l.events && l'.marks.success == l.marks.success && l'.marks.result == l.marks.result
  }

  lemma ReconcileKept(l: Ledger, room: Room, now: int)
    requires Kept(l)
    ensures Kept(Reconcile(l, room, now))
  {
    ReconcileOnce(l, room, now);
    HistoryBounded(l, room, now);
    MarksNeverFall(l, room, now);
  }

  lemma ReportedSameBook(l: Ledger, r: Report, room: Room, now: int)
    ensures SameBook(l, CoordinatorReported(l, r, room, now))
  {
  }

  lemma CoordinatorKept(b: Books, l: Ledger, r: Report, room: Room, now: int, access: Option<Access>, key: string)
    requires Kept(l) && r.kind.Coordinator? && Apply(b, l, r, room, now, access, key).Some?
    ensures Apply(b, l, r, room, now, access, key).value.ledger.Some?
    ensures Kept(Apply(b, l, r, room, now, access, key).value.ledger.value)
  {
    ReconcileKept(l, room, now);
    ReportedSameBook(Completing(l, r, room, now).value, r, room, now);
  }

  lemma NotificationKept(b: Books, l: Ledger, r: Report, room: Room, now: int, access: Option<Access>, key: string)
    requires Kept(l) && !r.kind.Coordinator? && Apply(b, l, r, room, now, access, key).Some?
    ensures Apply(b, l, r, room, now, access, key).value.ledger.Some?
    ensures Kept(Apply(b, l, r, room, now, access, key).value.ledger.value)
  {
  }

  lemma ReportKept(b: Books, r: Report, room: Room, now: int, access: Option<Access>, key: string, saved: bool)
    requires b.ledger.Some? ==> Kept(b.ledger.value)
    ensures var l := ReportStep(b, r, room, now, access, key, saved).ledger; l.Some? ==> Kept(l.value)
  {
    if CurrentRun(b.ledger, r.run) {
      var l := Reconcile(b.ledger.value, room, now);
      ReconcileKept(b.ledger.value, room, now);
      ReconcileKept(l, room, now);
      var a := Apply(b, l, r, room, now, access, key);
      if a.Some? {
        if r.kind.Coordinator? {
          CoordinatorKept(b, l, r, room, now, access, key);
        } else {
          NotificationKept(b, l, r, room, now, access, key);
        }
        RecordOnce(a.value.ledger.value.events, ReportEvent(r, now));
        ReconcileKept(Entered(a.value.ledger.value, r, now), room, now);
      }
    }
  }

  lemma ControlKept(ledger: Option<Ledger>, action: Action, id: string, start: nat, room: Room, now: int, saved: bool)
    requires ledger.Some? ==> Kept(ledger.value)
    ensures var l := Control(ledger, action, id, start, room, now, saved); l.Some? ==> Kept(l.value)
  {
    var c := Controlled(ledger, action, id, start, room);
    if c.Some? {
      ReconcileKept(c.value, room, now);
    }
  }

  lemma {:induction false} RunKept(b: Books, run: seq<Step>)
    requires b.ledger.Some? ==> Kept(b.ledger.value)
    ensures var l := Exec(b, run).ledger; l.Some? ==> Kept(l.value)
    decreases |run|
  {
    if run != [] {
      match run[0] {
        case ControlStep(action, id, start, room, now, saved) => ControlKept(b.ledger, action, id, start, room, now, saved);
        case StatusStep(room, now, saved) =>
          if b.ledger.Some? {
            ReconcileKept(b.ledger.value, room, now);
          }
        case Reporting(report, room, now, access, key, saved) => ReportKept(b, report, room, now, access, key, saved);
        case Observing(u, now, scene, saved) =>
      }
      RunKept(Next(b, run[0]), run[1..]);
    }
  }

  /** Over every run from an empty room, the history has no entry twice and is
      bounded, and the last success is not after the last result. */
  lemma HistoryKept(run: seq<Step>)
    requires Exec(EMPTY, run).ledger.Some?
    ensures Kept(Exec(EMPTY, run).ledger.value)
  {
    RunKept(EMPTY, run);
  }
}
