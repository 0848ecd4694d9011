/** One event more than the history holds, and the bound of `SameIffRetained` is
    no longer enough: the history comes round to itself. */
module ReconcileRounds {
  import opened Options
  import opened Rooms
  import opened Continuations
  import opened Handoffs
  import opened HandoffReports
  import opened HandoffShape
  import opened ReconcileEvents
  import opened ReconcileFixpoint
  import opened ReconcileTwice
  import opened ReconcileTheorems
  import opened ReconcileHistory
  import opened ReconcileComplete
  import opened ReconcileCounterexamples

  const ROUND: nat := HISTORY + 1

  // ----- replies that fail at one time

  predicate Failing(e: Event) {
    && e.kind == ResultEvent && e.at == 5 && e.outcome == StateName(Failed)
    && e.id.OfResult? && e.id.later.None? && e.result == Some(ResultId(e.id.base, None))
  }

  ghost predicate Series(events: seq<Event>) {
    (forall i :: 0 <= i < |events| ==> Failing(events[i])) && forall i, j :: 0 <= i < j < |events| ==> events[i].id != events[j].id
  }

  lemma SeriesRest(events: seq<Event>)
    requires Series(events) && events != []
    ensures Series(events[1..])
  {
  }

  lemma {:induction false} SortedAlready(events: seq<Event>)
    requires forall i :: 0 <= i < |events| ==> events[i].at == 5
    ensures ByTime(events) == events
    decreases |events|
  {
    if events != [] {
      SortedAlready(events[1..]);
      assert events == [events[0]] + events[1..];
    }
  }

  // ----- the first reconciliation: a handoff and an entry for each

  /** Every handoff is the first of its family. */
  predicate FirstOnes(hs: seq<Handoff>) { forall i :: 0 <= i < |hs| ==> hs[i].id.at.None? }

  /** The results are new to the run. */
  ghost predicate Ready(l: Ledger, events: seq<Event>) {
    && l.run.state == Pending && l.marks.completedThrough < 5 && FirstOnes(l.handoffs)
    && (forall i, j :: 0 <= i < |l.handoffs| && 0 <= j < |events| ==> OfResult(l.handoffs[i].id.base, "", None) != events[j].id)
    && forall j :: 0 <= j < |events| ==> events[j].id.OfResult? && events[j].id.state == "" && !Known(l.events, events[j])
  }

  /** What the loop leaves alone. */
  predicate Steady(l: Ledger, p: Ledger) {
    && p.run == l.run && p.start == l.start && p.marks.completedThrough == l.marks.completedThrough
    && p.marks.assignment == l.marks.assignment
  }

  lemma Opens(l: Ledger, e: Event, room: Room)
    requires Ready(l, [e]) && Failing(e)
    ensures var p := Process(l, e, room);
      && Steady(l, p) && p.marks.result == 5 && p.events == Tail(l.events + [e], HISTORY)
      && |p.handoffs| == |l.handoffs| + 1 && p.handoffs[..|l.handoffs|] == l.handoffs
      && p.handoffs[|l.handoffs|].id == ResultId(e.id.base, None)
  {
    assert [e][0] == e;
    assert Latest(l.handoffs, e.id.base).None?;
  }

  lemma OpensReady(l: Ledger, events: seq<Event>, p: Ledger)
    requires events != [] && Series(events) && Ready(l, events) && Steady(l, p)
    requires p.events == Tail(l.events + [events[0]], HISTORY) && |p.handoffs| == |l.handoffs| + 1
    requires p.handoffs[..|l.handoffs|] == l.handoffs && p.handoffs[|l.handoffs|].id == ResultId(events[0].id.base, None)
    ensures Ready(p, events[1..])
  {
    forall i | 0 <= i < |p.handoffs|
      ensures p.handoffs[i].id == if i < |l.handoffs| then l.handoffs[i].id else ResultId(events[0].id.base, None)
    {
      assert i < |l.handoffs| ==> p.handoffs[..|l.handoffs|][i] == p.handoffs[i];
    }
    forall j | 0 <= j < |events[1..]|
      ensures !Known(p.events, events[1..][j])
    {
      assert events[1..][j] == events[j + 1] && !Known(l.events, events[j + 1]);
    }
  }

  lemma OpensFirst(l: Ledger, events: seq<Event>, room: Room)
    requires events != [] && Series(events) && Ready(l, events)
    ensures var p := Process(l, events[0], room);
      Steady(l, p) && p.marks.result == 5 && p.events == Tail(l.events + [events[0]], HISTORY) && Ready(p, events[1..])
  {
    assert Ready(l, [events[0]]);
    Opens(l, events[0], room);
    OpensReady(l, events, Process(l, events[0], room));
  }

  lemma {:induction false} OpensAll(l: Ledger, events: seq<Event>, room: Room)
    requires Series(events) && Ready(l, events)
    ensures Steady(l, ProcessAll(l, events, room)) && FirstOnes(ProcessAll(l, events, room).handoffs)
    ensures var p := ProcessAll(l, events, room);
      events != [] ==> p.marks.result == 5 && p.events == Tail(l.events + events, HISTORY)
    decreases |events|
  {
    if events != [] {
      var e, p, rest := events[0], Process(l, events[0], room), events[1..];
      assert events == [e] + rest;
      OpensFirst(l, events, room);
      SeriesRest(events);
      OpensAll(p, rest, room);
      TwoTails(l.events, [e], rest);
      if rest == [] {
        assert ProcessAll(p, rest, room) == p && [e] + rest == [e];
      }
    }
  }

  // ----- the second: each entry evicts the next

  /** The history when `k` of the events have been recorded again. */
  function Window(events: seq<Event>, k: nat): seq<Event>
    requires k <= |events| && events != []
  {
    (events + events)[k + 1..k + |events|]
  }

  ghost predicate Turning(l: Ledger, events: seq<Event>, room: Room) {
    && l.run.state == Pending && l.marks.completedThrough < 5 && l.marks.result == 5
    && FirstOnes(l.handoffs) && AllStable(l, events, room) && Series(events) && |events| == ROUND
  }

  lemma NotInWindow(events: seq<Event>, k: nat)
    requires k < |events| && Series(events)
    ensures !Known(Window(events, k), events[k])
  {
    var all, w := events + events, Window(events, k);
    forall i | 0 <= i < |w|
      ensures w[i].id != events[k].id
    {
      var j := i + k + 1;
      assert w[i] == all[j] == if j < |events| then events[j] else events[j - |events|];
    }
  }

  lemma EntryIsItself(l: Ledger, events: seq<Event>, room: Room, k: nat)
    requires Turning(l, events, room) && k < |events|
    ensures Entry(l, events[k]) == events[k]
  {
    var e := events[k];
    assert Stable(l, e, room) && Failing(e);
    assert LatestId(l.handoffs, e.id.base) == Some(ResultId(e.id.base, None));
  }

  lemma WindowTurns(events: seq<Event>, k: nat)
    requires k < |events| == ROUND
    ensures Tail(Window(events, k) + [events[k]], HISTORY) == Window(events, k + 1)
  {
    assert (events + events)[k + |events|] == events[k];
  }

  lemma Turns(l: Ledger, events: seq<Event>, room: Room, k: nat)
    requires Turning(l, events, room) && k < |events| && l.events == Window(events, k)
    ensures Process(l, events[k], room) == l.(events := Window(events, k + 1))
  {
    var e := events[k];
    assert Stable(l, e, room) && Failing(e);
    StableRecords(l, e, room);
    EntryIsItself(l, events, room, k);
    NotInWindow(events, k);
    WindowTurns(events, k);
    assert Handoffs.Marked(l.marks, e) == l.marks;
  }

  lemma {:induction false} TurnsOn(l: Ledger, events: seq<Event>, room: Room, k: nat)
    requires Turning(l, events, room) && k <= |events| && l.events == Window(events, k)
    ensures ProcessAll(l, events[k..], room) == l.(events := Window(events, |events|))
    decreases |events| - k
  {
    if k < |events| {
      var p := l.(events := Window(events, k + 1));
      Turns(l, events, room, k);
      assert events[k..][0] == events[k] && events[k..][1..] == events[k + 1..];
      assert forall i :: 0 <= i < |events| ==> Stable(l, events[i], room) == Stable(p, events[i], room);
      TurnsOn(p, events, room, k + 1);
    } else {
      assert events[k..] == [] && l.(events := l.events) == l;
    }
  }

  lemma ComesRound(l: Ledger, events: seq<Event>, room: Room)
    requires Turning(l, events, room) && l.events == events[1..]
    ensures ProcessAll(l, events, room) == l && !Retained(l, events[0])
  {
    assert Window(events, 0) == events[1..] == Window(events, |events|);
    assert events[0..] == events && l.(events := l.events) == l;
    TurnsOn(l, events, room, 0);
    NotInWindow(events, 0);
    EntryIsItself(l, events, room, 0);
    assert Failing(events[0]);
  }

  // ----- a room with that many replies

  function Name(i: nat): string
    requires i < 1000
  {
    [(i + 65) as char]
  }

  function Spent(i: nat): Job
    requires i < 1000
  {
    Job(Name(i), 1, Failed, false, Some(5), 0, "a", ["a"])
  }

  function Jobs(n: nat): (r: seq<Job>)
    requires n < 1000
    ensures |r| == n && forall i :: 0 <= i < n ==> r[i] == Spent(i)
  {
    seq(n, i requires 0 <= i < n => Spent(i))
  }

  function Failures(n: nat): (r: seq<Event>)
    requires n < 1000
    ensures |r| == n && forall i :: 0 <= i < n ==> r[i] == ResultOf(Base.Reply(Name(i)), "", 5, 1, StateName(Failed))
  {
    seq(n, i requires 0 <= i < n => ResultOf(Base.Reply(Name(i)), "", 5, 1, StateName(Failed)))
  }

  function Busy(): Room { Room([ASKED], {}, Jobs(ROUND), map[], []) }

  lemma FailuresSeries(n: nat)
    requires n < 1000
    ensures Series(Failures(n)) && DistinctJobs(Jobs(n))
  {
    forall i, j | 0 <= i < j < n
      ensures Name(i) != Name(j)
    {
      assert Name(i)[0] != Name(j)[0];
    }
  }

  lemma {:induction false} SpentReplies(n: nat, k: nat, since: int)
    requires k <= n < 1000 && since <= 5
    ensures Replies(Jobs(n)[k..], [ASKED], 1, since) == Failures(n)[k..]
    decreases n - k
  {
    if k < n {
      var jobs := Jobs(n)[k..];
      One(ASKED, 1, 0);
      assert jobs[0] == Spent(k) && jobs[1..] == Jobs(n)[k + 1..];
      assert ReplyReady(Spent(k), [ASKED], 1, since);
      SpentReplies(n, k + 1, since);
      assert Failures(n)[k..] == [Failures(n)[k]] + Failures(n)[k + 1..];
    } else {
      assert Jobs(n)[k..] == [] && Failures(n)[k..] == [];
    }
  }

  lemma BusyCollects(l: Ledger)
    requires l.start == 1 && l.marks.result <= 5
    ensures Collect(l, Busy()) == (if l.marks.assignment < 2 then [AssignmentOf(ASKED)] else []) + Failures(ROUND)
  {
    One(ASKED, 1, l.marks.assignment);
    SpentReplies(ROUND, 0, l.marks.result);
    assert Jobs(ROUND)[0..] == Jobs(ROUND) && Failures(ROUND)[0..] == Failures(ROUND);
    assert Ends([], Busy(), 1, l.marks.result) == [];
  }

  lemma BusyFits(l: Ledger)
    requires l.handoffs == [] && l.run.state == Pending
    ensures Fit(l, Busy()) && Visit(Busy().order, Busy())
  {
    FailuresSeries(ROUND);
  }

  lemma AskedFirst(events: seq<Event>)
    requires events == Failures(ROUND)
    ensures ByTime([AssignmentOf(ASKED)] + events) == [AssignmentOf(ASKED)] + events
  {
    SortedAlready(events);
    assert ([AssignmentOf(ASKED)] + events)[1..] == events;
  }

  lemma AskedReady(l: Ledger, a: Event, events: seq<Event>, room: Room)
    requires l == Fresh("r", 1) && a == AssignmentOf(ASKED) && events == Failures(ROUND)
    ensures var p := Process(l, a, room); p.events == [a] && p.marks.assignment == 2 && p.start == 1 && p.run == l.run && Ready(p, events)
    ensures Process(l, a, room).marks.completedThrough == 0
  {
    assert [] + [a] == [a];
  }

  /** The run after its first loop. */
  ghost predicate Filled(l: Ledger, events: seq<Event>)
    requires events != []
  {
    && l.run.state == Pending && l.start == 1 && l.marks.assignment == 2 && l.marks.completedThrough == 0
    && l.marks.result == 5 && FirstOnes(l.handoffs) && l.events == events[1..]
  }

  lemma FillsUp(p: Ledger, a: Event, events: seq<Event>, room: Room)
    requires p.events == [a] && p.marks.assignment == 2 && p.marks.completedThrough == 0 && p.start == 1
    requires Ready(p, events) && Series(events) && |events| == ROUND
    ensures Filled(ProcessAll(p, events, room), events)
  {
    OpensAll(p, events, room);
    assert Tail([a] + events, HISTORY) == events[1..];
  }

  /** The first reconciliation of a new run. */
  lemma BusyOnce(l: Ledger, now: int)
    requires l == Fresh("r", 1)
    ensures Filled(Reconcile(l, Busy(), now), Failures(ROUND))
  {
    var a, events := AssignmentOf(ASKED), Failures(ROUND);
    PlainPrepared(l, Busy());
    BusyCollects(l);
    AskedFirst(events);
    AskedReady(l, a, events, Busy());
    FailuresSeries(ROUND);
    ProcessFirst(l, a, events, Busy());
    FillsUp(Process(l, a, Busy()), a, events, Busy());
  }

  lemma BusyTwice(l: Ledger, now: int)
    requires Turning(l, Failures(ROUND), Busy()) && l.start == 1 && l.marks.assignment == 2
    requires l.events == Failures(ROUND)[1..] && EndWaits(l.handoffs, Busy(), now) == l.handoffs
    ensures Reconcile(l, Busy(), now) == l && Again(l, Busy(), []) == Failures(ROUND)
    ensures !Retained(l, Failures(ROUND)[0])
  {
    var events := Failures(ROUND);
    PlainPrepared(l, Busy());
    BusyCollects(l);
    assert [] + events == events && Busy().(order := []) == Busy();
    SortedAlready(events);
    ComesRound(l, events, Busy());
    assert l.(handoffs := l.handoffs) == l;
  }

  /** With 201 replies that end at one time the second reconciliation records each
      of them again, every entry evicting the next, and leaves the run as it was. */
  lemma LongRoundReturns() returns (run: seq<Step>, l: Ledger, room: Room, now: int, later: int)
    ensures Exec(EMPTY, run).ledger == Some(l) && Fit(l, room) && Visit(room.order, room) && now < later
    ensures var l1 := Reconcile(l, room, now);
      && |Again(l1, room, room.order)| == HISTORY + 1 && Reconcile(l1, room, later) == l1
      && exists e :: e in Again(l1, room, room.order) && !Retained(l1, e)
  {
    run, l, room, now, later := [ControlStep(StartAction, "r", 1, NOTHING, 1, true)], Fresh("r", 1), Busy(), 6, 7;
    Starts("r");
    ExecPlus(EMPTY, [], run[0]);
    assert [] + [run[0]] == run;
    var l1, events := Reconcile(l, room, now), Failures(ROUND);
    BusyFits(l);
    BusyOnce(l, now);
    FailuresSeries(ROUND);
    BusyCollects(l1);
    assert [] + events == events && room.(order := []) == room;
    SortedAlready(events);
    AgainStable(l, room, room.order, now);
    EndWaitsTwice(Loop(l, room).handoffs, room, [], now, later);
    BusyTwice(l1, later);
    assert events[0] in events;
  }
}
