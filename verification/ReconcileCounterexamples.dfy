/** Two runs, from an empty room, whose ledgers a second reconciliation changes. */
module ReconcileCounterexamples {
  import opened Options
  import opened Rooms
  import opened Text
  import opened Continuations
  import opened Handoffs
  import opened HandoffReports
  import opened HandoffShape
  import opened ReconcileEvents
  import opened ReconcileFixpoint
  import opened ReconcileTwice
  import opened ReconcileTheorems
  import opened ReconcileHistory
  import opened ReconcileComplete

  // ----- small rooms

  lemma {:induction false} ExecPlus(b: Books, run: seq<Step>, step: Step)
    ensures Exec(b, run + [step]) == Next(Exec(b, run), step)
    decreases |run|
  {
    if run == [] {
      assert [] + [step] == [step] && [step][1..] == [];
      assert Exec(b, [step]) == Exec(Next(b, step), []);
    } else {
      assert (run + [step])[1..] == run[1..] + [step];
      ExecPlus(Next(b, run[0]), run[1..], step);
    }
  }

  const NOTHING := Room([], {}, [], map[], [])

  /** A request for a reply. */
  function Ask(sequence: nat, at: int): Message {
    Message(sequence, ChatGPT, true, false, Post("review", 0, ["a"], "", ""), "", "", at, None, None)
  }

  lemma One(m: Message, start: nat, after: int)
    requires Counts(m, start)
    ensures Assignments([m], start, after) == if m.createdAt > after then [AssignmentOf(m)] else []
    ensures IsSource([m], start, m.sequence)
  {
    assert [m][1..] == [] && Assignments([], start, after) == [];
    assert [m][0] == m;
  }

  lemma Undispatched(hs: seq<Handoff>, reviews: seq<Continuation>, ms: seq<Message>, run: string, start: nat, room: Room)
    requires forall m :: m in ms ==> m.dispatch.None?
    ensures AcceptAll(hs, ms, run, start, room) == hs && RegisterAll(reviews, ms, run, start, room) == reviews
    decreases |ms|
  {
    if ms != [] {
      assert ms[0] in ms && forall m :: m in ms[1..] ==> m in ms;
      Undispatched(hs, reviews, ms[1..], run, start, room);
    }
  }

  lemma ProcessOne(l: Ledger, a: Event, room: Room)
    ensures ProcessAll(l, [a], room) == Process(l, a, room)
  {
    assert [a][1..] == [] && ProcessAll(Process(l, a, room), [], room) == Process(l, a, room);
  }

  lemma ProcessTwo(l: Ledger, a: Event, b: Event, room: Room)
    ensures ProcessAll(l, [a, b], room) == Process(Process(l, a, room), b, room)
  {
    assert [a, b][1..] == [b];
    ProcessOne(Process(l, a, room), b, room);
  }

  lemma SortOne(a: Event)
    ensures ByTime([] + [a]) == [a] && ByTime([a]) == [a]
  {
    assert [] + [a] == [a] && [a][1..] == [];
    assert ByTime([]) == [] && InsertByTime(a, []) == [a];
  }

  /** Sorted already. */
  lemma SortTwo(a: Event, b: Event)
    requires a.at < b.at
    ensures ByTime([a] + [b]) == [a, b]
  {
    assert ([a] + [b])[1..] == [b];
    SortOne(b);
    assert InsertByTime(a, [b]) == [a] + [b];
  }

  /** A run starts in an empty room. */
  lemma Starts(id: string)
    ensures Next(EMPTY, ControlStep(StartAction, id, 1, NOTHING, 1, true)) == Books(Some(Fresh(id, 1)), None)
  {
    var l := Fresh(id, 1);
    assert Collect(l, NOTHING) == [] && ByTime([]) == [];
    assert ProcessAll(l, [], NOTHING) == l && EndWaits([], NOTHING, 1) == [];
    assert Prepared(l, NOTHING) == l;
  }

  /** A coordinator's report to a run that is reconciled already, before and after. */
  lemma Reports(l: Ledger, a: Ledger, e: Ledger, r: Report, room: Room, now: int)
    requires WellFormed(r) && r.kind.Coordinator? && CurrentRun(Some(l), r.run) && Grounded(l, r)
    requires Reconcile(l, room, now) == l && !Known(l.events, ReportEvent(r, now))
    requires MayReport(l, r, room) && Completing(l, r, room, now) == Some(l) && CoordinatorReported(l, r, room, now) == a
    requires a.(events := Record(a.events, ReportEvent(r, now))) == e && Reconcile(e, room, now) == e
    ensures ReportStep(Books(Some(l), None), r, room, now, None, "", true) == Books(Some(e), None)
  {
    assert FirstKnown(l.events, ReportEvent(r, now)) == |l.events|;
  }

  // ----- a run that is reported complete

  const J := Base.Reply("j")

  /** The one reply job, at the end of an attempt. */
  function Tried(state: JobState, at: int, answer: nat): Job { Job("j", 1, state, false, Some(at), answer, "a", ["a"]) }

  function Result(state: JobState, at: int): Event { ResultOf(J, "", at, 1, StateName(state)) }

  function With(messages: seq<Message>, j: Job): Room { Room(messages, {}, [j], map[], []) }

  function ResultFacts(state: JobState, at: int, answer: nat): Facts { Facts(1, answer, "a", StateName(state), at) }

  lemma TriedFacts(messages: seq<Message>, state: JobState, at: int, answer: nat)
    requires forall m :: m in messages ==> m.workflow == ""
    ensures FactsFor(Result(state, at), 1, With(messages, Tried(state, at, answer))) == ResultFacts(state, at, answer)
  {
    var jobs := [Tried(state, at, answer)];
    assert jobs[1..] == [];
    Unworked(messages, J, "a", answer);
    assert ReplyFacts(jobs, J, TargetOf(messages, 1, 1), 0) == ReplyFacts([], J, "a", answer) == ("a", answer);
  }

  lemma {:induction false} Unworked(messages: seq<Message>, base: Base, participant: string, answer: nat)
    requires forall m :: m in messages ==> m.workflow == "" || !m.author.Agent?
    ensures WorkFacts(messages, base, participant, answer) == (participant, answer)
    decreases |messages|
  {
    if messages != [] {
      assert messages[0] in messages && forall m :: m in messages[1..] ==> m in messages;
      Unworked(messages[1..], base, participant, answer);
    }
  }

  lemma TriedReplies(messages: seq<Message>, state: JobState, at: int, answer: nat, since: int)
    requires Terminal(state) && IsSource(messages, 1, 1) && at >= since
    ensures Replies([Tried(state, at, answer)], messages, 1, since) == [Result(state, at)]
  {
    var j := Tried(state, at, answer);
    assert [j][1..] == [] && ReplyReady(j, messages, 1, since);
  }

  const ASKED := Ask(1, 2)
  const FAILED_ROOM := With([ASKED], Tried(Failed, 5, 0))

  lemma FailedCollects(l: Ledger)
    requires l.start == 1 && l.marks.result <= 5
    ensures Collect(l, FAILED_ROOM) == (if l.marks.assignment < 2 then [AssignmentOf(ASKED)] else []) + [Result(Failed, 5)]
  {
    One(ASKED, 1, l.marks.assignment);
    TriedReplies([ASKED], Failed, 5, 0, l.marks.result);
    assert Ends([], FAILED_ROOM, 1, l.marks.result) == [];
  }

  function Opened(): Handoff { NewHandoff(ResultId(J, None), ResultFacts(Failed, 5, 0), false) }

  /** Nothing to accept, to register or to wait for. */
  lemma PlainPrepared(l: Ledger, room: Room)
    requires (forall m :: m in room.messages ==> m.dispatch.None?) && room.order == []
    ensures Prepared(l, room) == l
  {
    Undispatched(l.handoffs, l.run.reviews, room.messages, l.run.id, l.start, room);
    assert AwaitAll(l.handoffs, [], room, l.start) == l.handoffs;
  }

  lemma PlainEnds(hs: seq<Handoff>, room: Room, now: int)
    requires forall i :: 0 <= i < |hs| ==> hs[i].wait.target == ""
    ensures EndWaits(hs, room, now) == hs
  {
  }

  function Polled(): Ledger {
    var l := Fresh("r", 1);
    l.(handoffs := [Opened()], events := [AssignmentOf(ASKED), Result(Failed, 5)], marks := l.marks.(assignment := 2, result := 5))
  }

  lemma FirstAssigned(l: Ledger)
    requires l == Fresh("r", 1)
    ensures Process(l, AssignmentOf(ASKED), FAILED_ROOM) == l.(events := [AssignmentOf(ASKED)], marks := l.marks.(assignment := 2))
  {
    assert [] + [AssignmentOf(ASKED)] == [AssignmentOf(ASKED)];
  }

  lemma FirstFailed(l: Ledger)
    requires l.handoffs == [] && l.run.state == Pending && l.start == 1 && l.events == [AssignmentOf(ASKED)]
    requires l.marks.completedThrough == 0 && l.marks.legacyThrough == 0
    ensures Process(l, Result(Failed, 5), FAILED_ROOM) ==
      l.(handoffs := [Opened()], events := [AssignmentOf(ASKED), Result(Failed, 5)], marks := l.marks.(result := 5))
  {
    TriedFacts([ASKED], Failed, 5, 0);
    assert [] + [Opened()] == [Opened()];
    assert Hand([], J, ResultFacts(Failed, 5, 0), 0) == ([Opened()], ResultId(J, None));
    assert [AssignmentOf(ASKED)] + [Result(Failed, 5)] == [AssignmentOf(ASKED), Result(Failed, 5)];
  }

  lemma PollsFailed(l: Ledger)
    requires l == Fresh("r", 1)
    ensures Reconcile(l, FAILED_ROOM, 6) == Polled()
  {
    var a, e := AssignmentOf(ASKED), Result(Failed, 5);
    PlainPrepared(l, FAILED_ROOM);
    FailedCollects(l);
    SortTwo(a, e);
    ProcessTwo(l, a, e, FAILED_ROOM);
    FirstAssigned(l);
    FirstFailed(Process(l, a, FAILED_ROOM));
    PlainEnds([Opened()], FAILED_ROOM, 6);
  }

  /** Polling the same room again changes nothing, whether the run goes on or not. */
  lemma FailedAgain(l: Ledger, now: int)
    requires l.start == 1 && l.marks.assignment == 2 && l.marks.result == 5 && Known(l.events, Result(Failed, 5))
    requires l.marks.completedThrough >= 5 || (l.handoffs == [Opened()] && l.run.state == Pending)
    requires forall i :: 0 <= i < |l.handoffs| ==> l.handoffs[i].wait.target == ""
    ensures Reconcile(l, FAILED_ROOM, now) == l
  {
    var e := Result(Failed, 5);
    PlainPrepared(l, FAILED_ROOM);
    FailedCollects(l);
    SortOne(e);
    ProcessOne(l, e, FAILED_ROOM);
    if l.marks.completedThrough < 5 {
      TriedFacts([ASKED], Failed, 5, 0);
      assert Latest([Opened()], J) == Some(0) by {
        assert [] + [Opened()] == [Opened()];
      }
      assert l.(handoffs := [Opened()]) == l;
    }
    PlainEnds(l.handoffs, FAILED_ROOM, now);
  }

  function Done(): Report { Report("r", "done", Coordinator, None, "complete", "", NO_UPDATE) }

  function Closed(): Handoff { Opened().(disposition := Disposition(ReportedComplete, 7, 0)) }

  function Completed(): Ledger {
    Polled().(run := Run("r", Complete, []), handoffs := [Closed()], marks := Polled().marks.(completedThrough := 7),
              events := Polled().events + [ReportEvent(Done(), 7)])
  }

  lemma PolledKnows()
    ensures Known(Polled().events, Result(Failed, 5)) && !Known(Polled().events, ReportEvent(Done(), 7))
  {
    assert Polled().events[1] == Result(Failed, 5);
  }

  lemma MayComplete()
    ensures MayReport(Polled(), Done(), FAILED_ROOM) && Completing(Polled(), Done(), FAILED_ROOM, 7) == Some(Polled())
  {
    PolledKnows();
    FailedAgain(Polled(), 7);
  }

  lemma ClosesHandoff()
    ensures CoordinatorReported(Polled(), Done(), FAILED_ROOM, 7) == Completed().(events := Polled().events)
  {
    var l, r := Polled(), Done();
    assert CloseAll([Opened()], r, 7) == [Closed()];
    assert Cancel([], FAILED_ROOM.messages, FAILED_ROOM.jobs, Ended("complete")) == [];
  }

  lemma WellDone()
    ensures WellFormed(Done()) && CurrentRun(Some(Polled()), "r") && Grounded(Polled(), Done())
  {
    assert Trim("") == "";
  }

  lemma CompletedAgain()
    ensures Reconcile(Completed(), FAILED_ROOM, 7) == Completed()
  {
    assert Completed().events[1] == Result(Failed, 5);
    FailedAgain(Completed(), 7);
  }

  /** The coordinator reports completion, which is recorded and closes the handoff. */
  lemma ReportsDone()
    ensures ReportStep(Books(Some(Polled()), None), Done(), FAILED_ROOM, 7, None, "", true) == Books(Some(Completed()), None)
  {
    WellDone();
    PolledKnows();
    FailedAgain(Polled(), 7);
    MayComplete();
    ClosesHandoff();
    CompletedAgain();
    Reports(Polled(), Completed().(events := Polled().events), Completed(), Done(), FAILED_ROOM, 7);
  }

  function CompleteRun(): seq<Step> {
    [ControlStep(StartAction, "r", 1, NOTHING, 1, true)] + [StatusStep(FAILED_ROOM, 6, true)]
      + [Reporting(Done(), FAILED_ROOM, 7, None, "", true)]
  }

  lemma CompletesRun()
    ensures Exec(EMPTY, CompleteRun()) == Books(Some(Completed()), None)
  {
    var start := [ControlStep(StartAction, "r", 1, NOTHING, 1, true)];
    assert [] + start == start;
    ExecPlus(EMPTY, [], start[0]);
    Starts("r");
    ExecPlus(EMPTY, start, StatusStep(FAILED_ROOM, 6, true));
    PollsFailed(Fresh("r", 1));
    ExecPlus(EMPTY, start + [StatusStep(FAILED_ROOM, 6, true)], Reporting(Done(), FAILED_ROOM, 7, None, "", true));
    ReportsDone();
  }

  // ----- the reply is retried, and the next assignment follows its answer

  const ANSWER := Message(2, Agent("a"), true, false, Post("done", 1, [], "", ""), "", "", 8, None, None)
  const MESSAGES := [ASKED, ANSWER, Ask(3, 9)]
  const RETRIED := With(MESSAGES, Tried(Answered, 8, 2))

  lemma RetriedCollects(l: Ledger)
    requires l.start == 1 && l.marks.assignment == 2 && l.marks.result == 5
    ensures Collect(l, RETRIED) == [AssignmentOf(Ask(3, 9))] + [Result(Answered, 8)]
  {
    One(Ask(3, 9), 1, 2);
    assert MESSAGES[1..] == [ANSWER, Ask(3, 9)] && MESSAGES[1..][1..] == [Ask(3, 9)];
    assert Assignments(MESSAGES[1..], 1, 2) == [] + Assignments([Ask(3, 9)], 1, 2);
    assert Assignments(MESSAGES, 1, 2) == [] + Assignments(MESSAGES[1..], 1, 2);
    assert MESSAGES[0] == ASKED;
    TriedReplies(MESSAGES, Answered, 8, 2, 5);
    assert Ends([], RETRIED, 1, 5) == [];
  }

  lemma {:induction false} ResultMarkBelow(l: Ledger, events: seq<Event>, room: Room, bound: int)
    requires l.marks.result <= bound && forall e :: e in events && !IsAssignment(e) ==> e.at <= bound
    ensures ProcessAll(l, events, room).marks.result <= bound
    decreases |events|
  {
    if events != [] {
      assert events[0] in events && forall e :: e in events[1..] ==> e in events;
      ResultMarkBelow(Process(l, events[0], room), events[1..], room, bound);
    }
  }

  lemma RetriedMarks(l: Ledger, now: int)
    requires l.start == 1 && l.marks.assignment == 2 && l.marks.result == 5
    ensures Reconcile(l, RETRIED, now).marks.result <= 8
  {
    RetriedCollects(l);
    ByTimeIs(Collect(l, RETRIED));
    ResultMarkBelow(Prepared(l, RETRIED), ByTime(Collect(l, RETRIED)), RETRIED, 8);
  }

  lemma RetriedMissed(l: Ledger, mark: int)
    requires l.start == 1 && l.handoffs == [Closed()] && l.marks.completedThrough == 7 && mark <= 8
    ensures Missed(l, RETRIED, mark, Result(Answered, 8))
  {
    PlainPrepared(l, RETRIED);
    TriedFacts(MESSAGES, Answered, 8, 2);
    assert Latest([Closed()], J) == Some(0) by {
      assert [] + [Closed()] == [Closed()];
    }
  }

  lemma RetriedOvertaken(l: Ledger, mark: int)
    requires l.start == 1 && l.marks.assignment == 2 && l.marks.result == 5 && Missed(l, RETRIED, mark, Result(Answered, 8))
    ensures Overtaken(l, RETRIED, mark)
  {
    var a, e := AssignmentOf(Ask(3, 9)), Result(Answered, 8);
    RetriedCollects(l);
    assert Collect(l, RETRIED)[0] == a && Collect(l, RETRIED)[1] == e;
  }

  lemma RetriedSuits()
    ensures Suits(Completed(), RETRIED) && Visit(RETRIED.order, RETRIED) && Numbered(Completed(), RETRIED)
  {
    forall m | m in RETRIED.messages && Known(Completed().events, AssignmentOf(m))
      ensures m.createdAt <= 2
    {
    }
  }

  /** A run that is complete on entry need not settle: the answer of a retried
      reply is passed over, the assignment behind it puts the run back to pending,
      and the next reconciliation hands the answer over. */
  lemma CompleteRunUnsettled() returns (run: seq<Step>, l: Ledger, room: Room, now: int, later: int)
    ensures Exec(EMPTY, run).ledger == Some(l) && l.run.state == Complete && Suits(l, room) && now < later
    ensures Reconcile(Reconcile(l, room, now), room, later).handoffs != Reconcile(l, room, now).handoffs
  {
    run, l, room, now, later := CompleteRun(), Completed(), RETRIED, 10, 11;
    CompletesRun();
    RetriedMarks(l, now);
    RetriedMissed(l, Reconcile(l, room, now).marks.result);
    RetriedOvertaken(l, Reconcile(l, room, now).marks.result);
    RetriedSuits();
    CompleteSettlesIff(l, room, now, room.order, later);
    assert room.(order := room.order) == room;
  }

  // ----- a full history

  const W := Base.Work("w")
  const ATTENTION := "needs_attention"
  const TASK := Message(1, ChatGPT, true, true, Post("task", 0, [], "", ""), "codex", "w", 2, Some("m"), None)

  /** The one workflow needs attention since `at`, which moves while it does. */
  function Needing(messages: seq<Message>, at: int): Room {
    Room(messages, {}, [], map["w" := Workflow([1], EndedWork(ATTENTION), at, None, false)], ["w"])
  }

  function Attention(at: int): Event { ResultOf(W, ATTENTION, at, 1, ATTENTION) }

  function AttentionFacts(at: int): Facts { Facts(1, 0, "codex", ATTENTION, at) }

  function Attended(): Handoff { NewHandoff(ResultId(W, None), AttentionFacts(3), false) }

  /** The work asked for, and perhaps a later request for a reply. */
  predicate TaskFirst(ms: seq<Message>) { ms == [TASK] || ms == [TASK, Ask(2, 10)] }

  lemma NeedingFacts(ms: seq<Message>, at: int)
    requires TaskFirst(ms)
    ensures FactsFor(Attention(at), 1, Needing(ms, at)) == AttentionFacts(at)
    ensures IsSource(ms, 1, 1) && forall m :: m in ms ==> m.dispatch.None?
  {
    assert ms[0] == TASK && (|ms| == 2 ==> ms[..1] == [TASK] && ms[1] == Ask(2, 10)) && [TASK][..0] == [];
    assert TargetOf([TASK], 1, 1) == "codex";
    assert TargetOf([TASK, Ask(2, 10)], 1, 1) == TargetOf([TASK, Ask(2, 10)][..1], 1, 1);
    Unworked(ms, W, "codex", 0);
  }

  lemma NeedingEnds(ms: seq<Message>, at: int, since: int)
    requires TaskFirst(ms) && at >= since
    ensures Ends(["w"], Needing(ms, at), 1, since) == [Attention(at)]
  {
    NeedingFacts(ms, at);
    assert FirstSource([1], ms, 1) == 1;
    assert WorkReady(Needing(ms, at).workflows["w"], ms, 1, since);
    assert ["w"][1..] == [];
  }

  lemma NeedingPrepared(l: Ledger, ms: seq<Message>, at: int)
    requires TaskFirst(ms)
    ensures Prepared(l, Needing(ms, at)) == l
  {
    NeedingFacts(ms, at);
    Undispatched(l.handoffs, l.run.reviews, ms, l.run.id, l.start, Needing(ms, at));
    assert ["w"][1..] == [];
    assert AwaitAll(l.handoffs, ["w"], Needing(ms, at), l.start) == l.handoffs;
  }

  const QUIET := Needing([TASK], 3)
  const TOUCHED := Needing([TASK, Ask(2, 10)], 9)

  lemma QuietCollects(l: Ledger)
    requires l.start == 1 && l.marks.result <= 3
    ensures Collect(l, QUIET) == (if l.marks.assignment < 2 then [AssignmentOf(TASK)] else []) + [Attention(3)]
  {
    One(TASK, 1, l.marks.assignment);
    NeedingEnds([TASK], 3, l.marks.result);
    assert Replies([], [TASK], 1, l.marks.result) == [];
  }

  function HandedOver(): Ledger {
    var l := Fresh("r", 1);
    l.(handoffs := [Attended()], events := [AssignmentOf(TASK), Attention(3)], marks := l.marks.(assignment := 2, result := 3))
  }

  lemma FirstTask(l: Ledger)
    requires l == Fresh("r", 1)
    ensures Process(l, AssignmentOf(TASK), QUIET) == l.(events := [AssignmentOf(TASK)], marks := l.marks.(assignment := 2))
  {
    assert [] + [AssignmentOf(TASK)] == [AssignmentOf(TASK)];
  }

  lemma FirstAttention(l: Ledger)
    requires l.handoffs == [] && l.run.state == Pending && l.start == 1 && l.events == [AssignmentOf(TASK)]
    requires l.marks.completedThrough == 0 && l.marks.legacyThrough == 0
    ensures Process(l, Attention(3), QUIET) ==
      l.(handoffs := [Attended()], events := [AssignmentOf(TASK), Attention(3)], marks := l.marks.(result := 3))
  {
    NeedingFacts([TASK], 3);
    assert [] + [Attended()] == [Attended()];
    assert Hand([], W, AttentionFacts(3), 0) == ([Attended()], ResultId(W, None));
    assert [AssignmentOf(TASK)] + [Attention(3)] == [AssignmentOf(TASK), Attention(3)];
  }

  lemma PollsTask(l: Ledger)
    requires l == Fresh("r", 1)
    ensures Reconcile(l, QUIET, 4) == HandedOver()
  {
    var a, e := AssignmentOf(TASK), Attention(3);
    NeedingPrepared(l, [TASK], 3);
    QuietCollects(l);
    SortTwo(a, e);
    ProcessTwo(l, a, e, QUIET);
    FirstTask(l);
    FirstAttention(Process(l, a, QUIET));
    PlainEnds([Attended()], QUIET, 4);
  }

  /** A result of the family that says nothing new is recorded, if at all, under
      the identity of the handoff that stands for it. */
  lemma NothingNew(l: Ledger, ms: seq<Message>, at: int)
    requires TaskFirst(ms) && at >= 3
    requires l.handoffs == [Attended()] && l.start == 1 && l.run.state == Pending && l.marks.completedThrough == 0
    ensures Process(l, Attention(at), Needing(ms, at)) == Noted(l, Attention(at))
  {
    NeedingFacts(ms, at);
    assert Latest([Attended()], W) == Some(0) by {
      assert [] + [Attended()] == [Attended()];
    }
    assert l.(handoffs := [Attended()]) == l;
  }

  lemma QuietAgain(l: Ledger, now: int)
    requires l.handoffs == [Attended()] && l.start == 1 && l.run.state == Pending && l.marks.completedThrough == 0
    requires l.marks.assignment == 2 && l.marks.result == 3 && Known(l.events, Attention(3))
    ensures Reconcile(l, QUIET, now) == l
  {
    NeedingPrepared(l, [TASK], 3);
    QuietCollects(l);
    SortOne(Attention(3));
    ProcessOne(l, Attention(3), QUIET);
    NothingNew(l, [TASK], 3);
    PlainEnds([Attended()], QUIET, now);
  }

  // ----- the coordinator reports 199 times

  function Going(i: nat): Report
    requires i < 1000
  {
    Report("r", [(i + 65) as char], Coordinator, None, "pending", "next", NO_UPDATE)
  }

  function Reported(n: nat): (r: seq<Event>)
    requires n < 1000
    ensures |r| == n
  {
    seq(n, i requires 0 <= i < n => ReportEvent(Going(i), 5))
  }

  function After(n: nat): Ledger
    requires n < 1000
  {
    var l := HandedOver();
    l.(events := Tail(l.events + Reported(n), HISTORY), notes := if n == 0 then l.notes else l.notes.(detail := "next"))
  }

  lemma AfterKnows(n: nat)
    requires n <= 199
    ensures Known(After(n).events, Attention(3)) && !Known(After(n).events, ReportEvent(Going(n), 5))
  {
    var all := HandedOver().events + Reported(n);
    assert all[1] == Attention(3);
    var i := if n == 199 then 0 else 1;
    assert After(n).events[i] == Attention(3);
    assert forall k :: 0 <= k < |Reported(n)| ==> Reported(n)[k].id == OfClient([(k + 65) as char]);
  }

  lemma WellGoing(n: nat, l: Ledger)
    requires n < 1000 && l.run.id == "r" && l.run.state == Pending
    ensures WellFormed(Going(n)) && CurrentRun(Some(l), "r") && Grounded(l, Going(n))
  {
    assert Trim("next") == "next";
  }

  lemma GoingReported(n: nat)
    requires n < 199
    ensures CoordinatorReported(After(n), Going(n), QUIET, 5) == After(n + 1).(events := After(n).events)
  {
    assert CloseAll([Attended()], Going(n), 5) == [Attended()];
  }

  lemma GoingRecorded(n: nat)
    requires n < 199
    ensures Record(After(n).events, ReportEvent(Going(n), 5)) == After(n + 1).events
  {
    AfterKnows(n);
    var e := ReportEvent(Going(n), 5);
    TailAppend(HandedOver().events + Reported(n), [e], HISTORY);
    assert HandedOver().events + Reported(n + 1) == (HandedOver().events + Reported(n)) + [e];
  }

  lemma ReportsGoing(n: nat)
    requires n < 199
    ensures ReportStep(Books(Some(After(n)), None), Going(n), QUIET, 5, None, "", true) == Books(Some(After(n + 1)), None)
  {
    AfterKnows(n);
    AfterKnows(n + 1);
    WellGoing(n, After(n));
    QuietAgain(After(n), 5);
    QuietAgain(After(n + 1), 5);
    GoingReported(n);
    GoingRecorded(n);
    Reports(After(n), After(n + 1).(events := After(n).events), After(n + 1), Going(n), QUIET, 5);
  }

  lemma {:induction false} FillsHistory(n: nat) returns (run: seq<Step>)
    requires n <= 199
    ensures Exec(EMPTY, run) == Books(Some(After(n)), None)
    decreases n
  {
    if n == 0 {
      var start := [ControlStep(StartAction, "r", 1, NOTHING, 1, true)];
      assert [] + start == start;
      ExecPlus(EMPTY, [], start[0]);
      Starts("r");
      ExecPlus(EMPTY, start, StatusStep(QUIET, 4, true));
      PollsTask(Fresh("r", 1));
      run := start + [StatusStep(QUIET, 4, true)];
      assert HandedOver().events + Reported(0) == HandedOver().events;
      assert After(0) == HandedOver();
    } else {
      var before := FillsHistory(n - 1);
      ReportsGoing(n - 1);
      ExecPlus(EMPTY, before, Reporting(Going(n - 1), QUIET, 5, None, "", true));
      run := before + [Reporting(Going(n - 1), QUIET, 5, None, "", true)];
    }
  }

  // ----- and the workflow still needs attention

  lemma TouchedCollects(l: Ledger)
    requires l.start == 1 && (l.marks.assignment == 2 || l.marks.assignment == 10) && l.marks.result <= 9
    ensures Collect(l, TOUCHED) == (if l.marks.assignment == 2 then [AssignmentOf(Ask(2, 10))] else []) + [Attention(9)]
  {
    var ms := [TASK, Ask(2, 10)];
    One(Ask(2, 10), 1, l.marks.assignment);
    assert ms[1..] == [Ask(2, 10)] && Assignments(ms, 1, l.marks.assignment) == [] + Assignments(ms[1..], 1, l.marks.assignment);
    NeedingEnds(ms, 9, l.marks.result);
    assert Replies([], ms, 1, l.marks.result) == [];
  }

  lemma SortSwap(a: Event, b: Event)
    requires b.at < a.at
    ensures ByTime([a] + [b]) == [b, a]
  {
    assert ([a] + [b])[1..] == [b];
    SortOne(b);
    assert InsertByTime(a, []) == [a] && InsertByTime(a, [b]) == [b] + [a];
  }

  /** The oldest entry is the result; recording an assignment evicts it. */
  lemma FullFacts(l: Ledger, a: Event)
    requires l == After(199) && a == AssignmentOf(Ask(2, 10))
    ensures |l.events| == HISTORY && Known(l.events, Attention(9)) && !Known(l.events, a)
    ensures !Known(Record(l.events, a), Attention(9))
  {
    var all := HandedOver().events + Reported(199);
    assert l.events == all[1..];
    assert l.events[0] == Attention(3) && forall k :: 0 < k < |l.events| ==> l.events[k] == Reported(199)[k - 1];
    var r := Record(l.events, a);
    assert r == (l.events + [a])[1..];
    forall k | 0 <= k < |r|
      ensures r[k].id != Attention(9).id
    {
      assert k < |r| - 1 ==> r[k] == l.events[k + 1];
    }
  }

  lemma TouchedOnce(l: Ledger)
    requires l == After(199)
    ensures var l1 := Reconcile(l, TOUCHED, 11);
      l1 == l.(events := Record(l.events, AssignmentOf(Ask(2, 10))), marks := l.marks.(assignment := 10), notes := l.notes.(detail := ""))
  {
    var e, a := Attention(9), AssignmentOf(Ask(2, 10));
    NeedingPrepared(l, [TASK, Ask(2, 10)], 9);
    TouchedCollects(l);
    SortSwap(a, e);
    ProcessTwo(l, e, a, TOUCHED);
    NothingNew(l, [TASK, Ask(2, 10)], 9);
    FullFacts(l, a);
    PlainEnds([Attended()], TOUCHED, 11);
  }

  lemma TouchedTwice(l: Ledger, now: int)
    requires l.handoffs == [Attended()] && l.start == 1 && l.run.state == Pending && l.marks.completedThrough == 0
    requires l.marks.assignment == 10 && l.marks.result == 3 && !Known(l.events, Attention(9))
    ensures Reconcile(l, TOUCHED, now).marks.result == 9
  {
    NeedingPrepared(l, [TASK, Ask(2, 10)], 9);
    TouchedCollects(l);
    SortOne(Attention(9));
    ProcessOne(l, Attention(9), TOUCHED);
    NothingNew(l, [TASK, Ask(2, 10)], 9);
  }

  lemma FullFits()
    ensures Fit(After(199), TOUCHED)
  {
    NeedingFacts([TASK, Ask(2, 10)], 9);
  }

  /** With a full history the high-water marks need not settle: the first
      reconciliation knows the result from an entry that it then evicts, and the
      second one records the result again, and moves its mark to the newer time. */
  lemma FullHistoryUnsettled() returns (run: seq<Step>, l: Ledger, room: Room, now: int, later: int)
    ensures Exec(EMPTY, run).ledger == Some(l) && Fit(l, room) && |l.events| == HISTORY && now < later
    ensures Reconcile(l, room, now).marks.result < Reconcile(Reconcile(l, room, now), room, later).marks.result
  {
    run := FillsHistory(199);
    l, room, now, later := After(199), TOUCHED, 11, 12;
    FullFits();
    FullFacts(l, AssignmentOf(Ask(2, 10)));
    TouchedOnce(l);
    TouchedTwice(Reconcile(l, TOUCHED, 11), 12);
  }
}
