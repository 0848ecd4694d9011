/** The handoff ledger as it is updated in place (internal/room/coordination.go,
    internal/chat/coordination.go). */
module SharedLedger {
  import opened Options
  import opened Rooms
  import C = Continuations
  import opened H = Handoffs
  import FollowUps

  // ----- one round of each loop

  /** What the loop over the messages has still to do, `i` messages on. */
  ghost predicate Reading(l: Ledger, hs: seq<Handoff>, reviews: seq<C.Continuation>, found: seq<Event>, i: nat, room: Room)
    requires i <= |room.messages|
  {
    && AcceptAll(l.handoffs, room.messages, l.run.id, l.start, room) == AcceptAll(hs, room.messages[i..], l.run.id, l.start, room)
    && RegisterAll(l.run.reviews, room.messages, l.run.id, l.start, room) == RegisterAll(reviews, room.messages[i..], l.run.id, l.start, room)
    && Assignments(room.messages, l.start, l.marks.assignment) == found + Assignments(room.messages[i..], l.start, l.marks.assignment)
  }

  function FoundIn(m: Message, start: nat, after: int): seq<Event> {
    if Counts(m, start) && m.createdAt > after then
      [Event(OfAssignment(m.sequence), AssignmentEvent, m.createdAt, None, m.sequence, "", "", NO_UPDATE)]
    else []
  }

  lemma ReadingRound(l: Ledger, hs: seq<Handoff>, reviews: seq<C.Continuation>, found: seq<Event>, i: nat, room: Room)
    requires i < |room.messages| && Reading(l, hs, reviews, found, i, room)
    ensures var m := room.messages[i];
      var accepted := Counts(m, l.start) && Accepted(m, l.run.id, room);
      Reading(l, if accepted then AcceptHandoff(hs, m) else hs, if accepted then C.Register(reviews, m) else reviews,
              found + FoundIn(m, l.start, l.marks.assignment), i + 1, room)
  {
    var m := room.messages[i];
    assert found + (FoundIn(m, l.start, l.marks.assignment) + Assignments(room.messages[i + 1..], l.start, l.marks.assignment))
      == (found + FoundIn(m, l.start, l.marks.assignment)) + Assignments(room.messages[i + 1..], l.start, l.marks.assignment);
  }

  lemma LatestPlus(hs: seq<Handoff>, i: nat, base: Base)
    requires i < |hs|
    ensures Latest(hs[..i + 1], base) ==
      var r := Latest(hs[..i], base);
      if hs[i].id.base == base && (r.None? || hs[i].facts.readyAt > hs[r.value].facts.readyAt) then Some(i) else r
  {
    assert hs[..i + 1][..i] == hs[..i];
  }

  class CoordinationRun {
    var run: C.Run
    var start: nat
    var handoffs: seq<Handoff>
    var marks: Marks
    var events: seq<Event>
    var notes: Notes
    var panels: seq<FollowUps.Panel>

    ghost function View(): Ledger
      reads this
    {
      Ledger(run, start, handoffs, marks, events, notes, panels)
    }

    constructor (l: Ledger)
      ensures View() == l
    {
      run, start, handoffs, marks, events, notes, panels := l.run, l.start, l.handoffs, l.marks, l.events, l.notes, l.panels;
    }

    method HandoffOf(id: ResultId) returns (i: nat)
      ensures i == FindHandoff(handoffs, id)
    {
      i := 0;
      while i < |handoffs| && handoffs[i].id != id
        invariant i <= |handoffs| && forall j :: 0 <= j < i ==> handoffs[j].id != id
      {
        i := i + 1;
      }
    }

    /** False for an event that the history already has. */
    method Record(e: Event) returns (recorded: bool)
      modifies this`events
      ensures recorded == !Known(old(events), e) && events == H.Record(old(events), e)
    {
      var i := 0;
      while i < |events|
        invariant i <= |events| && forall j :: 0 <= j < i ==> !(events[j].id == e.id && events[j].kind == e.kind)
      {
        if events[i].id == e.id && events[i].kind == e.kind {
          return false;
        }
        i := i + 1;
      }
      events := events + [e];
      if |events| > HISTORY {
        events := events[|events| - HISTORY..];
      }
      recorded := true;
    }

    /** A dispatch that is known to be scheduled closes its handoff. */
    method AcceptDispatch(m: Message)
      requires m.dispatch.Some?
      modifies this`handoffs, this`run
      ensures handoffs == AcceptHandoff(old(handoffs), m)
      ensures run == old(run).(reviews := C.Register(old(run).reviews, m))
    {
      if m.dispatch.value.handoff.Some? {
        var i := HandoffOf(m.dispatch.value.handoff.value);
        if i < |handoffs| && Answerable(handoffs[i]) {
          var h := handoffs[i];
          handoffs := handoffs[i := h.(disposition := Disposition(AssignmentAccepted, m.createdAt, m.sequence),
                                       wait := Wait("", "", false, h.wait.since))];
        }
      }
      run := run.(reviews := C.Register(run.reviews, m));
    }

    method ReadMessage(m: Message, room: Room) returns (found: seq<Event>)
      modifies this`handoffs, this`run
      ensures handoffs == if Counts(m, start) && Accepted(m, old(run).id, room) then AcceptHandoff(old(handoffs), m) else old(handoffs)
      ensures run == old(run).(reviews := if Counts(m, start) && Accepted(m, old(run).id, room) then C.Register(old(run).reviews, m) else old(run).reviews)
      ensures found == FoundIn(m, start, marks.assignment)
    {
      found := [];
      if Counts(m, start) {
        if Accepted(m, run.id, room) {
          AcceptDispatch(m);
        }
        if m.createdAt > marks.assignment {
          found := [Event(OfAssignment(m.sequence), AssignmentEvent, m.createdAt, None, m.sequence, "", "", NO_UPDATE)];
        }
      }
    }

    /** The loop over the messages. */
    method ReadMessages(room: Room) returns (found: seq<Event>)
      modifies this`handoffs, this`run
      ensures handoffs == AcceptAll(old(handoffs), room.messages, old(run).id, start, room)
      ensures run == old(run).(reviews := RegisterAll(old(run).reviews, room.messages, old(run).id, start, room))
      ensures found == Assignments(room.messages, start, marks.assignment)
    {
      found := [];
      var i := 0;
      assert room.messages[0..] == room.messages;
      while i < |room.messages|
        invariant i <= |room.messages| && run == old(run).(reviews := run.reviews)
        invariant Reading(old(View()), handoffs, run.reviews, found, i, room)
      {
        ReadingRound(old(View()), handoffs, run.reviews, found, i, room);
        var one := ReadMessage(room.messages[i], room);
        found := found + one;
        i := i + 1;
      }
    }

    method ReadJobs(room: Room) returns (found: seq<Event>)
      ensures found == Replies(room.jobs, room.messages, start, marks.result)
    {
      found := [];
      var i := 0;
      while i < |room.jobs|
        invariant i <= |room.jobs|
        invariant Replies(room.jobs, room.messages, start, marks.result) == found + Replies(room.jobs[i..], room.messages, start, marks.result)
      {
        var j := room.jobs[i];
        if IsSource(room.messages, start, j.source) && Terminal(j.state) && j.completedAt.Some? && j.completedAt.value >= marks.result {
          found := found + [ResultOf(Reply(j.id), "", j.completedAt.value, j.source, StateName(j.state))];
        }
        i := i + 1;
      }
      assert found + [] == found;
    }

    method AwaitWork(id: string)
      modifies this`handoffs
      ensures handoffs == AwaitEach(old(handoffs), id)
    {
      var i := 0;
      while i < |handoffs|
        invariant i <= |handoffs| == |old(handoffs)|
        invariant forall k :: 0 <= k < |handoffs| ==> handoffs[k] == if k < i then Await(old(handoffs)[k], id) else old(handoffs)[k]
      {
        var h := handoffs[i];
        if IsOpen(h) && h.id.base == Work(id) && h.wait.target != id {
          handoffs := handoffs[i := h.(wait := Wait(h.wait.on, id, h.wait.reconcile, h.wait.since))];
        }
        i := i + 1;
      }
      assert handoffs == AwaitEach(old(handoffs), id);
    }

    /** The loop over the workflows, in the order of the map. */
    method ReadWorkflows(room: Room) returns (found: seq<Event>)
      modifies this`handoffs
      ensures handoffs == AwaitAll(old(handoffs), room.order, room, start)
      ensures found == Ends(room.order, room, start, marks.result)
    {
      found := [];
      var i := 0;
      while i < |room.order|
        invariant i <= |room.order|
        invariant AwaitAll(old(handoffs), room.order, room, start) == AwaitAll(handoffs, room.order[i..], room, start)
        invariant Ends(room.order, room, start, marks.result) == found + Ends(room.order[i..], room, start, marks.result)
      {
        var id := room.order[i];
        if id in room.workflows {
          var w := room.workflows[id];
          var source := FirstSource(w.sources, room.messages, start);
          if source != 0 {
            if ActiveState(w.state) {
              AwaitWork(id);
            } else if EndedAt(w) >= marks.result {
              found := found + [ResultOf(Work(id), w.state.name, EndedAt(w), source, w.state.name)];
            }
          }
        }
        i := i + 1;
      }
      assert found + [] == found;
    }

    /** Who answered, and where: the last matching job, then the last message. */
    static method Answerer(e: Event, base: Base, target: string, room: Room) returns (participant: string, answer: nat)
      ensures (participant, answer) == var reply := ReplyFacts(room.jobs, base, target, 0); WorkFacts(room.messages, base, reply.0, reply.1)
    {
      participant, answer := target, 0;
      var i := 0;
      while i < |room.jobs|
        invariant i <= |room.jobs|
        invariant ReplyFacts(room.jobs, base, target, 0) == ReplyFacts(room.jobs[i..], base, participant, answer)
      {
        var j := room.jobs[i];
        if Reply(j.id) == base {
          participant, answer := j.responder, j.answer;
          if participant == "" && j.requested != [] {
            participant := j.requested[0];
          }
        }
        i := i + 1;
      }
      ghost var reply := (participant, answer);
      i := 0;
      while i < |room.messages|
        invariant i <= |room.messages|
        invariant WorkFacts(room.messages, base, reply.0, reply.1) == WorkFacts(room.messages[i..], base, participant, answer)
      {
        var m := room.messages[i];
        if m.workflow != "" && Work(m.workflow) == base && m.isText && m.author.Agent? {
          participant, answer := m.author.name, m.sequence;
        }
        i := i + 1;
      }
    }

    method LatestOf(base: Base) returns (latest: Option<nat>)
      ensures latest == Latest(handoffs, base)
    {
      latest := None;
      var i := 0;
      while i < |handoffs|
        invariant i <= |handoffs| && latest == Latest(handoffs[..i], base)
      {
        LatestPlus(handoffs, i, base);
        if handoffs[i].id.base == base && (latest.None? || handoffs[i].facts.readyAt > handoffs[latest.value].facts.readyAt) {
          latest := Some(i);
        }
        i := i + 1;
      }
      assert handoffs[..i] == handoffs;
    }

    /** Open a handoff for the result, or find the one that stands for it. */
    method HandOver(base: Base, facts: Facts) returns (id: ResultId)
      modifies this`handoffs
      ensures (handoffs, id) == Hand(old(handoffs), base, facts, marks.legacyThrough)
    {
      var latest := LatestOf(base);
      if latest.None? {
        id := ResultId(base, None);
        handoffs := handoffs + [NewHandoff(id, facts, facts.readyAt <= marks.legacyThrough)];
      } else if IsLater(facts, handoffs[latest.value]) {
        var h := handoffs[latest.value];
        if Answerable(h) {
          handoffs := handoffs[latest.value := h.(disposition := Disposition(SupersededByResult, facts.readyAt, h.disposition.assignment))];
        } else {
          assert handoffs[latest.value := h] == handoffs;
        }
        id := ResultId(base, Some(facts.readyAt));
        handoffs := handoffs + [NewHandoff(id, facts, false)];
      } else {
        id := handoffs[latest.value].id;
      }
    }

    method Note(e: Event)
      modifies this`events, this`marks, this`run, this`notes
      ensures View() == Noted(old(View()), e)
    {
      var recorded := Record(e);
      if !recorded {
        return;
      }
      if e.kind == AssignmentEvent {
        marks := marks.(assignment := e.at);
        run := run.(state := C.Pending);
        notes := notes.(detail := "", waitingOn := "");
      } else {
        marks := marks.(result := e.at);
        if e.outcome == "answered" || e.outcome == "completed" {
          marks := marks.(success := e.at);
        }
      }
    }

    method ProcessEvent(e: Event, room: Room)
      modifies this`handoffs, this`events, this`marks, this`run, this`notes
      ensures View() == Process(old(View()), e, room)
    {
      if e.kind == ResultEvent && e.at <= marks.completedThrough {
        return;
      }
      if e.kind == ResultEvent && e.result.Some? && (run.state == C.Pending || run.state == C.BlockedRun) {
        var base := e.result.value.base;
        var participant, answer := Answerer(e, base, TargetOf(room.messages, start, e.source), room);
        var id := HandOver(base, Facts(e.source, answer, participant, e.outcome, e.at));
        Note(Renamed(e, id));
      } else {
        Note(e);
      }
    }

    /** The loop over the events, oldest first. */
    method ProcessEvents(found: seq<Event>, room: Room)
      modifies this`handoffs, this`events, this`marks, this`run, this`notes
      ensures View() == ProcessAll(old(View()), found, room)
    {
      var i := 0;
      while i < |found|
        invariant i <= |found| && ProcessAll(old(View()), found, room) == ProcessAll(View(), found[i..], room)
      {
        ProcessEvent(found[i], room);
        i := i + 1;
      }
    }

    /** The last loop: waits whose assignment has ended. */
    method FinishWaits(room: Room, now: int)
      modifies this`handoffs
      ensures handoffs == EndWaits(old(handoffs), room, now)
    {
      var i := 0;
      while i < |handoffs|
        invariant i <= |handoffs| == |old(handoffs)|
        invariant forall k :: 0 <= k < |handoffs| ==> handoffs[k] == if k < i then EndWait(old(handoffs)[k], room, now) else old(handoffs)[k]
      {
        var h := handoffs[i];
        if h.wait.target != "" && !StillActive(room, h.wait.target) {
          handoffs := handoffs[i := h.(wait := Wait(if h.wait.on == "assignment" then "coordinator" else h.wait.on, "", h.wait.reconcile, now))];
        }
        i := i + 1;
      }
      assert handoffs == EndWaits(old(handoffs), room, now);
    }

    method Reconcile(room: Room, now: int)
      modifies this`handoffs, this`events, this`marks, this`run, this`notes
      ensures View() == H.Reconcile(old(View()), room, now)
    {
      if run.state == C.Stopped {
        return;
      }
      var assignments := ReadMessages(room);
      var replies := ReadJobs(room);
      var ends := ReadWorkflows(room);
      assert View() == Prepared(old(View()), room);
      assert assignments + replies + ends == Collect(old(View()), room);
      ProcessEvents(ByTime(assignments + replies + ends), room);
      FinishWaits(room, now);
    }
  }
}
