/** The handoff ledger of a monitored run (internal/room/coordination.go,
    internal/chat/coordination.go, internal/chat/handoff.go).

    `Reconcile` derives handoffs, registered reviews and history from the room's
    messages, reply jobs and workflows.  It is the code's one function, cut at
    its loops.
 */
module Handoffs {
  import opened Options
  import opened Rooms
  import opened Continuations
  import FollowUps

  const HISTORY: nat := 200

  datatype Resolution = Unresolved | AssignmentAccepted | SupersededByResult | ReportedComplete | ReportedStopped | ReportedBlocked

  datatype Facts = Facts(source: nat, answer: nat, participant: string, outcome: string, readyAt: int)

  datatype Disposition = Disposition(resolution: Resolution, resolvedAt: int, assignment: nat)

  datatype Wait = Wait(on: string, target: string, reconcile: bool, since: int)

  datatype Note = Note(owner: string, nextAction: string, acknowledgedAt: int)

  datatype Attempt = Attempt(panel: string, id: string, at: int, outcome: FollowUps.Stage, automatic: bool)

  datatype Handoff = Handoff(id: ResultId, facts: Facts, disposition: Disposition, wait: Wait, note: Note, attempts: seq<Attempt>)

  datatype Kind = AssignmentEvent | ResultEvent | Reported | Notified(stage: FollowUps.Stage)

  /** "assignment:<n>", "reply:<job>" or "work:<workflow>:<state>" with a later
      result's identity behind it, or an identity a client chose. */
  datatype EventId = OfAssignment(sequence: nat) | OfResult(base: Base, state: string, later: Option<ResultId>) | OfClient(id: string)

  datatype Update = Update(waitingOn: string, handoffOnly: bool, nextAction: string, owner: string, waitingFor: string,
                           automatic: bool, panel: string, delivery: string)

  const NO_UPDATE := Update("", false, "", "", "", false, "", "")

  datatype Event = Event(id: EventId, kind: Kind, at: int, result: Option<ResultId>, source: nat, outcome: string, detail: string, update: Update)

  datatype Marks = Marks(assignment: int, result: int, success: int, completedThrough: int, legacyThrough: int, notification: int)

  datatype Notes = Notes(detail: string, waitingOn: string, nextAction: string, owner: string, acknowledgedAt: int, acknowledged: Option<ResultId>)

  datatype Ledger = Ledger(run: Run, start: nat, handoffs: seq<Handoff>, marks: Marks, events: seq<Event>, notes: Notes, panels: seq<FollowUps.Panel>)

  datatype WorkState = QueuedWork | ActiveWork | WaitingWork | EndedWork(name: string)

  datatype Workflow = Workflow(sources: seq<nat>, state: WorkState, updatedAt: int, completedAt: Option<int>, unpersisted: bool)

  /** What the ledger is reconciled with.  `order` is the order in which the map
      of workflows is visited. */
  datatype Room = Room(messages: seq<Message>, pending: set<string>, jobs: seq<Job>, workflows: map<string, Workflow>, order: seq<string>)

  // ----- handoffs

  predicate IsOpen(h: Handoff) { h.disposition.resolution == Unresolved }

  predicate Answerable(h: Handoff) { IsOpen(h) || h.disposition.resolution == ReportedBlocked }

  predicate Actionable(h: Handoff) {
    IsOpen(h) && h.wait.target == "" && (h.wait.on == "" || h.wait.on == "coordinator") && !h.wait.reconcile
  }

  function AutomaticAttempts(attempts: seq<Attempt>): nat {
    if attempts == [] then 0 else (if attempts[0].automatic then 1 else 0) + AutomaticAttempts(attempts[1..])
  }

  predicate Rejected(attempts: seq<Attempt>) { exists i :: 0 <= i < |attempts| && attempts[i].outcome == FollowUps.HostRejected }

  function Delay(n: nat): int { if n == 0 then 0 else if n == 1 then 60 * SECOND else 180 * SECOND }

  /** An automatic notification may be claimed: at once, a minute and three
      minutes after the result, unless the host rejected one. */
  predicate Due(h: Handoff, now: int) {
    Actionable(h) && !Rejected(h.attempts) && AutomaticAttempts(h.attempts) < 3
    && now >= h.facts.readyAt + Delay(AutomaticAttempts(h.attempts))
  }

  function FindHandoff(handoffs: seq<Handoff>, id: ResultId): (i: nat)
    ensures i <= |handoffs|
    ensures i < |handoffs| ==> handoffs[i].id == id
    ensures forall j :: 0 <= j < i ==> handoffs[j].id != id
  {
    if handoffs == [] || handoffs[0].id == id then 0 else 1 + FindHandoff(handoffs[1..], id)
  }

  // ----- source messages

  predicate IsWorkflowSource(m: Message) {
    m.author == User || (m.author == ChatGPT && m.isText && m.work && m.workflow != "" && m.route.Some?)
  }

  predicate Counts(m: Message, start: nat) {
    && m.sequence >= start && (m.author == ChatGPT || m.author == User)
    && (m.post.recipients != [] || (m.workflow != "" && IsWorkflowSource(m)))
  }

  predicate IsSource(messages: seq<Message>, start: nat, sequence: nat) {
    exists i :: 0 <= i < |messages| && Counts(messages[i], start) && messages[i].sequence == sequence
  }

  /** The addressee of the source message; of two with one sequence, the later. */
  function TargetOf(messages: seq<Message>, start: nat, sequence: nat): string {
    if messages == [] then ""
    else
      var m := messages[|messages| - 1];
      if Counts(m, start) && m.sequence == sequence then m.target else TargetOf(messages[..|messages| - 1], start, sequence)
  }

  predicate Persisted(room: Room, workflow: string) { workflow in room.workflows && !room.workflows[workflow].unpersisted }

  predicate HasReply(room: Room, sequence: nat) {
    exists i :: 0 <= i < |room.jobs| && room.jobs[i].source == sequence && !room.jobs[i].unscheduled && room.jobs[i].id !in room.pending
  }

  /** The dispatch of this message is known to be scheduled. */
  predicate Accepted(m: Message, run: string, room: Room) {
    && m.dispatch.Some? && m.dispatch.value.run == run && m.workflow !in room.pending
    && (Persisted(room, m.workflow) || HasReply(room, m.sequence))
  }

  function Accept(h: Handoff, m: Message): Handoff {
    h.(disposition := Disposition(AssignmentAccepted, m.createdAt, m.sequence), wait := Wait("", "", false, h.wait.since))
  }

  function AcceptHandoff(handoffs: seq<Handoff>, m: Message): seq<Handoff>
    requires m.dispatch.Some?
  {
    if m.dispatch.value.handoff.None? then handoffs
    else
      var i := FindHandoff(handoffs, m.dispatch.value.handoff.value);
      if i < |handoffs| && Answerable(handoffs[i]) then handoffs[i := Accept(handoffs[i], m)] else handoffs
  }

  /** The first loop: dispatches close handoffs and register reviews. */
  function AcceptAll(handoffs: seq<Handoff>, messages: seq<Message>, run: string, start: nat, room: Room): seq<Handoff>
    decreases |messages|
  {
    if messages == [] then handoffs
    else
      var h := if Counts(messages[0], start) && Accepted(messages[0], run, room) then AcceptHandoff(handoffs, messages[0]) else handoffs;
      AcceptAll(h, messages[1..], run, start, room)
  }

  function RegisterAll(reviews: seq<Continuation>, messages: seq<Message>, run: string, start: nat, room: Room): seq<Continuation>
    decreases |messages|
  {
    if messages == [] then reviews
    else
      var r := if Counts(messages[0], start) && Accepted(messages[0], run, room) then Register(reviews, messages[0]) else reviews;
      RegisterAll(r, messages[1..], run, start, room)
  }

  // ----- events

  function Assignments(messages: seq<Message>, start: nat, after: int): seq<Event> {
    if messages == [] then []
    else
      var m := messages[0];
      (if Counts(m, start) && m.createdAt > after then
         [Event(OfAssignment(m.sequence), AssignmentEvent, m.createdAt, None, m.sequence, "", "", NO_UPDATE)]
       else []) + Assignments(messages[1..], start, after)
  }

  function StateName(s: JobState): string {
    match s
    case Finding => "finding"
    case Waiting => "waiting"
    case Answering => "answering"
    case Retrying => "retrying"
    case Answered => "answered"
    case NeedsAttention => "needs_attention"
    case Failed => "failed"
    case Dismissed => "dismissed"
    case Cancelled => "cancelled"
  }

  function ResultOf(base: Base, state: string, at: int, source: nat, outcome: string): Event {
    Event(OfResult(base, state, None), ResultEvent, at, Some(ResultId(base, None)), source, outcome, "", NO_UPDATE)
  }

  predicate ReplyReady(j: Job, messages: seq<Message>, start: nat, since: int) {
    IsSource(messages, start, j.source) && Terminal(j.state) && j.completedAt.Some? && j.completedAt.value >= since
  }

  function Replies(jobs: seq<Job>, messages: seq<Message>, start: nat, since: int): seq<Event> {
    if jobs == [] then []
    else
      var j := jobs[0];
      (if ReplyReady(j, messages, start, since) then
         [ResultOf(Reply(j.id), "", j.completedAt.value, j.source, StateName(j.state))]
       else []) + Replies(jobs[1..], messages, start, since)
  }

  predicate ActiveState(s: WorkState) { !s.EndedWork? }

  /** The first of the workflow's sources that counts, or 0. */
  function FirstSource(sources: seq<nat>, messages: seq<Message>, start: nat): nat {
    if sources == [] then 0
    else if IsSource(messages, start, sources[0]) then sources[0]
    else FirstSource(sources[1..], messages, start)
  }

  function EndedAt(w: Workflow): int { if w.completedAt.Some? then w.completedAt.value else w.updatedAt }

  predicate WorkReady(w: Workflow, messages: seq<Message>, start: nat, since: int) {
    FirstSource(w.sources, messages, start) != 0 && w.state.EndedWork? && EndedAt(w) >= since
  }

  function Ends(order: seq<string>, room: Room, start: nat, since: int): seq<Event> {
    if order == [] then []
    else
      var id := order[0];
      (if id in room.workflows && WorkReady(room.workflows[id], room.messages, start, since) then
         [ResultOf(Work(id), room.workflows[id].state.name, EndedAt(room.workflows[id]),
                   FirstSource(room.workflows[id].sources, room.messages, start), room.workflows[id].state.name)]
       else []) + Ends(order[1..], room, start, since)
  }

  function Collect(l: Ledger, room: Room): seq<Event> {
    Assignments(room.messages, l.start, l.marks.assignment)
    + Replies(room.jobs, room.messages, l.start, l.marks.result)
    + Ends(room.order, room, l.start, l.marks.result)
  }

  /** Stable sort by time. */
  function InsertByTime(e: Event, events: seq<Event>): seq<Event> {
    if events == [] || e.at <= events[0].at then [e] + events else [events[0]] + InsertByTime(e, events[1..])
  }

  function ByTime(events: seq<Event>): seq<Event> {
    if events == [] then [] else InsertByTime(events[0], ByTime(events[1..]))
  }

  // ----- waiting for active work

  predicate Underway(room: Room, start: nat, id: string) {
    id in room.workflows && ActiveState(room.workflows[id].state) && FirstSource(room.workflows[id].sources, room.messages, start) != 0
  }

  function Await(h: Handoff, id: string): Handoff {
    if IsOpen(h) && h.id.base == Work(id) then h.(wait := Wait(h.wait.on, id, h.wait.reconcile, h.wait.since)) else h
  }

  function AwaitEach(handoffs: seq<Handoff>, id: string): (r: seq<Handoff>)
    ensures |r| == |handoffs| && forall i :: 0 <= i < |r| ==> r[i] == Await(handoffs[i], id)
  {
    seq(|handoffs|, i requires 0 <= i < |handoffs| => Await(handoffs[i], id))
  }

  function AwaitAll(handoffs: seq<Handoff>, order: seq<string>, room: Room, start: nat): seq<Handoff>
    decreases |order|
  {
    if order == [] then handoffs
    else AwaitAll(if Underway(room, start, order[0]) then AwaitEach(handoffs, order[0]) else handoffs, order[1..], room, start)
  }

  // ----- results

  /** The participant and answer of a reply: of the last job with that identity. */
  function ReplyFacts(jobs: seq<Job>, base: Base, participant: string, answer: nat): (string, nat)
    decreases |jobs|
  {
    if jobs == [] then (participant, answer)
    else if Reply(jobs[0].id) == base then
      ReplyFacts(jobs[1..], base,
        if jobs[0].responder == "" && jobs[0].requested != [] then jobs[0].requested[0] else jobs[0].responder, jobs[0].answer)
    else ReplyFacts(jobs[1..], base, participant, answer)
  }

  predicate AnswersWork(m: Message, base: Base) { m.workflow != "" && Work(m.workflow) == base && m.isText && m.author.Agent? }

  function WorkFacts(messages: seq<Message>, base: Base, participant: string, answer: nat): (string, nat)
    decreases |messages|
  {
    if messages == [] then (participant, answer)
    else if AnswersWork(messages[0], base) then WorkFacts(messages[1..], base, messages[0].author.name, messages[0].sequence)
    else WorkFacts(messages[1..], base, participant, answer)
  }

  function FactsOf(room: Room, start: nat, base: Base, source: nat, outcome: string, at: int): Facts {
    var reply := ReplyFacts(room.jobs, base, TargetOf(room.messages, start, source), 0);
    var work := WorkFacts(room.messages, base, reply.0, reply.1);
    Facts(source, work.1, work.0, outcome, at)
  }

  /** The latest handoff of the family, by the time its result was ready. */
  function Latest(handoffs: seq<Handoff>, base: Base): (r: Option<nat>)
    ensures r.Some? ==> r.value < |handoffs| && handoffs[r.value].id.base == base
    ensures r.None? ==> forall i :: 0 <= i < |handoffs| ==> handoffs[i].id.base != base
    ensures r.Some? ==> forall i :: 0 <= i < |handoffs| && handoffs[i].id.base == base ==> handoffs[i].facts.readyAt <= handoffs[r.value].facts.readyAt
  {
    if handoffs == [] then None
    else
      var n := |handoffs| - 1;
      var r := Latest(handoffs[..n], base);
      assert forall i :: 0 <= i < n ==> handoffs[..n][i] == handoffs[i];
      if handoffs[n].id.base == base && (r.None? || handoffs[n].facts.readyAt > handoffs[r.value].facts.readyAt) then Some(n) else r
  }

  function NewHandoff(id: ResultId, facts: Facts, reconcile: bool): Handoff {
    Handoff(id, facts, Disposition(Unresolved, 0, 0), Wait("", "", reconcile, 0), Note("chatgpt", "", 0), [])
  }

  function Supersede(h: Handoff, at: int): Handoff {
    if Answerable(h) then h.(disposition := Disposition(SupersededByResult, at, h.disposition.assignment)) else h
  }

  predicate IsLater(facts: Facts, latest: Handoff) {
    facts.readyAt > latest.facts.readyAt && (latest.facts.outcome != facts.outcome || latest.facts.answer != facts.answer)
  }

  /** A result opens a handoff, or opens a later one of its family, or is known. */
  function Hand(handoffs: seq<Handoff>, base: Base, facts: Facts, legacyThrough: int): (seq<Handoff>, ResultId) {
    var latest := Latest(handoffs, base);
    if latest.None? then (handoffs + [NewHandoff(ResultId(base, None), facts, facts.readyAt <= legacyThrough)], ResultId(base, None))
    else
      var i := latest.value;
      if IsLater(facts, handoffs[i]) then
        var id := ResultId(base, Some(facts.readyAt));
        (handoffs[i := Supersede(handoffs[i], facts.readyAt)] + [NewHandoff(id, facts, false)], id)
      else (handoffs, handoffs[i].id)
  }

  // ----- history

  predicate Known(events: seq<Event>, e: Event) {
    exists i :: 0 <= i < |events| && events[i].id == e.id && events[i].kind == e.kind
  }

  /** A bounded history; `Known` events are not recorded again. */
  function Record(events: seq<Event>, e: Event): seq<Event> {
    if Known(events, e) then events else Tail(events + [e], HISTORY)
  }

  function Marked(marks: Marks, e: Event): Marks {
    if e.kind == AssignmentEvent then marks.(assignment := e.at)
    else if e.outcome == "answered" || e.outcome == "completed" then marks.(result := e.at, success := e.at)
    else marks.(result := e.at)
  }

  predicate Handing(state: RunState) { state == Pending || state == BlockedRun }

  /** The event under the identity of the handoff it concerns. */
  function Renamed(e: Event, id: ResultId): Event {
    e.(result := Some(id), id := if e.id.OfResult? && id.at.Some? then OfResult(e.id.base, e.id.state, Some(id)) else e.id)
  }

  function FactsFor(e: Event, start: nat, room: Room): Facts
    requires e.result.Some?
  {
    FactsOf(room, start, e.result.value.base, e.source, e.outcome, e.at)
  }

  /** Recording an event moves the high-water marks; an assignment puts the run
      back to pending. */
  function Noted(l: Ledger, e: Event): Ledger {
    if Known(l.events, e) then l
    else if e.kind == AssignmentEvent then
      l.(events := Record(l.events, e), marks := Marked(l.marks, e), run := l.run.(state := Pending),
         notes := l.notes.(detail := "", waitingOn := ""))
    else l.(events := Record(l.events, e), marks := Marked(l.marks, e))
  }

  function Process(l: Ledger, e: Event, room: Room): Ledger {
    if e.kind == ResultEvent && e.at <= l.marks.completedThrough then l
    else if e.kind == ResultEvent && e.result.Some? && Handing(l.run.state) then
      var (handoffs, id) := Hand(l.handoffs, e.result.value.base, FactsFor(e, l.start, room), l.marks.legacyThrough);
      Noted(l.(handoffs := handoffs), Renamed(e, id))
    else Noted(l, e)
  }

  function ProcessAll(l: Ledger, events: seq<Event>, room: Room): Ledger
    decreases |events|
  {
    if events == [] then l else ProcessAll(Process(l, events[0], room), events[1..], room)
  }

  // ----- the end of a wait

  /** The last reply job with that identity decides, then a workflow. */
  function JobActive(jobs: seq<Job>, id: string, active: bool): bool
    decreases |jobs|
  {
    if jobs == [] then active else JobActive(jobs[1..], id, if jobs[0].id == id then !Terminal(jobs[0].state) else active)
  }

  predicate StillActive(room: Room, id: string) {
    JobActive(room.jobs, id, id in room.workflows && ActiveState(room.workflows[id].state))
  }

  function EndWait(h: Handoff, room: Room, now: int): Handoff {
    if h.wait.target == "" || StillActive(room, h.wait.target) then h
    else h.(wait := Wait(if h.wait.on == "assignment" then "coordinator" else h.wait.on, "", h.wait.reconcile, now))
  }

  function EndWaits(handoffs: seq<Handoff>, room: Room, now: int): (r: seq<Handoff>)
    ensures |r| == |handoffs| && forall i :: 0 <= i < |r| ==> r[i] == EndWait(handoffs[i], room, now)
  {
    seq(|handoffs|, i requires 0 <= i < |handoffs| => EndWait(handoffs[i], room, now))
  }

  // ----- reconciliation

  /** Before the events: dispatches accepted, reviews registered, waits set. */
  function Prepared(l: Ledger, room: Room): Ledger {
    var handoffs := AcceptAll(l.handoffs, room.messages, l.run.id, l.start, room);
    l.(handoffs := AwaitAll(handoffs, room.order, room, l.start),
       run := l.run.(reviews := RegisterAll(l.run.reviews, room.messages, l.run.id, l.start, room)))
  }

  function Settled(l: Ledger, room: Room, now: int): Ledger { l.(handoffs := EndWaits(l.handoffs, room, now)) }

  function Reconcile(l: Ledger, room: Room, now: int): Ledger {
    if l.run.state == Stopped then l
    else Settled(ProcessAll(Prepared(l, room), ByTime(Collect(l, room)), room), room, now)
  }
}
