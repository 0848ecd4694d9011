/** Host controls and coordinator reports on the handoff ledger
    (internal/room/coordination.go).

    A refusal, like a failed save, leaves the room as it was.
 */
module HandoffReports {
  import opened Options
  import opened Rooms
  import opened Text
  import opened Continuations
  import opened Handoffs
  import FollowUps

  /** The monitored run and the notification allowance of the room. */
  datatype Books = Books(ledger: Option<Ledger>, follow: Option<FollowUps.FollowUps>)

  // ----- the local host

  datatype Action = StartAction | ResumeAction | StopAction | OtherAction

  function Reopen(h: Handoff): Handoff {
    if h.disposition.resolution == ReportedStopped then h.(disposition := Disposition(Unresolved, 0, h.disposition.assignment)) else h
  }

  function ReopenAll(handoffs: seq<Handoff>): (r: seq<Handoff>)
    ensures |r| == |handoffs| && forall i :: 0 <= i < |r| ==> r[i] == Reopen(handoffs[i])
  {
    seq(|handoffs|, i requires 0 <= i < |handoffs| => Reopen(handoffs[i]))
  }

  function Fresh(id: string, start: nat): Ledger {
    Ledger(Run(id, Pending, []), start, [], Marks(0, 0, 0, 0, 0, 0), [], Notes("", "", "", "", 0, None), [])
  }

  function Resumed(l: Ledger, id: string): Ledger {
    l.(run := Run(id, Pending, l.run.reviews), handoffs := ReopenAll(l.handoffs), notes := l.notes.(detail := ""))
  }

  function CancelReviews(run: Run, room: Room, reason: Reason): Run {
    run.(reviews := Cancel(run.reviews, room.messages, room.jobs, reason))
  }

  function StoppedBy(l: Ledger, room: Room): Ledger {
    l.(run := CancelReviews(l.run, room, Ended("host")).(state := Stopped))
  }

  /** The ledger after a control, before it is reconciled; None if refused. */
  function Controlled(ledger: Option<Ledger>, action: Action, id: string, start: nat, room: Room): Option<Ledger> {
    match action
    case StartAction =>
      if ledger.Some? && ledger.value.run.state != Complete then None else Some(Fresh(id, start))
    case ResumeAction =>
      if ledger.None? || ledger.value.run.state != Stopped then None else Some(Resumed(ledger.value, id))
    case StopAction => if ledger.None? then None else Some(StoppedBy(ledger.value, room))
    case OtherAction => None
  }

  function Control(ledger: Option<Ledger>, action: Action, id: string, start: nat, room: Room, now: int, saved: bool): Option<Ledger> {
    var c := Controlled(ledger, action, id, start, room);
    if c.None? || !saved then ledger else Some(Reconcile(c.value, room, now))
  }

  /** A status poll reconciles, and keeps the result if it could be saved. */
  function Status(l: Ledger, room: Room, now: int, saved: bool): Ledger {
    if saved then Reconcile(l, room, now) else l
  }

  // ----- reports

  datatype ReportKind = Coordinator | Notification(stage: FollowUps.Stage) | PanelReport

  datatype Report = Report(run: string, id: string, kind: ReportKind, result: Option<ResultId>, state: string, detail: string, update: Update)

  const WAITS: set<string> := {"", "coordinator", "human", "assignment", "external"}
  const STATES: set<string> := {"pending", "blocked", "complete", "stopped"}

  function RunStateOf(state: string): RunState {
    if state == "stopped" then Stopped else if state == "complete" then Complete else if state == "blocked" then BlockedRun else Pending
  }

  predicate NotificationStage(s: FollowUps.Stage) {
    s.NotificationAttempted? || s.HostAccepted? || s.HostRejected? || s.HostUnknown?
  }

  predicate WellFormed(r: Report) {
    && r.update.waitingOn in WAITS
    && (r.update.waitingOn == "assignment" ==> r.update.waitingFor != "")
    && (r.update.waitingOn == "human" ==> !Blank(r.update.owner))
    && (r.update.waitingFor != "" && r.update.waitingOn != "" ==> r.update.waitingOn == "assignment")
    && |r.update.nextAction| <= 1024 && |r.update.owner| <= 128 && |r.update.waitingFor| <= 128 && |r.update.panel| <= 128
    && r.id != "" && |r.id| <= 128 && |r.detail| <= 1024
    && match r.kind {
         case Coordinator => r.state in STATES && (r.state in {"pending", "blocked"} ==> !Blank(r.detail))
         case Notification(stage) => NotificationStage(stage) && r.result.Some?
         case PanelReport => true
       }
  }

  predicate CurrentRun(l: Option<Ledger>, id: string) { l.Some? && l.value.run.id == id && l.value.run.state != Stopped }

  predicate HasAttempt(attempts: seq<Attempt>, id: string) { exists i :: 0 <= i < |attempts| && attempts[i].id == id }

  predicate InHistory(events: seq<Event>, id: ResultId) {
    exists i :: 0 <= i < |events| && events[i].kind == ResultEvent && events[i].result == Some(id)
  }

  predicate AttemptInHistory(events: seq<Event>, r: Report) {
    exists i :: 0 <= i < |events| && events[i].id == OfClient(r.id)
      && events[i].kind == Notified(FollowUps.NotificationAttempted) && events[i].result == r.result
  }

  /** The result the report names is retained, and so is the claim whose outcome
      it reports. */
  predicate Grounded(l: Ledger, r: Report) {
    && (r.result.Some? ==> FindHandoff(l.handoffs, r.result.value) < |l.handoffs| || InHistory(l.events, r.result.value))
    && (r.kind.Notification? && r.kind.stage != FollowUps.NotificationAttempted && r.result.Some? ==>
          var i := FindHandoff(l.handoffs, r.result.value);
          AttemptInHistory(l.events, r) || (i < |l.handoffs| && HasAttempt(l.handoffs[i].attempts, r.id)))
  }

  function EventKind(k: ReportKind): Kind {
    match k
    case Coordinator => Reported
    case Notification(stage) => Notified(stage)
    case PanelReport => Notified(FollowUps.PanelStatus)
  }

  function ReportEvent(r: Report, now: int): Event {
    Event(OfClient(r.id), EventKind(r.kind), now, r.result, 0, r.state, r.detail, r.update)
  }

  function FirstKnown(events: seq<Event>, e: Event): (i: nat)
    ensures i <= |events|
    ensures i < |events| ==> events[i].id == e.id && events[i].kind == e.kind
    ensures i == |events| ==> !Known(events, e)
  {
    if events == [] || (events[0].id == e.id && events[0].kind == e.kind) then 0 else 1 + FirstKnown(events[1..], e)
  }

  predicate SameReport(e: Event, r: Report) {
    e.result == r.result && e.outcome == r.state && e.detail == r.detail && e.update == r.update
  }

  // ----- notifications

  function LegacyOf(l: Ledger): FollowUps.Legacy {
    FollowUps.Legacy(l.panels, l.marks.notification, AutomaticTimes(l.handoffs))
  }

  function AttemptTimes(attempts: seq<Attempt>): seq<int> {
    if attempts == [] then [] else (if attempts[0].automatic then [attempts[0].at] else []) + AttemptTimes(attempts[1..])
  }

  function AutomaticTimes(handoffs: seq<Handoff>): seq<int> {
    if handoffs == [] then [] else AttemptTimes(handoffs[0].attempts) + AutomaticTimes(handoffs[1..])
  }

  function FollowUpUpdate(l: Ledger, r: Report, stage: FollowUps.Stage): FollowUps.Update {
    FollowUps.Update(stage, r.id, false, r.update.delivery, 0,
      if stage == FollowUps.PanelStatus then FollowUps.Content("", None, 0, "", r.update.panel, false)
      else FollowUps.Content("", r.result, 0, l.run.id, r.update.panel, r.update.automatic))
  }

  function SceneOf(l: Ledger, access: Option<Access>, key: string): FollowUps.Scene {
    FollowUps.Scene(access, l.run.state == Stopped, key)
  }

  function FindAttempt(attempts: seq<Attempt>, id: string): (i: nat)
    ensures i <= |attempts|
    ensures i < |attempts| ==> attempts[i].id == id
    ensures i == |attempts| ==> !HasAttempt(attempts, id)
  {
    if attempts == [] || attempts[0].id == id then 0
    else
      var i := FindAttempt(attempts[1..], id);
      assert forall k :: 0 < k < |attempts| ==> attempts[k] == attempts[1..][k - 1];
      1 + i
  }

  predicate MayClaim(l: Ledger, h: Handoff, r: Report, now: int) {
    IsOpen(h) && l.run.state == Pending && now - l.marks.notification >= 20 * SECOND && (r.update.automatic ==> Due(h, now))
  }

  function Attempted(h: Handoff, r: Report, now: int): Handoff {
    h.(attempts := h.attempts + [Attempt(r.update.panel, r.id, now, FollowUps.HostUnknown, r.update.automatic)])
  }

  function WithAttempt(l: Ledger, i: nat, r: Report, now: int): Ledger
    requires i < |l.handoffs|
  {
    l.(handoffs := l.handoffs[i := Attempted(l.handoffs[i], r, now)], marks := l.marks.(notification := now))
  }

  /** A notification claim on a retained handoff: charged to the shared allowance
      and entered on the handoff, or neither. */
  function Claim(b: Books, l: Ledger, i: nat, r: Report, now: int, access: Option<Access>, key: string): Option<Books>
    requires i < |l.handoffs|
  {
    var h := l.handoffs[i];
    var k := FindAttempt(h.attempts, r.id);
    if k < |h.attempts| then
      if h.attempts[k].automatic != r.update.automatic || h.attempts[k].panel != r.update.panel then None else Some(b.(ledger := Some(l)))
    else if !MayClaim(l, h, r, now) then None
    else
      var f := FollowUps.Apply(b.follow, LegacyOf(l), FollowUpUpdate(l, r, FollowUps.NotificationAttempted), now, SceneOf(l, access, key));
      if f.Refused? then None
      else Some(Books(Some(WithAttempt(l, i, r, now)), Some(f.value)))
  }

  predicate OutcomeFits(a: Attempt, r: Report, stage: FollowUps.Stage) {
    a.panel == r.update.panel && a.automatic == r.update.automatic && (a.outcome == FollowUps.HostUnknown || a.outcome == stage)
  }

  function Marked(attempts: seq<Attempt>, id: string, stage: FollowUps.Stage): (r: seq<Attempt>)
    ensures |r| == |attempts|
  {
    seq(|attempts|, i requires 0 <= i < |attempts| => if attempts[i].id == id then attempts[i].(outcome := stage) else attempts[i])
  }

  function Outcome(b: Books, l: Ledger, i: nat, r: Report, stage: FollowUps.Stage, now: int, access: Option<Access>, key: string): Option<Books>
    requires i < |l.handoffs|
  {
    var h := l.handoffs[i];
    var f := FollowUps.Apply(b.follow, LegacyOf(l), FollowUpUpdate(l, r, stage), now, SceneOf(l, access, key));
    if f.Refused? || (exists k :: 0 <= k < |h.attempts| && h.attempts[k].id == r.id && !OutcomeFits(h.attempts[k], r, stage)) then None
    else Some(Books(Some(l.(handoffs := l.handoffs[i := h.(attempts := Marked(h.attempts, r.id, stage))])), Some(f.value)))
  }

  function PanelSeen(b: Books, l: Ledger, r: Report, now: int, access: Option<Access>, key: string): Option<Books> {
    var f := FollowUps.Apply(b.follow, LegacyOf(l), FollowUpUpdate(l, r, FollowUps.PanelStatus), now, SceneOf(l, access, key));
    if f.Refused? then None
    else Some(Books(Some(l.(panels := FollowUps.Seen(l.panels, r.update.panel, r.update.delivery, now))), Some(f.value)))
  }

  // ----- the coordinator's own reports

  predicate JobPending(j: Job, messages: seq<Message>, start: nat) { IsSource(messages, start, j.source) && !Terminal(j.state) }

  predicate WorkPending(room: Room, start: nat) {
    || (exists i :: 0 <= i < |room.jobs| && JobPending(room.jobs[i], room.messages, start))
    || (exists id :: id in room.workflows && Underway(room, start, id))
  }

  predicate ReviewPending(reviews: seq<Continuation>) {
    exists i :: 0 <= i < |reviews| && (reviews[i].state == Queued || reviews[i].state == Running)
  }

  /** A report of completion is reconciled first, and refused while work or a
      registered review is pending. */
  function Completing(l: Ledger, r: Report, room: Room, now: int): Option<Ledger> {
    if r.state != "complete" || r.update.handoffOnly then Some(l)
    else
      var l' := Reconcile(l, room, now);
      if ReviewPending(l'.run.reviews) || WorkPending(room, l.start) then None else Some(l')
  }

  predicate MayReport(l: Ledger, r: Report, room: Room) {
    var known := r.result.Some? && FindHandoff(l.handoffs, r.result.value) < |l.handoffs|;
    && (r.update.handoffOnly ==> known && r.state != "stopped")
    && (r.update.waitingFor != "" ==> known && StillActive(room, r.update.waitingFor))
  }

  function WaitNow(r: Report): string {
    if r.state == "blocked" && r.update.waitingOn == "" then "external" else r.update.waitingOn
  }

  function RunReported(l: Ledger, r: Report, room: Room, now: int): Ledger {
    if r.update.handoffOnly then l
    else
      var run := l.run.(state := RunStateOf(r.state));
      l.(run := if r.state == "stopped" || r.state == "complete" then CancelReviews(run, room, Ended(r.state)) else run,
         marks := if r.state == "complete" then l.marks.(completedThrough := now) else l.marks,
         notes := l.notes.(detail := r.detail, waitingOn := WaitNow(r),
                           nextAction := if r.update.nextAction != "" then r.update.nextAction else l.notes.nextAction,
                           owner := if r.update.owner != "" then r.update.owner else l.notes.owner))
  }

  function Acknowledged(l: Ledger, r: Report, now: int): Ledger {
    if r.result.None? then l else l.(notes := l.notes.(acknowledgedAt := now, acknowledged := r.result))
  }

  function WaitReported(h: Handoff, r: Report, now: int): Wait {
    var on := if r.update.waitingFor != "" then "assignment" else r.update.waitingOn;
    Wait(if r.state == "blocked" && on == "" then "external" else on, r.update.waitingFor, false, h.wait.since)
  }

  function NoteReported(n: Note, r: Report, now: int): Note {
    Note(if r.update.owner != "" then r.update.owner else n.owner,
         if r.update.nextAction == "" && (r.state == "pending" || r.state == "blocked") then r.detail else r.update.nextAction,
         if n.acknowledgedAt == 0 then now else n.acknowledgedAt)
  }

  function HandoffReported(h: Handoff, r: Report, now: int): Handoff {
    var d := if r.update.handoffOnly && r.state == "pending" && h.disposition.resolution == ReportedBlocked
             then Disposition(Unresolved, 0, h.disposition.assignment) else h.disposition;
    var h' := h.(disposition := d, wait := WaitReported(h, r, now), note := NoteReported(h.note, r, now));
    if !Actionable(h) && Actionable(h') then h'.(wait := h'.wait.(since := now)) else h'
  }

  function ResultReported(handoffs: seq<Handoff>, r: Report, now: int): seq<Handoff> {
    if r.result.None? then handoffs
    else
      var i := FindHandoff(handoffs, r.result.value);
      if i == |handoffs| then handoffs else handoffs[i := HandoffReported(handoffs[i], r, now)]
  }

  function CloseOne(h: Handoff, r: Report, now: int): Handoff {
    if IsOpen(h) && (!r.update.handoffOnly || Some(h.id) == r.result) then
      h.(disposition := Disposition(if r.state == "stopped" then ReportedStopped else ReportedComplete, now, h.disposition.assignment))
    else h
  }

  function CloseAll(handoffs: seq<Handoff>, r: Report, now: int): (c: seq<Handoff>)
    ensures |c| == |handoffs|
    ensures r.state == "complete" || r.state == "stopped" ==> forall i :: 0 <= i < |c| ==> c[i] == CloseOne(handoffs[i], r, now)
    ensures r.state != "complete" && r.state != "stopped" ==> c == handoffs
  {
    if r.state == "complete" || r.state == "stopped" then seq(|handoffs|, i requires 0 <= i < |handoffs| => CloseOne(handoffs[i], r, now))
    else handoffs
  }

  function CoordinatorReported(l: Ledger, r: Report, room: Room, now: int): Ledger {
    var l' := Acknowledged(RunReported(l, r, room, now), r, now);
    l'.(handoffs := CloseAll(ResultReported(l.handoffs, r, now), r, now))
  }

  // ----- one report

  function Apply(b: Books, l: Ledger, r: Report, room: Room, now: int, access: Option<Access>, key: string): Option<Books> {
    match r.kind
    case PanelReport => PanelSeen(b, l, r, now, access, key)
    case Notification(stage) =>
      if r.result.None? || FindHandoff(l.handoffs, r.result.value) == |l.handoffs| then Some(b.(ledger := Some(l)))
      else
        var i := FindHandoff(l.handoffs, r.result.value);
        if stage == FollowUps.NotificationAttempted then Claim(b, l, i, r, now, access, key)
        else Outcome(b, l, i, r, stage, now, access, key)
    case Coordinator =>
      if !MayReport(l, r, room) then None
      else
        var l' := Completing(l, r, room, now);
        if l'.None? then None else Some(b.(ledger := Some(CoordinatorReported(l'.value, r, room, now))))
  }

  function Entered(l: Ledger, r: Report, now: int): Ledger {
    if r.kind == PanelReport then l else l.(events := Record(l.events, ReportEvent(r, now)))
  }

  /** Reconcile, check, apply, record, save, and reconcile again. */
  function ReportStep(b: Books, r: Report, room: Room, now: int, access: Option<Access>, key: string, saved: bool): Books {
    if !WellFormed(r) || !CurrentRun(b.ledger, r.run) then b
    else
      var l := Reconcile(b.ledger.value, room, now);
      var k := FirstKnown(l.events, ReportEvent(r, now));
      if !Grounded(l, r) then b
      else if k < |l.events| then
        if !SameReport(l.events[k], r) || (!saved && l != b.ledger.value) then b
        else b.(ledger := Some(Reconcile(l, room, now)))
      else
        var a := Apply(b, l, r, room, now, access, key);
        if a.None? || a.value.ledger.None? || !saved then b
        else a.value.(ledger := Some(Reconcile(Entered(a.value.ledger.value, r, now), room, now)))
  }
}
