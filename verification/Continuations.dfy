/** Registered reviews and their dispatch (internal/room/continuation.go,
    internal/room/chatgpt.go).

    `Memory` is one process; `Disk` is the append-only transcript and the last
    saved room.  A review is dispatched over three critical sections of the
    scheduler: choosing it, publishing its message, and recording the outcome.
 */
module Continuations {
  import opened Options
  import opened Rooms
  import opened Text

  datatype State = Queued | Running | Completed | Blocked | Withdrawn

  datatype Reason =
    | Nothing | AccessEnded | WaitingPause | ParentUnavailable | ParentFailed | AccountedFor | NoResult
    | ReplyCapacity | InputLimit | NotScheduled | OutcomeUnknown | ReviewFailed | HostRestarted | Ended(cause: string)

  datatype Continuation = Continuation(workflow: string, source: nat, spec: Spec, state: State, reason: Reason, assignment: nat)

  datatype RunState = Pending | BlockedRun | Complete | Stopped

  datatype Run = Run(id: string, state: RunState, reviews: seq<Continuation>)

  /** The message identity of the review's one dispatch. */
  function Id(workflow: string): string { "continuation_" + workflow }

  lemma IdInjective(v: string, w: string)
    requires Id(v) == Id(w)
    ensures v == w
  {
    assert v == Id(v)[|"continuation_"|..];
    assert w == Id(w)[|"continuation_"|..];
  }

  function Find(reviews: seq<Continuation>, workflow: string): (i: nat)
    ensures i <= |reviews|
    ensures i < |reviews| ==> reviews[i].workflow == workflow
    ensures forall j :: 0 <= j < i ==> reviews[j].workflow != workflow
  {
    if reviews == [] || reviews[0].workflow == workflow then 0 else 1 + Find(reviews[1..], workflow)
  }

  /** The index of the first message published under a message identity. */
  function Published(messages: seq<Message>, id: string): (i: nat)
    ensures i <= |messages|
    ensures i < |messages| ==> messages[i].route == Some(id)
    ensures forall j :: 0 <= j < i ==> messages[j].route != Some(id)
  {
    if messages == [] || messages[0].route == Some(id) then 0 else 1 + Published(messages[1..], id)
  }

  // ----- reconciling a review with the transcript

  function Judge(jobs: seq<Job>, sequence: nat, c: Continuation): (r: Continuation)
    ensures r.workflow == c.workflow && r.assignment == c.assignment && (c.state != Queued ==> r.state != Queued)
    decreases |jobs|
  {
    if jobs == [] then c
    else if jobs[0].source != sequence then Judge(jobs[1..], sequence, c)
    else
      var c' :=
        if !Terminal(jobs[0].state) then c.(state := Running, reason := Nothing)
        else if jobs[0].state == Answered then c.(state := Completed, reason := Nothing)
        else c.(state := Blocked, reason := ReviewFailed);
      Judge(jobs[1..], sequence, c')
  }

  /** The durable message is the dispatch key: account for it, if there is one. */
  function Account(messages: seq<Message>, jobs: seq<Job>, c: Continuation): (r: Option<Continuation>)
    ensures r.Some? <==> Published(messages, Id(c.workflow)) < |messages|
    ensures r.Some? ==> r.value.workflow == c.workflow && r.value.state != Queued
    ensures r.Some? ==> r.value.assignment == messages[Published(messages, Id(c.workflow))].sequence
  {
    var i := Published(messages, Id(c.workflow));
    if i == |messages| then None
    else Some(Judge(jobs, messages[i].sequence, c.(assignment := messages[i].sequence, state := Blocked, reason := OutcomeUnknown)))
  }

  function CancelOne(c: Continuation, messages: seq<Message>, jobs: seq<Job>, reason: Reason): (r: Continuation)
    ensures r.workflow == c.workflow && r.state != Queued
  {
    if c.state != Queued then c
    else
      var r := Account(messages, jobs, c);
      if r.Some? then r.value else c.(state := Withdrawn, reason := reason)
  }

  function Cancel(reviews: seq<Continuation>, messages: seq<Message>, jobs: seq<Job>, reason: Reason): (r: seq<Continuation>)
    ensures |r| == |reviews| && forall i :: 0 <= i < |r| ==> r[i] == CancelOne(reviews[i], messages, jobs, reason)
  {
    seq(|reviews|, i requires 0 <= i < |reviews| => CancelOne(reviews[i], messages, jobs, reason))
  }

  /** A request that registers a review registers it once. */
  function Register(reviews: seq<Continuation>, m: Message): seq<Continuation> {
    if m.dispatch.Some? && m.dispatch.value.spec.Some? && Find(reviews, m.workflow) == |reviews| then
      reviews + [Continuation(m.workflow, m.sequence, m.dispatch.value.spec.value, Queued, Nothing, 0)]
    else reviews
  }

  // ----- choosing a review to dispatch

  datatype ParentState = Absent | Unfinished | Unsuccessful | Finished

  /** The parent workflow's handoff: missing, accounted for, or open, with the
      result message it kept. */
  datatype ParentResult = NoHandoff | Closed | Open(id: ResultId, result: Option<Message>)

  datatype Parent = Parent(state: ParentState, result: ParentResult)

  function CountOutstanding(messages: seq<Message>, jobs: seq<Job>): nat {
    if jobs == [] then 0
    else (if !Terminal(jobs[0].state) && FromChatGPT(messages, jobs[0].source) then 1 else 0) + CountOutstanding(messages, jobs[1..])
  }

  predicate FromChatGPT(messages: seq<Message>, sequence: nat) {
    if messages == [] then false
    else if messages[0].sequence == sequence then messages[0].author == ChatGPT
    else FromChatGPT(messages[1..], sequence)
  }

  datatype Choice = Leave | Mark(state: State, reason: Reason) | Go(post: Post, dispatch: Dispatch)

  function ReviewClass(spec: Spec): string { if spec.replyClass == "" then "research" else spec.replyClass }

  /** What the scheduler does with a queued review whose message does not exist.
      `task` is the composed review text. */
  function Choose(run: Run, c: Continuation, access: Option<Access>, parent: Parent, outstanding: nat, task: string, now: int): Choice {
    if run.state == Stopped || access.None? || !access.value.enabled || now >= access.value.expiresAt then Mark(Withdrawn, AccessEnded)
    else if access.value.paused || run.state != Pending || access.value.pauseReason == NoProgress || access.value.pauseReason == PausedByHost
    then Mark(Queued, WaitingPause)
    else if parent.state == Absent then Mark(Blocked, ParentUnavailable)
    else if parent.state == Unsuccessful then Mark(Blocked, ParentFailed)
    else if parent.state == Unfinished || parent.result == NoHandoff then Leave
    else if parent.result == Closed then Mark(Withdrawn, AccountedFor)
    else if parent.result.result.None? then Mark(Blocked, NoResult)
    else if outstanding >= 4 then Mark(Queued, ReplyCapacity)
    else if |task| > 16000 then Mark(Blocked, InputLimit)
    else Go(Post(task, parent.result.result.value.sequence, [c.spec.target], c.spec.effort, ReviewClass(c.spec)),
            Dispatch(run.id, Some(parent.result.id), None))
  }

  // ----- the process, the disk and the scheduler

  datatype Memory = Memory(closed: bool, run: Option<Run>, messages: seq<Message>, jobs: seq<Job>, next: nat)

  datatype Disk = Disk(transcript: seq<Message>, run: Option<Run>, jobs: seq<Job>)

  datatype Scheduler =
    | Idle
    | Publishing(parent: string, post: Post, dispatch: Dispatch)
    | Saving(parent: string, sequence: nat)
    | Settling(parent: string, outcome: Option<nat>)

  function WithReviews(m: Memory, reviews: seq<Continuation>): Memory
    requires m.run.Some?
  {
    m.(run := Some(m.run.value.(reviews := reviews)))
  }

  /** The first section: one review, while the scheduler is idle. */
  function Advance(m: Memory, parent: string, access: Option<Access>, view: Parent, task: string, now: int): (Memory, Scheduler) {
    if m.closed || m.run.None? || Find(m.run.value.reviews, parent) == |m.run.value.reviews| then (m, Idle)
    else
      var run := m.run.value;
      var i := Find(run.reviews, parent);
      var c := run.reviews[i];
      var r := Account(m.messages, m.jobs, c);
      if r.Some? then (WithReviews(m, run.reviews[i := r.value]), Idle)
      else if c.state != Queued then (m, Idle)
      else
        match Choose(run, c, access, view, CountOutstanding(m.messages, m.jobs), task, now)
        case Leave => (m, Idle)
        case Mark(state, reason) => (WithReviews(m, run.reviews[i := c.(state := state, reason := reason)]), Idle)
        case Go(post, dispatch) => (m, Publishing(parent, post, dispatch))
  }

  predicate CanPublish(m: Memory, parent: string, access: Option<Access>, now: int) {
    && !m.closed && access.Some? && !access.value.paused && m.run.Some?
    && var run := m.run.value; var i := Find(run.reviews, parent);
    && i < |run.reviews| && run.reviews[i].state == Queued && run.state == Pending
    && access.value.enabled && now < access.value.expiresAt && access.value.pauseReason != NoProgress
  }

  function RecordedClass(post: Post): string {
    if post.replyClass == "" && post.recipients != [] then "quick" else post.replyClass
  }

  /** A retry of a saved message is recognised by its whole content. */
  predicate SameContent(m: Message, post: Post, dispatch: Option<Dispatch>) {
    && m.author == ChatGPT && !m.work
    && m.post.text == post.text && m.post.replyTo == post.replyTo && m.post.recipients == post.recipients
    && m.post.effort == post.effort && RecordedClass(m.post) == post.replyClass && m.dispatch == dispatch
  }

  predicate WasUnscheduled(jobs: seq<Job>, sequence: nat) {
    exists i :: 0 <= i < |jobs| && jobs[i].source == sequence && jobs[i].unscheduled
  }

  /** How an append ends: durable and acknowledged, durable but reported as
      failed because the final sync failed, or not durable. */
  datatype Append = Written | Unsynced | NotWritten

  datatype Publication =
    | RefusedPost
    | Found(index: nat)
    | New(message: Message, jobs: seq<Job>)

  /** Deduplicate, check, and compose.  `admissible` stands for the checks on the
      recipients, the effort, the reply target and the handoff named. */
  function Publish(m: Memory, id: string, post: Post, dispatch: Option<Dispatch>, jobs: seq<Job>, admissible: bool, now: int): Publication {
    var i := Published(m.messages, id);
    if i < |m.messages| then
      if SameContent(m.messages[i], post, dispatch) && !WasUnscheduled(m.jobs, m.messages[i].sequence) then Found(i) else RefusedPost
    else if !admissible || |post.recipients| > 4 || |post.text| > 16000 || Blank(post.text)
      || CountOutstanding(m.messages, m.jobs) + |post.recipients| > 4 then RefusedPost
    else New(Message(m.next, ChatGPT, true, false, post, "", "", now, Some(id), dispatch), jobs)
  }

  function Appended(m: Memory, disk: Disk, message: Message, jobs: seq<Job>, append: Append): (Memory, Disk) {
    (if append == Written then m.(messages := m.messages + [message], jobs := m.jobs + jobs, next := m.next + 1) else m,
     if append == NotWritten then disk else disk.(transcript := disk.transcript + [message]))
  }

  /** The third section: what the publication came to. */
  function Settle(m: Memory, parent: string, outcome: Option<nat>): Memory {
    if m.run.None? || Find(m.run.value.reviews, parent) == |m.run.value.reviews| then m
    else
      var reviews := m.run.value.reviews;
      var i := Find(reviews, parent);
      WithReviews(m, reviews[i :=
        if outcome.None? then reviews[i].(state := Blocked, reason := NotScheduled)
        else reviews[i].(state := Running, reason := Nothing, assignment := outcome.value)])
  }
}
