/** Runs of the review scheduler beside every other writer of the room, over
    crashes and restarts. */
module ContinuationRuns {
  import opened Options
  import opened Rooms
  import opened Continuations

  /** `used` are the workflows of requests that registered a review and `runs` the
      run identities ever current; new ones are fresh. */
  datatype System = System(memory: Memory, disk: Disk, scheduler: Scheduler, used: set<string>, runs: set<string>)

  datatype Step =
    | Request(message: Message, append: Append)
    | Accept(message: Message)
    | SetRun(state: RunState, withdraw: bool, reason: Reason)
    | Resume(id: string)
    | StartRun(id: string)
    | ChooseStep(parent: string, access: Option<Access>, view: Parent, task: string, now: int)
    | PublishStep(access: Option<Access>, jobs: seq<Job>, admissible: bool, now: int, append: Append)
    | SaveJobs(saved: bool)
    | SettleStep
    | Save
    | ChangeJobs(jobs: seq<Job>)
    | Close
    | Restart(jobs: seq<Job>)

  const START := System(Memory(false, None, [], [], 1), Disk([], None, []), Idle, {}, {})

  predicate Registers(m: Message) { m.dispatch.Some? && m.dispatch.value.spec.Some? }

  /** Every other message has its own identity, and a request that registers a
      review belongs to the current run and opens a fresh workflow. */
  ghost predicate Ordinary(s: System, m: Message) {
    && (forall w :: m.route != Some(Id(w)))
    && (Registers(m) ==> m.workflow !in s.used && s.memory.run.Some? && m.dispatch.value.run == s.memory.run.value.id)
  }

  ghost predicate Enabled(s: System, step: Step) {
    match step
    case Request(m, append) => !s.memory.closed && m.sequence == s.memory.next && Ordinary(s, m)
    case Accept(m) =>
      && m in s.memory.messages && Registers(m) && s.memory.run.Some?
      && s.memory.run.value.state != Stopped && m.dispatch.value.run == s.memory.run.value.id
    case SetRun(state, withdraw, reason) => s.memory.run.Some?
    case Resume(id) => id !in s.runs && s.memory.run.Some? && s.memory.run.value.state == Stopped
    case StartRun(id) => id !in s.runs && (s.memory.run.None? || s.memory.run.value.state == Complete)
    case ChooseStep(parent, access, view, task, now) => s.scheduler == Idle
    case PublishStep(access, jobs, admissible, now, append) => s.scheduler.Publishing?
    case SaveJobs(saved) => s.scheduler.Saving?
    case SettleStep => s.scheduler.Settling?
    case Save => true
    case ChangeJobs(jobs) => true
    case Close => true
    case Restart(jobs) => true
  }

  function SetState(m: Memory, state: RunState, withdraw: bool, reason: Reason): Memory
    requires m.run.Some?
  {
    var run := m.run.value;
    var reviews := if withdraw then Cancel(run.reviews, m.messages, m.jobs, reason) else run.reviews;
    m.(run := Some(Run(run.id, state, reviews)))
  }

  function NextSequence(messages: seq<Message>): nat {
    if messages == [] then 1
    else
      var n := NextSequence(messages[..|messages| - 1]);
      var k := messages[|messages| - 1].sequence;
      if k >= n then k + 1 else n
  }

  /** A new process reads the disk and withdraws the reviews it finds queued. */
  function Restarted(disk: Disk, jobs: seq<Job>): Memory {
    Memory(false,
           if disk.run.None? then None
           else Some(disk.run.value.(reviews := Cancel(disk.run.value.reviews, disk.transcript, jobs, HostRestarted))),
           disk.transcript, jobs, NextSequence(disk.transcript))
  }

  function Unscheduled(jobs: seq<Job>, sequence: nat): (r: seq<Job>)
    ensures |r| == |jobs|
  {
    seq(|jobs|, i requires 0 <= i < |jobs| =>
      if jobs[i].source == sequence then jobs[i].(state := Failed, unscheduled := true) else jobs[i])
  }

  /** The publication and what the scheduler does after it. */
  function AfterPublishing(m: Memory, disk: Disk, parent: string, post: Post, dispatch: Dispatch, step: Step): (Memory, Disk, Scheduler)
    requires step.PublishStep?
  {
    if !CanPublish(m, parent, step.access, step.now) then (m, disk, Settling(parent, None))
    else
      match Publish(m, Id(parent), post, Some(dispatch), step.jobs, step.admissible, step.now)
      case RefusedPost => (m, disk, Settling(parent, None))
      case Found(i) => (m, disk, Settling(parent, if i < |m.messages| then Some(m.messages[i].sequence) else None))
      case New(message, jobs) =>
        var (m', disk') := Appended(m, disk, message, jobs, step.append);
        (m', disk', if step.append == Written then Saving(parent, message.sequence) else Settling(parent, None))
  }

  function Next(s: System, step: Step): System
    requires Enabled(s, step)
  {
    match step
    case Request(m, append) =>
      var (memory, disk) := Appended(s.memory, s.disk, m, [], append);
      s.(memory := memory, disk := disk, used := if Registers(m) then s.used + {m.workflow} else s.used)
    case Accept(m) => s.(memory := WithReviews(s.memory, Register(s.memory.run.value.reviews, m)))
    case SetRun(state, withdraw, reason) => s.(memory := SetState(s.memory, state, withdraw, reason))
    case Resume(id) =>
      s.(memory := s.memory.(run := Some(Run(id, Pending, s.memory.run.value.reviews))), runs := s.runs + {id})
    case StartRun(id) => s.(memory := s.memory.(run := Some(Run(id, Pending, []))), runs := s.runs + {id})
    case ChooseStep(parent, access, view, task, now) =>
      var (memory, scheduler) := Advance(s.memory, parent, access, view, task, now);
      s.(memory := memory, scheduler := scheduler)
    case PublishStep(access, jobs, admissible, now, append) =>
      var (memory, disk, scheduler) := AfterPublishing(s.memory, s.disk, s.scheduler.parent, s.scheduler.post, s.scheduler.dispatch, step);
      s.(memory := memory, disk := disk, scheduler := scheduler)
    case SaveJobs(saved) =>
      var n := s.scheduler.sequence;
      if saved then s.(disk := Disk(s.disk.transcript, s.memory.run, s.memory.jobs), scheduler := Settling(s.scheduler.parent, Some(n)))
      else s.(memory := s.memory.(jobs := Unscheduled(s.memory.jobs, n)), scheduler := Settling(s.scheduler.parent, None))
    case SettleStep => s.(memory := Settle(s.memory, s.scheduler.parent, s.scheduler.outcome), scheduler := Idle)
    case Save => s.(disk := Disk(s.disk.transcript, s.memory.run, s.memory.jobs))
    case ChangeJobs(jobs) => s.(memory := s.memory.(jobs := jobs))
    case Close => s.(memory := s.memory.(closed := true))
    case Restart(jobs) => s.(memory := Restarted(s.disk, jobs), scheduler := Idle)
  }

  ghost predicate Legal(s: System, run: seq<Step>)
    decreases |run|
  {
    run == [] || (Enabled(s, run[0]) && Legal(Next(s, run[0]), run[1..]))
  }

  function Exec(s: System, run: seq<Step>): System
    requires Legal(s, run)
    decreases |run|
  {
    if run == [] then s else Exec(Next(s, run[0]), run[1..])
  }
}
