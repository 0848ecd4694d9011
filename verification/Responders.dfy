/** Conversation attempts and temporary responders (internal/room/conversations.go).

    Whether a participant is eligible at the moment, and whether a temporary
    runner can be created, are given by a view of the room.
 */
module Responders {
  import opened Options
  import opened Participants

  datatype Attempt = Attempt(participant: string, provider: string, window: int, completed: bool)

  datatype JobState = Finding | Waiting | Answering | Retrying | Answered | Failed | Dismissed | Cancelled

  datatype Job = Job(state: JobState, responder: string, temporary: bool, window: int, attempts: seq<Attempt>,
                     requested: seq<string>, external: bool, extensions: int)

  datatype View = View(eligible: set<string>, participants: seq<string>, cores: set<string>, working: bool,
                       factory: seq<string>, creatable: set<string>, limit: int)

  /** The temporary responders with their conversations, and all running agents. */
  datatype Roster = Roster(temporary: map<string, string>, agents: set<string>)

  predicate Terminal(s: JobState) { s.Answered? || s.Failed? || s.Dismissed? || s.Cancelled? }

  // ----- choosing a responder

  function Used(attempts: seq<Attempt>, window: int): set<string> {
    set i | 0 <= i < |attempts| && attempts[i].window == window :: attempts[i].provider
  }

  predicate Fits(p: string, used: set<string>, v: View) { Provider(p) !in used && p in v.eligible }

  /** The first participant that fits and that the pass admits. */
  function First(ps: seq<string>, used: set<string>, v: View, admits: string -> bool): (r: Option<string>)
    ensures r.Some? ==> r.value in ps && Fits(r.value, used, v) && admits(r.value)
  {
    if ps == [] then None
    else if admits(ps[0]) && Fits(ps[0], used, v) then Some(ps[0])
    else First(ps[1..], used, v, admits)
  }

  function Anyone(): string -> bool { (p: string) => true }

  function Auxiliaries(): string -> bool { (p: string) => ValidAgent(p) && !IsPrimary(p) }

  function NotCore(cores: set<string>): string -> bool { (p: string) => p !in cores }

  predicate HasTemporary(temporary: map<string, string>, provider: string) {
    exists p :: p in temporary && Provider(p) == provider
  }

  function AuxiliaryName(provider: string, index: nat): string { provider + "-" + Decimal(index) }

  /** The first free index from `index` on; `names` are the names not passed yet. */
  function NextFrom(provider: string, names: set<string>, index: nat): (i: nat)
    ensures i >= index
    decreases |names|
  {
    if AuxiliaryName(provider, index) !in names then index
    else NextFrom(provider, names - {AuxiliaryName(provider, index)}, index + 1)
  }

  function NextTemporary(provider: string, agents: set<string>): string {
    AuxiliaryName(provider, NextFrom(provider, agents, 1))
  }

  function NewProvider(factory: seq<string>, used: set<string>, r: Roster, v: View): (p: Option<string>)
    ensures p.Some? ==> IsPrimary(p.value) && p.value !in used && !HasTemporary(r.temporary, p.value)
  {
    if factory == [] then None
    else
      var p := factory[0];
      if IsPrimary(p) && p !in used && !HasTemporary(r.temporary, p) && p in v.eligible && NextTemporary(p, r.agents) in v.creatable then Some(p)
      else NewProvider(factory[1..], used, r, v)
  }

  datatype Choice = Nobody | Someone(participant: string) | Temporary(provider: string)

  function OrElse(a: Option<string>, b: Option<string>): Option<string> { if a.Some? then a else b }

  function Present(job: Job, used: set<string>, v: View): Option<string> {
    OrElse(First(v.participants, used, v, Auxiliaries()),
           OrElse(First(v.participants, used, v, NotCore(v.cores)),
                  if v.working then None else First(v.participants, used, v, Anyone())))
  }

  /** A requested participant; else an auxiliary, one outside the core, anyone
      while no work is active; else a new temporary responder. */
  function Select(job: Job, r: Roster, v: View): Choice {
    var used := Used(job.attempts, job.window);
    var requested := First(job.requested, used, v, Anyone());
    if requested.Some? then Someone(requested.value)
    else if job.external then Nobody
    else
      var present := Present(job, used, v);
      if present.Some? then Someone(present.value)
      else if v.limit <= 0 || |r.temporary| >= v.limit then Nobody
      else
        var p := NewProvider(v.factory, used, r, v);
        if p.Some? then Temporary(p.value) else Nobody
  }

  function WindowCount(attempts: seq<Attempt>, window: int): nat {
    if attempts == [] then 0 else (if attempts[0].window == window then 1 else 0) + WindowCount(attempts[1..], window)
  }

  function Assign(job: Job, participant: string, temporary: bool): Job {
    var attempts := job.attempts + [Attempt(participant, Provider(participant), job.window, false)];
    job.(attempts := attempts, responder := participant, temporary := temporary,
         state := if WindowCount(attempts, job.window) == 1 then Answering else Retrying)
  }

  function Employ(r: Roster, participant: string, id: string): Roster {
    Roster(r.temporary[participant := id], r.agents + {participant})
  }

  predicate Schedulable(job: Job) { job.state == Finding || job.state == Waiting }

  /** One job of the scheduler's loop. */
  function Schedule(id: string, job: Job, r: Roster, v: View): (Job, Roster) {
    if !Schedulable(job) then (job, r)
    else
      match Select(job, r, v)
      case Nobody => (job.(state := Waiting), r)
      case Someone(p) =>
        if ValidAgent(p) then (Assign(job, p, p in r.temporary && r.temporary[p] == id), r) else (job.(state := Waiting), r)
      case Temporary(provider) =>
        var p := NextTemporary(provider, r.agents);
        if ValidAgent(p) then (Assign(job, p, true), Employ(r, p, id)) else (job.(state := Waiting), Employ(r, p, id))
  }

  /** The assignment is withdrawn before the provider call: the attempt is taken
      back if it is the last and did not finish. */
  function Withdraw(job: Job, attempt: nat): Job {
    if attempt >= |job.attempts| || Terminal(job.state) || job.responder != job.attempts[attempt].participant then job
    else
      job.(state := Waiting, responder := "",
           attempts := if attempt == |job.attempts| - 1 && !job.attempts[attempt].completed then job.attempts[..attempt] else job.attempts)
  }

  datatype Outcome = Answer | NeedsWork | ProviderError | OtherFailure

  function Finish(job: Job, attempt: nat, o: Outcome): Job {
    if attempt >= |job.attempts| then job
    else
      var j := job.(attempts := job.attempts[attempt := job.attempts[attempt].(completed := true)]);
      if Terminal(job.state) then j
      else
        match o
        case Answer => j.(state := Answered, responder := job.attempts[attempt].participant)
        case NeedsWork => if job.external then Fail(j) else j.(state := Dismissed, responder := "")
        case ProviderError =>
          if !job.external && WindowCount(job.attempts, job.window) < 2 then j.(state := Finding, responder := "", temporary := false)
          else Fail(j)
        case OtherFailure => Fail(j)
  }

  function Fail(job: Job): Job { job.(state := Failed, responder := "") }

  /** A retry, or an extension, of a failed job: a new window. */
  function Reopen(job: Job): Job { job.(state := Finding, responder := "", window := job.window + 1) }

  /** A follow-up keeps the responder, whose attempt may still be running. */
  function FollowOn(job: Job): Job { job.(state := Finding, window := job.window + 1) }

  function Retire(r: Roster, p: string): Roster { Roster(r.temporary - {p}, r.agents - {p}) }

  /** The conversation of a retired temporary responder. */
  function WithoutTemporary(job: Job, p: string): Job {
    job.(responder := if job.responder == p then "" else job.responder, temporary := false)
  }

  /** A restart fails what was being answered, and takes no responder over but
      that of an answer or of a job still waiting for one. */
  function Restarted(job: Job): Job {
    var j := if job.state == Answering || job.state == Retrying || (Terminal(job.state) && job.state != Answered) then job.(responder := "")
             else job;
    j.(state := if job.state == Answering || job.state == Retrying then Failed else job.state,
       responder := if job.temporary then "" else j.responder, temporary := false)
  }

  // ----- runs

  datatype System = System(jobs: map<string, Job>, roster: Roster)

  datatype Step =
    | NewJob(id: string, requested: seq<string>, external: bool)
    | ScheduleStep(id: string, view: View)
    | WithdrawStep(id: string, attempt: nat)
    | FinishStep(id: string, attempt: nat, outcome: Outcome)
    | Expire(id: string)
    | Cancel(id: string)
    | Reroute(id: string)
    | Retry(id: string)
    | Extend(id: string)
    | FollowUp(id: string)
    | RetireStep(participant: string)
    | HostAgents(added: set<string>, removed: set<string>)
    | Restart

  function OnJob(s: System, id: string, j: Job): System { s.(jobs := s.jobs[id := j]) }

  function Next(s: System, step: Step): System {
    match step
    case NewJob(id, requested, external) =>
      if id in s.jobs then s else OnJob(s, id, Job(Finding, "", false, 0, [], requested, external, 0))
    case ScheduleStep(id, view) =>
      if id !in s.jobs then s
      else var (j, r) := Schedule(id, s.jobs[id], s.roster, view); System(s.jobs[id := j], r)
    case WithdrawStep(id, attempt) => if id !in s.jobs then s else OnJob(s, id, Withdraw(s.jobs[id], attempt))
    case FinishStep(id, attempt, outcome) => if id !in s.jobs then s else OnJob(s, id, Finish(s.jobs[id], attempt, outcome))
    case Expire(id) => if id !in s.jobs || Terminal(s.jobs[id].state) then s else OnJob(s, id, Fail(s.jobs[id]))
    case Cancel(id) => if id !in s.jobs || Terminal(s.jobs[id].state) then s else OnJob(s, id, s.jobs[id].(state := Cancelled))
    case Reroute(id) => if id !in s.jobs then s else OnJob(s, id, Reopen(s.jobs[id]).(temporary := false))
    case Retry(id) => if id !in s.jobs || s.jobs[id].state != Failed then s else OnJob(s, id, Reopen(s.jobs[id]))
    case Extend(id) =>
      if id !in s.jobs || s.jobs[id].state != Failed || s.jobs[id].extensions >= 1 then s
      else OnJob(s, id, Reopen(s.jobs[id]).(extensions := s.jobs[id].extensions + 1))
    case FollowUp(id) => if id !in s.jobs then s else OnJob(s, id, FollowOn(s.jobs[id]))
    case RetireStep(p) =>
      if p !in s.roster.temporary || s.roster.temporary[p] !in s.jobs then s
      else
        var id := s.roster.temporary[p];
        System(s.jobs[id := WithoutTemporary(s.jobs[id], p)], Retire(s.roster, p))
    case HostAgents(added, removed) =>
      s.(roster := s.roster.(agents := (s.roster.agents + added) - (removed - s.roster.temporary.Keys)))
    case Restart => System(map id | id in s.jobs :: Restarted(s.jobs[id]), Roster(map[], s.roster.agents - s.roster.temporary.Keys))
  }

  function Exec(s: System, run: seq<Step>): System
    decreases |run|
  {
    if run == [] then s else Exec(Next(s, run[0]), run[1..])
  }

  const START := System(map[], Roster(map[], {}))
}
