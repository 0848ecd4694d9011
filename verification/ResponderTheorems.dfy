/** Attempts and temporary responders over any run. */
module ResponderTheorems {
  import opened Options
  import opened Participants
  import opened Responders

  // ----- attempts of one window use distinct providers

  ghost predicate Spread(job: Job) {
    && (forall i :: 0 <= i < |job.attempts| ==> job.attempts[i].window <= job.window && job.attempts[i].provider in AGENTS)
    && forall i, j :: 0 <= i < j < |job.attempts| && job.attempts[i].window == job.attempts[j].window ==>
         job.attempts[i].provider != job.attempts[j].provider
  }

  lemma {:induction false} AmongIsAgent(p: string, providers: seq<string>)
    requires forall q :: q in providers ==> q in AGENTS
    ensures ProviderAmong(p, providers) == "" || ProviderAmong(p, providers) in AGENTS
    decreases |providers|
  {
    if providers != [] {
      AmongIsAgent(p, providers[1..]);
    }
  }

  lemma ProviderIsAgent(p: string)
    ensures ValidAgent(p) ==> Provider(p) in AGENTS
  {
    AmongIsAgent(p, AGENTS);
  }

  lemma AssignSpread(job: Job, p: string, temporary: bool)
    requires Spread(job) && ValidAgent(p) && Provider(p) !in Used(job.attempts, job.window)
    ensures Spread(Assign(job, p, temporary))
  {
    ProviderIsAgent(p);
    forall i | 0 <= i < |job.attempts| && job.attempts[i].window == job.window
      ensures job.attempts[i].provider != Provider(p)
    {
      assert job.attempts[i].provider in Used(job.attempts, job.window);
    }
  }

  // ----- the search for a free identity

  lemma NameInjective(provider: string, i: nat, j: nat)
    requires AuxiliaryName(provider, i) == AuxiliaryName(provider, j)
    ensures i == j
  {
    var n := |provider| + 1;
    assert AuxiliaryName(provider, i)[n..] == Decimal(i) && AuxiliaryName(provider, j)[n..] == Decimal(j);
    DecimalInjective(i, j);
  }

  /** The name found is free and every smaller index is taken; the search goes no
      further than one past the number of agents. */
  lemma {:induction false} NextIsLeast(provider: string, agents: set<string>, names: set<string>, index: nat)
    requires names <= agents && forall j: nat :: j >= index && AuxiliaryName(provider, j) in agents ==> AuxiliaryName(provider, j) in names
    ensures var i := NextFrom(provider, names, index);
      && AuxiliaryName(provider, i) !in agents && i <= index + |names|
      && forall j: nat :: index <= j < i ==> AuxiliaryName(provider, j) in agents
    decreases |names|
  {
    var name := AuxiliaryName(provider, index);
    if name in names {
      forall j: nat | j >= index + 1 && AuxiliaryName(provider, j) in agents
        ensures AuxiliaryName(provider, j) in names - {name}
      {
        if AuxiliaryName(provider, j) == name {
          NameInjective(provider, j, index);
        }
      }
      NextIsLeast(provider, agents, names - {name}, index + 1);
      assert |names - {name}| == |names| - 1;
    }
  }

  lemma NextTemporaryIsFree(provider: string, agents: set<string>)
    requires IsPrimary(provider) && |agents| + 1 < MAX_INDEX
    ensures NextTemporary(provider, agents) !in agents && Provider(NextTemporary(provider, agents)) == provider
  {
    NextIsLeast(provider, agents, agents, 1);
    AuxiliaryRoundTrip(provider, NextFrom(provider, agents, 1));
  }

  // ----- at most one temporary responder for each provider

  ghost predicate OneEach(temporary: map<string, string>) {
    forall p, q :: p in temporary && q in temporary && Provider(p) == Provider(q) ==> p == q
  }

  lemma EmployOne(r: Roster, provider: string, id: string)
    requires OneEach(r.temporary) && IsPrimary(provider) && !HasTemporary(r.temporary, provider) && |r.agents| + 1 < MAX_INDEX
    ensures OneEach(Employ(r, NextTemporary(provider, r.agents), id).temporary)
  {
    NextTemporaryIsFree(provider, r.agents);
    forall p | p in r.temporary
      ensures Provider(p) != provider
    {
    }
  }

  ghost predicate Sound(s: System) {
    (forall id :: id in s.jobs ==> Spread(s.jobs[id])) && OneEach(s.roster.temporary)
  }

  /** Fewer agents than there are indices. */
  predicate Roomy(r: Roster) { |r.agents| + 1 < MAX_INDEX }

  lemma ScheduleSound(id: string, job: Job, r: Roster, v: View)
    requires Spread(job) && OneEach(r.temporary) && Roomy(r)
    ensures var (j, r') := Schedule(id, job, r, v); Spread(j) && OneEach(r'.temporary)
  {
    if Schedulable(job) {
      match Select(job, r, v)
      case Nobody =>
      case Someone(p) =>
        if ValidAgent(p) {
          AssignSpread(job, p, p in r.temporary && r.temporary[p] == id);
        }
      case Temporary(provider) =>
        NextTemporaryIsFree(provider, r.agents);
        EmployOne(r, provider, id);
        AssignSpread(job, NextTemporary(provider, r.agents), true);
    }
  }

  lemma SameSpread(job: Job, other: Job)
    requires Spread(job) && other.window == job.window && |other.attempts| == |job.attempts|
    requires forall i :: 0 <= i < |job.attempts| ==>
      other.attempts[i].window == job.attempts[i].window && other.attempts[i].provider == job.attempts[i].provider
    ensures Spread(other)
  {
  }

  lemma FinishSpread(job: Job, attempt: nat, o: Outcome)
    requires Spread(job)
    ensures Spread(Finish(job, attempt, o))
  {
    SameSpread(job, Finish(job, attempt, o));
  }

  lemma JobSound(s: System, id: string, job: Job)
    requires Sound(s) && Spread(job)
    ensures Sound(OnJob(s, id, job))
  {
  }

  lemma ScheduleStepSound(s: System, id: string, view: View)
    requires Sound(s) && Roomy(s.roster) && id in s.jobs
    ensures Sound(Next(s, ScheduleStep(id, view)))
  {
    ScheduleSound(id, s.jobs[id], s.roster, view);
    var (j, r) := Schedule(id, s.jobs[id], s.roster, view);
    JobSound(s.(roster := r), id, j);
  }

  lemma FinishStepSound(s: System, id: string, attempt: nat, outcome: Outcome)
    requires Sound(s) && id in s.jobs
    ensures Sound(Next(s, FinishStep(id, attempt, outcome)))
  {
    FinishSpread(s.jobs[id], attempt, outcome);
    JobSound(s, id, Finish(s.jobs[id], attempt, outcome));
  }

  /** Changes of the roster, which end attempts but add none. */
  lemma RosterSound(s: System, step: Step)
    requires Sound(s) && (step.RetireStep? || step.HostAgents? || step.Restart?)
    ensures Sound(Next(s, step))
  {
  }

  lemma OtherSound(s: System, step: Step)
    requires Sound(s) && !step.RetireStep? && !step.HostAgents? && !step.Restart?
    requires (step.ScheduleStep? || step.FinishStep?) ==> step.id !in s.jobs
    ensures Sound(Next(s, step))
  {
  }

  lemma StepSound(s: System, step: Step)
    requires Sound(s) && Roomy(s.roster)
    ensures Sound(Next(s, step))
  {
    if step.ScheduleStep? && step.id in s.jobs {
      ScheduleStepSound(s, step.id, step.view);
    } else if step.FinishStep? && step.id in s.jobs {
      FinishStepSound(s, step.id, step.attempt, step.outcome);
    } else if step.RetireStep? || step.HostAgents? || step.Restart? {
      RosterSound(s, step);
    } else {
      OtherSound(s, step);
    }
  }

  ghost predicate AlwaysRoomy(s: System, run: seq<Step>)
    decreases |run|
  {
    Roomy(s.roster) && (run == [] || AlwaysRoomy(Next(s, run[0]), run[1..]))
  }

  lemma {:induction false} RunSound(s: System, run: seq<Step>)
    requires Sound(s) && AlwaysRoomy(s, run)
    ensures Sound(Exec(s, run))
    decreases |run|
  {
    if run != [] {
      StepSound(s, run[0]);
      RunSound(Next(s, run[0]), run[1..]);
    }
  }

  /** Over any run, two attempts of one window of a conversation use two providers. */
  lemma WindowProvidersDiffer(run: seq<Step>, id: string, i: nat, j: nat)
    requires AlwaysRoomy(START, run) && id in Exec(START, run).jobs
    requires var a := Exec(START, run).jobs[id].attempts; i < j < |a| && a[i].window == a[j].window
    ensures var a := Exec(START, run).jobs[id].attempts; a[i].provider != a[j].provider
  {
    RunSound(START, run);
    assert Spread(Exec(START, run).jobs[id]);
  }

  /** Over any run, no provider has two temporary responders. */
  lemma OneTemporaryEach(run: seq<Step>, p: string, q: string)
    requires AlwaysRoomy(START, run)
    requires var t := Exec(START, run).roster.temporary; p in t && q in t && Provider(p) == Provider(q)
    ensures p == q
  {
    RunSound(START, run);
  }

  // ----- so a window has at most one attempt for each agent

  lemma {:induction false} CountIsCardinal(attempts: seq<Attempt>, window: int)
    requires forall i, j :: 0 <= i < j < |attempts| && attempts[i].window == attempts[j].window ==> attempts[i].provider != attempts[j].provider
    ensures WindowCount(attempts, window) == |Used(attempts, window)|
    decreases |attempts|
  {
    if attempts != [] {
      var a, rest := attempts[0], attempts[1..];
      forall i, j | 0 <= i < j < |rest| && rest[i].window == rest[j].window
        ensures rest[i].provider != rest[j].provider
      {
        assert attempts[i + 1].window == attempts[j + 1].window;
      }
      CountIsCardinal(rest, window);
      UsedHead(attempts, window);
      forall i | 0 <= i < |rest| && rest[i].window == a.window
        ensures rest[i].provider != a.provider
      {
        assert attempts[i + 1] == rest[i];
      }
    } else {
      assert Used(attempts, window) == {};
    }
  }

  lemma UsedHead(attempts: seq<Attempt>, window: int)
    requires attempts != []
    ensures Used(attempts, window) == (if attempts[0].window == window then {attempts[0].provider} else {}) + Used(attempts[1..], window)
  {
    forall p | p in Used(attempts, window)
      ensures p in (if attempts[0].window == window then {attempts[0].provider} else {}) + Used(attempts[1..], window)
    {
      var i :| 0 <= i < |attempts| && attempts[i].window == window && attempts[i].provider == p;
      if i > 0 {
        assert attempts[1..][i - 1] == attempts[i];
      }
    }
    forall p | p in Used(attempts[1..], window)
      ensures p in Used(attempts, window)
    {
      var i :| 0 <= i < |attempts[1..]| && attempts[1..][i].window == window && attempts[1..][i].provider == p;
      assert attempts[i + 1] == attempts[1..][i];
    }
  }

  /** Over any run, a window has at most four attempts, one for each provider. */
  lemma WindowIsBounded(run: seq<Step>, id: string, window: int)
    requires AlwaysRoomy(START, run) && id in Exec(START, run).jobs
    ensures WindowCount(Exec(START, run).jobs[id].attempts, window) <= |AGENTS|
  {
    RunSound(START, run);
    var job := Exec(START, run).jobs[id];
    assert Spread(job);
    CountIsCardinal(job.attempts, window);
    var agents: set<string> := {AGENTS[0], AGENTS[1], AGENTS[2], AGENTS[3]};
    forall p | p in Used(job.attempts, window)
      ensures p in agents
    {
      var i :| 0 <= i < |job.attempts| && job.attempts[i].provider == p;
      assert p in AGENTS;
    }
    SubsetSize(Used(job.attempts, window), agents);
  }
}
