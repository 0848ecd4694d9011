/** What a review's state says about its dispatch. */
module ContinuationTheorems {
  import opened Options
  import opened Rooms
  import opened Continuations
  import opened ContinuationRuns
  import opened ContinuationSafety

  // ----- a review that left the queue undispatched stays undispatched

  /** Neither queued nor able to be queued. */
  ghost predicate Inert(m: Memory, w: string) { !QueuedIn(m.run, w) && !Registrable(m, w) }

  lemma AcceptInert(s: System, m: Message, w: string)
    requires Known(s) && Enabled(s, Accept(m)) && Inert(s.memory, w)
    ensures Inert(Next(s, Accept(m)).memory, w)
  {
    var s' := Next(s, Accept(m));
    var reviews := s.memory.run.value.reviews;
    if Find(reviews, m.workflow) == |reviews| {
      var c := Continuation(m.workflow, m.sequence, m.dispatch.value.spec.value, Queued, Nothing, 0);
      FindPlus(reviews, c, w);
      var i :| 0 <= i < |s.memory.messages| && s.memory.messages[i] == m;
      assert RegistersFor(s.memory.messages[i], m.workflow, s.memory.run.value.id);
      assert w != m.workflow;
      assert Registrable(s'.memory, w) ==> Registrable(s.memory, w);
    }
  }

  lemma PublishInert(s: System, step: Step, w: string)
    requires Safe(s) && Enabled(s, step) && step.PublishStep? && w in s.used && Inert(s.memory, w)
    ensures Inert(Next(s, step).memory, w)
    ensures !Has(s.disk.transcript, w) ==> !Has(Next(s, step).disk.transcript, w)
  {
    if Publishes(s, step) {
      PublishesFirst(s, step);
      var s', parent := Next(s, step), s.scheduler.parent;
      var m := Publish(s.memory, Id(parent), s.scheduler.post, Some(s.scheduler.dispatch), step.jobs, step.admissible, step.now).message;
      HasPlus(s.disk.transcript, m, w);
      if m.route == Some(Id(w)) {
        IdInjective(parent, w);
      }
      assert !RegistersFor(m, w, s.memory.run.value.id);
    }
  }

  lemma QuietInert(s: System, step: Step, w: string)
    requires Known(s) && Enabled(s, step) && Inert(s.memory, w)
    requires step.SetRun? || step.ChooseStep? || step.SettleStep? || step.ChangeJobs? || step.Close?
    ensures Inert(Next(s, step).memory, w) && Next(s, step).disk == s.disk
  {
    match step
    case SetRun(state, withdraw, reason) =>
    case ChooseStep(parent, access, view, task, now) =>
      AdvanceTame(s.memory, parent, access, view, task, now);
    case SettleStep =>
      SettleTame(s.memory, s.scheduler.parent, s.scheduler.outcome);
    case ChangeJobs(jobs) =>
    case Close =>
  }

  ghost predicate Gone(s: System, w: string) { w in s.used && Inert(s.memory, w) && !Has(s.disk.transcript, w) }

  lemma StepGone(s: System, step: Step, w: string)
    requires Safe(s) && Enabled(s, step) && !step.Restart? && Gone(s, w)
    ensures Gone(Next(s, step), w)
  {
    match step
    case Request(m, append) =>
      HasPlus(s.disk.transcript, m, w);
    case Accept(m) => AcceptInert(s, m, w);
    case Resume(id) => Unregistrable(s, Next(s, step).memory, id, w);
    case StartRun(id) => Unregistrable(s, Next(s, step).memory, id, w);
    case PublishStep(access, jobs, admissible, now, append) => PublishInert(s, step, w);
    case SaveJobs(saved) =>
    case Save =>
    case SetRun(state, withdraw, reason) => QuietInert(s, step, w);
    case ChooseStep(parent, access, view, task, now) => QuietInert(s, step, w);
    case SettleStep => QuietInert(s, step, w);
    case ChangeJobs(jobs) => QuietInert(s, step, w);
    case Close => QuietInert(s, step, w);
  }

  ghost predicate OneProcess(run: seq<Step>) { forall i :: 0 <= i < |run| ==> !run[i].Restart? }

  lemma {:induction false} RunGone(s: System, run: seq<Step>, w: string)
    requires Safe(s) && Legal(s, run) && OneProcess(run) && Gone(s, w)
    ensures Gone(Exec(s, run), w)
    decreases |run|
  {
    if run != [] {
      StepGone(s, run[0], w);
      StepSafe(s, run[0]);
      RunGone(Next(s, run[0]), run[1..], w);
    }
  }

  /** A review that left `queued` without a message is not dispatched by the same
      process any more, whatever is resumed, started or retried. */
  lemma LeftForGood(before: seq<Step>, after: seq<Step>, w: string)
    requires Legal(START, before)
    requires var s := Exec(START, before);
      && s.memory.run.Some? && !Has(s.disk.transcript, w)
      && Find(s.memory.run.value.reviews, w) < |s.memory.run.value.reviews| && !QueuedIn(s.memory.run, w)
      && Legal(s, after) && OneProcess(after)
    ensures !Has(Exec(Exec(START, before), after).disk.transcript, w)
  {
    RunSafe(START, before);
    RunGone(Exec(START, before), after, w);
  }

  // ----- a review that runs has its assignment in the transcript

  ghost predicate Assignment(transcript: seq<Message>, w: string, sequence: nat) {
    exists i :: 0 <= i < |transcript| && transcript[i].route == Some(Id(w)) && transcript[i].sequence == sequence
  }

  predicate Dispatched(c: Continuation) { c.state == Running || c.state == Completed }

  ghost predicate Backed(run: Option<Run>, transcript: seq<Message>) {
    run.Some? ==> forall i :: 0 <= i < |run.value.reviews| && Dispatched(run.value.reviews[i]) ==>
      Assignment(transcript, run.value.reviews[i].workflow, run.value.reviews[i].assignment)
  }

  ghost predicate SchedulerBacked(scheduler: Scheduler, transcript: seq<Message>) {
    match scheduler
    case Saving(parent, n) => Assignment(transcript, parent, n)
    case Settling(parent, outcome) => outcome.Some? ==> Assignment(transcript, parent, outcome.value)
    case Idle => true
    case Publishing(parent, post, dispatch) => true
  }

  ghost predicate Founded(s: System) {
    && Within(s.memory.messages, s.disk.transcript)
    && Backed(s.memory.run, s.disk.transcript) && Backed(s.disk.run, s.disk.transcript)
    && SchedulerBacked(s.scheduler, s.disk.transcript)
  }

  lemma AssignmentPlus(transcript: seq<Message>, m: Message, w: string, n: nat)
    ensures Assignment(transcript, w, n) ==> Assignment(transcript + [m], w, n)
    ensures m.route == Some(Id(w)) && m.sequence == n ==> Assignment(transcript + [m], w, n)
  {
    var all := transcript + [m];
    assert all[|transcript|] == m;
    if Assignment(transcript, w, n) {
      var i :| 0 <= i < |transcript| && transcript[i].route == Some(Id(w)) && transcript[i].sequence == n;
      assert all[i] == transcript[i];
    }
  }

  lemma BackedPlus(run: Option<Run>, transcript: seq<Message>, m: Message)
    requires Backed(run, transcript)
    ensures Backed(run, transcript + [m])
  {
    if run.Some? {
      forall i | 0 <= i < |run.value.reviews| && Dispatched(run.value.reviews[i])
        ensures Assignment(transcript + [m], run.value.reviews[i].workflow, run.value.reviews[i].assignment)
      {
        AssignmentPlus(transcript, m, run.value.reviews[i].workflow, run.value.reviews[i].assignment);
      }
    }
  }

  lemma SchedulerPlus(scheduler: Scheduler, transcript: seq<Message>, m: Message)
    requires SchedulerBacked(scheduler, transcript)
    ensures SchedulerBacked(scheduler, transcript + [m])
  {
    match scheduler
    case Saving(parent, n) => AssignmentPlus(transcript, m, parent, n);
    case Settling(parent, outcome) =>
      if outcome.Some? {
        AssignmentPlus(transcript, m, parent, outcome.value);
      }
    case Idle =>
    case Publishing(parent, post, dispatch) =>
  }

  lemma CancelBacked(run: Run, messages: seq<Message>, transcript: seq<Message>, jobs: seq<Job>, reason: Reason)
    requires Within(messages, transcript) && Backed(Some(run), transcript)
    ensures Backed(Some(run.(reviews := Cancel(run.reviews, messages, jobs, reason))), transcript)
  {
    var reviews := Cancel(run.reviews, messages, jobs, reason);
    forall i | 0 <= i < |reviews| && Dispatched(reviews[i])
      ensures Assignment(transcript, reviews[i].workflow, reviews[i].assignment)
    {
      var c := run.reviews[i];
    }
  }

  lemma AdvanceBacked(m: Memory, transcript: seq<Message>, parent: string, access: Option<Access>, view: Parent, task: string, now: int)
    requires Within(m.messages, transcript) && Backed(m.run, transcript)
    ensures Backed(Advance(m, parent, access, view, task, now).0.run, transcript)
  {
    if m.run.Some? && Find(m.run.value.reviews, parent) < |m.run.value.reviews| {
      var run, i := m.run.value, Find(m.run.value.reviews, parent);
      var c := run.reviews[i];
      var r := Account(m.messages, m.jobs, c);
      if r.Some? {
      } else {
        var choice := Choose(run, c, access, view, CountOutstanding(m.messages, m.jobs), task, now);
        if choice.Mark? {
          assert !Dispatched(c.(state := choice.state));
        }
      }
    }
  }

  lemma SettleBacked(m: Memory, transcript: seq<Message>, parent: string, outcome: Option<nat>)
    requires Backed(m.run, transcript) && (outcome.Some? ==> Assignment(transcript, parent, outcome.value))
    ensures Backed(Settle(m, parent, outcome).run, transcript)
  {
    if m.run.Some? && Find(m.run.value.reviews, parent) < |m.run.value.reviews| {
      var run, i := m.run.value, Find(m.run.value.reviews, parent);
      var c := run.reviews[i];
    }
  }

  lemma RequestFounded(s: System, m: Message, append: Append)
    requires Founded(s) && Enabled(s, Request(m, append))
    ensures Founded(Next(s, Request(m, append)))
  {
    BackedPlus(s.memory.run, s.disk.transcript, m);
    BackedPlus(s.disk.run, s.disk.transcript, m);
    SchedulerPlus(s.scheduler, s.disk.transcript, m);
  }

  lemma PublishFounded(s: System, step: Step)
    requires Founded(s) && Enabled(s, step) && step.PublishStep?
    ensures Founded(Next(s, step))
  {
    var parent := s.scheduler.parent;
    var p := Publish(s.memory, Id(parent), s.scheduler.post, Some(s.scheduler.dispatch), step.jobs, step.admissible, step.now);
    if Publishes(s, step) {
      PublishedFounded(s, step, p.message);
    }
  }

  lemma PublishedFounded(s: System, step: Step, m: Message)
    requires Founded(s) && Enabled(s, step) && step.PublishStep? && Publishes(s, step)
    requires m == Publish(s.memory, Id(s.scheduler.parent), s.scheduler.post, Some(s.scheduler.dispatch), step.jobs, step.admissible, step.now).message
    ensures Founded(Next(s, step))
  {
    var s' := Next(s, step);
    BackedPlus(s.memory.run, s.disk.transcript, m);
    BackedPlus(s.disk.run, s.disk.transcript, m);
    AssignmentPlus(s.disk.transcript, m, s.scheduler.parent, m.sequence);
    assert s'.memory.run == s.memory.run && s'.disk.run == s.disk.run;
    assert s'.disk.transcript == if step.append == NotWritten then s.disk.transcript else s.disk.transcript + [m];
    assert s'.memory.messages == if step.append == Written then s.memory.messages + [m] else s.memory.messages;
  }

  lemma OtherFounded(s: System, step: Step)
    requires Founded(s) && Enabled(s, step) && !step.Request? && !step.PublishStep?
    ensures Founded(Next(s, step))
  {
    match step
    case SetRun(state, withdraw, reason) => CancelBacked(s.memory.run.value, s.memory.messages, s.disk.transcript, s.memory.jobs, reason);
    case ChooseStep(parent, access, view, task, now) => AdvanceBacked(s.memory, s.disk.transcript, parent, access, view, task, now);
    case SettleStep => SettleBacked(s.memory, s.disk.transcript, s.scheduler.parent, s.scheduler.outcome);
    case Restart(jobs) =>
      if s.disk.run.Some? {
        CancelBacked(s.disk.run.value, s.disk.transcript, s.disk.transcript, jobs, HostRestarted);
      }
    case Accept(m) =>
    case Resume(id) =>
    case StartRun(id) =>
    case SaveJobs(saved) =>
    case Save =>
    case ChangeJobs(jobs) =>
    case Close =>
  }

  lemma StepFounded(s: System, step: Step)
    requires Founded(s) && Enabled(s, step)
    ensures Founded(Next(s, step))
  {
    if step.Request? {
      RequestFounded(s, step.message, step.append);
    } else if step.PublishStep? {
      PublishFounded(s, step);
    } else {
      OtherFounded(s, step);
    }
  }

  lemma {:induction false} RunFounded(s: System, run: seq<Step>)
    requires Founded(s) && Legal(s, run)
    ensures Founded(Exec(s, run))
    decreases |run|
  {
    if run != [] {
      StepFounded(s, run[0]);
      RunFounded(Next(s, run[0]), run[1..]);
    }
  }

  /** A review reported as running or completed has its assignment, with its
      identity and sequence, in the durable transcript, over any crash. */
  lemma RunningIsDurable(run: seq<Step>, w: string)
    requires Legal(START, run)
    requires var r := Exec(START, run).memory.run;
      r.Some? && Find(r.value.reviews, w) < |r.value.reviews| && Dispatched(r.value.reviews[Find(r.value.reviews, w)])
    ensures var r := Exec(START, run).memory.run;
      Assignment(Exec(START, run).disk.transcript, w, r.value.reviews[Find(r.value.reviews, w)].assignment)
  {
    assert Founded(START);
    RunFounded(START, run);
  }
}
