/** At most one dispatch for each registered review, over any run. */
module ContinuationSafety {
  import opened Options
  import opened Rooms
  import opened Continuations
  import opened ContinuationRuns

  /** The review's message is among these. */
  ghost predicate Has(messages: seq<Message>, w: string) {
    exists i :: 0 <= i < |messages| && messages[i].route == Some(Id(w))
  }

  /** No two messages dispatch the same review. */
  ghost predicate Once(messages: seq<Message>) {
    forall i, j, w :: 0 <= i < j < |messages| && messages[i].route == Some(Id(w)) ==> messages[j].route != messages[i].route
  }

  predicate QueuedIn(run: Option<Run>, w: string) {
    run.Some? && var i := Find(run.value.reviews, w); i < |run.value.reviews| && run.value.reviews[i].state == Queued
  }

  /** A retained request of the current run could still register the review. */
  ghost predicate Registrable(m: Memory, w: string) {
    && m.run.Some? && Find(m.run.value.reviews, w) == |m.run.value.reviews|
    && exists i :: 0 <= i < |m.messages| && RegistersFor(m.messages[i], w, m.run.value.id)
  }

  predicate RegistersFor(m: Message, w: string, id: string) {
    Registers(m) && m.workflow == w && m.dispatch.value.run == id
  }

  // ----- what is known about identities

  ghost predicate Recorded(messages: seq<Message>, used: set<string>, runs: set<string>) {
    forall i :: 0 <= i < |messages| && Registers(messages[i]) ==> messages[i].workflow in used && messages[i].dispatch.value.run in runs
  }

  ghost predicate RunKnown(run: Option<Run>, used: set<string>, runs: set<string>) {
    run.Some? ==> run.value.id in runs && forall i :: 0 <= i < |run.value.reviews| ==> run.value.reviews[i].workflow in used
  }

  ghost predicate Within(messages: seq<Message>, transcript: seq<Message>) {
    forall i :: 0 <= i < |messages| ==> messages[i] in transcript
  }

  ghost predicate Known(s: System) {
    && Within(s.memory.messages, s.disk.transcript)
    && Recorded(s.disk.transcript, s.used, s.runs)
    && RunKnown(s.memory.run, s.used, s.runs) && RunKnown(s.disk.run, s.used, s.runs)
    && (s.scheduler.Publishing? ==> s.scheduler.dispatch.spec.None?)
    && forall w :: Has(s.disk.transcript, w) ==> w in s.used
  }

  /** A durable dispatch that this process does not know about cannot be repeated
      by it: the review is not queued, save while its failure is being recorded,
      and no request registers it again. */
  ghost predicate SecureAt(s: System, w: string) {
    Has(s.disk.transcript, w) && !Has(s.memory.messages, w) ==>
      !Registrable(s.memory, w) && (!QueuedIn(s.memory.run, w) || s.scheduler == Settling(w, None))
  }

  ghost predicate Secure(s: System) { forall w :: SecureAt(s, w) }

  // ----- sequences of messages

  lemma HasPlus(messages: seq<Message>, m: Message, w: string)
    ensures Has(messages + [m], w) <==> Has(messages, w) || m.route == Some(Id(w))
  {
    var all := messages + [m];
    assert all[|messages|] == m;
    if Has(messages, w) {
      var i :| 0 <= i < |messages| && messages[i].route == Some(Id(w));
      assert all[i] == messages[i];
    }
  }

  // ----- steps that only move reviews on

  /** The same reviews in the same order, and none queued again. */
  ghost predicate Tame(a: seq<Continuation>, b: seq<Continuation>) {
    |a| == |b| && forall i :: 0 <= i < |a| ==> b[i].workflow == a[i].workflow && (a[i].state != Queued ==> b[i].state != Queued)
  }

  ghost predicate TameRun(a: Option<Run>, b: Option<Run>) {
    (a.None? <==> b.None?) && (a.Some? ==> a.value.id == b.value.id && Tame(a.value.reviews, b.value.reviews))
  }

  lemma AdvanceTame(m: Memory, parent: string, access: Option<Access>, view: Parent, task: string, now: int)
    ensures var r := Advance(m, parent, access, view, task, now); TameRun(m.run, r.0.run) && r.0.messages == m.messages
    ensures var r := Advance(m, parent, access, view, task, now); r.1 == Idle || (r.1.Publishing? && r.1.dispatch.spec.None?)
  {
    if m.run.Some? {
      var reviews := m.run.value.reviews;
      var i := Find(reviews, parent);
      if i < |reviews| {
        var c, k := reviews[i], CountOutstanding(m.messages, m.jobs);
        var r := Account(m.messages, m.jobs, c);
        if r.Some? {
          assert Tame(reviews, reviews[i := r.value]);
        } else {
          var choice := Choose(m.run.value, c, access, view, k, task, now);
          if choice.Mark? && c.state == Queued {
            assert Tame(reviews, reviews[i := c.(state := choice.state, reason := choice.reason)]);
          }
        }
      }
    }
  }

  lemma SettleTame(m: Memory, parent: string, outcome: Option<nat>)
    ensures TameRun(m.run, Settle(m, parent, outcome).run) && Settle(m, parent, outcome).messages == m.messages
    ensures !QueuedIn(Settle(m, parent, outcome).run, parent)
  {
    if m.run.Some? {
      var reviews := m.run.value.reviews;
      var i := Find(reviews, parent);
      if i < |reviews| {
        var reviews' := Settle(m, parent, outcome).run.value.reviews;
        assert Tame(reviews, reviews');
      }
    }
  }

  /** A step that appends nothing and moves reviews on. */
  lemma TameStep(s: System, s': System)
    requires Known(s) && Secure(s) && s'.disk.transcript == s.disk.transcript && s'.disk.run == s.disk.run
    requires s'.memory.messages == s.memory.messages && TameRun(s.memory.run, s'.memory.run)
    requires s'.used == s.used && s'.runs == s.runs
    requires s'.scheduler.Publishing? ==> s'.scheduler.dispatch.spec.None?
    requires s.scheduler.Settling? && s'.scheduler != s.scheduler ==> !QueuedIn(s'.memory.run, s.scheduler.parent)
    ensures Known(s') && Secure(s')
  {
    forall w
      ensures SecureAt(s', w)
    {
      assert SecureAt(s, w);
    }
  }

  // ----- the other steps

  ghost predicate Safe(s: System) { Known(s) && Secure(s) && Once(s.disk.transcript) }

  lemma RequestSecure(s: System, m: Message, append: Append, w: string)
    requires Known(s) && SecureAt(s, w) && Enabled(s, Request(m, append))
    ensures SecureAt(Next(s, Request(m, append)), w)
  {
    var s' := Next(s, Request(m, append));
    HasPlus(s.disk.transcript, m, w);
    HasPlus(s.memory.messages, m, w);
    if Has(s'.disk.transcript, w) && !Has(s'.memory.messages, w) {
      assert w in s.used;
    }
  }

  lemma RequestSafe(s: System, m: Message, append: Append)
    requires Safe(s) && Enabled(s, Request(m, append))
    ensures Safe(Next(s, Request(m, append)))
  {
    forall w
      ensures SecureAt(Next(s, Request(m, append)), w)
    {
      assert SecureAt(s, w);
      RequestSecure(s, m, append, w);
    }
  }

  lemma FindPlus(reviews: seq<Continuation>, c: Continuation, w: string)
    ensures w != c.workflow || Find(reviews, w) < |reviews| ==>
      if Find(reviews, w) < |reviews| then Find(reviews + [c], w) == Find(reviews, w) else Find(reviews + [c], w) == |reviews| + 1
    ensures w == c.workflow && Find(reviews, w) == |reviews| ==> Find(reviews + [c], w) == |reviews|
  {
    var all := reviews + [c];
    assert all[|reviews|] == c;
    var i, j := Find(reviews, w), Find(all, w);
    if i < |reviews| {
      assert all[i] == reviews[i];
    }
    if j < |reviews| {
      assert all[j] == reviews[j];
    }
  }

  lemma AcceptSecure(s: System, m: Message, w: string)
    requires Known(s) && SecureAt(s, w) && Enabled(s, Accept(m))
    ensures SecureAt(Next(s, Accept(m)), w)
  {
    var s' := Next(s, Accept(m));
    var reviews := s.memory.run.value.reviews;
    if Find(reviews, m.workflow) == |reviews| {
      var c := Continuation(m.workflow, m.sequence, m.dispatch.value.spec.value, Queued, Nothing, 0);
      assert s'.memory.run.value.reviews == reviews + [c];
      FindPlus(reviews, c, w);
      if w == m.workflow {
        var i :| 0 <= i < |s.memory.messages| && s.memory.messages[i] == m;
        assert RegistersFor(s.memory.messages[i], w, s.memory.run.value.id);
      } else {
        assert Registrable(s'.memory, w) ==> Registrable(s.memory, w);
      }
    }
  }

  lemma AcceptSafe(s: System, m: Message)
    requires Safe(s) && Enabled(s, Accept(m))
    ensures Safe(Next(s, Accept(m)))
  {
    assert m in s.disk.transcript;
    assert m.workflow in s.used;
    forall w
      ensures SecureAt(Next(s, Accept(m)), w)
    {
      assert SecureAt(s, w);
      AcceptSecure(s, m, w);
    }
  }

  lemma Unregistrable(s: System, m: Memory, id: string, w: string)
    requires Known(s) && id !in s.runs && m.messages == s.memory.messages && m.run.Some? && m.run.value.id == id
    ensures !Registrable(m, w)
  {
    forall i | 0 <= i < |m.messages|
      ensures !RegistersFor(m.messages[i], w, id)
    {
      assert m.messages[i] in s.disk.transcript;
    }
  }

  lemma NewRunSafe(s: System, step: Step)
    requires Safe(s) && Enabled(s, step) && (step.Resume? || step.StartRun?)
    ensures Safe(Next(s, step))
  {
    var s' := Next(s, step);
    forall w
      ensures SecureAt(s', w)
    {
      assert SecureAt(s, w);
      Unregistrable(s, s'.memory, step.id, w);
    }
  }

  /** The publication either appends nothing or appends the message of a review
      that is queued and has none in memory. */
  predicate Publishes(s: System, step: Step)
    requires step.PublishStep? && s.scheduler.Publishing?
  {
    && CanPublish(s.memory, s.scheduler.parent, step.access, step.now)
    && Publish(s.memory, Id(s.scheduler.parent), s.scheduler.post, Some(s.scheduler.dispatch), step.jobs, step.admissible, step.now).New?
  }

  lemma PublishesFirst(s: System, step: Step)
    requires Secure(s) && Known(s) && Enabled(s, step) && step.PublishStep? && Publishes(s, step)
    ensures QueuedIn(s.memory.run, s.scheduler.parent)
    ensures !Has(s.memory.messages, s.scheduler.parent) && !Has(s.disk.transcript, s.scheduler.parent)
    ensures s.scheduler.parent in s.used
  {
    var w := s.scheduler.parent;
    assert SecureAt(s, w);
  }

  lemma PublishKnown(s: System, step: Step)
    requires Safe(s) && Enabled(s, step) && step.PublishStep? && Publishes(s, step)
    ensures Known(Next(s, step)) && Once(Next(s, step).disk.transcript)
  {
    PublishesFirst(s, step);
    var parent := s.scheduler.parent;
    var m := Publish(s.memory, Id(parent), s.scheduler.post, Some(s.scheduler.dispatch), step.jobs, step.admissible, step.now).message;
    forall w
      ensures Has(s.disk.transcript + [m], w) ==> w in s.used
      ensures m.route == Some(Id(w)) ==> !Has(s.disk.transcript, w)
    {
      HasPlus(s.disk.transcript, m, w);
      if m.route == Some(Id(w)) {
        IdInjective(parent, w);
      }
    }
  }

  lemma PublishSecure(s: System, step: Step, w: string)
    requires Safe(s) && Enabled(s, step) && step.PublishStep? && Publishes(s, step)
    ensures SecureAt(Next(s, step), w)
  {
    PublishesFirst(s, step);
    assert SecureAt(s, w);
    var s', parent := Next(s, step), s.scheduler.parent;
    var m := Publish(s.memory, Id(parent), s.scheduler.post, Some(s.scheduler.dispatch), step.jobs, step.admissible, step.now).message;
    HasPlus(s.disk.transcript, m, w);
    HasPlus(s.memory.messages, m, w);
    if m.route == Some(Id(w)) {
      IdInjective(parent, w);
    } else if step.append == Written {
      assert !RegistersFor(m, w, s.memory.run.value.id);
    }
  }

  lemma PublishSafe(s: System, step: Step)
    requires Safe(s) && Enabled(s, step) && step.PublishStep?
    ensures Safe(Next(s, step))
  {
    if Publishes(s, step) {
      PublishKnown(s, step);
      forall w
        ensures SecureAt(Next(s, step), w)
      {
        PublishSecure(s, step, w);
      }
    } else {
      TameStep(s, Next(s, step));
    }
  }

  lemma RestartSafe(s: System, jobs: seq<Job>)
    requires Safe(s)
    ensures Safe(Next(s, Restart(jobs)))
  {
  }

  lemma QuietSafe(s: System, step: Step)
    requires Safe(s) && Enabled(s, step)
    requires step.SetRun? || step.ChooseStep? || step.SettleStep? || step.ChangeJobs? || step.Close?
    ensures Safe(Next(s, step))
  {
    match step
    case SetRun(state, withdraw, reason) =>
      TameStep(s, Next(s, step));
    case ChooseStep(parent, access, view, task, now) =>
      AdvanceTame(s.memory, parent, access, view, task, now);
      TameStep(s, Next(s, step));
    case SettleStep =>
      SettleTame(s.memory, s.scheduler.parent, s.scheduler.outcome);
      TameStep(s, Next(s, step));
    case ChangeJobs(jobs) => TameStep(s, Next(s, step));
    case Close => TameStep(s, Next(s, step));
  }

  lemma SavedSafe(s: System, step: Step)
    requires Safe(s) && Enabled(s, step) && (step.SaveJobs? || step.Save?)
    ensures Safe(Next(s, step))
  {
    forall w
      ensures SecureAt(Next(s, step), w)
    {
      assert SecureAt(s, w);
    }
  }

  lemma StepSafe(s: System, step: Step)
    requires Safe(s) && Enabled(s, step)
    ensures Safe(Next(s, step))
  {
    match step
    case Request(m, append) => RequestSafe(s, m, append);
    case Accept(m) => AcceptSafe(s, m);
    case SetRun(state, withdraw, reason) => QuietSafe(s, step);
    case Resume(id) => NewRunSafe(s, step);
    case StartRun(id) => NewRunSafe(s, step);
    case ChooseStep(parent, access, view, task, now) => QuietSafe(s, step);
    case PublishStep(access, jobs, admissible, now, append) => PublishSafe(s, step);
    case SaveJobs(saved) => SavedSafe(s, step);
    case SettleStep => QuietSafe(s, step);
    case Save => SavedSafe(s, step);
    case ChangeJobs(jobs) => QuietSafe(s, step);
    case Close => QuietSafe(s, step);
    case Restart(jobs) => RestartSafe(s, jobs);
  }

  lemma {:induction false} RunSafe(s: System, run: seq<Step>)
    requires Safe(s) && Legal(s, run)
    ensures Safe(Exec(s, run))
    decreases |run|
  {
    if run != [] {
      StepSafe(s, run[0]);
      RunSafe(Next(s, run[0]), run[1..]);
    }
  }

  /** Whatever is requested, withdrawn, saved or lost, and wherever the process is
      restarted, the transcript never holds two messages of one review. */
  lemma AtMostOnce(run: seq<Step>)
    requires Legal(START, run)
    ensures Once(Exec(START, run).disk.transcript)
  {
    RunSafe(START, run);
  }
}
