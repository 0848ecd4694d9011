/** The shape every reachable handoff ledger has. */
module HandoffShape {
  import opened Options
  import opened Rooms
  import opened Continuations
  import opened Handoffs
  import opened HandoffReports
  import FollowUps

  /** Open, or open again when the stopped run is resumed. */
  predicate Live(h: Handoff) { h.disposition.resolution == Unresolved || h.disposition.resolution == ReportedStopped }

  /** Within a family results are ready later and later, each later one carries
      its time in its identity, and only the last may be live. */
  ghost predicate Ordered(hs: seq<Handoff>) {
    forall i, j :: 0 <= i < j < |hs| && hs[i].id.base == hs[j].id.base ==>
      hs[i].facts.readyAt < hs[j].facts.readyAt && hs[j].id.at == Some(hs[j].facts.readyAt) && !Live(hs[i])
  }

  ghost predicate Named(hs: seq<Handoff>) {
    forall i :: 0 <= i < |hs| ==> hs[i].id.at == None || hs[i].id.at == Some(hs[i].facts.readyAt)
  }

  ghost predicate Without(hs: seq<Handoff>, r: Resolution) { forall i :: 0 <= i < |hs| ==> hs[i].disposition.resolution != r }

  /** A handoff is closed by a report of stopping only while the run is stopped,
      and never by a report of being blocked. */
  ghost predicate Clean(hs: seq<Handoff>, state: RunState) {
    Without(hs, ReportedBlocked) && (state != Stopped ==> Without(hs, ReportedStopped))
  }

  ghost predicate Shaped(l: Ledger) { Ordered(l.handoffs) && Named(l.handoffs) && Clean(l.handoffs, l.run.state) }

  // ----- what the shape means

  lemma IdsDistinct(hs: seq<Handoff>, i: nat, j: nat)
    requires Ordered(hs) && Named(hs) && i < j < |hs|
    ensures hs[i].id != hs[j].id
  {
    if hs[i].id.base == hs[j].id.base {
      assert hs[i].facts.readyAt < hs[j].facts.readyAt;
    }
  }

  lemma OneOpenPerFamily(hs: seq<Handoff>, i: nat, j: nat)
    requires Ordered(hs) && i < |hs| && j < |hs| && hs[i].id.base == hs[j].id.base && IsOpen(hs[i]) && IsOpen(hs[j])
    ensures i == j
  {
  }

  // ----- changes that keep the results

  predicate SameResult(a: Handoff, b: Handoff) { b.id == a.id && b.facts == a.facts && (Live(b) ==> Live(a)) }

  ghost predicate SameResults(a: seq<Handoff>, b: seq<Handoff>) {
    |a| == |b| && forall i :: 0 <= i < |a| ==> SameResult(a[i], b[i])
  }

  /** A change that closes handoffs for no new reason of reporting. */
  predicate Mild(a: Handoff, b: Handoff) {
    && SameResult(a, b)
    && (b.disposition.resolution in {ReportedBlocked, ReportedStopped} ==> b.disposition.resolution == a.disposition.resolution)
  }

  ghost predicate AllMild(a: seq<Handoff>, b: seq<Handoff>) {
    |a| == |b| && forall i :: 0 <= i < |a| ==> Mild(a[i], b[i])
  }

  lemma MildShaped(a: seq<Handoff>, b: seq<Handoff>, state: RunState)
    requires AllMild(a, b) && Ordered(a) && Named(a) && Clean(a, state)
    ensures Ordered(b) && Named(b) && Clean(b, state)
  {
    assert forall i :: 0 <= i < |a| ==> Mild(a[i], b[i]) && SameResult(a[i], b[i]);
  }

  lemma {:induction false} AcceptAllMild(hs: seq<Handoff>, messages: seq<Message>, run: string, start: nat, room: Room)
    ensures AllMild(hs, AcceptAll(hs, messages, run, start, room))
    decreases |messages|
  {
    if messages != [] {
      var h := if Counts(messages[0], start) && Accepted(messages[0], run, room) then AcceptHandoff(hs, messages[0]) else hs;
      assert AllMild(hs, h);
      AcceptAllMild(h, messages[1..], run, start, room);
    }
  }

  lemma {:induction false} AwaitAllMild(hs: seq<Handoff>, order: seq<string>, room: Room, start: nat)
    ensures AllMild(hs, AwaitAll(hs, order, room, start))
    decreases |order|
  {
    if order != [] {
      var h := if Underway(room, start, order[0]) then AwaitEach(hs, order[0]) else hs;
      assert AllMild(hs, h);
      AwaitAllMild(h, order[1..], room, start);
    }
  }

  // ----- new results

  lemma HandShaped(hs: seq<Handoff>, base: Base, facts: Facts, legacy: int, state: RunState)
    requires Ordered(hs) && Named(hs) && Clean(hs, state) && state != Stopped
    ensures var r := Hand(hs, base, facts, legacy).0; Ordered(r) && Named(r) && Clean(r, state)
  {
    var latest := Latest(hs, base);
    if latest.None? {
      AppendFirst(hs, NewHandoff(ResultId(base, None), facts, facts.readyAt <= legacy), state);
    } else if IsLater(facts, hs[latest.value]) {
      var i := latest.value;
      var a := hs[i := Supersede(hs[i], facts.readyAt)];
      assert AllMild(hs, a);
      MildShaped(hs, a, state);
      LatestDead(hs, base, i, facts.readyAt);
      AppendLater(a, NewHandoff(ResultId(base, Some(facts.readyAt)), facts, false), state);
    }
  }

  /** Once the latest is superseded nothing of the family is live or as late. */
  lemma LatestDead(hs: seq<Handoff>, base: Base, i: nat, at: int)
    requires Ordered(hs) && Without(hs, ReportedStopped) && i < |hs| && Latest(hs, base) == Some(i) && at > hs[i].facts.readyAt
    ensures var a := hs[i := Supersede(hs[i], at)];
      forall k :: 0 <= k < |a| && a[k].id.base == base ==> !Live(a[k]) && a[k].facts.readyAt < at
  {
    var a := hs[i := Supersede(hs[i], at)];
    forall k | 0 <= k < |a| && a[k].id.base == base
      ensures !Live(a[k]) && a[k].facts.readyAt < at
    {
      assert hs[k].facts.readyAt <= hs[i].facts.readyAt;
      assert k <= i;
    }
  }

  lemma AppendFirst(hs: seq<Handoff>, h: Handoff, state: RunState)
    requires Ordered(hs) && Named(hs) && Clean(hs, state) && h.disposition.resolution == Unresolved && h.id.at == None
    requires forall i :: 0 <= i < |hs| ==> hs[i].id.base != h.id.base
    ensures Ordered(hs + [h]) && Named(hs + [h]) && Clean(hs + [h], state)
  {
  }

  lemma AppendLater(hs: seq<Handoff>, h: Handoff, state: RunState)
    requires Ordered(hs) && Named(hs) && Clean(hs, state) && h.disposition.resolution == Unresolved && h.id.at == Some(h.facts.readyAt)
    requires forall i :: 0 <= i < |hs| && hs[i].id.base == h.id.base ==> !Live(hs[i]) && hs[i].facts.readyAt < h.facts.readyAt
    ensures Ordered(hs + [h]) && Named(hs + [h]) && Clean(hs + [h], state)
  {
  }

  lemma ProcessShaped(l: Ledger, e: Event, room: Room)
    requires Shaped(l) && l.run.state != Stopped
    ensures Shaped(Process(l, e, room)) && Process(l, e, room).run.state != Stopped
  {
    if e.kind == ResultEvent && e.result.Some? && Handing(l.run.state) && e.at > l.marks.completedThrough {
      var facts := FactsFor(e, l.start, room);
      var (handoffs, id) := Hand(l.handoffs, e.result.value.base, facts, l.marks.legacyThrough);
      HandShaped(l.handoffs, e.result.value.base, facts, l.marks.legacyThrough, l.run.state);
    }
  }

  lemma {:induction false} ProcessAllShaped(l: Ledger, events: seq<Event>, room: Room)
    requires Shaped(l) && l.run.state != Stopped
    ensures Shaped(ProcessAll(l, events, room)) && ProcessAll(l, events, room).run.state != Stopped
    decreases |events|
  {
    if events != [] {
      ProcessShaped(l, events[0], room);
      ProcessAllShaped(Process(l, events[0], room), events[1..], room);
    }
  }

  lemma PreparedShaped(l: Ledger, room: Room)
    requires Shaped(l)
    ensures Shaped(Prepared(l, room))
  {
    var a := AcceptAll(l.handoffs, room.messages, l.run.id, l.start, room);
    AcceptAllMild(l.handoffs, room.messages, l.run.id, l.start, room);
    AwaitAllMild(a, room.order, room, l.start);
    MildShaped(l.handoffs, AwaitAll(a, room.order, room, l.start), l.run.state);
  }

  lemma ReconcileShaped(l: Ledger, room: Room, now: int)
    requires Shaped(l)
    ensures Shaped(Reconcile(l, room, now)) && (Reconcile(l, room, now).run.state == Stopped <==> l.run.state == Stopped)
  {
    if l.run.state != Stopped {
      PreparedShaped(l, room);
      var p := ProcessAll(Prepared(l, room), ByTime(Collect(l, room)), room);
      ProcessAllShaped(Prepared(l, room), ByTime(Collect(l, room)), room);
      assert AllMild(p.handoffs, EndWaits(p.handoffs, room, now));
      MildShaped(p.handoffs, EndWaits(p.handoffs, room, now), p.run.state);
    }
  }

  // ----- controls

  lemma ControlShaped(ledger: Option<Ledger>, action: Action, id: string, start: nat, room: Room, now: int, saved: bool)
    requires ledger.Some? ==> Shaped(ledger.value)
    ensures Control(ledger, action, id, start, room, now, saved).Some? ==> Shaped(Control(ledger, action, id, start, room, now, saved).value)
  {
    var c := Controlled(ledger, action, id, start, room);
    if c.Some? {
      ReconcileShaped(c.value, room, now);
    }
  }

  // ----- reports

  lemma ResultReportedMild(l: Ledger, r: Report, now: int)
    requires Shaped(l)
    ensures AllMild(l.handoffs, ResultReported(l.handoffs, r, now))
  {
    if r.result.Some? {
      var i := FindHandoff(l.handoffs, r.result.value);
      if i < |l.handoffs| {
        assert Mild(l.handoffs[i], HandoffReported(l.handoffs[i], r, now));
      }
    }
  }

  lemma CoordinatorShaped(l: Ledger, r: Report, room: Room, now: int)
    requires Shaped(l) && l.run.state != Stopped && (r.update.handoffOnly ==> r.state != "stopped")
    ensures Shaped(CoordinatorReported(l, r, room, now))
  {
    var hs := ResultReported(l.handoffs, r, now);
    ResultReportedMild(l, r, now);
    MildShaped(l.handoffs, hs, l.run.state);
  }

  lemma ApplyShaped(b: Books, l: Ledger, r: Report, room: Room, now: int, access: Option<Access>, key: string)
    requires Shaped(l) && l.run.state != Stopped
    ensures var a := Apply(b, l, r, room, now, access, key); a.Some? ==> a.value.ledger.Some? && Shaped(a.value.ledger.value)
  {
    match r.kind
    case PanelReport =>
    case Notification(stage) => NotificationShaped(b, l, r, stage, room, now, access, key);
    case Coordinator =>
      if MayReport(l, r, room) {
        ReconcileShaped(l, room, now);
        var l' := Completing(l, r, room, now);
        if l'.Some? {
          CoordinatorShaped(l'.value, r, room, now);
        }
      }
  }

  lemma NotificationShaped(b: Books, l: Ledger, r: Report, stage: FollowUps.Stage, room: Room, now: int, access: Option<Access>, key: string)
    requires Shaped(l) && r.kind == Notification(stage)
    ensures var a := Apply(b, l, r, room, now, access, key); a.Some? ==> a.value.ledger.Some? && Shaped(a.value.ledger.value)
  {
    if r.result.Some? && FindHandoff(l.handoffs, r.result.value) < |l.handoffs| {
      var i := FindHandoff(l.handoffs, r.result.value);
      if stage == FollowUps.NotificationAttempted {
      } else {
        OutcomeShaped(b, l, i, r, stage, now, access, key);
      }
    }
  }

  lemma OutcomeShaped(b: Books, l: Ledger, i: nat, r: Report, stage: FollowUps.Stage, now: int, access: Option<Access>, key: string)
    requires Shaped(l) && i < |l.handoffs|
    ensures var a := Outcome(b, l, i, r, stage, now, access, key); a.Some? ==> a.value.ledger.Some? && Shaped(a.value.ledger.value)
  {
    var h := l.handoffs[i];
  }

  ghost predicate BooksShaped(b: Books) { b.ledger.Some? ==> Shaped(b.ledger.value) }

  lemma ReportShaped(b: Books, r: Report, room: Room, now: int, access: Option<Access>, key: string, saved: bool)
    requires BooksShaped(b)
    ensures BooksShaped(ReportStep(b, r, room, now, access, key, saved))
  {
    if CurrentRun(b.ledger, r.run) {
      var l := Reconcile(b.ledger.value, room, now);
      ReconcileShaped(b.ledger.value, room, now);
      ReconcileShaped(l, room, now);
      ApplyShaped(b, l, r, room, now, access, key);
      var a := Apply(b, l, r, room, now, access, key);
      if a.Some? {
        ReconcileShaped(Entered(a.value.ledger.value, r, now), room, now);
      }
    }
  }

  // ----- whole runs

  /** The room's own life: it changes between steps in any way. */
  datatype Step =
    | ControlStep(action: Action, id: string, start: nat, room: Room, now: int, saved: bool)
    | StatusStep(room: Room, now: int, saved: bool)
    | Reporting(report: Report, room: Room, now: int, access: Option<Access>, key: string, saved: bool)
    | Observing(u: FollowUps.Update, now: int, scene: FollowUps.Scene, saved: bool)

  function Legacy(b: Books): FollowUps.Legacy { if b.ledger.Some? then LegacyOf(b.ledger.value) else FollowUps.NO_LEGACY }

  function Next(b: Books, step: Step): Books {
    match step
    case ControlStep(action, id, start, room, now, saved) => b.(ledger := Control(b.ledger, action, id, start, room, now, saved))
    case StatusStep(room, now, saved) => if b.ledger.None? then b else b.(ledger := Some(Status(b.ledger.value, room, now, saved)))
    case Reporting(report, room, now, access, key, saved) => ReportStep(b, report, room, now, access, key, saved)
    case Observing(u, now, scene, saved) => b.(follow := FollowUps.Observe(b.follow, Legacy(b), u, now, scene, saved))
  }

  function Exec(b: Books, run: seq<Step>): Books
    decreases |run|
  {
    if run == [] then b else Exec(Next(b, run[0]), run[1..])
  }

  const EMPTY := Books(None, None)

  lemma StepShaped(b: Books, step: Step)
    requires BooksShaped(b)
    ensures BooksShaped(Next(b, step))
  {
    match step
    case ControlStep(action, id, start, room, now, saved) => ControlShaped(b.ledger, action, id, start, room, now, saved);
    case StatusStep(room, now, saved) =>
      if b.ledger.Some? {
        ReconcileShaped(b.ledger.value, room, now);
      }
    case Reporting(report, room, now, access, key, saved) => ReportShaped(b, report, room, now, access, key, saved);
    case Observing(u, now, scene, saved) =>
  }

  lemma {:induction false} RunShaped(b: Books, run: seq<Step>)
    requires BooksShaped(b)
    ensures BooksShaped(Exec(b, run))
    decreases |run|
  {
    if run != [] {
      StepShaped(b, run[0]);
      RunShaped(Next(b, run[0]), run[1..]);
    }
  }

  /** From an empty room, whatever is started, stopped, resumed, polled, reported,
      saved or lost: identities are distinct, results of one job are ready later
      and later, and at most one handoff of a job is open. */
  lemma LedgerShape(run: seq<Step>, i: nat, j: nat)
    requires var l := Exec(EMPTY, run).ledger; l.Some? && i < j < |l.value.handoffs|
    ensures var hs := Exec(EMPTY, run).ledger.value.handoffs;
      && hs[i].id != hs[j].id
      && (hs[i].id.base == hs[j].id.base ==> hs[i].facts.readyAt < hs[j].facts.readyAt && !IsOpen(hs[i]))
  {
    RunShaped(EMPTY, run);
    IdsDistinct(Exec(EMPTY, run).ledger.value.handoffs, i, j);
  }

  /** While the run goes on, no handoff is closed by a report of stopping, so
      resuming a run reopens what the stop closed and nothing else. */
  lemma StoppedOnlyWhileStopped(run: seq<Step>, i: nat)
    requires var l := Exec(EMPTY, run).ledger; l.Some? && i < |l.value.handoffs| && l.value.run.state != Stopped
    ensures Exec(EMPTY, run).ledger.value.handoffs[i].disposition.resolution !in {ReportedStopped, ReportedBlocked}
  {
    RunShaped(EMPTY, run);
  }
}
