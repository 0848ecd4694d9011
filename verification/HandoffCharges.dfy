/** Every automatic notification of a handoff is charged to the room's allowance. */
module HandoffCharges {
  import opened Options
  import opened Rooms
  import opened Continuations
  import opened Handoffs
  import opened HandoffReports
  import opened HandoffShape
  import F = FollowUps

  // ----- the attempts of a ledger

  /** The same handoffs with the same attempts, and perhaps new ones without. */
  ghost predicate SameAttempts(a: seq<Handoff>, b: seq<Handoff>) {
    && |a| <= |b| && (forall i :: 0 <= i < |a| ==> b[i].id == a[i].id && b[i].attempts == a[i].attempts)
    && forall i :: |a| <= i < |b| ==> b[i].attempts == []
  }

  lemma {:induction false} NoTimes(hs: seq<Handoff>)
    requires forall i :: 0 <= i < |hs| ==> hs[i].attempts == []
    ensures AutomaticTimes(hs) == []
    decreases |hs|
  {
    if hs != [] {
      NoTimes(hs[1..]);
    }
  }

  lemma {:induction false} SameTimes(a: seq<Handoff>, b: seq<Handoff>)
    requires SameAttempts(a, b)
    ensures AutomaticTimes(b) == AutomaticTimes(a)
    decreases |b|
  {
    if a == [] {
      NoTimes(b);
    } else {
      SameTimes(a[1..], b[1..]);
    }
  }

  lemma {:induction false} TimesPlus(attempts: seq<Attempt>, a: Attempt)
    ensures AttemptTimes(attempts + [a]) == AttemptTimes(attempts) + if a.automatic then [a.at] else []
    decreases |attempts|
  {
    var last := if a.automatic then [a.at] else [];
    if attempts == [] {
      assert [a][1..] == [] && attempts + [a] == [a];
      assert AttemptTimes([a]) == last + AttemptTimes([]) == last;
    } else {
      var first := if attempts[0].automatic then [attempts[0].at] else [];
      assert (attempts + [a])[1..] == attempts[1..] + [a] && (attempts + [a])[0] == attempts[0];
      TimesPlus(attempts[1..], a);
      assert AttemptTimes(attempts + [a]) == first + (AttemptTimes(attempts[1..]) + last);
      assert first + (AttemptTimes(attempts[1..]) + last) == (first + AttemptTimes(attempts[1..])) + last;
    }
  }

  lemma {:induction false} TimesUpdate(hs: seq<Handoff>, i: nat, h: Handoff)
    requires i < |hs|
    ensures |AutomaticTimes(hs[i := h])| == |AutomaticTimes(hs)| - |AttemptTimes(hs[i].attempts)| + |AttemptTimes(h.attempts)|
    decreases |hs|
  {
    if i > 0 {
      TimesUpdate(hs[1..], i - 1, h);
      assert hs[i := h][1..] == hs[1..][i - 1 := h];
    } else {
      assert hs[i := h][1..] == hs[1..];
    }
  }

  lemma {:induction false} MarkedTimes(attempts: seq<Attempt>, id: string, stage: F.Stage)
    ensures |AttemptTimes(HandoffReports.Marked(attempts, id, stage))| == |AttemptTimes(attempts)|
    decreases |attempts|
  {
    if attempts != [] {
      MarkedTimes(attempts[1..], id, stage);
      assert HandoffReports.Marked(attempts, id, stage)[1..] == HandoffReports.Marked(attempts[1..], id, stage);
    }
  }

  // ----- reconciliation

  lemma {:induction false} AcceptAllSame(hs: seq<Handoff>, messages: seq<Message>, run: string, start: nat, room: Room)
    ensures SameAttempts(hs, AcceptAll(hs, messages, run, start, room))
    decreases |messages|
  {
    if messages != [] {
      var h := if Counts(messages[0], start) && Accepted(messages[0], run, room) then AcceptHandoff(hs, messages[0]) else hs;
      assert SameAttempts(hs, h);
      AcceptAllSame(h, messages[1..], run, start, room);
    }
  }

  lemma {:induction false} AwaitAllSame(hs: seq<Handoff>, order: seq<string>, room: Room, start: nat)
    ensures SameAttempts(hs, AwaitAll(hs, order, room, start))
    decreases |order|
  {
    if order != [] {
      var h := if Underway(room, start, order[0]) then AwaitEach(hs, order[0]) else hs;
      assert SameAttempts(hs, h);
      AwaitAllSame(h, order[1..], room, start);
    }
  }

  lemma ProcessSame(l: Ledger, e: Event, room: Room)
    ensures SameAttempts(l.handoffs, Process(l, e, room).handoffs) && Process(l, e, room).run.id == l.run.id
  {
    if e.kind == ResultEvent && e.result.Some? && Handing(l.run.state) && e.at > l.marks.completedThrough {
      var facts := FactsFor(e, l.start, room);
      var (handoffs, id) := Hand(l.handoffs, e.result.value.base, facts, l.marks.legacyThrough);
    }
  }

  lemma {:induction false} ProcessAllSame(l: Ledger, events: seq<Event>, room: Room)
    ensures SameAttempts(l.handoffs, ProcessAll(l, events, room).handoffs) && ProcessAll(l, events, room).run.id == l.run.id
    decreases |events|
  {
    if events != [] {
      var p := Process(l, events[0], room);
      ProcessSame(l, events[0], room);
      ProcessAllSame(p, events[1..], room);
    }
  }

  lemma ReconcileSame(l: Ledger, room: Room, now: int)
    ensures SameAttempts(l.handoffs, Reconcile(l, room, now).handoffs) && Reconcile(l, room, now).run.id == l.run.id
  {
    if l.run.state != Stopped {
      var a := AcceptAll(l.handoffs, room.messages, l.run.id, l.start, room);
      var p := Prepared(l, room);
      var q := ProcessAll(p, ByTime(Collect(l, room)), room);
      AcceptAllSame(l.handoffs, room.messages, l.run.id, l.start, room);
      AwaitAllSame(a, room.order, room, l.start);
      ProcessAllSame(p, ByTime(Collect(l, room)), room);
      assert SameAttempts(q.handoffs, EndWaits(q.handoffs, room, now));
    }
  }

  // ----- claims and attempts belong together

  predicate Covered(hs: seq<Handoff>, id: ResultId, claim: string) {
    var i := FindHandoff(hs, id); i < |hs| && HasAttempt(hs[i].attempts, claim)
  }

  /** A retained claim of the current run about a result is an attempt of its
      handoff. */
  ghost predicate Covers(l: Ledger, claims: seq<F.Claim>) {
    forall k :: 0 <= k < |claims| && claims[k].content.result.Some? && claims[k].content.run == l.run.id ==>
      Covered(l.handoffs, claims[k].content.result.value, claims[k].id)
  }

  ghost predicate Matched(b: Books) {
    && (b.ledger.Some? && b.follow.Some? ==> Covers(b.ledger.value, b.follow.value.claims))
    && (b.ledger.Some? && b.follow.None? ==> AutomaticTimes(b.ledger.value.handoffs) == [])
  }

  function Claims(f: Option<F.FollowUps>): seq<F.Claim> { if f.Some? then f.value.claims else [] }

  function Charged(f: Option<F.FollowUps>): int { if f.Some? then f.value.allowance.attempts else 0 }

  function Automatic(ledger: Option<Ledger>): nat { if ledger.Some? then |AutomaticTimes(ledger.value.handoffs)| else 0 }

  // ----- one observation of the allowance

  predicate SameClaim(a: F.Claim, b: F.Claim) { b.id == a.id && b.content == a.content }

  /** An observation keeps the claims, or appends one and perhaps drops the oldest. */
  lemma ApplyClaims(was: Option<F.FollowUps>, legacy: F.Legacy, u: F.Update, now: int, scene: F.Scene)
    requires F.Apply(was, legacy, u, now, scene).Applied?
    ensures var f := F.Apply(was, legacy, u, now, scene).value;
      forall k :: 0 <= k < |f.claims| ==>
        (f.claims[k] == F.NewClaim(u, now) && u.stage == F.NotificationAttempted)
        || exists j :: 0 <= j < |Claims(was)| && SameClaim(Claims(was)[j], f.claims[k])
  {
    var f, g := F.Apply(was, legacy, u, now, scene).value, F.Ensure(was, legacy);
    assert g.claims == Claims(was);
    forall k | 0 <= k < |f.claims|
      ensures (f.claims[k] == F.NewClaim(u, now) && u.stage == F.NotificationAttempted)
        || exists j :: 0 <= j < |Claims(was)| && SameClaim(Claims(was)[j], f.claims[k])
    {
      if |f.claims| == |g.claims| && SameClaim(g.claims[k], f.claims[k]) {
      } else {
        var all := g.claims + [F.NewClaim(u, now)];
        assert f.claims == Tail(all, F.CLAIMS);
        var d := |all| - |f.claims|;
        assert f.claims[k] == all[d + k];
        assert d + k < |g.claims| ==> SameClaim(g.claims[d + k], f.claims[k]);
      }
    }
  }

  /** A claim about a new subject is charged if it is automatic, and nothing else
      is, renewals aside. */
  lemma ApplyCharges(was: Option<F.FollowUps>, legacy: F.Legacy, u: F.Update, now: int, scene: F.Scene)
    requires F.Apply(was, legacy, u, now, scene).Applied? && u.stage != F.Renew
    requires was.None? ==> legacy.automatic == []
    ensures var f, i := F.Apply(was, legacy, u, now, scene).value, F.FindClaim(Claims(was), u.id);
      f.allowance.attempts == Charged(was) + (if u.stage == F.NotificationAttempted && u.content.automatic && i == |Claims(was)| then 1 else 0)
  {
    assert F.Ensure(was, legacy).claims == Claims(was);
  }

  // ----- one report

  ghost predicate MatchedWith(l: Ledger, f: Option<F.FollowUps>) { Matched(Books(Some(l), f)) }

  lemma MoreAttempts(attempts: seq<Attempt>, a: Attempt, id: string)
    ensures HasAttempt(attempts + [a], id) <==> HasAttempt(attempts, id) || a.id == id
  {
    assert (attempts + [a])[|attempts|] == a;
    if HasAttempt(attempts, id) {
      var k :| 0 <= k < |attempts| && attempts[k].id == id;
      assert (attempts + [a])[k] == attempts[k];
    }
  }

  /** An attempt entered on a handoff covers its claim and uncovers none. */
  lemma EnteredCovers(hs: seq<Handoff>, i: nat, a: Attempt, id: ResultId, claim: string)
    requires i < |hs|
    ensures var h := hs[i].(attempts := hs[i].attempts + [a]);
      (Covered(hs, id, claim) ==> Covered(hs[i := h], id, claim))
      && (FindHandoff(hs, id) == i && claim == a.id ==> Covered(hs[i := h], id, claim))
  {
    var h := hs[i].(attempts := hs[i].attempts + [a]);
    MoreAttempts(hs[i].attempts, a, claim);
    if FindHandoff(hs, id) < |hs| {
      FindUpdated(hs, i, h, id);
    }
  }

  lemma FindUpdated(hs: seq<Handoff>, i: nat, h: Handoff, id: ResultId)
    requires i < |hs| && h.id == hs[i].id && FindHandoff(hs, id) < |hs|
    ensures FindHandoff(hs[i := h], id) == FindHandoff(hs, id)
  {
    var a, b := FindHandoff(hs, id), FindHandoff(hs[i := h], id);
    assert hs[i := h][a].id == id;
    assert b < |hs| ==> hs[b].id == hs[i := h][b].id;
  }

  function ClaimUpdate(l: Ledger, r: Report): F.Update { FollowUpUpdate(l, r, F.NotificationAttempted) }

  /** A new attempt is a new claim. */
  lemma NewAttemptNewClaim(l: Ledger, f: Option<F.FollowUps>, i: nat, r: Report, now: int, access: Option<Access>, key: string)
    requires MatchedWith(l, f) && r.result.Some? && i == FindHandoff(l.handoffs, r.result.value) < |l.handoffs|
    requires FindAttempt(l.handoffs[i].attempts, r.id) == |l.handoffs[i].attempts|
    requires F.Apply(f, LegacyOf(l), ClaimUpdate(l, r), now, SceneOf(l, access, key)).Applied?
    ensures F.FindClaim(Claims(f), r.id) == |Claims(f)|
  {
    var k := F.FindClaim(Claims(f), r.id);
    assert F.Ensure(f, LegacyOf(l)).claims == Claims(f);
    assert k < |Claims(f)| ==> Claims(f)[k].content == ClaimUpdate(l, r).content;
    assert k < |Claims(f)| ==> Covered(l.handoffs, r.result.value, r.id);
  }

  lemma AttemptedTimes(hs: seq<Handoff>, i: nat, r: Report, now: int)
    requires i < |hs|
    ensures |AutomaticTimes(hs[i := Attempted(hs[i], r, now)])| == |AutomaticTimes(hs)| + if r.update.automatic then 1 else 0
  {
    TimesPlus(hs[i].attempts, Attempt(r.update.panel, r.id, now, F.HostUnknown, r.update.automatic));
    TimesUpdate(hs, i, Attempted(hs[i], r, now));
  }

  lemma ClaimCovers(l: Ledger, f: Option<F.FollowUps>, i: nat, r: Report, now: int, access: Option<Access>, key: string)
    requires MatchedWith(l, f) && r.result.Some? && i == FindHandoff(l.handoffs, r.result.value) < |l.handoffs|
    requires F.Apply(f, LegacyOf(l), ClaimUpdate(l, r), now, SceneOf(l, access, key)).Applied?
    ensures Covers(WithAttempt(l, i, r, now), F.Apply(f, LegacyOf(l), ClaimUpdate(l, r), now, SceneOf(l, access, key)).value.claims)
  {
    var u, scene := ClaimUpdate(l, r), SceneOf(l, access, key);
    var claims := F.Apply(f, LegacyOf(l), u, now, scene).value.claims;
    var hs := WithAttempt(l, i, r, now).handoffs;
    ApplyClaims(f, LegacyOf(l), u, now, scene);
    forall k | 0 <= k < |claims| && claims[k].content.result.Some? && claims[k].content.run == l.run.id
      ensures Covered(hs, claims[k].content.result.value, claims[k].id)
    {
      EnteredCovers(l.handoffs, i, Attempt(r.update.panel, r.id, now, F.HostUnknown, r.update.automatic), claims[k].content.result.value, claims[k].id);
      if claims[k] != F.NewClaim(u, now) {
        var j :| 0 <= j < |Claims(f)| && SameClaim(Claims(f)[j], claims[k]);
        assert Covered(l.handoffs, Claims(f)[j].content.result.value, Claims(f)[j].id);
      }
    }
  }

  /** What a report keeps: the match, and charges for what it enters. */
  ghost predicate Fair(l: Ledger, f: Option<F.FollowUps>, b: Books) {
    && Matched(b) && b.ledger.Some?
    && Charged(b.follow) - Charged(f) == Automatic(b.ledger) - Automatic(Some(l))
  }

  lemma AttemptFair(l: Ledger, f: Option<F.FollowUps>, i: nat, r: Report, now: int, access: Option<Access>, key: string)
    requires MatchedWith(l, f) && r.result.Some? && i == FindHandoff(l.handoffs, r.result.value) < |l.handoffs|
    requires FindAttempt(l.handoffs[i].attempts, r.id) == |l.handoffs[i].attempts|
    requires F.Apply(f, LegacyOf(l), ClaimUpdate(l, r), now, SceneOf(l, access, key)).Applied?
    ensures Fair(l, f, Books(Some(WithAttempt(l, i, r, now)), Some(F.Apply(f, LegacyOf(l), ClaimUpdate(l, r), now, SceneOf(l, access, key)).value)))
  {
    NewAttemptNewClaim(l, f, i, r, now, access, key);
    ClaimCovers(l, f, i, r, now, access, key);
    ApplyCharges(f, LegacyOf(l), ClaimUpdate(l, r), now, SceneOf(l, access, key));
    AttemptedTimes(l.handoffs, i, r, now);
  }

  lemma ClaimFair(b: Books, l: Ledger, i: nat, r: Report, now: int, access: Option<Access>, key: string)
    requires MatchedWith(l, b.follow) && r.result.Some? && i == FindHandoff(l.handoffs, r.result.value) < |l.handoffs|
    ensures Claim(b, l, i, r, now, access, key).Some? ==> Fair(l, b.follow, Claim(b, l, i, r, now, access, key).value)
  {
    var f := F.Apply(b.follow, LegacyOf(l), ClaimUpdate(l, r), now, SceneOf(l, access, key));
    if FindAttempt(l.handoffs[i].attempts, r.id) == |l.handoffs[i].attempts| && f.Applied? {
      AttemptFair(l, b.follow, i, r, now, access, key);
    }
  }

  lemma MarkedHas(attempts: seq<Attempt>, id: string, stage: F.Stage, claim: string)
    ensures HasAttempt(HandoffReports.Marked(attempts, id, stage), claim) <==> HasAttempt(attempts, claim)
  {
    var m := HandoffReports.Marked(attempts, id, stage);
    assert forall k :: 0 <= k < |m| ==> m[k].id == attempts[k].id;
  }

  lemma OutcomeFair(b: Books, l: Ledger, i: nat, r: Report, stage: F.Stage, now: int, access: Option<Access>, key: string)
    requires MatchedWith(l, b.follow) && i < |l.handoffs| && NotificationStage(stage) && stage != F.NotificationAttempted
    ensures Outcome(b, l, i, r, stage, now, access, key).Some? ==> Fair(l, b.follow, Outcome(b, l, i, r, stage, now, access, key).value)
  {
    var h := l.handoffs[i];
    var u, scene := FollowUpUpdate(l, r, stage), SceneOf(l, access, key);
    var h' := h.(attempts := HandoffReports.Marked(h.attempts, r.id, stage));
    if F.Apply(b.follow, LegacyOf(l), u, now, scene).Applied? {
      ApplyClaims(b.follow, LegacyOf(l), u, now, scene);
      ApplyCharges(b.follow, LegacyOf(l), u, now, scene);
      MarkedTimes(h.attempts, r.id, stage);
      TimesUpdate(l.handoffs, i, h');
      forall id, c | Covered(l.handoffs, id, c)
        ensures Covered(l.handoffs[i := h'], id, c)
      {
        FindUpdated(l.handoffs, i, h', id);
        MarkedHas(h.attempts, r.id, stage, c);
      }
    }
  }

  lemma PanelFair(b: Books, l: Ledger, r: Report, now: int, access: Option<Access>, key: string)
    requires MatchedWith(l, b.follow)
    ensures PanelSeen(b, l, r, now, access, key).Some? ==> Fair(l, b.follow, PanelSeen(b, l, r, now, access, key).value)
  {
    var u, scene := FollowUpUpdate(l, r, F.PanelStatus), SceneOf(l, access, key);
    if F.Apply(b.follow, LegacyOf(l), u, now, scene).Applied? {
      ApplyClaims(b.follow, LegacyOf(l), u, now, scene);
      ApplyCharges(b.follow, LegacyOf(l), u, now, scene);
    }
  }

  lemma SameFair(l: Ledger, l': Ledger, f: Option<F.FollowUps>)
    requires MatchedWith(l, f) && SameAttempts(l.handoffs, l'.handoffs) && l'.run.id == l.run.id
    ensures Fair(l, f, Books(Some(l'), f))
  {
    SameTimes(l.handoffs, l'.handoffs);
  }

  lemma CoordinatorSame(l: Ledger, r: Report, room: Room, now: int)
    ensures SameAttempts(l.handoffs, CoordinatorReported(l, r, room, now).handoffs)
    ensures CoordinatorReported(l, r, room, now).run.id == l.run.id
  {
    var a := ResultReported(l.handoffs, r, now);
    assert SameAttempts(l.handoffs, a);
    assert SameAttempts(a, CloseAll(a, r, now));
  }

  lemma CoordinatorFair(b: Books, l: Ledger, r: Report, room: Room, now: int)
    requires MatchedWith(l, b.follow)
    ensures var l' := Completing(l, r, room, now);
      l'.Some? ==> Fair(l, b.follow, b.(ledger := Some(CoordinatorReported(l'.value, r, room, now))))
  {
    ReconcileSame(l, room, now);
    var l' := Completing(l, r, room, now);
    if l'.Some? {
      CoordinatorSame(l'.value, r, room, now);
      SameFair(l, CoordinatorReported(l'.value, r, room, now), b.follow);
    }
  }

  lemma ApplyFair(b: Books, l: Ledger, r: Report, room: Room, now: int, access: Option<Access>, key: string)
    requires MatchedWith(l, b.follow) && WellFormed(r)
    ensures Apply(b, l, r, room, now, access, key).Some? ==> Fair(l, b.follow, Apply(b, l, r, room, now, access, key).value)
  {
    match r.kind
    case PanelReport => PanelFair(b, l, r, now, access, key);
    case Notification(stage) =>
      if r.result.Some? && FindHandoff(l.handoffs, r.result.value) < |l.handoffs| {
        var i := FindHandoff(l.handoffs, r.result.value);
        if stage == F.NotificationAttempted {
          ClaimFair(b, l, i, r, now, access, key);
        } else {
          OutcomeFair(b, l, i, r, stage, now, access, key);
        }
      }
    case Coordinator => CoordinatorFair(b, l, r, room, now);
  }

  lemma SettledFair(l: Ledger, f: Option<F.FollowUps>, room: Room, now: int)
    requires MatchedWith(l, f)
    ensures Fair(l, f, Books(Some(Reconcile(l, room, now)), f))
  {
    ReconcileSame(l, room, now);
    SameFair(l, Reconcile(l, room, now), f);
  }

  lemma AppliedFair(b: Books, l: Ledger, r: Report, room: Room, now: int, access: Option<Access>, key: string)
    requires MatchedWith(l, b.follow) && WellFormed(r) && Apply(b, l, r, room, now, access, key).Some?
    ensures var a := Apply(b, l, r, room, now, access, key).value;
      a.ledger.Some? && Fair(l, b.follow, a.(ledger := Some(Reconcile(Entered(a.ledger.value, r, now), room, now))))
  {
    ApplyFair(b, l, r, room, now, access, key);
    var a := Apply(b, l, r, room, now, access, key).value;
    var e := Entered(a.ledger.value, r, now);
    assert SameAttempts(a.ledger.value.handoffs, e.handoffs);
    SameFair(a.ledger.value, e, a.follow);
    SettledFair(e, a.follow, room, now);
  }

  /** A report is refused or lost, repeats one, or is applied. */
  lemma ReportCases(b: Books, r: Report, room: Room, now: int, access: Option<Access>, key: string, saved: bool)
    requires WellFormed(r) && CurrentRun(b.ledger, r.run)
    ensures var b' := ReportStep(b, r, room, now, access, key, saved);
      var l := Reconcile(b.ledger.value, room, now);
      var a := Apply(b, l, r, room, now, access, key);
      || b' == b || b' == b.(ledger := Some(Reconcile(l, room, now)))
      || (a.Some? && a.value.ledger.Some? && b' == a.value.(ledger := Some(Reconcile(Entered(a.value.ledger.value, r, now), room, now))))
  {
  }

  /** A report charges the allowance for exactly the automatic attempts that it
      enters on handoffs. */
  lemma ReportFair(b: Books, r: Report, room: Room, now: int, access: Option<Access>, key: string, saved: bool)
    requires Matched(b)
    ensures var b' := ReportStep(b, r, room, now, access, key, saved);
      Matched(b') && Charged(b'.follow) - Charged(b.follow) == Automatic(b'.ledger) - Automatic(b.ledger)
  {
    if WellFormed(r) && CurrentRun(b.ledger, r.run) {
      var l := Reconcile(b.ledger.value, room, now);
      ReportCases(b, r, room, now, access, key, saved);
      SettledFair(b.ledger.value, b.follow, room, now);
      SettledFair(l, b.follow, room, now);
      if Apply(b, l, r, room, now, access, key).Some? {
        AppliedFair(b, l, r, room, now, access, key);
      }
    }
  }

  // ----- whole runs

  /** The API keeps results and runs out of general updates; run identities are
      fresh. */
  ghost predicate Proper(b: Books, step: Step) {
    match step
    case Observing(u, now, scene, saved) => u.content.result.None? && u.content.run == ""
    case ControlStep(action, id, start, room, now, saved) =>
      forall k :: 0 <= k < |Claims(b.follow)| ==> Claims(b.follow)[k].content.run != id
    case StatusStep(room, now, saved) => true
    case Reporting(report, room, now, access, key, saved) => true
  }

  ghost predicate ProperRun(b: Books, run: seq<Step>)
    decreases |run|
  {
    run == [] || (Proper(b, run[0]) && ProperRun(Next(b, run[0]), run[1..]))
  }

  lemma ControlMatched(b: Books, action: Action, id: string, start: nat, room: Room, now: int, saved: bool)
    requires Matched(b) && Proper(b, ControlStep(action, id, start, room, now, saved))
    ensures Matched(b.(ledger := Control(b.ledger, action, id, start, room, now, saved)))
  {
    var c := Controlled(b.ledger, action, id, start, room);
    if c.Some? {
      if action == ResumeAction {
        assert SameAttempts(b.ledger.value.handoffs, c.value.handoffs);
        SameTimes(b.ledger.value.handoffs, c.value.handoffs);
      }
      if action == StopAction {
        SameFair(b.ledger.value, c.value, b.follow);
      } else {
        assert c.value.run.id == id;
        assert b.follow.Some? ==> Covers(c.value, Claims(b.follow));
      }
      SettledFair(c.value, b.follow, room, now);
    }
  }

  lemma ObservingMatched(b: Books, u: F.Update, now: int, scene: F.Scene, saved: bool)
    requires Matched(b) && u.content.result.None? && u.content.run == ""
    ensures Matched(b.(follow := F.Observe(b.follow, Legacy(b), u, now, scene, saved)))
  {
    var r := F.Apply(b.follow, Legacy(b), u, now, scene);
    if r.Applied? && saved && b.ledger.Some? {
      ApplyClaims(b.follow, Legacy(b), u, now, scene);
    }
  }

  lemma StepMatched(b: Books, step: Step)
    requires Matched(b) && Proper(b, step)
    ensures Matched(Next(b, step))
  {
    match step
    case ControlStep(action, id, start, room, now, saved) => ControlMatched(b, action, id, start, room, now, saved);
    case StatusStep(room, now, saved) =>
      if b.ledger.Some? {
        SettledFair(b.ledger.value, b.follow, room, now);
      }
    case Reporting(report, room, now, access, key, saved) => ReportFair(b, report, room, now, access, key, saved);
    case Observing(u, now, scene, saved) => ObservingMatched(b, u, now, scene, saved);
  }

  lemma {:induction false} RunMatched(b: Books, run: seq<Step>)
    requires Matched(b) && ProperRun(b, run)
    ensures Matched(Exec(b, run))
    decreases |run|
  {
    if run != [] {
      StepMatched(b, run[0]);
      RunMatched(Next(b, run[0]), run[1..]);
    }
  }

  /** In every reachable state, a report charges the allowance for exactly the
      automatic attempts that it enters on handoffs: none is free, none is charged
      twice. */
  lemma AttemptsAreCharged(run: seq<Step>, r: Report, room: Room, now: int, access: Option<Access>, key: string, saved: bool)
    requires ProperRun(EMPTY, run)
    ensures var b := Exec(EMPTY, run);
      var b' := ReportStep(b, r, room, now, access, key, saved);
      Charged(b'.follow) - Charged(b.follow) == Automatic(b'.ledger) - Automatic(b.ledger)
  {
    RunMatched(EMPTY, run);
    ReportFair(Exec(EMPTY, run), r, room, now, access, key, saved);
  }
}
