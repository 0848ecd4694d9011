/** Runs of observations on one allowance, and what every run keeps.

    The log records the claims that were accepted and the controls that took
    effect, in order, including the claims the room itself has since dropped.
 */
module FollowUpRuns {
  import opened Options
  import opened Rooms
  import opened FollowUps

  datatype Entry = Claimed(claim: Claim) | Switched(stage: Stage)

  datatype System = System(room: Option<FollowUps>, log: seq<Entry>)

  datatype Step =
    | Observation(u: Update, now: int, scene: Scene, saved: bool)
    | HostPause
    | HostResume

  /** A fresh allowance: nothing to import. */
  const START := System(None, [])

  predicate Switches(f: FollowUps, u: Update) {
    IsControl(u.stage) && f.control.id != u.id && u.revision == f.revision
  }

  function Entries(room: Option<FollowUps>, step: Step): (r: seq<Entry>)
    ensures |r| <= 1
  {
    if !step.Observation? || !step.saved || step.u.id == "" || step.u.oversize then []
    else if Claims(room, NO_LEGACY, step.u, step.now, step.scene) then [Claimed(NewClaim(step.u, step.now))]
    else if Switches(Ensure(room, NO_LEGACY), step.u) then [Switched(step.u.stage)]
    else []
  }

  function WithHost(f: FollowUps, paused: bool): FollowUps {
    f.(allowance := f.allowance.(hostPaused := paused))
  }

  function After(room: Option<FollowUps>, step: Step): Option<FollowUps> {
    match step
    case Observation(u, now, scene, saved) => Observe(room, NO_LEGACY, u, now, scene, saved)
    case HostPause => Some(WithHost(Ensure(room, NO_LEGACY), true))
    case HostResume => if room.Some? then Some(WithHost(room.value, false)) else room
  }

  function Next(s: System, step: Step): System {
    System(After(s.room, step), s.log + Entries(s.room, step))
  }

  function Exec(s: System, run: seq<Step>): System
    decreases |run|
  {
    if run == [] then s else Exec(Next(s, run[0]), run[1..])
  }

  // ----- what a log says

  predicate IsAutomatic(e: Entry) { e.Claimed? && e.claim.content.automatic }

  /** The automatic claims since the last renewal. */
  function Charges(log: seq<Entry>): nat {
    if log == [] then 0
    else
      var e, before := log[|log| - 1], Charges(log[..|log| - 1]);
      if e == Switched(Renew) then 0 else if IsAutomatic(e) then before + 1 else before
  }

  /** Not paused: the last control, if any, was a resume or a renewal. */
  predicate Enabled(log: seq<Entry>) {
    if log == [] then true
    else
      var e := log[|log| - 1];
      if e.Switched? then e.stage != Pause else Enabled(log[..|log| - 1])
  }

  function LastClaim(log: seq<Entry>): int {
    if log == [] then 0
    else
      var e := log[|log| - 1];
      if e.Claimed? then e.claim.at else LastClaim(log[..|log| - 1])
  }

  /** The claims of the log, outcomes aside. */
  function ClaimsOf(log: seq<Entry>): seq<Claim> {
    if log == [] then []
    else
      var e := log[|log| - 1];
      ClaimsOf(log[..|log| - 1]) + if e.Claimed? then [e.claim] else []
  }

  function Plain(c: Claim): Claim { c.(outcome := HostUnknown) }

  function Plains(cs: seq<Claim>): (r: seq<Claim>)
    ensures |r| == |cs| && forall i :: 0 <= i < |cs| ==> r[i] == Plain(cs[i])
  {
    seq(|cs|, i requires 0 <= i < |cs| => Plain(cs[i]))
  }

  lemma LogPlus(log: seq<Entry>, e: Entry)
    ensures Charges(log + [e]) == if e == Switched(Renew) then 0 else if IsAutomatic(e) then Charges(log) + 1 else Charges(log)
    ensures Enabled(log + [e]) == if e.Switched? then e.stage != Pause else Enabled(log)
    ensures LastClaim(log + [e]) == if e.Claimed? then e.claim.at else LastClaim(log)
    ensures ClaimsOf(log + [e]) == ClaimsOf(log) + if e.Claimed? then [e.claim] else []
  {
    assert (log + [e])[..|log|] == log;
  }

  // ----- the room agrees with its log

  predicate Counted(f: FollowUps, log: seq<Entry>) {
    f.allowance.attempts == Charges(log) && f.allowance.enabled == Enabled(log) && f.lastNotificationAt == LastClaim(log)
  }

  predicate Retains(f: FollowUps, log: seq<Entry>) {
    Plains(f.claims) == Tail(ClaimsOf(log), CLAIMS) && DistinctClaims(f.claims)
  }

  predicate DistinctClaims(cs: seq<Claim>) { forall i, j :: 0 <= i < j < |cs| ==> cs[i].id != cs[j].id }

  predicate Agrees(s: System) {
    if s.room.None? then s.log == [] else Counted(s.room.value, s.log) && Retains(s.room.value, s.log)
  }

  lemma FreshAgrees()
    ensures Counted(Ensure(None, NO_LEGACY), []) && Retains(Ensure(None, NO_LEGACY), [])
  {
  }

  lemma ChargedRetains(f: FollowUps, log: seq<Entry>, u: Update, now: int)
    requires Retains(f, log) && FindClaim(f.claims, u.id) == |f.claims|
    ensures Retains(Charged(f, u, now), log + [Claimed(NewClaim(u, now))])
  {
    var c := NewClaim(u, now);
    LogPlus(log, Claimed(c));
    assert Plains(f.claims + [c]) == Plains(f.claims) + [c];
  }

  lemma SwitchedAgrees(f: FollowUps, log: seq<Entry>, u: Update, now: int)
    requires Counted(f, log) && Retains(f, log) && IsControl(u.stage)
    ensures Counted(Controlled(f, u, now), log + [Switched(u.stage)]) && Retains(Controlled(f, u, now), log + [Switched(u.stage)])
  {
    LogPlus(log, Switched(u.stage));
    assert ClaimsOf(log) + [] == ClaimsOf(log);
  }

  /** An observation that is neither a new claim nor an effective control keeps
      everything the log is about. */
  predicate SameBooks(f: FollowUps, f': FollowUps) {
    && f'.allowance.attempts == f.allowance.attempts && f'.allowance.enabled == f.allowance.enabled
    && f'.lastNotificationAt == f.lastNotificationAt
    && Plains(f'.claims) == Plains(f.claims)
  }

  lemma SameBooksAgree(f: FollowUps, f': FollowUps, log: seq<Entry>)
    requires SameBooks(f, f') && Counted(f, log) && Retains(f, log)
    ensures Counted(f', log) && Retains(f', log)
  {
    forall i, j | 0 <= i < j < |f'.claims|
      ensures f'.claims[i].id != f'.claims[j].id
    {
      assert Plains(f'.claims)[i] == Plains(f.claims)[i] && Plains(f'.claims)[j] == Plains(f.claims)[j];
      assert Plain(f'.claims[i]).id == f.claims[i].id && Plain(f'.claims[j]).id == f.claims[j].id;
    }
  }

  /** The three ways an observation can go. */
  lemma Cases(room: Option<FollowUps>, u: Update, now: int, scene: Scene)
    ensures var f, r := Ensure(room, NO_LEGACY), Apply(room, NO_LEGACY, u, now, scene);
      if Claims(room, NO_LEGACY, u, now, scene) then r == Applied(Charged(f, u, now))
      else if u.id != "" && !u.oversize && Switches(f, u) then r == Applied(Controlled(f, u, now))
      else r.Applied? ==> SameBooks(f, r.value)
  {
    var f := Ensure(room, NO_LEGACY);
    var i := FindClaim(f.claims, u.id);
  }

  lemma ObservationAgrees(s: System, u: Update, now: int, scene: Scene, saved: bool)
    requires Agrees(s)
    ensures Agrees(Next(s, Observation(u, now, scene, saved)))
  {
    var f := Ensure(s.room, NO_LEGACY);
    FreshAgrees();
    assert Counted(f, s.log) && Retains(f, s.log);
    Cases(s.room, u, now, scene);
    var r := Apply(s.room, NO_LEGACY, u, now, scene);
    assert s.log + [] == s.log;
    if saved {
      if Claims(s.room, NO_LEGACY, u, now, scene) {
        ChargedRetains(f, s.log, u, now);
      } else if u.id != "" && !u.oversize && Switches(f, u) {
        SwitchedAgrees(f, s.log, u, now);
      } else if r.Applied? {
        SameBooksAgree(f, r.value, s.log);
      }
    }
  }

  lemma StepAgrees(s: System, step: Step)
    requires Agrees(s)
    ensures Agrees(Next(s, step))
  {
    assert s.log + [] == s.log;
    match step
    case Observation(u, now, scene, saved) => ObservationAgrees(s, u, now, scene, saved);
    case HostPause =>
      FreshAgrees();
      SameBooksAgree(Ensure(s.room, NO_LEGACY), WithHost(Ensure(s.room, NO_LEGACY), true), s.log);
    case HostResume =>
      if s.room.Some? {
        SameBooksAgree(s.room.value, WithHost(s.room.value, false), s.log);
      }
  }

  /** In every reachable state the attempts are the automatic claims accepted
      since the last renewal, and the retained claims are the last 256 accepted. */
  lemma {:induction false} AllowanceForever(s: System, run: seq<Step>)
    requires Agrees(s)
    ensures Agrees(Exec(s, run))
    decreases |run|
  {
    if run != [] {
      StepAgrees(s, run[0]);
      AllowanceForever(Next(s, run[0]), run[1..]);
    }
  }

  lemma AttemptsAreCharges(run: seq<Step>)
    ensures var s := Exec(START, run);
      s.room.Some? ==> s.room.value.allowance.attempts == Charges(s.log)
  {
    AllowanceForever(START, run);
  }

  // ----- the limit

  /** Participation under limits of at most this many. */
  predicate Capped(step: Step, limit: nat) { step.Observation? ==> LimitsOf(step.scene.access).followUps <= limit }

  /** No pause reason reads like one of the two delivery outcomes. */
  lemma PausesAreNoDeliveries(reason: PauseReason)
    requires reason != NotPaused
    ensures PauseText(reason) !in DELIVERY_REASONS
  {
    assert PauseText(reason)[0] == 'h' ==> PauseText(reason)[5] == 'p';
    assert "host_rejected"[5] == 'r' && "host_unknown"[5] == 'u';
  }

  lemma AutomaticHasRoom(f: FollowUps, u: Update, now: int, scene: Scene)
    requires ClaimRefusal(f, u, now, scene).None? && u.content.automatic
    ensures f.allowance.attempts < LimitsOf(scene.access).followUps && f.allowance.enabled
  {
    assert Reason(f, scene, now) in DELIVERY_REASONS;
    if scene.access.value.pauseReason != NotPaused {
      PausesAreNoDeliveries(scene.access.value.pauseReason);
    }
  }

  lemma StepLimit(s: System, step: Step, limit: nat)
    requires Agrees(s) && Capped(step, limit) && Charges(s.log) <= limit
    ensures Charges(Next(s, step).log) <= limit
  {
    FreshAgrees();
    if Entries(s.room, step) != [] {
      var f := Ensure(s.room, NO_LEGACY);
      LogPlus(s.log, Entries(s.room, step)[0]);
      if IsAutomatic(Entries(s.room, step)[0]) {
        AutomaticHasRoom(f, step.u, step.now, step.scene);
        assert Counted(f, s.log);
      }
    } else {
      assert s.log + [] == s.log;
    }
  }

  predicate AllCapped(run: seq<Step>, limit: nat) { forall i :: 0 <= i < |run| ==> Capped(run[i], limit) }

  lemma {:induction false} RunLimit(s: System, run: seq<Step>, limit: nat)
    requires Agrees(s) && Charges(s.log) <= limit
    requires AllCapped(run, limit)
    ensures Charges(Exec(s, run).log) <= limit
    decreases |run|
  {
    if run != [] {
      StepLimit(s, run[0], limit);
      StepAgrees(s, run[0]);
      RunLimit(Next(s, run[0]), run[1..], limit);
    }
  }

  /** However many panels claim, no more automatic claims are accepted between two
      renewals than the limit allows. */
  lemma WithinLimit(run: seq<Step>, limit: nat)
    requires AllCapped(run, limit)
    ensures Charges(Exec(START, run).log) <= limit
  {
    RunLimit(START, run, limit);
  }

  // ----- spacing, and pauses

  /** Every claim comes at least 20 s after the one before it. */
  predicate Spaced(log: seq<Entry>) {
    forall i, j :: 0 <= i < j < |log| && log[i].Claimed? && log[j].Claimed? ==> log[j].claim.at - log[i].claim.at >= 20 * SECOND
  }

  /** No automatic claim lies between a pause and the next resume or renewal. */
  predicate Respects(log: seq<Entry>) {
    forall i :: 0 <= i < |log| && IsAutomatic(log[i]) ==> Enabled(log[..i])
  }

  lemma {:induction false} LastClaimIsLast(log: seq<Entry>, i: nat)
    requires Spaced(log) && i < |log| && log[i].Claimed?
    ensures log[i].claim.at <= LastClaim(log)
    decreases |log|
  {
    if i < |log| - 1 && !log[|log| - 1].Claimed? {
      LastClaimIsLast(log[..|log| - 1], i);
    }
  }

  lemma StepSpaced(s: System, step: Step)
    requires Agrees(s) && Spaced(s.log) && Respects(s.log)
    ensures Spaced(Next(s, step).log) && Respects(Next(s, step).log)
  {
    if Entries(s.room, step) == [] {
      assert s.log + [] == s.log;
    } else {
      var e := Entries(s.room, step)[0];
      var log := s.log + [e];
      forall i, j | 0 <= i < j < |log| && log[i].Claimed? && log[j].Claimed?
        ensures log[j].claim.at - log[i].claim.at >= 20 * SECOND
      {
        if j == |s.log| {
          LastClaimIsLast(s.log, i);
        }
      }
      forall i | 0 <= i < |log| && IsAutomatic(log[i])
        ensures Enabled(log[..i])
      {
        assert log[..i] == s.log[..i];
        assert s.log[..|s.log|] == s.log;
      }
    }
  }

  lemma {:induction false} RunSpaced(s: System, run: seq<Step>)
    requires Agrees(s) && Spaced(s.log) && Respects(s.log)
    ensures Spaced(Exec(s, run).log) && Respects(Exec(s, run).log)
    decreases |run|
  {
    if run != [] {
      StepSpaced(s, run[0]);
      StepAgrees(s, run[0]);
      RunSpaced(Next(s, run[0]), run[1..]);
    }
  }

  lemma ClaimsAreSpaced(run: seq<Step>)
    ensures Spaced(Exec(START, run).log)
  {
    RunSpaced(START, run);
  }

  lemma PausedMeansPaused(run: seq<Step>)
    ensures Respects(Exec(START, run).log)
  {
    RunSpaced(START, run);
  }

  // ----- retries

  lemma FindUnique(claims: seq<Claim>, i: nat)
    requires DistinctClaims(claims) && i < |claims|
    ensures FindClaim(claims, claims[i].id) == i
  {
  }

  function Retry(c: Claim, revision: nat, delivery: string): Update {
    Update(NotificationAttempted, c.id, false, delivery, revision, c.content)
  }

  /** Repeating one of the last 256 accepted claims word for word, whenever and
      whatever the room's state is then, is accepted and changes nothing. */
  lemma RetryIsFree(run: seq<Step>, k: nat, revision: nat, delivery: string, now: int, scene: Scene)
    requires var claims := ClaimsOf(Exec(START, run).log); k < |claims| && k + CLAIMS >= |claims|
    requires ClaimsOf(Exec(START, run).log)[k].id != ""
    ensures var s := Exec(START, run);
      Apply(s.room, NO_LEGACY, Retry(ClaimsOf(s.log)[k], revision, delivery), now, scene) == Applied(Ensure(s.room, NO_LEGACY))
      && s.room == Some(Ensure(s.room, NO_LEGACY))
  {
    AllowanceForever(START, run);
    var s := Exec(START, run);
    var claims := ClaimsOf(s.log);
    assert s.room.Some?;
    var f := s.room.value;
    var i := k - (|claims| - |f.claims|);
    assert Plain(f.claims[i]) == Plains(f.claims)[i] == claims[k];
    FindUnique(f.claims, i);
  }
}
