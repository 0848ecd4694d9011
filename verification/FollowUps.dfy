/** The notification allowance of a room, shared by every panel
    (internal/room/followups.go, internal/chat/followups.go).

    `Apply` is one observation under the room's lock: a control, a panel's
    availability, a notification claim, or the outcome of one.
 */
module FollowUps {
  import opened Options
  import opened Rooms

  const CLAIMS: nat := 256
  const PANELS: nat := 8

  datatype Stage =
    | Pause | Resume | Renew
    | PanelStatus
    | NotificationAttempted | HostAccepted | HostRejected | HostUnknown
    | OtherStage

  datatype Panel = Panel(id: string, mode: string, seenAt: int, startedAt: int)

  /** What a claim is about; a retry must repeat all of it. */
  datatype Content = Content(key: string, result: Option<ResultId>, through: nat, run: string, panel: string, automatic: bool)

  datatype Claim = Claim(id: string, at: int, content: Content, outcome: Stage)

  datatype Control = Control(id: string, stage: Stage, revision: nat)

  datatype Notified = Notified(through: nat, key: string)

  datatype Allowance = Allowance(enabled: bool, hostPaused: bool, startedAt: int, attempts: int)

  datatype FollowUps = FollowUps(
    allowance: Allowance,
    revision: nat,
    lastNotificationAt: int,
    notified: Notified,
    panels: seq<Panel>,
    claims: seq<Claim>,
    control: Control)

  /** `oversize` says that some identifier exceeds its length limit. */
  datatype Update = Update(stage: Stage, id: string, oversize: bool, delivery: string, revision: nat, content: Content)

  /** The rest of the room: participation, whether the monitored run is stopped,
      and the key of the latest public update. */
  datatype Scene = Scene(access: Option<Access>, stopped: bool, key: string)

  /** What older rooms recorded on the run instead. */
  datatype Legacy = Legacy(panels: seq<Panel>, lastNotificationAt: int, automatic: seq<int>)

  const NO_LEGACY := Legacy([], 0, [])

  datatype Refusal =
    | Invalid | ControlReused | ControlStale | BadDelivery | PanelRequired | BadStage
    | ClaimReused | OutcomeRecorded | ClaimUnavailable | DeliveryUnavailable
    | SettingChanged | AutomaticUnavailable(reason: string) | PanelUnseen | TooSoon | UpdateChanged | AlreadyClaimed

  datatype Outcome = Applied(value: FollowUps) | Refused(reason: Refusal)

  predicate IsControl(s: Stage) { s.Pause? || s.Resume? || s.Renew? }

  predicate IsDelivery(s: Stage) { s.NotificationAttempted? || s.HostAccepted? || s.HostRejected? || s.HostUnknown? }

  // ----- a room without an allowance yet

  function Earliest(times: seq<int>, from: int): int
    decreases |times|
  {
    if times == [] then from
    else Earliest(times[1..], if from == 0 || times[0] < from then times[0] else from)
  }

  /** Legacy consumption is imported; a new panel does not replenish it. */
  function Ensure(f: Option<FollowUps>, legacy: Legacy): FollowUps {
    if f.Some? then f.value
    else FollowUps(Allowance(true, false, Earliest(legacy.automatic, 0), |legacy.automatic|), 1,
                   legacy.lastNotificationAt, Notified(0, ""), legacy.panels, [], Control("", OtherStage, 0))
  }

  // ----- controls

  function Controlled(f: FollowUps, u: Update, now: int): FollowUps {
    var a := Allowance(u.stage != Pause, f.allowance.hostPaused, f.allowance.startedAt, f.allowance.attempts);
    f.(allowance := if u.stage == Renew then Allowance(true, a.hostPaused, now, 0) else a,
       revision := f.revision + 1, control := Control(u.id, u.stage, u.revision))
  }

  function ApplyControl(f: FollowUps, u: Update, now: int): Outcome {
    if f.control.id == u.id then
      if f.control.stage != u.stage || f.control.revision != u.revision then Refused(ControlReused) else Applied(f)
    else if u.revision != f.revision then Refused(ControlStale)
    else Applied(Controlled(f, u, now))
  }

  // ----- panels

  const MODES: set<string> := {"enabled", "manual", "hidden", "unsupported", "disconnected", "budget", "closed", "unknown"}

  function FindPanel(panels: seq<Panel>, id: string): (i: nat)
    ensures i <= |panels|
    ensures i < |panels| ==> panels[i].id == id
    ensures forall j :: 0 <= j < i ==> panels[j].id != id
  {
    if panels == [] || panels[0].id == id then 0 else 1 + FindPanel(panels[1..], id)
  }

  function Seen(panels: seq<Panel>, id: string, mode: string, now: int): seq<Panel> {
    var i := FindPanel(panels, id);
    if i < |panels| then panels[i := Panel(id, mode, now, panels[i].startedAt)]
    else (if |panels| >= PANELS then panels[1..] else panels) + [Panel(id, mode, now, now)]
  }

  function ApplyPanel(f: FollowUps, u: Update, now: int): Outcome {
    if u.delivery !in MODES then Refused(BadDelivery)
    else if u.content.panel == "" then Refused(PanelRequired)
    else
      var start := f.allowance.startedAt == 0 && u.delivery == "enabled" && f.allowance.enabled;
      Applied(f.(allowance := if start then f.allowance.(startedAt := now) else f.allowance,
                 panels := Seen(f.panels, u.content.panel, u.delivery, now)))
  }

  // ----- is an automatic claim allowed now

  function LimitsOf(access: Option<Access>): Limits {
    if access.Some? && access.value.limits.followUps > 0 then access.value.limits else DEFAULT_LIMITS
  }

  function Remaining(f: FollowUps, access: Option<Access>): int {
    Max(0, LimitsOf(access).followUps - f.allowance.attempts)
  }

  /** Whole seconds left, as integer division of a duration truncates. */
  function SecondsRemaining(f: FollowUps, access: Option<Access>, now: int): int {
    var limit := LimitsOf(access).seconds;
    if f.allowance.startedAt == 0 then limit
    else
      var left := f.allowance.startedAt + limit * SECOND - now;
      if left < 0 then 0 else left / SECOND
  }

  predicate Expired(access: Access, now: int) { access.expiresAt != 0 && now >= access.expiresAt }

  /** The mode of the last recently seen panel, "" as soon as one is enabled. */
  function PanelReason(panels: seq<Panel>, now: int, reason: string): string
    decreases |panels|
  {
    if panels == [] then reason
    else if now - panels[0].seenAt > 45 * SECOND then PanelReason(panels[1..], now, reason)
    else if panels[0].mode == "enabled" then ""
    else PanelReason(panels[1..], now, panels[0].mode)
  }

  function OutcomeReason(f: FollowUps, reason: string): string {
    if reason != "" || f.claims == [] then reason
    else
      var last := f.claims[|f.claims| - 1].outcome;
      if last == HostRejected then "host_rejected" else if last == HostUnknown then "host_unknown" else ""
  }

  /** The reason of the view; "" when follow-ups are on and connected. */
  function Reason(f: FollowUps, scene: Scene, now: int): string {
    if !f.allowance.enabled then "manual"
    else if scene.stopped then "run_stopped"
    else if scene.access.None? then "disconnected"
    else
      var a := scene.access.value;
      if !a.enabled || !a.connected || Expired(a, now) then "disconnected"
      else if f.allowance.hostPaused || a.paused then "host_paused"
      else if a.pauseReason != NotPaused then PauseText(a.pauseReason)
      else if Remaining(f, scene.access) == 0 then "follow_up_limit"
      else if SecondsRemaining(f, scene.access, now) == 0 then "time_limit"
      else OutcomeReason(f, PanelReason(f.panels, now, "panel_unavailable"))
  }

  // ----- claims

  function FindClaim(claims: seq<Claim>, id: string): (i: nat)
    ensures i <= |claims|
    ensures i < |claims| ==> claims[i].id == id
    ensures forall j :: 0 <= j < i ==> claims[j].id != id
  {
    if claims == [] || claims[0].id == id then 0 else 1 + FindClaim(claims[1..], id)
  }

  /** The claim is retained: a retry changes nothing, a first outcome is recorded. */
  function ApplyRetained(f: FollowUps, i: nat, u: Update): Outcome
    requires i < |f.claims|
  {
    var c := f.claims[i];
    if c.content != u.content then Refused(ClaimReused)
    else if u.stage == NotificationAttempted then Applied(f)
    else if c.outcome != HostUnknown && c.outcome != u.stage then Refused(OutcomeRecorded)
    else Applied(f.(claims := f.claims[i := c.(outcome := u.stage)]))
  }

  predicate Deliverable(f: FollowUps, scene: Scene, now: int) {
    && scene.access.Some?
    && scene.access.value.enabled && scene.access.value.connected && !scene.access.value.paused
    && !f.allowance.hostPaused && !Expired(scene.access.value, now) && !scene.stopped
  }

  predicate Ready(p: Panel, id: string, now: int) { p.id == id && p.mode == "enabled" && now - p.seenAt <= 45 * SECOND }

  predicate Registered(panels: seq<Panel>, id: string, now: int) {
    exists i :: 0 <= i < |panels| && Ready(panels[i], id, now)
  }

  const DELIVERY_REASONS: set<string> := {"", "host_rejected", "host_unknown"}

  function AutomaticRefusal(f: FollowUps, u: Update, now: int, scene: Scene): Option<Refusal> {
    if u.revision != 0 && u.revision != f.revision then Some(SettingChanged)
    else if Reason(f, scene, now) !in DELIVERY_REASONS then Some(AutomaticUnavailable(Reason(f, scene, now)))
    else if !Registered(f.panels, u.content.panel, now) then Some(PanelUnseen)
    else None
  }

  /** A general automatic update is claimed once. */
  function GeneralRefusal(f: FollowUps, u: Update, scene: Scene): Option<Refusal> {
    if u.content.result.Some? || !u.content.automatic then None
    else if u.content.key != "" then
      if u.content.key != scene.key then Some(UpdateChanged)
      else if u.content.key == f.notified.key then Some(AlreadyClaimed)
      else None
    else if u.content.through == 0 || u.content.through <= f.notified.through then Some(AlreadyClaimed)
    else None
  }

  function ClaimRefusal(f: FollowUps, u: Update, now: int, scene: Scene): Option<Refusal> {
    if u.stage != NotificationAttempted then Some(ClaimUnavailable)
    else if !Deliverable(f, scene, now) then Some(DeliveryUnavailable)
    else if u.content.automatic && AutomaticRefusal(f, u, now, scene).Some? then AutomaticRefusal(f, u, now, scene)
    else if now - f.lastNotificationAt < 20 * SECOND then Some(TooSoon)
    else GeneralRefusal(f, u, scene)
  }

  function NewClaim(u: Update, now: int): Claim { Claim(u.id, now, u.content, HostUnknown) }

  function Spent(a: Allowance, now: int): Allowance {
    Allowance(a.enabled, a.hostPaused, if a.startedAt == 0 then now else a.startedAt, a.attempts + 1)
  }

  function Told(n: Notified, c: Content): Notified {
    if c.result.Some? then n
    else Notified(Max(n.through, c.through), if c.key != "" then c.key else n.key)
  }

  function Charged(f: FollowUps, u: Update, now: int): FollowUps {
    FollowUps(if u.content.automatic then Spent(f.allowance, now) else f.allowance, f.revision, now,
              Told(f.notified, u.content), f.panels, Tail(f.claims + [NewClaim(u, now)], CLAIMS), f.control)
  }

  function ApplyClaim(f: FollowUps, u: Update, now: int, scene: Scene): Outcome {
    var i := FindClaim(f.claims, u.id);
    if i < |f.claims| then ApplyRetained(f, i, u)
    else
      var refusal := ClaimRefusal(f, u, now, scene);
      if refusal.Some? then Refused(refusal.value) else Applied(Charged(f, u, now))
  }

  /** One observation.  A refusal, like a failed save, leaves the room as it was. */
  function Apply(was: Option<FollowUps>, legacy: Legacy, u: Update, now: int, scene: Scene): Outcome {
    if u.id == "" || u.oversize then Refused(Invalid)
    else
      var f := Ensure(was, legacy);
      if IsControl(u.stage) then ApplyControl(f, u, now)
      else if u.stage == PanelStatus then ApplyPanel(f, u, now)
      else if !IsDelivery(u.stage) then Refused(BadStage)
      else ApplyClaim(f, u, now, scene)
  }

  function Observe(was: Option<FollowUps>, legacy: Legacy, u: Update, now: int, scene: Scene, saved: bool): Option<FollowUps> {
    var r := Apply(was, legacy, u, now, scene);
    if r.Applied? && saved then Some(r.value) else was
  }

  /** The observation is a new claim: it passed every check and was appended. */
  predicate Claims(was: Option<FollowUps>, legacy: Legacy, u: Update, now: int, scene: Scene) {
    && u.id != "" && !u.oversize && u.stage == NotificationAttempted
    && FindClaim(Ensure(was, legacy).claims, u.id) == |Ensure(was, legacy).claims|
    && ClaimRefusal(Ensure(was, legacy), u, now, scene).None?
  }
}
