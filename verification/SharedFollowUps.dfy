/** The allowance as it is updated in place (internal/room/followups.go). */
module SharedFollowUps {
  import opened Options
  import opened Rooms
  import opened F = FollowUps

  class Room {
    /** The room has an allowance. */
    var present: bool
    var enabled: bool
    var hostPaused: bool
    var startedAt: int
    var attempts: int
    var revision: nat
    var lastNotificationAt: int
    var notified: Notified
    var panels: seq<Panel>
    var claims: seq<Claim>
    var control: Control

    ghost function View(): FollowUps
      reads this
    {
      FollowUps(Allowance(enabled, hostPaused, startedAt, attempts), revision, lastNotificationAt, notified, panels, claims, control)
    }

    ghost function State(): Option<FollowUps>
      reads this
    {
      if present then Some(View()) else None
    }

    constructor ()
      ensures State() == None
    {
      present, enabled, hostPaused, startedAt, attempts, revision := false, false, false, 0, 0, 0;
      lastNotificationAt, notified, panels, claims, control := 0, Notified(0, ""), [], [], Control("", OtherStage, 0);
    }

    method EnsureFollowUps(legacy: Legacy)
      modifies this
      ensures State() == Some(Ensure(old(State()), legacy))
    {
      if !present {
        var start, n := 0, 0;
        while n < |legacy.automatic|
          invariant n <= |legacy.automatic|
          invariant Earliest(legacy.automatic, 0) == Earliest(legacy.automatic[n..], start)
        {
          if start == 0 || legacy.automatic[n] < start {
            start := legacy.automatic[n];
          }
          n := n + 1;
        }
        present, enabled, hostPaused, startedAt, attempts, revision := true, true, false, start, n, 1;
        lastNotificationAt, notified, panels, claims, control := legacy.lastNotificationAt, Notified(0, ""), legacy.panels, [], Control("", OtherStage, 0);
      }
    }

    method Find(id: string) returns (i: nat)
      ensures i == FindClaim(claims, id)
    {
      i := 0;
      while i < |claims| && claims[i].id != id
        invariant i <= |claims| && forall j :: 0 <= j < i ==> claims[j].id != id
      {
        i := i + 1;
      }
    }

    method PanelMode(now: int) returns (reason: string)
      ensures reason == PanelReason(panels, now, "panel_unavailable")
    {
      reason := "panel_unavailable";
      var i := 0;
      while i < |panels|
        invariant i <= |panels|
        invariant PanelReason(panels, now, "panel_unavailable") == PanelReason(panels[i..], now, reason)
      {
        if now - panels[i].seenAt <= 45 * SECOND {
          reason := panels[i].mode;
          if reason == "enabled" {
            reason := "";
            break;
          }
        }
        i := i + 1;
      }
    }

    method Available(panel: string, now: int) returns (available: bool)
      ensures available == Registered(panels, panel, now)
    {
      available := false;
      for i := 0 to |panels|
        invariant available == exists k :: 0 <= k < i && Ready(panels[k], panel, now)
      {
        if panels[i].id == panel && panels[i].mode == "enabled" && now - panels[i].seenAt <= 45 * SECOND {
          available := true;
          assert Ready(panels[i], panel, now);
        }
      }
    }

    method ApplyControl(u: Update, now: int) returns (refusal: Option<Refusal>)
      requires present && IsControl(u.stage)
      modifies this`enabled, this`startedAt, this`attempts, this`revision, this`control
      ensures var r := F.ApplyControl(old(View()), u, now);
        if r.Applied? then refusal == None && View() == r.value else refusal == Some(r.reason)
    {
      if control.id == u.id {
        return if control.stage != u.stage || control.revision != u.revision then Some(ControlReused) else None;
      }
      if u.revision != revision {
        return Some(ControlStale);
      }
      enabled := u.stage != Pause;
      if u.stage == Renew {
        startedAt, attempts := now, 0;
      }
      control, revision := Control(u.id, u.stage, u.revision), revision + 1;
      refusal := None;
    }

    method ApplyPanel(u: Update, now: int) returns (refusal: Option<Refusal>)
      requires present
      modifies this`startedAt, this`panels
      ensures var r := F.ApplyPanel(old(View()), u, now);
        if r.Applied? then refusal == None && View() == r.value else refusal == Some(r.reason)
    {
      if u.delivery !in MODES {
        return Some(BadDelivery);
      }
      if u.content.panel == "" {
        return Some(PanelRequired);
      }
      if startedAt == 0 && u.delivery == "enabled" && enabled {
        startedAt := now;
      }
      refusal := None;
      var i := 0;
      while i < |panels|
        invariant i <= |panels| && forall j :: 0 <= j < i ==> panels[j].id != u.content.panel
        invariant panels == old(panels)
      {
        if panels[i].id == u.content.panel {
          panels := panels[i := Panel(u.content.panel, u.delivery, now, panels[i].startedAt)];
          return;
        }
        i := i + 1;
      }
      if |panels| >= PANELS {
        panels := panels[1..];
      }
      panels := panels + [Panel(u.content.panel, u.delivery, now, now)];
    }

    method ReasonNow(scene: Scene, now: int) returns (reason: string)
      ensures reason == Reason(View(), scene, now)
    {
      var mode := PanelMode(now);
      if !enabled {
        return "manual";
      } else if scene.stopped {
        return "run_stopped";
      } else if scene.access.None? {
        return "disconnected";
      }
      var a := scene.access.value;
      var limits := LimitsOf(scene.access);
      if !a.enabled || !a.connected || Expired(a, now) {
        return "disconnected";
      } else if hostPaused || a.paused {
        return "host_paused";
      } else if a.pauseReason != NotPaused {
        return PauseText(a.pauseReason);
      } else if Max(0, limits.followUps - attempts) == 0 {
        return "follow_up_limit";
      } else if startedAt != 0 && startedAt + limits.seconds * SECOND - now < SECOND {
        return "time_limit";
      } else if startedAt == 0 && limits.seconds == 0 {
        return "time_limit";
      }
      reason := mode;
      if claims != [] && reason == "" {
        var last := claims[|claims| - 1].outcome;
        if last == HostRejected {
          reason := "host_rejected";
        } else if last == HostUnknown {
          reason := "host_unknown";
        }
      }
    }

    method Refuse(u: Update, now: int, scene: Scene) returns (refusal: Option<Refusal>)
      ensures refusal == ClaimRefusal(View(), u, now, scene)
    {
      if u.stage != NotificationAttempted {
        return Some(ClaimUnavailable);
      }
      if scene.access.None? || !scene.access.value.enabled || !scene.access.value.connected || scene.access.value.paused || hostPaused
         || Expired(scene.access.value, now) || scene.stopped {
        return Some(DeliveryUnavailable);
      }
      if u.content.automatic {
        if u.revision != 0 && u.revision != revision {
          return Some(SettingChanged);
        }
        var reason := ReasonNow(scene, now);
        if reason != "" && reason != "host_rejected" && reason != "host_unknown" {
          return Some(AutomaticUnavailable(reason));
        }
        var available := Available(u.content.panel, now);
        if !available {
          return Some(PanelUnseen);
        }
      }
      if now - lastNotificationAt < 20 * SECOND {
        return Some(TooSoon);
      }
      refusal := None;
      if u.content.result.None? && u.content.automatic {
        if u.content.key != "" {
          if u.content.key != scene.key {
            return Some(UpdateChanged);
          }
          if u.content.key == notified.key {
            return Some(AlreadyClaimed);
          }
        } else if u.content.through == 0 || u.content.through <= notified.through {
          return Some(AlreadyClaimed);
        }
      }
    }

    method Charge(u: Update, now: int)
      requires present
      modifies this`startedAt, this`attempts, this`lastNotificationAt, this`notified, this`claims
      ensures View() == Charged(old(View()), u, now)
    {
      if u.content.automatic {
        if startedAt == 0 {
          startedAt := now;
        }
        attempts := attempts + 1;
      }
      lastNotificationAt := now;
      if u.content.result.None? {
        notified := Notified(Max(notified.through, u.content.through), if u.content.key != "" then u.content.key else notified.key);
      }
      claims := claims + [Claim(u.id, now, u.content, HostUnknown)];
      if |claims| > CLAIMS {
        claims := claims[|claims| - CLAIMS..];
      }
    }

    method ApplyClaim(u: Update, now: int, scene: Scene) returns (refusal: Option<Refusal>)
      requires present
      modifies this`startedAt, this`attempts, this`lastNotificationAt, this`notified, this`claims
      ensures var r := F.ApplyClaim(old(View()), u, now, scene);
        if r.Applied? then refusal == None && View() == r.value else refusal == Some(r.reason)
    {
      var i := Find(u.id);
      if i < |claims| {
        if claims[i].content != u.content {
          return Some(ClaimReused);
        }
        refusal := None;
        if u.stage != NotificationAttempted {
          if claims[i].outcome != HostUnknown && claims[i].outcome != u.stage {
            return Some(OutcomeRecorded);
          }
          claims := claims[i := claims[i].(outcome := u.stage)];
        }
        return;
      }
      refusal := Refuse(u, now, scene);
      if refusal.None? {
        Charge(u, now);
      }
    }

    /** The caller restores its copy of the room after a refusal. */
    method Apply(legacy: Legacy, u: Update, now: int, scene: Scene) returns (refusal: Option<Refusal>)
      modifies this
      ensures var r := F.Apply(old(State()), legacy, u, now, scene);
        if r.Applied? then refusal == None && State() == Some(r.value) else refusal == Some(r.reason)
    {
      if u.id == "" || u.oversize {
        return Some(Invalid);
      }
      EnsureFollowUps(legacy);
      if IsControl(u.stage) {
        refusal := ApplyControl(u, now);
      } else if u.stage == PanelStatus {
        refusal := ApplyPanel(u, now);
      } else if !IsDelivery(u.stage) {
        refusal := Some(BadStage);
      } else {
        refusal := ApplyClaim(u, now, scene);
      }
    }

    method Restore(f: FollowUps, was: bool)
      modifies this
      ensures State() == if was then Some(f) else None
    {
      present := was;
      enabled, hostPaused, startedAt, attempts := f.allowance.enabled, f.allowance.hostPaused, f.allowance.startedAt, f.allowance.attempts;
      revision, lastNotificationAt, notified, panels, claims, control := f.revision, f.lastNotificationAt, f.notified, f.panels, f.claims, f.control;
    }

    /** Snapshot, apply, save; roll back after a refusal or a failed save. */
    method Observe(legacy: Legacy, u: Update, now: int, scene: Scene, saved: bool) returns (ok: bool)
      modifies this
      ensures State() == F.Observe(old(State()), legacy, u, now, scene, saved)
      ensures ok == (F.Apply(old(State()), legacy, u, now, scene).Applied? && saved)
    {
      var was := present;
      var copy := FollowUps(Allowance(enabled, hostPaused, startedAt, attempts), revision, lastNotificationAt, notified, panels, claims, control);
      var refusal := Apply(legacy, u, now, scene);
      ok := refusal.None? && saved;
      if !ok {
        Restore(copy, was);
      }
    }
  }
}
