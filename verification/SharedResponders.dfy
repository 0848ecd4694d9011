/** The responder scheduler as it updates its maps (internal/room/conversations.go). */
module SharedResponders {
  import opened Options
  import opened Participants
  import opened R = Responders
  import opened ResponderTheorems

  class Desk {
    var temporary: map<string, string>
    var agents: set<string>

    ghost function View(): Roster
      reads this
    {
      Roster(temporary, agents)
    }

    constructor ()
      ensures View() == Roster(map[], {})
    {
      temporary, agents := map[], {};
    }

    static method UsedProviders(job: Job) returns (used: set<string>)
      ensures used == Used(job.attempts, job.window)
    {
      used := {};
      var i := 0;
      while i < |job.attempts|
        invariant i <= |job.attempts|
        invariant used == set k | 0 <= k < i && job.attempts[k].window == job.window :: job.attempts[k].provider
      {
        if job.attempts[i].window == job.window {
          used := used + {job.attempts[i].provider};
        }
        i := i + 1;
      }
    }

    static method FirstEligible(ps: seq<string>, used: set<string>, v: View, admits: string -> bool) returns (p: Option<string>)
      ensures p == First(ps, used, v, admits)
    {
      var i := 0;
      while i < |ps|
        invariant i <= |ps| && First(ps, used, v, admits) == First(ps[i..], used, v, admits)
      {
        if admits(ps[i]) && Provider(ps[i]) !in used && ps[i] in v.eligible {
          return Some(ps[i]);
        }
        i := i + 1;
      }
      p := None;
    }

    /** The search for a free identity.  It ends because the agents are finite and
        the names of different indices differ. */
    method NextTemporaryParticipant(provider: string) returns (p: string)
      ensures p == NextTemporary(provider, agents)
    {
      var index := 1;
      ghost var names := agents;
      while AuxiliaryName(provider, index) in agents
        invariant index >= 1 && names <= agents
        invariant forall j: nat :: j >= index && AuxiliaryName(provider, j) in agents ==> AuxiliaryName(provider, j) in names
        invariant NextFrom(provider, agents, 1) == NextFrom(provider, names, index)
        decreases |names|
      {
        ghost var name := AuxiliaryName(provider, index);
        forall j: nat | j >= index + 1 && AuxiliaryName(provider, j) in agents
          ensures AuxiliaryName(provider, j) in names - {name}
        {
          if AuxiliaryName(provider, j) == name {
            NameInjective(provider, j, index);
          }
        }
        assert name in names;
        names := names - {name};
        index := index + 1;
      }
      assert AuxiliaryName(provider, index) !in names;
      p := AuxiliaryName(provider, index);
    }

    method ProviderHasTemporary(provider: string) returns (has: bool)
      ensures has == HasTemporary(temporary, provider)
    {
      var todo := temporary.Keys;
      while todo != {}
        invariant todo <= temporary.Keys
        invariant forall p :: p in temporary && p !in todo ==> Provider(p) != provider
        decreases |todo|
      {
        var p :| p in todo;
        if Provider(p) == provider {
          return true;
        }
        todo := todo - {p};
      }
      has := false;
    }

    method CreatableProvider(used: set<string>, v: View) returns (p: Option<string>)
      ensures p == NewProvider(v.factory, used, View(), v)
    {
      var i := 0;
      while i < |v.factory|
        invariant i <= |v.factory| && NewProvider(v.factory, used, View(), v) == NewProvider(v.factory[i..], used, View(), v)
      {
        var provider := v.factory[i];
        var has := ProviderHasTemporary(provider);
        if IsPrimary(provider) && provider !in used && !has && provider in v.eligible {
          var name := NextTemporaryParticipant(provider);
          if name in v.creatable {
            return Some(provider);
          }
        }
        i := i + 1;
      }
      p := None;
    }

    method ChoosePresent(job: Job, used: set<string>, v: View) returns (p: Option<string>)
      ensures p == Present(job, used, v)
    {
      p := FirstEligible(v.participants, used, v, Auxiliaries());
      if p.None? {
        p := FirstEligible(v.participants, used, v, NotCore(v.cores));
      }
      if p.None? && !v.working {
        p := FirstEligible(v.participants, used, v, Anyone());
      }
    }

    method SelectConversationResponder(job: Job, v: View) returns (c: Choice)
      ensures c == Select(job, View(), v)
    {
      var used := UsedProviders(job);
      var requested := FirstEligible(job.requested, used, v, Anyone());
      if requested.Some? {
        return Someone(requested.value);
      }
      if job.external {
        return Nobody;
      }
      var present := ChoosePresent(job, used, v);
      if present.Some? {
        return Someone(present.value);
      }
      if v.limit <= 0 || |temporary| >= v.limit {
        return Nobody;
      }
      var p := CreatableProvider(used, v);
      c := if p.Some? then Temporary(p.value) else Nobody;
    }

    static method AttemptCount(attempts: seq<Attempt>, window: int) returns (n: nat)
      ensures n == WindowCount(attempts, window)
    {
      n := 0;
      var i := 0;
      while i < |attempts|
        invariant i <= |attempts| && WindowCount(attempts, window) == n + WindowCount(attempts[i..], window)
      {
        if attempts[i].window == window {
          n := n + 1;
        }
        i := i + 1;
      }
    }

    static method AssignJob(job: Job, p: string, temporary: bool) returns (j: Job)
      ensures j == Assign(job, p, temporary)
    {
      var attempts := job.attempts + [Attempt(p, Provider(p), job.window, false)];
      var n := AttemptCount(attempts, job.window);
      j := job.(attempts := attempts, responder := p, temporary := temporary, state := if n == 1 then Answering else Retrying);
    }

    /** One job of the scheduler's loop. */
    method ScheduleOne(id: string, job: Job, v: View) returns (j: Job)
      modifies this
      ensures (j, View()) == Schedule(id, job, old(View()), v)
    {
      j := job;
      if job.state != Finding && job.state != Waiting {
        return;
      }
      var c := SelectConversationResponder(job, v);
      match c
      case Nobody => j := job.(state := Waiting);
      case Someone(p) =>
        if ValidAgent(p) {
          j := AssignJob(job, p, p in temporary && temporary[p] == id);
        } else {
          j := job.(state := Waiting);
        }
      case Temporary(provider) =>
        var p := NextTemporaryParticipant(provider);
        agents := agents + {p};
        temporary := temporary[p := id];
        if ValidAgent(p) {
          j := AssignJob(job, p, true);
        } else {
          j := job.(state := Waiting);
        }
    }

    /** The responder goes, and its conversation is told. */
    method RetireTemporary(p: string, job: Job) returns (j: Job)
      modifies this
      ensures View() == Retire(old(View()), p) && j == WithoutTemporary(job, p)
    {
      temporary := temporary - {p};
      agents := agents - {p};
      j := job;
      if j.responder == p {
        j := j.(responder := "");
      }
      j := j.(temporary := false);
    }
  }
}
