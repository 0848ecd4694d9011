/** Attachments, creation operations and panel requests over any run. */
module RouterTheorems {
  import opened Options
  import opened Router

  // ----- attachments

  ghost predicate Unique(a: map<string, Attachment>) {
    forall p, q :: p in a && q in a && p != q ==> a[p].room != a[q].room && a[p].client != a[q].client
  }

  lemma AttachUnique(a: map<string, Attachment>, p: string, room: string, client: string)
    requires Unique(a)
    ensures Unique(Attach(a, p, room, client))
  {
  }

  lemma StepUnique(s: State, step: Step)
    requires Unique(s.memory.attachments)
    ensures Unique(After(s, step).memory.attachments)
  {
    match step
    case JoinStep(client, room, participation, w) => AttachUnique(s.memory.attachments, participation, room, client);
    case CreateStep(key, newId, writes) =>
    case PanelStep(p, replace, w) =>
    case LeaveStep(p) =>
    case EnableStep(room, enabled, w) =>
    case Revoke =>
    case HostRooms(rooms) =>
    case Restart =>
  }

  lemma {:induction false} RunUnique(s: System, run: seq<Step>)
    requires Unique(s.state.memory.attachments)
    ensures Unique(Exec(s, run).state.memory.attachments)
    decreases |run|
  {
    if run != [] {
      StepUnique(s.state, run[0]);
      RunUnique(Next(s, run[0]), run[1..]);
    }
  }

  /** After any run, no two attachments share a room or a client. */
  lemma AttachmentsUnique(run: seq<Step>, p: string, q: string)
    requires var a := Exec(START, run).state.memory.attachments; p in a && q in a && p != q
    ensures var a := Exec(START, run).state.memory.attachments; a[p].room != a[q].room && a[p].client != a[q].client
  {
    RunUnique(START, run);
  }

  // ----- one room for each creation operation

  /** Every logged room is where its operation maps, in memory and on disk. */
  ghost predicate Mapped(s: System) {
    forall i :: 0 <= i < |s.log| ==>
      && Get(s.state.memory.routing.creations, s.log[i].0) == Some(s.log[i].1)
      && Get(s.state.disk.routing.creations, s.log[i].0) == Some(s.log[i].1)
  }

  /** The step keeps where an operation maps, in memory and on disk. */
  predicate KeepsMap(s: State, s': State, key: Key) {
    var was := Get(s.memory.routing.creations, key);
    was.Some? && Get(s.disk.routing.creations, key) == was ==>
      Get(s'.memory.routing.creations, key) == was && Get(s'.disk.routing.creations, key) == was
  }

  lemma CreateKeeps(s: State, key: Key, newId: string, w: Writes, k: Key)
    ensures KeepsMap(s, Create(s, key, newId, w).0, k)
  {
  }

  lemma StepKeeps(s: State, step: Step, k: Key)
    ensures KeepsMap(s, After(s, step), k)
  {
    match step
    case CreateStep(key, newId, writes) => CreateKeeps(s, key, newId, writes, k);
    case JoinStep(client, room, participation, w) =>
    case PanelStep(p, replace, w) =>
    case LeaveStep(p) =>
    case EnableStep(room, enabled, w) =>
    case Revoke =>
    case HostRooms(rooms) =>
    case Restart =>
  }

  /** What memory says of an operation is on disk: reserved there before any room
      is saved for it. */
  ghost predicate Durable(s: State) {
    forall key :: key in s.memory.routing.creations ==> Get(s.disk.routing.creations, key) == Get(s.memory.routing.creations, key)
  }

  ghost predicate Settled(s: State, key: Key) {
    key in s.memory.routing.creations && Get(s.disk.routing.creations, key) == Get(s.memory.routing.creations, key)
  }

  lemma StepDurable(s: State, step: Step)
    requires Durable(s)
    ensures Durable(After(s, step))
  {
    var s' := After(s, step);
    forall key | key in s'.memory.routing.creations
      ensures Get(s'.disk.routing.creations, key) == Get(s'.memory.routing.creations, key)
    {
      if key in s.memory.routing.creations {
        StepKeeps(s, step, key);
      }
    }
  }

  lemma StepMapped(s: System, step: Step)
    requires Mapped(s) && Durable(s.state)
    ensures Mapped(Next(s, step)) && Durable(Next(s, step).state)
  {
    var s' := Next(s, step);
    StepDurable(s.state, step);
    forall i | 0 <= i < |s'.log|
      ensures Get(s'.state.memory.routing.creations, s'.log[i].0) == Some(s'.log[i].1)
      ensures Get(s'.state.disk.routing.creations, s'.log[i].0) == Some(s'.log[i].1)
    {
      if i < |s.log| {
        assert s'.log[i] == s.log[i];
        StepKeeps(s.state, step, s.log[i].0);
      }
    }
  }

  lemma {:induction false} RunMapped(s: System, run: seq<Step>)
    requires Mapped(s) && Durable(s.state)
    ensures Mapped(Exec(s, run)) && Durable(Exec(s, run).state)
    decreases |run|
  {
    if run != [] {
      StepMapped(s, run[0]);
      RunMapped(Next(s, run[0]), run[1..]);
    }
  }

  /** Across retries, failed writes, crashes and restarts, one creation operation
      saves rooms under one identity only. */
  lemma OneRoomPerOperation(run: seq<Step>, i: nat, j: nat)
    requires var log := Exec(START, run).log; i < |log| && j < |log| && log[i].0 == log[j].0
    ensures var log := Exec(START, run).log; log[i].1 == log[j].1
  {
    RunMapped(START, run);
  }

  // ----- a deleted room is not recreated

  /** The operation's receipt is durable. */
  predicate Received(s: State, key: Key) { key in s.disk.routing.created && key in s.memory.routing.created }

  lemma StepReceived(s: State, step: Step, key: Key)
    requires Received(s, key)
    ensures Received(After(s, step), key)
  {
  }

  lemma {:induction false} RunReceived(s: System, run: seq<Step>, key: Key)
    requires Received(s.state, key)
    ensures |s.log| <= |Exec(s, run).log|
    ensures forall i :: |s.log| <= i < |Exec(s, run).log| ==> Exec(s, run).log[i].0 != key
    ensures Exec(s, run).log[..|s.log|] == s.log
    decreases |run|
  {
    if run != [] {
      var s' := Next(s, run[0]);
      StepReceived(s.state, run[0], key);
      RunReceived(s', run[1..], key);
    }
  }

  /** Memory never forgets a receipt that is on disk. */
  ghost predicate Acknowledged(s: State) { s.disk.routing.created <= s.memory.routing.created }

  lemma CreateAcknowledged(s: State, key: Key, newId: string, w: Writes)
    requires Acknowledged(s)
    ensures Acknowledged(Create(s, key, newId, w).0)
  {
  }

  lemma StepAcknowledged(s: State, step: Step)
    requires Acknowledged(s)
    ensures Acknowledged(After(s, step))
  {
    match step
    case CreateStep(key, newId, writes) => CreateAcknowledged(s, key, newId, writes);
    case JoinStep(client, room, participation, w) =>
    case PanelStep(p, replace, w) =>
    case LeaveStep(p) =>
    case EnableStep(room, enabled, w) =>
    case Revoke =>
    case HostRooms(rooms) =>
    case Restart =>
  }

  lemma {:induction false} RunAcknowledged(s: System, run: seq<Step>)
    requires Acknowledged(s.state)
    ensures Acknowledged(Exec(s, run).state)
    decreases |run|
  {
    if run != [] {
      StepAcknowledged(s.state, run[0]);
      RunAcknowledged(Next(s, run[0]), run[1..]);
    }
  }

  /** Once the receipt of an operation is on disk, the operation saves no room any
      more, whatever the host deletes and however often it is retried. */
  lemma NeverRecreated(before: seq<Step>, after: seq<Step>, key: Key, i: nat)
    requires key in Exec(START, before).state.disk.routing.created
    requires |Exec(START, before).log| <= i < |Exec(Exec(START, before), after).log|
    ensures Exec(Exec(START, before), after).log[i].0 != key
  {
    RunAcknowledged(START, before);
    RunReceived(Exec(START, before), after, key);
  }

  // ----- a requested panel is not opened again

  predicate Requested(s: State, k: PanelKey) { Flag(s.memory.routing.panels, k) && Flag(s.disk.routing.panels, k) }

  lemma CreateRequested(s: State, key: Key, newId: string, w: Writes, k: PanelKey)
    requires Requested(s, k)
    ensures Requested(Create(s, key, newId, w).0, k)
  {
  }

  lemma StepRequested(s: State, step: Step, k: PanelKey)
    requires Requested(s, k)
    ensures Requested(After(s, step), k)
  {
    match step
    case CreateStep(key, newId, writes) => CreateRequested(s, key, newId, writes, k);
    case JoinStep(client, room, participation, w) =>
    case PanelStep(p, replace, w) =>
    case LeaveStep(p) =>
    case EnableStep(room, enabled, w) =>
    case Revoke =>
    case HostRooms(rooms) =>
    case Restart =>
  }

  lemma {:induction false} RunRequested(s: System, run: seq<Step>, k: PanelKey)
    requires Requested(s.state, k)
    ensures Requested(Exec(s, run).state, k)
    decreases |run|
  {
    if run != [] {
      StepRequested(s.state, run[0], k);
      RunRequested(Next(s, run[0]), run[1..], k);
    }
  }

  /** After an acknowledged panel request, every later one for the same client and
      room needs an explicit replacement, over rejoins, failures and restarts. */
  lemma PanelOnce(s: System, a: Attachment, replace: bool, w: Write, run: seq<Step>)
    requires RequestPanel(s.state, a, replace, w).1
    ensures !MayOpenPanel(Exec(s.(state := RequestPanel(s.state, a, replace, w).0), run).state, a, false)
  {
    var s' := s.(state := RequestPanel(s.state, a, replace, w).0);
    RunRequested(s', run, PanelKey(a.client, a.room));
  }
}
