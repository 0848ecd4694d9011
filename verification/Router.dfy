/** The room router of the manager (internal/roommanager/router.go).

    A write ends acknowledged, durable but reported as failed, or lost.  A crash
    between two writes is a lost write followed by a restart.
 */
module Router {
  import opened Options

  /** "client:operation". */
  datatype Key = Key(client: string, operation: string)

  datatype PanelKey = PanelKey(client: string, room: string)

  datatype Routing = Routing(
    bindings: map<string, string>,
    creations: map<Key, string>,
    created: set<Key>,
    disabled: map<string, bool>,
    panels: map<PanelKey, bool>)

  datatype Attachment = Attachment(room: string, client: string)

  datatype Memory = Memory(routing: Routing, attachments: map<string, Attachment>)

  datatype Disk = Disk(routing: Routing, rooms: set<string>)

  datatype Write = Written | Reported | Lost

  datatype State = State(memory: Memory, disk: Disk)

  const NO_ROUTES := Routing(map[], map[], {}, map[], map[])

  function Flag<K>(m: map<K, bool>, k: K): bool { k in m && m[k] }

  function Save(s: State, w: Write): State {
    if w == Lost then s else s.(disk := s.disk.(routing := s.memory.routing))
  }

  function WithRouting(s: State, r: Routing): State { s.(memory := s.memory.(routing := r)) }

  function WithAttachments(s: State, a: map<string, Attachment>): State { s.(memory := s.memory.(attachments := a)) }

  // ----- creating a room

  /** The identity the operation maps to, saved before the room is; None if it
      could not be. */
  function Reserve(s: State, key: Key, newId: string, w: Write): (State, Option<string>) {
    var r := s.memory.routing;
    if key in r.creations then (s, Some(r.creations[key]))
    else
      var s' := Save(WithRouting(s, r.(creations := r.creations[key := newId])), w);
      if w == Written then (s', Some(newId)) else (WithRouting(s', r), None)
  }

  datatype Creation = Exists | Deleted | Made

  function Look(s: State, key: Key, id: string): Creation {
    if id in s.disk.rooms then Exists else if key in s.memory.routing.created then Deleted else Made
  }

  /** Save the room unless it exists, or was created and deleted. */
  function Make(s: State, key: Key, id: string, w: Write): (State, bool) {
    match Look(s, key, id)
    case Exists => (s, true)
    case Deleted => (s, false)
    case Made => (if w == Lost then s else s.(disk := s.disk.(rooms := s.disk.rooms + {id})), w == Written)
  }

  /** The receipt stays in memory even if it could not be saved. */
  function Receipt(s: State, key: Key, w: Write): (State, bool) {
    var r := s.memory.routing;
    (Save(WithRouting(s, r.(created := r.created + {key})), w), w == Written)
  }

  datatype Writes = Writes(reserve: Write, room: Write, receipt: Write)

  function Create(s: State, key: Key, newId: string, w: Writes): (State, Option<string>) {
    var (a, id) := Reserve(s, key, newId, w.reserve);
    if id.None? then (a, None)
    else
      var (b, made) := Make(a, key, id.value, w.room);
      if !made then (b, None)
      else
        var (c, ok) := Receipt(b, key, w.receipt);
        (c, if ok then id else None)
  }

  /** The operation saved a new room. */
  predicate Makes(s: State, key: Key, newId: string, w: Writes) {
    var (a, id) := Reserve(s, key, newId, w.reserve);
    id.Some? && Look(a, key, id.value) == Made && w.room != Lost
  }

  // ----- joining

  function Bound(s: State, client: string, room: string): Routing {
    var r, k := s.memory.routing, PanelKey(client, room);
    var panel := if k in r.panels then r.panels[k] else client in r.bindings && r.bindings[client] == room;
    r.(bindings := r.bindings[client := room], panels := r.panels[k := panel])
  }

  /** Every other attachment of the room or of the client ends. */
  function Attach(attachments: map<string, Attachment>, participation: string, room: string, client: string): map<string, Attachment> {
    (map p | p in attachments && (p == participation || (attachments[p].room != room && attachments[p].client != client)) :: attachments[p])
      [participation := Attachment(room, client)]
  }

  /** The room's service accepted the client under a participation identity. */
  function Join(s: State, client: string, room: string, participation: string, w: Write): State {
    var r := s.memory.routing;
    var s' := Save(WithRouting(s, Bound(s, client, room)), w);
    if w != Written then WithRouting(s', Unbound(s, client, room))
    else WithAttachments(s', Attach(s.memory.attachments, participation, room, client))
  }

  /** The rollback of a failed join: the old binding, and no panel entry that was
      not there before.  A client without a binding is left with an empty one. */
  function Unbound(s: State, client: string, room: string): Routing {
    var r, k := s.memory.routing, PanelKey(client, room);
    r.(bindings := r.bindings[client := if client in r.bindings then r.bindings[client] else ""])
  }

  // ----- panels and access

  predicate MayOpenPanel(s: State, a: Attachment, replace: bool) {
    replace || !Flag(s.memory.routing.panels, PanelKey(a.client, a.room))
  }

  function RequestPanel(s: State, a: Attachment, replace: bool, w: Write): (State, bool) {
    var r, k := s.memory.routing, PanelKey(a.client, a.room);
    if !MayOpenPanel(s, a, replace) then (s, false)
    else
      var s' := Save(WithRouting(s, r.(panels := r.panels[k := true])), w);
      if w == Written then (s', true) else (WithRouting(s', r.(panels := r.panels[k := Flag(r.panels, k)])), false)
  }

  function Outside(attachments: map<string, Attachment>, room: string): map<string, Attachment> {
    map p | p in attachments && attachments[p].room != room :: attachments[p]
  }

  function SetRoomEnabled(s: State, room: string, enabled: bool, w: Write): State {
    var r := s.memory.routing;
    var s' := Save(WithRouting(s, r.(disabled := r.disabled[room := !enabled])), w);
    if w != Written then WithRouting(s', r.(disabled := r.disabled[room := Flag(r.disabled, room)]))
    else if enabled then s'
    else WithAttachments(s', Outside(s.memory.attachments, room))
  }

  // ----- runs

  /** `log` are the rooms that creation operations saved, in order. */
  datatype System = System(state: State, log: seq<(Key, string)>)

  datatype Step =
    | CreateStep(key: Key, newId: string, writes: Writes)
    | JoinStep(client: string, room: string, participation: string, write: Write)
    | PanelStep(participation: string, replace: bool, panelWrite: Write)
    | LeaveStep(participation: string)
    | EnableStep(room: string, enabled: bool, enableWrite: Write)
    | Revoke
    | HostRooms(rooms: set<string>)
    | Restart

  const START := System(State(Memory(NO_ROUTES, map[]), Disk(NO_ROUTES, {})), [])

  function After(s: State, step: Step): State {
    match step
    case CreateStep(key, newId, writes) => Create(s, key, newId, writes).0
    case JoinStep(client, room, participation, w) => if Flag(s.memory.routing.disabled, room) then s else Join(s, client, room, participation, w)
    case PanelStep(p, replace, w) =>
      if p in s.memory.attachments && !Flag(s.memory.routing.disabled, s.memory.attachments[p].room) then
        RequestPanel(s, s.memory.attachments[p], replace, w).0
      else s
    case LeaveStep(p) => WithAttachments(s, s.memory.attachments - {p})
    case EnableStep(room, enabled, w) => SetRoomEnabled(s, room, enabled, w)
    case Revoke => WithAttachments(s, map[])
    case HostRooms(rooms) => s.(disk := s.disk.(rooms := rooms))
    case Restart => State(Memory(s.disk.routing, map[]), s.disk)
  }

  function Next(s: System, step: Step): System {
    var s' := After(s.state, step);
    System(s', if step.CreateStep? && Makes(s.state, step.key, step.newId, step.writes) && step.key in s'.memory.routing.creations
               then s.log + [(step.key, s'.memory.routing.creations[step.key])] else s.log)
  }

  function Exec(s: System, run: seq<Step>): System
    decreases |run|
  {
    if run == [] then s else Exec(Next(s, run[0]), run[1..])
  }
}
