/** The router's state as it is updated in place (internal/roommanager/router.go). */
module SharedRouter {
  import opened Options
  import opened R = Router

  class Manager {
    var bindings: map<string, string>
    var creations: map<Key, string>
    var created: set<Key>
    var disabled: map<string, bool>
    var panels: map<PanelKey, bool>
    var attachments: map<string, Attachment>
    /** The saved routing file, and the room directories. */
    var saved: Routing
    var rooms: set<string>

    ghost function View(): State
      reads this
    {
      State(Memory(Routing(bindings, creations, created, disabled, panels), attachments), Disk(saved, rooms))
    }

    constructor (file: Routing, rooms: set<string>)
      ensures View() == State(Memory(file, map[]), Disk(file, rooms))
    {
      bindings, creations, created, disabled, panels := file.bindings, file.creations, file.created, file.disabled, file.panels;
      attachments, saved, this.rooms := map[], file, rooms;
    }

    method Save(w: Write) returns (ok: bool)
      modifies this`saved
      ensures View() == R.Save(old(View()), w) && ok == (w == Written)
    {
      if w != Lost {
        saved := Routing(bindings, creations, created, disabled, panels);
      }
      ok := w == Written;
    }

    method Reserve(key: Key, newId: string, w: Write) returns (id: Option<string>)
      modifies this`creations, this`saved
      ensures (View(), id) == R.Reserve(old(View()), key, newId, w)
    {
      if key in creations {
        return Some(creations[key]);
      }
      creations := creations[key := newId];
      var ok := Save(w);
      if ok {
        return Some(newId);
      }
      creations := creations - {key};
      assert creations == old(creations);
      id := None;
    }

    method MakeRoom(key: Key, id: string, w: Write) returns (ok: bool)
      modifies this`rooms
      ensures (View(), ok) == Make(old(View()), key, id, w)
    {
      if id in rooms {
        return true;
      }
      if key in created {
        return false;
      }
      if w != Lost {
        rooms := rooms + {id};
      }
      ok := w == Written;
    }

    /** A creation operation: reserve an identity, save the room, keep a receipt. */
    method CreateRoom(key: Key, newId: string, w: Writes) returns (id: Option<string>)
      modifies this`creations, this`created, this`rooms, this`saved
      ensures (View(), id) == Create(old(View()), key, newId, w)
    {
      id := Reserve(key, newId, w.reserve);
      if id.None? {
        return;
      }
      var made := MakeRoom(key, id.value, w.room);
      if !made {
        return None;
      }
      created := created + {key};
      var ok := Save(w.receipt);
      if !ok {
        id := None;
      }
    }

    /** End every other attachment of the room or of the client. */
    method DetachOthers(participation: string, room: string, client: string)
      modifies this`attachments
      ensures attachments == map p | p in old(attachments) &&
        (p == participation || (old(attachments)[p].room != room && old(attachments)[p].client != client)) :: old(attachments)[p]
    {
      var todo := attachments.Keys;
      ghost var was := attachments;
      while todo != {}
        invariant todo <= was.Keys
        invariant forall p :: p in attachments <==>
          p in was && (p in todo || p == participation || (was[p].room != room && was[p].client != client))
        invariant forall p :: p in attachments ==> attachments[p] == was[p]
        decreases |todo|
      {
        var p :| p in todo;
        var a := attachments[p];
        if (a.client == client || a.room == room) && p != participation {
          attachments := attachments - {p};
        }
        todo := todo - {p};
      }
    }

    /** The client joins the room under a participation of the room's service. */
    method JoinRoom(client: string, room: string, participation: string, w: Write) returns (ok: bool)
      modifies this`bindings, this`panels, this`attachments, this`saved
      ensures View() == Join(old(View()), client, room, participation, w) && ok == (w == Written)
    {
      var key := PanelKey(client, room);
      var tracked := key in panels;
      var panel := tracked && panels[key];
      if !tracked && client in bindings && bindings[client] == room {
        panel := true;
      }
      var before := if client in bindings then bindings[client] else "";
      bindings, panels := bindings[client := room], panels[key := panel];
      assert View() == WithRouting(old(View()), Bound(old(View()), client, room));
      ok := Save(w);
      if !ok {
        bindings := bindings[client := before];
        if !tracked {
          panels := panels - {key};
        }
        assert panels == old(panels);
        assert bindings == old(bindings)[client := before];
        return;
      }
      DetachOthers(participation, room, client);
      attachments := attachments[participation := Attachment(room, client)];
    }

    method OpenPanel(a: Attachment, replace: bool, w: Write) returns (ok: bool)
      modifies this`panels, this`saved
      ensures (View(), ok) == RequestPanel(old(View()), a, replace, w)
    {
      var key := PanelKey(a.client, a.room);
      var previous := key in panels && panels[key];
      if previous && !replace {
        return false;
      }
      panels := panels[key := true];
      ok := Save(w);
      if !ok {
        panels := panels[key := previous];
        assert panels == old(panels)[key := previous];
      }
    }

    method DetachRoom(room: string)
      modifies this`attachments
      ensures attachments == Outside(old(attachments), room)
    {
      var todo := attachments.Keys;
      ghost var was := attachments;
      while todo != {}
        invariant todo <= was.Keys
        invariant forall p :: p in attachments <==> p in was && (p in todo || was[p].room != room)
        invariant forall p :: p in attachments ==> attachments[p] == was[p]
        decreases |todo|
      {
        var p :| p in todo;
        if attachments[p].room == room {
          attachments := attachments - {p};
        }
        todo := todo - {p};
      }
    }

    method SetRoomEnabled(room: string, enabled: bool, w: Write) returns (ok: bool)
      modifies this`disabled, this`attachments, this`saved
      ensures View() == R.SetRoomEnabled(old(View()), room, enabled, w) && ok == (w == Written)
    {
      var before := room in disabled && disabled[room];
      disabled := disabled[room := !enabled];
      ok := Save(w);
      if !ok {
        disabled := disabled[room := before];
        assert disabled == old(disabled)[room := before];
        return;
      }
      if !enabled {
        DetachRoom(room);
      }
    }
  }
}
