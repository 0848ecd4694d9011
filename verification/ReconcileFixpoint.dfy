/** Reconciling twice: the second reconciliation finds nothing to do. */
module ReconcileFixpoint {
  import opened Options
  import opened Rooms
  import opened Continuations
  import opened Handoffs
  import opened ReconcileEvents

  // ----- accepting dispatches twice

  predicate Names(m: Message, run: string, start: nat, room: Room) {
    Counts(m, start) && Accepted(m, run, room) && m.dispatch.value.handoff.Some?
  }

  /** The handoff that the dispatch names is accounted for. */
  predicate Accounted(hs: seq<Handoff>, id: ResultId) {
    var i := FindHandoff(hs, id); i < |hs| && !Answerable(hs[i])
  }

  ghost predicate AllAccounted(hs: seq<Handoff>, messages: seq<Message>, run: string, start: nat, room: Room) {
    forall k :: 0 <= k < |messages| && Names(messages[k], run, start, room) ==> Accounted(hs, messages[k].dispatch.value.handoff.value)
  }

  /** Every accepted dispatch names a handoff that exists. */
  ghost predicate AllNamed(hs: seq<Handoff>, messages: seq<Message>, run: string, start: nat, room: Room) {
    forall k :: 0 <= k < |messages| && Names(messages[k], run, start, room) ==>
      FindHandoff(hs, messages[k].dispatch.value.handoff.value) < |hs|
  }

  predicate Closes(a: Handoff, b: Handoff) { b.id == a.id && (Answerable(b) ==> Answerable(a)) }

  /** The same handoffs, none reopened, and perhaps new ones behind them. */
  ghost predicate Extends(a: seq<Handoff>, b: seq<Handoff>) {
    |a| <= |b| && forall i :: 0 <= i < |a| ==> Closes(a[i], b[i])
  }

  lemma FindExtends(a: seq<Handoff>, b: seq<Handoff>, id: ResultId)
    requires Extends(a, b) && FindHandoff(a, id) < |a|
    ensures FindHandoff(b, id) == FindHandoff(a, id)
    ensures Accounted(a, id) ==> Accounted(b, id)
  {
    var i, j := FindHandoff(a, id), FindHandoff(b, id);
    assert Closes(a[i], b[i]);
    assert j < |a| ==> Closes(a[j], b[j]);
  }

  lemma {:induction false} AcceptAllExtends(hs: seq<Handoff>, messages: seq<Message>, run: string, start: nat, room: Room)
    ensures Extends(hs, AcceptAll(hs, messages, run, start, room))
    decreases |messages|
  {
    if messages != [] {
      var h := if Counts(messages[0], start) && Accepted(messages[0], run, room) then AcceptHandoff(hs, messages[0]) else hs;
      assert Extends(hs, h);
      AcceptAllExtends(h, messages[1..], run, start, room);
    }
  }

  lemma FirstAccounted(hs: seq<Handoff>, m: Message)
    requires m.dispatch.Some? && m.dispatch.value.handoff.Some? && FindHandoff(hs, m.dispatch.value.handoff.value) < |hs|
    ensures Accounted(AcceptHandoff(hs, m), m.dispatch.value.handoff.value)
    ensures Extends(hs, AcceptHandoff(hs, m))
  {
    assert Extends(hs, AcceptHandoff(hs, m));
    FindExtends(hs, AcceptHandoff(hs, m), m.dispatch.value.handoff.value);
  }

  lemma {:induction false} AcceptAllAnswers(hs: seq<Handoff>, messages: seq<Message>, run: string, start: nat, room: Room)
    requires AllNamed(hs, messages, run, start, room)
    ensures AllAccounted(AcceptAll(hs, messages, run, start, room), messages, run, start, room)
    decreases |messages|
  {
    if messages != [] {
      var m := messages[0];
      var h := if Counts(m, start) && Accepted(m, run, room) then AcceptHandoff(hs, m) else hs;
      assert Extends(hs, h);
      forall k | 0 <= k < |messages[1..]| && Names(messages[1..][k], run, start, room)
        ensures FindHandoff(h, messages[1..][k].dispatch.value.handoff.value) < |h|
      {
        assert messages[1..][k] == messages[k + 1];
        FindExtends(hs, h, messages[k + 1].dispatch.value.handoff.value);
      }
      AcceptAllAnswers(h, messages[1..], run, start, room);
      AcceptAllExtends(h, messages[1..], run, start, room);
      var r := AcceptAll(h, messages[1..], run, start, room);
      if Names(m, run, start, room) {
        FirstAccounted(hs, m);
        FindExtends(h, r, m.dispatch.value.handoff.value);
      }
      forall k | 0 <= k < |messages| && Names(messages[k], run, start, room)
        ensures Accounted(r, messages[k].dispatch.value.handoff.value)
      {
        if k > 0 {
          assert messages[1..][k - 1] == messages[k];
        }
      }
    }
  }

  lemma {:induction false} AcceptNothing(hs: seq<Handoff>, messages: seq<Message>, run: string, start: nat, room: Room)
    requires AllAccounted(hs, messages, run, start, room)
    ensures AcceptAll(hs, messages, run, start, room) == hs
    decreases |messages|
  {
    if messages != [] {
      forall k | 0 <= k < |messages[1..]| && Names(messages[1..][k], run, start, room)
        ensures Accounted(hs, messages[1..][k].dispatch.value.handoff.value)
      {
        assert messages[1..][k] == messages[k + 1];
      }
      assert Names(messages[0], run, start, room) ==> Accounted(hs, messages[0].dispatch.value.handoff.value);
      AcceptNothing(hs, messages[1..], run, start, room);
    }
  }

  // ----- registering reviews twice

  predicate Requests(m: Message, run: string, start: nat, room: Room) {
    Counts(m, start) && Accepted(m, run, room) && m.dispatch.value.spec.Some?
  }

  ghost predicate AllRegistered(reviews: seq<Continuation>, messages: seq<Message>, run: string, start: nat, room: Room) {
    forall k :: 0 <= k < |messages| && Requests(messages[k], run, start, room) ==> Find(reviews, messages[k].workflow) < |reviews|
  }

  lemma RegisterKeeps(reviews: seq<Continuation>, m: Message, w: string)
    requires Find(reviews, w) < |reviews|
    ensures Find(Register(reviews, m), w) < |Register(reviews, m)|
  {
    assert Register(reviews, m)[Find(reviews, w)] == reviews[Find(reviews, w)];
  }

  lemma {:induction false} RegisterAllKeeps(reviews: seq<Continuation>, messages: seq<Message>, run: string, start: nat, room: Room, w: string)
    requires Find(reviews, w) < |reviews|
    ensures Find(RegisterAll(reviews, messages, run, start, room), w) < |RegisterAll(reviews, messages, run, start, room)|
    decreases |messages|
  {
    if messages != [] {
      var r := if Counts(messages[0], start) && Accepted(messages[0], run, room) then Register(reviews, messages[0]) else reviews;
      RegisterKeeps(reviews, messages[0], w);
      RegisterAllKeeps(r, messages[1..], run, start, room, w);
    }
  }

  lemma RegisterFinds(reviews: seq<Continuation>, m: Message)
    requires m.dispatch.Some? && m.dispatch.value.spec.Some?
    ensures Find(Register(reviews, m), m.workflow) < |Register(reviews, m)|
  {
    var r := Register(reviews, m);
    if r != reviews {
      assert r[|reviews|].workflow == m.workflow;
    }
  }

  lemma {:induction false} RegisterAllFinds(reviews: seq<Continuation>, messages: seq<Message>, run: string, start: nat, room: Room)
    ensures AllRegistered(RegisterAll(reviews, messages, run, start, room), messages, run, start, room)
    decreases |messages|
  {
    if messages != [] {
      var m := messages[0];
      var r := if Counts(m, start) && Accepted(m, run, room) then Register(reviews, m) else reviews;
      RegisterAllFinds(r, messages[1..], run, start, room);
      var all := RegisterAll(r, messages[1..], run, start, room);
      if Requests(m, run, start, room) {
        RegisterFinds(reviews, m);
        RegisterAllKeeps(r, messages[1..], run, start, room, m.workflow);
      }
      forall k | 0 <= k < |messages| && Requests(messages[k], run, start, room)
        ensures Find(all, messages[k].workflow) < |all|
      {
        if k > 0 {
          assert messages[1..][k - 1] == messages[k];
        }
      }
    }
  }

  lemma {:induction false} RegisterNothing(reviews: seq<Continuation>, messages: seq<Message>, run: string, start: nat, room: Room)
    requires AllRegistered(reviews, messages, run, start, room)
    ensures RegisterAll(reviews, messages, run, start, room) == reviews
    decreases |messages|
  {
    if messages != [] {
      forall k | 0 <= k < |messages[1..]| && Requests(messages[1..][k], run, start, room)
        ensures Find(reviews, messages[1..][k].workflow) < |reviews|
      {
        assert messages[1..][k] == messages[k + 1];
      }
      assert Requests(messages[0], run, start, room) ==> Find(reviews, messages[0].workflow) < |reviews|;
      RegisterNothing(reviews, messages[1..], run, start, room);
    }
  }

  // ----- waiting for active work twice

  predicate Awaits(h: Handoff, id: string) { IsOpen(h) && h.id.base == Work(id) ==> h.wait.target == id }

  /** Every open handoff of work that goes on waits for it. */
  ghost predicate AwaitDone(hs: seq<Handoff>, room: Room, start: nat) {
    forall id, i :: id in room.order && Underway(room, start, id) && 0 <= i < |hs| ==> Awaits(hs[i], id)
  }

  lemma {:induction false} AwaitAllOne(hs: seq<Handoff>, order: seq<string>, room: Room, start: nat, i: nat)
    requires i < |hs|
    ensures var r := AwaitAll(hs, order, room, start);
      |r| == |hs| && r[i].id == hs[i].id && r[i].disposition == hs[i].disposition && r[i].facts == hs[i].facts
    ensures forall id :: id in order && Underway(room, start, id) ==> Awaits(AwaitAll(hs, order, room, start)[i], id)
    ensures (forall id :: id in order && Underway(room, start, id) ==> Await(hs[i], id) == hs[i]) ==> AwaitAll(hs, order, room, start)[i] == hs[i]
    decreases |order|
  {
    if order != [] {
      var h := if Underway(room, start, order[0]) then AwaitEach(hs, order[0]) else hs;
      AwaitAllOne(h, order[1..], room, start, i);
      var r := AwaitAll(h, order[1..], room, start);
      forall id | id in order && Underway(room, start, id)
        ensures Awaits(r[i], id)
      {
        if id == order[0] && id !in order[1..] {
          AwaitKept(h, order[1..], room, start, i, id);
        }
      }
      if forall id :: id in order && Underway(room, start, id) ==> Await(hs[i], id) == hs[i] {
        assert h[i] == hs[i] by {
          assert order[0] in order;
        }
        assert forall id :: id in order[1..] ==> id in order;
      }
    }
  }

  lemma {:induction false} AwaitKept(hs: seq<Handoff>, order: seq<string>, room: Room, start: nat, i: nat, id: string)
    requires i < |hs| && Awaits(hs[i], id)
    ensures i < |AwaitAll(hs, order, room, start)| && Awaits(AwaitAll(hs, order, room, start)[i], id)
    decreases |order|
  {
    if order != [] {
      var h := if Underway(room, start, order[0]) then AwaitEach(hs, order[0]) else hs;
      AwaitKept(h, order[1..], room, start, i, id);
    }
  }

  lemma {:induction false} AwaitLength(hs: seq<Handoff>, order: seq<string>, room: Room, start: nat)
    ensures |AwaitAll(hs, order, room, start)| == |hs|
    decreases |order|
  {
    if order != [] {
      AwaitLength(if Underway(room, start, order[0]) then AwaitEach(hs, order[0]) else hs, order[1..], room, start);
    }
  }

  lemma AwaitAllDone(hs: seq<Handoff>, room: Room, start: nat)
    ensures AwaitDone(AwaitAll(hs, room.order, room, start), room, start)
    ensures Extends(hs, AwaitAll(hs, room.order, room, start))
  {
    var r := AwaitAll(hs, room.order, room, start);
    AwaitLength(hs, room.order, room, start);
    forall i | 0 <= i < |hs|
      ensures Closes(hs[i], r[i]) && forall id :: id in room.order && Underway(room, start, id) ==> Awaits(r[i], id)
    {
      AwaitAllOne(hs, room.order, room, start, i);
    }
  }

  lemma AwaitNothing(hs: seq<Handoff>, room: Room, order: seq<string>, start: nat)
    requires AwaitDone(hs, room, start) && forall id :: id in order ==> id in room.order
    ensures AwaitAll(hs, order, room.(order := order), start) == hs
  {
    var room' := room.(order := order);
    var r := AwaitAll(hs, order, room', start);
    AwaitLength(hs, order, room', start);
    forall i | 0 <= i < |hs|
      ensures r[i] == hs[i]
    {
      forall id | id in order && Underway(room', start, id)
        ensures Await(hs[i], id) == hs[i]
      {
        assert Underway(room, start, id);
      }
      AwaitAllOne(hs, order, room', start, i);
    }
  }
}
