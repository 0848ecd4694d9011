/** The events of one reconciliation: sorted by time, one result for each job. */
module ReconcileEvents {
  import opened Options
  import opened Rooms
  import opened Continuations
  import opened Handoffs

  predicate Clash(x: Event, y: Event) { x.result.Some? && y.result.Some? && x.result.value.base == y.result.value.base }

  ghost predicate Apart(e: Event, events: seq<Event>) { forall x :: x in events ==> !Clash(e, x) }

  /** No two results of one job. */
  ghost predicate Unique(events: seq<Event>) {
    events == [] || (Apart(events[0], events[1..]) && Unique(events[1..]))
  }

  ghost predicate Sorted(events: seq<Event>) { forall i, j :: 0 <= i < j < |events| ==> events[i].at <= events[j].at }

  lemma {:induction false} InsertIs(e: Event, s: seq<Event>)
    ensures forall x :: x in InsertByTime(e, s) <==> x == e || x in s
    ensures |InsertByTime(e, s)| == |s| + 1
    decreases |s|
  {
    if s != [] && e.at > s[0].at {
      InsertIs(e, s[1..]);
      var r := InsertByTime(e, s[1..]);
      assert s == [s[0]] + s[1..];
      assert InsertByTime(e, s) == [s[0]] + r;
    } else {
      assert InsertByTime(e, s) == [e] + s;
    }
  }

  lemma {:induction false} InsertUnique(e: Event, s: seq<Event>)
    requires Unique(s) && Apart(e, s)
    ensures Unique(InsertByTime(e, s))
    decreases |s|
  {
    if s != [] && e.at > s[0].at {
      var r := InsertByTime(e, s[1..]);
      InsertUnique(e, s[1..]);
      InsertIs(e, s[1..]);
      var all := [s[0]] + r;
      assert all[1..] == r;
      assert s[0] in s;
    } else {
      var all := [e] + s;
      assert all[1..] == s;
    }
  }

  lemma {:induction false} InsertSorted(e: Event, s: seq<Event>)
    requires Sorted(s)
    ensures Sorted(InsertByTime(e, s))
    decreases |s|
  {
    if s != [] && e.at > s[0].at {
      InsertSorted(e, s[1..]);
      InsertIs(e, s[1..]);
      var r := InsertByTime(e, s[1..]);
      forall x | x in r
        ensures s[0].at <= x.at
      {
      }
      var all := [s[0]] + r;
      forall i, j | 0 <= i < j < |all|
        ensures all[i].at <= all[j].at
      {
        if i == 0 {
          assert all[j] in r;
        }
      }
    }
  }

  lemma {:induction false} ByTimeIs(s: seq<Event>)
    ensures forall x :: x in ByTime(s) <==> x in s
    ensures |ByTime(s)| == |s|
    decreases |s|
  {
    if s != [] {
      ByTimeIs(s[1..]);
      InsertIs(s[0], ByTime(s[1..]));
    }
  }

  /** The sort keeps the events and orders them by time. */
  lemma {:induction false} ByTimeSorts(s: seq<Event>)
    ensures Sorted(ByTime(s)) && multiset(ByTime(s)) == multiset(s)
    decreases |s|
  {
    if s != [] {
      ByTimeSorts(s[1..]);
      InsertSorted(s[0], ByTime(s[1..]));
      InsertMultiset(s[0], ByTime(s[1..]));
      assert s == [s[0]] + s[1..];
    }
  }

  lemma {:induction false} InsertMultiset(e: Event, s: seq<Event>)
    ensures multiset(InsertByTime(e, s)) == multiset{e} + multiset(s)
    decreases |s|
  {
    if s != [] && e.at > s[0].at {
      InsertMultiset(e, s[1..]);
      assert s == [s[0]] + s[1..];
    }
  }

  /** An event goes behind the earlier ones and before those of its own time, so
      of two events at one time the one collected first comes first. */
  lemma {:induction false} InsertStable(e: Event, s: seq<Event>) returns (k: nat)
    requires Sorted(s)
    ensures k <= |s| && InsertByTime(e, s) == s[..k] + [e] + s[k..]
    ensures (forall i :: 0 <= i < k ==> s[i].at < e.at) && (forall i :: k <= i < |s| ==> e.at <= s[i].at)
    decreases |s|
  {
    k := 0;
    if s != [] && e.at > s[0].at {
      var j := InsertStable(e, s[1..]);
      k := j + 1;
      assert s[..k] == [s[0]] + s[1..][..j];
      assert s[k..] == s[1..][j..];
    }
  }

  lemma {:induction false} ByTimeUnique(s: seq<Event>)
    requires Unique(s)
    ensures Unique(ByTime(s))
    decreases |s|
  {
    if s != [] {
      ByTimeUnique(s[1..]);
      ByTimeIs(s[1..]);
      InsertUnique(s[0], ByTime(s[1..]));
    }
  }

  lemma {:induction false} UniquePlus(a: seq<Event>, b: seq<Event>)
    requires Unique(a) && Unique(b) && forall x, y :: x in a && y in b ==> !Clash(x, y)
    ensures Unique(a + b)
    decreases |a|
  {
    if a == [] {
      assert a + b == b;
    } else {
      assert a == [a[0]] + a[1..];
      assert (a + b)[1..] == a[1..] + b;
      UniquePlus(a[1..], b);
      forall x | x in a[1..] + b
        ensures !Clash(a[0], x)
      {
        assert a[0] in a;
      }
    }
  }

  // ----- the three sources of events

  lemma {:induction false} AssignmentsAre(messages: seq<Message>, start: nat, after: int)
    ensures forall e :: e in Assignments(messages, start, after) ==> e.kind == AssignmentEvent && e.result.None? && e.at > after
    ensures Unique(Assignments(messages, start, after))
    decreases |messages|
  {
    if messages != [] {
      AssignmentsAre(messages[1..], start, after);
      var rest, all := Assignments(messages[1..], start, after), Assignments(messages, start, after);
      if all != rest {
        assert all[1..] == rest;
      }
    }
  }

  lemma {:induction false} AssignmentsFewer(messages: seq<Message>, start: nat, a: int, b: int, e: Event)
    requires a <= b && e in Assignments(messages, start, b)
    ensures e in Assignments(messages, start, a)
    decreases |messages|
  {
    if messages != [] && e in Assignments(messages[1..], start, b) {
      AssignmentsFewer(messages[1..], start, a, b, e);
    }
  }

  ghost predicate DistinctJobs(jobs: seq<Job>) { forall i, j :: 0 <= i < j < |jobs| ==> jobs[i].id != jobs[j].id }

  predicate IsReply(e: Event, jobs: seq<Job>, since: int) {
    e.kind == ResultEvent && e.result.Some? && e.at >= since && e.id.OfResult? && e.id.later.None?
    && exists i :: 0 <= i < |jobs| && e.result.value == ResultId(Reply(jobs[i].id), None)
  }

  lemma {:induction false} RepliesAre(jobs: seq<Job>, messages: seq<Message>, start: nat, since: int)
    requires DistinctJobs(jobs)
    ensures forall e :: e in Replies(jobs, messages, start, since) ==> IsReply(e, jobs, since)
    ensures Unique(Replies(jobs, messages, start, since))
    decreases |jobs|
  {
    if jobs != [] {
      RepliesAre(jobs[1..], messages, start, since);
      var rest, all := Replies(jobs[1..], messages, start, since), Replies(jobs, messages, start, since);
      forall e | e in rest
        ensures IsReply(e, jobs, since) && e.result.value.base != Reply(jobs[0].id)
      {
        var i :| 0 <= i < |jobs[1..]| && e.result.value == ResultId(Reply(jobs[1..][i].id), None);
        assert jobs[1..][i] == jobs[i + 1];
      }
      if all != rest {
        assert all[1..] == rest;
        assert IsReply(all[0], jobs, since);
        assert all == [all[0]] + rest;
      }
    }
  }

  lemma {:induction false} RepliesFewer(jobs: seq<Job>, messages: seq<Message>, start: nat, a: int, b: int, e: Event)
    requires a <= b && e in Replies(jobs, messages, start, b)
    ensures e in Replies(jobs, messages, start, a)
    decreases |jobs|
  {
    if jobs != [] && e in Replies(jobs[1..], messages, start, b) {
      RepliesFewer(jobs[1..], messages, start, a, b, e);
    }
  }

  predicate IsEnd(e: Event, order: seq<string>, room: Room, since: int) {
    e.kind == ResultEvent && e.result.Some? && e.at >= since && e.id.OfResult? && e.id.later.None?
    && exists i :: 0 <= i < |order| && EndsWork(e, order[i], room)
  }

  predicate EndsWork(e: Event, id: string, room: Room) {
    e.result == Some(ResultId(Work(id), None)) && id in room.workflows && room.workflows[id].state.EndedWork?
  }

  lemma {:induction false} EndsAre(order: seq<string>, room: Room, start: nat, since: int)
    requires Distinct(order)
    ensures forall e :: e in Ends(order, room, start, since) ==> IsEnd(e, order, room, since)
    ensures Unique(Ends(order, room, start, since))
    decreases |order|
  {
    if order != [] {
      EndsAre(order[1..], room, start, since);
      var rest, all := Ends(order[1..], room, start, since), Ends(order, room, start, since);
      forall e | e in rest
        ensures IsEnd(e, order, room, since) && e.result.value.base != Work(order[0])
      {
        var i :| 0 <= i < |order[1..]| && EndsWork(e, order[1..][i], room);
        assert order[1..][i] == order[i + 1];
      }
      if all != rest {
        assert all[1..] == rest;
        assert EndsWork(all[0], order[0], room);
        assert all == [all[0]] + rest;
      }
    }
  }

  /** The event of one workflow does not depend on the order of the visit. */
  function EndOf(id: string, room: Room, start: nat): Event
    requires id in room.workflows && room.workflows[id].state.EndedWork?
  {
    var w := room.workflows[id];
    ResultOf(Work(id), w.state.name, EndedAt(w), FirstSource(w.sources, room.messages, start), w.state.name)
  }

  predicate EndReady(id: string, room: Room, start: nat, since: int) {
    id in room.workflows && WorkReady(room.workflows[id], room.messages, start, since)
  }

  lemma {:induction false} EndsHave(order: seq<string>, room: Room, start: nat, since: int, id: string)
    requires id in order && EndReady(id, room, start, since)
    ensures EndOf(id, room, start) in Ends(order, room, start, since)
    decreases |order|
  {
    if id != order[0] {
      EndsHave(order[1..], room, start, since, id);
    }
  }

  lemma {:induction false} EndsFrom(order: seq<string>, room: Room, start: nat, since: int, e: Event) returns (id: string)
    requires e in Ends(order, room, start, since)
    ensures id in order && EndReady(id, room, start, since) && e == EndOf(id, room, start)
    decreases |order|
  {
    if e in Ends(order[1..], room, start, since) {
      id := EndsFrom(order[1..], room, start, since, e);
    } else {
      id := order[0];
    }
  }

  // ----- all of them

  ghost predicate Orderly(room: Room) { DistinctJobs(room.jobs) && Distinct(room.order) }

  predicate FromCollect(e: Event, l: Ledger, room: Room) {
    if e.kind == AssignmentEvent then e.result.None? && e.at > l.marks.assignment
    else IsReply(e, room.jobs, l.marks.result) || IsEnd(e, room.order, room, l.marks.result)
  }

  lemma CollectIs(l: Ledger, room: Room)
    requires Orderly(room)
    ensures forall e :: e in Collect(l, room) ==> FromCollect(e, l, room)
    ensures Unique(Collect(l, room))
  {
    var a := Assignments(room.messages, l.start, l.marks.assignment);
    var b := Replies(room.jobs, room.messages, l.start, l.marks.result);
    var c := Ends(room.order, room, l.start, l.marks.result);
    AssignmentsAre(room.messages, l.start, l.marks.assignment);
    RepliesAre(room.jobs, room.messages, l.start, l.marks.result);
    EndsAre(room.order, room, l.start, l.marks.result);
    UniquePlus(a, b);
    UniquePlus(a + b, c);
  }

  /** Later marks, and another order of the same visits, collect nothing else. */
  lemma CollectFewer(l: Ledger, l': Ledger, room: Room, order: seq<string>, e: Event)
    requires l'.start == l.start && l.marks.assignment <= l'.marks.assignment && l.marks.result <= l'.marks.result
    requires forall id :: id in order ==> id in room.order
    requires e in Collect(l', room.(order := order))
    ensures e in Collect(l, room)
  {
    if e in Assignments(room.messages, l.start, l'.marks.assignment) {
      AssignmentsFewer(room.messages, l.start, l.marks.assignment, l'.marks.assignment, e);
    } else if e in Replies(room.jobs, room.messages, l.start, l'.marks.result) {
      RepliesFewer(room.jobs, room.messages, l.start, l.marks.result, l'.marks.result, e);
    } else {
      EndsOrder(l, l', room, order, e);
    }
  }

  lemma EndsOrder(l: Ledger, l': Ledger, room: Room, order: seq<string>, e: Event)
    requires l'.start == l.start && l.marks.result <= l'.marks.result && forall id :: id in order ==> id in room.order
    requires e in Ends(order, room.(order := order), l.start, l'.marks.result)
    ensures e in Ends(room.order, room, l.start, l.marks.result)
  {
    var id := EndsFrom(order, room.(order := order), l.start, l'.marks.result, e);
    EndsHave(room.order, room, l.start, l.marks.result, id);
  }

  // ----- high-water marks

  lemma {:induction false} MarksRise(l: Ledger, events: seq<Event>, room: Room, a: int, r: int, s: int)
    requires a <= l.marks.assignment && r <= l.marks.result
    requires forall e :: e in events ==> if e.kind == AssignmentEvent then e.at >= a else e.at >= r
    ensures var m := ProcessAll(l, events, room).marks; a <= m.assignment && r <= m.result
    ensures s <= r && s <= l.marks.success ==> s <= ProcessAll(l, events, room).marks.success
    decreases |events|
  {
    if events != [] {
      assert events[0] in events;
      assert forall e :: e in events[1..] ==> e in events;
      MarksRise(Process(l, events[0], room), events[1..], room, a, r, s);
    }
  }

  /** In the order of their times, results leave the success mark at or behind the
      result mark. */
  lemma {:induction false} SuccessBehind(l: Ledger, events: seq<Event>, room: Room)
    requires Sorted(events) && l.marks.success <= l.marks.result
    requires forall e :: e in events && e.kind != AssignmentEvent ==> e.at >= l.marks.result
    ensures var m := ProcessAll(l, events, room).marks; m.success <= m.result
    decreases |events|
  {
    if events != [] {
      var p := Process(l, events[0], room);
      assert events[0] in events;
      forall e | e in events[1..] && e.kind != AssignmentEvent
        ensures e.at >= p.marks.result
      {
        var i :| 0 <= i < |events[1..]| && events[1..][i] == e;
        assert events[i + 1] == e && e in events;
      }
      SuccessBehind(p, events[1..], room);
    }
  }

  lemma {:induction false} RepliesSince(jobs: seq<Job>, messages: seq<Message>, start: nat, since: int)
    ensures forall e :: e in Replies(jobs, messages, start, since) ==> e.kind == ResultEvent && e.at >= since
    decreases |jobs|
  {
    if jobs != [] {
      RepliesSince(jobs[1..], messages, start, since);
    }
  }

  lemma {:induction false} EndsSince(order: seq<string>, room: Room, start: nat, since: int)
    ensures forall e :: e in Ends(order, room, start, since) ==> e.kind == ResultEvent && e.at >= since
    decreases |order|
  {
    if order != [] {
      EndsSince(order[1..], room, start, since);
    }
  }

  /** High-water times survive reconciliation, whatever the history has lost: none
      of them ever falls. */
  lemma MarksNeverFall(l: Ledger, room: Room, now: int)
    ensures var m := Reconcile(l, room, now).marks; l.marks.assignment <= m.assignment && l.marks.result <= m.result
    ensures var m := Reconcile(l, room, now).marks;
      l.marks.success <= l.marks.result ==> l.marks.success <= m.success <= m.result
  {
    AssignmentsAre(room.messages, l.start, l.marks.assignment);
    RepliesSince(room.jobs, room.messages, l.start, l.marks.result);
    EndsSince(room.order, room, l.start, l.marks.result);
    ByTimeIs(Collect(l, room));
    MarksRise(Prepared(l, room), ByTime(Collect(l, room)), room, l.marks.assignment, l.marks.result, l.marks.success);
    if l.marks.success <= l.marks.result {
      ByTimeSorts(Collect(l, room));
      SuccessBehind(Prepared(l, room), ByTime(Collect(l, room)), room);
    }
  }
}
