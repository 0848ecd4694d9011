/** The lane as it is updated in place by the critical sections of
    internal/room/shared.go. */
module SharedLanes {
  import opened Options
  import opened Lanes

  /** One round of the dispatcher: what it grants, and what is left to grant. */
  lemma OneGrant(l: Lane, granted: seq<Ticket>)
    requires l.active < l.limit && l.queue != [] && Distinct(l.queue)
    ensures var t, next := l.queue[Pick(l.queue, l.last)], Grant(l);
      && Lanes.Dispatch(l).0 == Lanes.Dispatch(next).0
      && granted + Lanes.Dispatch(l).1 == (granted + [t]) + Lanes.Dispatch(next).1
      && Elements(granted + [t]) == Elements(granted) + {t}
      && Distinct(next.queue) && t in Elements(l.queue) && Elements(next.queue) == Elements(l.queue) - {t}
  {
    WithoutFacts(l.queue, Pick(l.queue, l.last));
  }

  class SharedLane {
    var active: int
    var limit: int
    var last: string
    var queue: seq<Ticket>
    /** The tickets whose channel was closed.  Closing one twice would panic. */
    var ready: set<Ticket>

    ghost function View(): Lane
      reads this
    {
      Lane(active, limit, last, queue)
    }

    constructor (limit: int)
      ensures View() == NewLane(limit) && ready == {}
    {
      this.active, this.limit, this.last, this.queue, this.ready := 0, Max(1, limit), "", [], {};
    }

    /** The scan for the first ticket of another room. */
    method Choose() returns (index: nat)
      requires queue != []
      ensures index == Pick(queue, last)
    {
      index := 0;
      var i := 0;
      while i < |queue| && queue[i].room == last
        invariant 0 <= i <= |queue|
        invariant AllOf(queue[..i], last)
      {
        assert queue[..i + 1] == queue[..i] + [queue[i]];
        i := i + 1;
      }
      if i < |queue| {
        index := i;
      }
      PickIs(queue, last, i);
    }

    method Dispatch()
      requires Distinct(queue) && Elements(queue) !! ready
      modifies this
      ensures View() == Lanes.Dispatch(old(View())).0
      ensures ready == old(ready) + Elements(Lanes.Dispatch(old(View())).1)
    {
      ghost var was := View();
      ghost var granted: seq<Ticket> := [];
      while active < limit && queue != []
        invariant Distinct(queue) && Elements(queue) !! ready
        invariant Lanes.Dispatch(was).0 == Lanes.Dispatch(View()).0
        invariant Lanes.Dispatch(was).1 == granted + Lanes.Dispatch(View()).1
        invariant ready == old(ready) + Elements(granted)
        decreases |queue|
      {
        ghost var here := View();
        var index := Choose();
        var t := queue[index];
        OneGrant(here, granted);
        assert t !in ready;
        queue := queue[..index] + queue[index + 1..];
        active := active + 1;
        last := t.room;
        ready := ready + {t};
        assert View() == Grant(here);
        granted := granted + [t];
      }
      assert Lanes.Dispatch(View()) == (View(), []);
    }

    method SetProviderLimit(limit: int)
      requires Distinct(queue) && Elements(queue) !! ready
      modifies this
      ensures View() == Lanes.Dispatch(old(View()).(limit := Max(1, limit))).0
      ensures ready == old(ready) + Elements(Lanes.Dispatch(old(View()).(limit := Max(1, limit))).1)
    {
      this.limit := Max(1, limit);
      Dispatch();
    }

    /** The first critical section of an acquisition; `queued` when it must wait. */
    method Enqueue(t: Ticket) returns (queued: bool)
      requires Distinct(queue) && Elements(queue) !! ready && t !in queue && t !in ready
      modifies this
      ensures var d := Lanes.Dispatch(old(View()).(queue := old(queue) + [t]));
        View() == d.0 && ready == old(ready) + Elements(d.1) && queued == (t !in d.1)
    {
      queue := queue + [t];
      assert Elements(queue) == old(Elements(queue)) + {t};
      Dispatch();
      queued := t !in ready;
    }

    /** The critical section entered when the context ends during the wait. */
    method Abandon(t: Ticket)
      requires Distinct(queue) && Elements(queue) !! ready
      modifies this
      ensures View() == Lanes.Dispatch(Lanes.Abandon(old(View()), t)).0
      ensures ready == old(ready) + Elements(Lanes.Dispatch(Lanes.Abandon(old(View()), t)).1)
    {
      var found := false;
      var i := 0;
      while i < |queue| && !found
        invariant 0 <= i <= |queue|
        invariant !found ==> queue == old(queue) && t !in queue[..i]
        invariant found ==> i <= Find(old(queue), t) < |old(queue)| && queue == Without(old(queue), Find(old(queue), t))
        invariant unchanged(`active, `limit, `last, `ready)
        decreases |queue| - i, !found
      {
        if queue[i] == t {
          queue := queue[..i] + queue[i + 1..];
          found := true;
        } else {
          i := i + 1;
        }
      }
      if !found {
        active := active - 1;
      } else {
        WithoutFacts(old(queue), Find(old(queue), t));
      }
      assert View() == Lanes.Abandon(old(View()), t);
      Dispatch();
    }

    /** The release function; its guard against a second call is the caller's. */
    method Release()
      requires Distinct(queue) && Elements(queue) !! ready
      modifies this
      ensures View() == Lanes.Dispatch(old(View()).(active := old(active) - 1)).0
      ensures ready == old(ready) + Elements(Lanes.Dispatch(old(View()).(active := old(active) - 1)).1)
    {
      active := active - 1;
      Dispatch();
    }
  }
}
