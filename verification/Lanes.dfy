/** Provider lanes: the ticket queue that limits provider calls across rooms
    (internal/room/shared.go).

    A lane is updated in place by the critical sections of `acquireProvider`,
    the release function it returns, and `setProviderLimit`.  The class of
    SharedLanes.dfy has those sections as methods; each is proved to compute
    the value-level function of the same name, and the properties of whole runs
    are proved here about those functions.
 */
module Lanes {
  import opened Options

  /** A waiting call.  `id` stands for the identity of the ticket's channel. */
  datatype Ticket = Ticket(id: nat, room: string)

  datatype Lane = Lane(active: int, limit: int, last: string, queue: seq<Ticket>)

  function Without<T>(s: seq<T>, i: nat): (r: seq<T>)
    requires i < |s|
    ensures |r| == |s| - 1
  {
    s[..i] + s[i + 1..]
  }

  // ----- the ticket chosen by one round of the dispatcher

  ghost predicate AllOf(queue: seq<Ticket>, room: string) {
    forall i :: 0 <= i < |queue| ==> queue[i].room == room
  }

  /** The first ticket of a room other than `last`; the head when there is none. */
  function Pick(queue: seq<Ticket>, last: string): (i: nat)
    requires queue != []
    ensures i < |queue|
  {
    if queue[0].room != last || |queue| == 1 then 0
    else
      var i := Pick(queue[1..], last);
      if queue[1..][i].room == last then 0 else i + 1
  }

  lemma {:induction false} PickRule(queue: seq<Ticket>, last: string)
    requires queue != []
    ensures var i := Pick(queue, last);
      if queue[i].room == last then i == 0 && AllOf(queue, last) else AllOf(queue[..i], last)
  {
    if queue[0].room == last && |queue| > 1 {
      PickRule(queue[1..], last);
      assert queue == [queue[0]] + queue[1..];
    }
  }

  function Grant(l: Lane): Lane
    requires l.queue != []
  {
    var i := Pick(l.queue, l.last);
    Lane(l.active + 1, l.limit, l.queue[i].room, Without(l.queue, i))
  }

  /** The lane after the dispatcher has run, and the tickets it granted, in order. */
  function Dispatch(l: Lane): (r: (Lane, seq<Ticket>))
    decreases |l.queue|
  {
    if l.active < l.limit && l.queue != [] then
      var rest := Dispatch(Grant(l));
      (rest.0, [l.queue[Pick(l.queue, l.last)]] + rest.1)
    else
      (l, [])
  }

  // ----- the critical sections on a lane

  function NewLane(limit: int): Lane { Lane(0, Max(1, limit), "", []) }

  function Find(queue: seq<Ticket>, t: Ticket): (i: nat)
    ensures i <= |queue|
    ensures i < |queue| ==> queue[i] == t
    ensures t !in queue[..i]
  {
    if queue == [] || queue[0] == t then 0 else 1 + Find(queue[1..], t)
  }

  /** The context of a waiting call ended: leave the queue, or give back the
      slot when the dispatcher granted it in the meantime. */
  function Abandon(l: Lane, t: Ticket): Lane {
    var i := Find(l.queue, t);
    if i < |l.queue| then l.(queue := Without(l.queue, i)) else l.(active := l.active - 1)
  }

  /** `waiting` calls sit in the final select (queued, or granted and not yet
      noticed: `ready`); `holding` calls returned a release function. */
  datatype System = System(lane: Lane, ready: set<Ticket>, holding: set<Ticket>, seen: set<nat>, log: seq<Ticket>)

  datatype Step =
    | Enqueue(t: Ticket)
    | Notice(t: Ticket)
    | Leave(t: Ticket)
    | Release(t: Ticket)
    | SetLimit(limit: int)

  predicate Enabled(s: System, step: Step) {
    match step
    case Enqueue(t) => t.id !in s.seen
    case Notice(t) => t in s.ready
    case Leave(t) => t in s.lane.queue || t in s.ready
    case Release(t) => t in s.holding
    case SetLimit(_) => true
  }

  function Before(s: System, step: Step): Lane {
    match step
    case Enqueue(t) => s.lane.(queue := s.lane.queue + [t])
    case Leave(t) => Abandon(s.lane, t)
    case Release(_) => s.lane.(active := s.lane.active - 1)
    case SetLimit(n) => s.lane.(limit := Max(1, n))
    case Notice(_) => s.lane
  }

  function Elements<T>(s: seq<T>): set<T> { set x | x in s }

  /** The call whose wait or hold ends in this step. */
  function Ending(step: Step): set<Ticket> {
    match step
    case Leave(t) => {t}
    case Release(t) => {t}
    case _ => {}
  }

  function Arriving(step: Step): set<nat> {
    match step
    case Enqueue(t) => {t.id}
    case _ => {}
  }

  function Next(s: System, step: Step): System {
    if step.Notice? then
      s.(ready := s.ready - {step.t}, holding := s.holding + {step.t})
    else
      var d := Dispatch(Before(s, step));
      System(d.0, s.ready - Ending(step) + Elements(d.1), s.holding - Ending(step), s.seen + Arriving(step), s.log + d.1)
  }

  ghost predicate Legal(s: System, run: seq<Step>)
    decreases |run|
  {
    run == [] || (Enabled(s, run[0]) && Legal(Next(s, run[0]), run[1..]))
  }

  function Exec(s: System, run: seq<Step>): System
    decreases |run|
  {
    if run == [] then s else Exec(Next(s, run[0]), run[1..])
  }

  function Start(limit: int): System { System(NewLane(limit), {}, {}, {}, []) }

  // ----- accounting

  ghost predicate Booked(s: System) {
    && Distinct(s.lane.queue)
    && s.ready !! s.holding
    && (forall t :: t in s.lane.queue ==> t !in s.ready && t !in s.holding && t.id in s.seen)
    && (forall t :: t in s.ready || t in s.holding ==> t.id in s.seen)
    && s.lane.active == |s.ready| + |s.holding|
  }

  /** What every critical section leaves behind. */
  ghost predicate Inv(s: System) {
    && Booked(s)
    && s.lane.limit >= 1
    && (s.lane.queue == [] || s.lane.active >= s.lane.limit)
  }

  lemma WithoutFacts(queue: seq<Ticket>, i: nat)
    requires i < |queue| && Distinct(queue)
    ensures Distinct(Without(queue, i))
    ensures queue[i] !in Without(queue, i)
    ensures Elements(Without(queue, i)) == Elements(queue) - {queue[i]}
  {
    var w := Without(queue, i);
    forall t | t in queue && t != queue[i] ensures t in w {
      var j :| 0 <= j < |queue| && queue[j] == t;
      assert w[if j < i then j else j - 1] == t;
    }
  }

  /** The dispatcher moves tickets from the queue to the granted ones, never
      grants at or above the limit, and stops only when it may not go on. */
  ghost predicate Moved(l: Lane, l': Lane, g: seq<Ticket>) {
    && l'.limit == l.limit
    && l'.active == l.active + |g|
    && Distinct(l'.queue) && Distinct(g)
    && Elements(l'.queue) == Elements(l.queue) - Elements(g)
    && Elements(g) <= Elements(l.queue)
    && (g != [] ==> l'.active <= l'.limit)
    && (l'.queue == [] || l'.active >= l'.limit)
  }

  lemma {:induction false} DispatchMoves(l: Lane)
    requires Distinct(l.queue)
    ensures Moved(l, Dispatch(l).0, Dispatch(l).1)
    decreases |l.queue|
  {
    if l.active < l.limit && l.queue != [] {
      var i := Pick(l.queue, l.last);
      WithoutFacts(l.queue, i);
      DispatchMoves(Grant(l));
      var rest := Dispatch(Grant(l)).1;
      var g := [l.queue[i]] + rest;
      assert Elements(g) == {l.queue[i]} + Elements(rest);
      assert l.queue[i] !in Elements(rest);
      assert Distinct(g);
    }
  }

  lemma {:induction false} DistinctSize(g: seq<Ticket>)
    requires Distinct(g)
    ensures |Elements(g)| == |g|
  {
    if g != [] {
      DistinctSize(g[1..]);
      assert Elements(g) == {g[0]} + Elements(g[1..]);
      assert g[0] !in g[1..];
    }
  }

  lemma AbandonBooks(s: System, t: Ticket)
    requires Inv(s) && (t in s.lane.queue || t in s.ready)
    ensures var l := Abandon(s.lane, t);
      && Distinct(l.queue) && t !in l.queue
      && (forall u :: u in l.queue ==> u in s.lane.queue)
      && l.active == |s.ready - {t}| + |s.holding| && l.limit == s.lane.limit
  {
    var i := Find(s.lane.queue, t);
    if i < |s.lane.queue| {
      WithoutFacts(s.lane.queue, i);
      var l := Abandon(s.lane, t);
      assert forall u :: u in l.queue ==> u in Elements(l.queue);
      assert s.ready - {t} == s.ready;
    } else {
      assert s.lane.queue[..i] == s.lane.queue;
    }
  }

  lemma BeforeBooks(s: System, step: Step)
    requires Inv(s) && Enabled(s, step) && !step.Notice?
    ensures var l := Before(s, step);
      && Distinct(l.queue) && l.limit >= 1
      && (forall t :: t in l.queue ==> t !in s.ready - Ending(step) && t !in s.holding - Ending(step) && t.id in s.seen + Arriving(step))
      && l.active == |s.ready - Ending(step)| + |s.holding - Ending(step)|
  {
    if step.Leave? {
      assert s.holding - Ending(step) == s.holding;
      AbandonBooks(s, step.t);
    } else {
      assert s.ready - Ending(step) == s.ready;
    }
  }

  lemma MoveBooks(l: Lane, l': Lane, g: seq<Ticket>, s: System, s': System)
    requires Distinct(l.queue) && l.limit >= 1 && s.ready !! s.holding
    requires forall t :: t in l.queue ==> t !in s.ready && t !in s.holding && t.id in s.seen
    requires forall t :: t in s.ready || t in s.holding ==> t.id in s.seen
    requires l.active == |s.ready| + |s.holding|
    requires Moved(l, l', g)
    requires s'.lane == l' && s'.ready == s.ready + Elements(g) && s'.holding == s.holding && s'.seen == s.seen
    ensures Inv(s')
  {
    var granted := Elements(g);
    DistinctSize(g);
    assert forall t :: t in granted ==> t in Elements(l.queue) && t in l.queue;
    forall t | t in l'.queue ensures t in l.queue && t !in granted {
      assert t in Elements(l'.queue);
    }
    assert s.ready !! granted && s.holding !! granted;
    assert |s'.ready| == |s.ready| + |granted|;
  }

  lemma NextBooks(s: System, step: Step)
    requires Inv(s) && Enabled(s, step)
    ensures Inv(Next(s, step))
  {
    if !step.Notice? {
      BeforeBooks(s, step);
      var l := Before(s, step);
      DispatchMoves(l);
      var kept := s.(ready := s.ready - Ending(step), holding := s.holding - Ending(step), seen := s.seen + Arriving(step));
      MoveBooks(l, Dispatch(l).0, Dispatch(l).1, kept, Next(s, step));
    }
  }

  /** In every reachable state the number of busy slots is the number of granted
      tickets neither released nor abandoned, and nobody waits beside a free slot. */
  lemma {:induction false} AccountingForever(s: System, run: seq<Step>)
    requires Inv(s) && Legal(s, run)
    ensures Inv(Exec(s, run))
    decreases |run|
  {
    if run != [] {
      NextBooks(s, run[0]);
      AccountingForever(Next(s, run[0]), run[1..]);
    }
  }

  // ----- bounded bypass

  /** How many other grants ticket `k` may still have to watch: two for each
      ticket ahead of it, and one more while a newcomer of another room could
      overtake everything up to it. */
  ghost function Wait(l: Lane, k: nat): nat
    requires k < |l.queue|
  {
    2 * k + if AllOf(l.queue[..k + 1], l.last) then 1 else 0
  }

  ghost predicate Waits(l: Lane, t: Ticket, w: nat) {
    exists k: nat :: k < |l.queue| && l.queue[k] == t && Wait(l, k) <= w
  }

  ghost predicate GrantedWithin(g: seq<Ticket>, t: Ticket, w: int) {
    exists p: nat :: p < |g| && p <= w && g[p] == t
  }

  lemma GrantWait(l: Lane, k: nat)
    requires k < |l.queue| && Pick(l.queue, l.last) != k
    ensures var k' := if Pick(l.queue, l.last) < k then k - 1 else k;
      && k' < |Grant(l).queue| && Grant(l).queue[k'] == l.queue[k]
      && Wait(Grant(l), k') < Wait(l, k)
  {
    var i := Pick(l.queue, l.last);
    PickRule(l.queue, l.last);
    if k < i {
      assert forall j :: 0 <= j <= k ==> l.queue[j] == l.queue[..i][j];
      assert AllOf(l.queue[..k + 1], l.last);
      assert Grant(l).queue[..k + 1][0] == l.queue[0] == l.queue[..i][0];
      assert !AllOf(Grant(l).queue[..k + 1], Grant(l).last);
    }
  }

  lemma WithinAppend(g: seq<Ticket>, h: seq<Ticket>, t: Ticket, w: int)
    ensures GrantedWithin(g, t, w) ==> GrantedWithin(g + h, t, w)
    ensures GrantedWithin(h, t, w - |g|) ==> GrantedWithin(g + h, t, w)
  {
    if GrantedWithin(g, t, w) {
      var p: nat :| p < |g| && p <= w && g[p] == t;
      assert (g + h)[p] == t;
    }
    if GrantedWithin(h, t, w - |g|) {
      var p: nat :| p < |h| && p <= w - |g| && h[p] == t;
      assert (g + h)[|g| + p] == t;
    }
  }

  lemma GrantWaits(l: Lane, t: Ticket, w: nat)
    requires Waits(l, t, w)
    ensures l.queue != []
    ensures l.queue[Pick(l.queue, l.last)] == t || (w > 0 && Waits(Grant(l), t, w - 1))
  {
    var k: nat :| k < |l.queue| && l.queue[k] == t && Wait(l, k) <= w;
    if Pick(l.queue, l.last) != k {
      GrantWait(l, k);
    }
  }

  lemma {:induction false} DispatchWait(l: Lane, t: Ticket, w: nat)
    requires Waits(l, t, w)
    ensures var (l', g) := Dispatch(l);
      GrantedWithin(g, t, w) || (|g| <= w && Waits(l', t, w - |g|))
    decreases |l.queue|
  {
    if l.active < l.limit && l.queue != [] {
      GrantWaits(l, t, w);
      var first, rest := [l.queue[Pick(l.queue, l.last)]], Dispatch(Grant(l)).1;
      assert Dispatch(l) == (Dispatch(Grant(l)).0, first + rest);
      WithinAppend(first, rest, t, w);
      if first[0] == t {
        assert GrantedWithin(first, t, w);
      } else {
        DispatchWait(Grant(l), t, w - 1);
      }
    }
  }

  lemma AbandonWait(l: Lane, gone: Ticket, t: Ticket, w: nat)
    requires Waits(l, t, w) && gone != t
    ensures Waits(Abandon(l, gone), t, w)
  {
    var k: nat :| k < |l.queue| && l.queue[k] == t && Wait(l, k) <= w;
    var i, l' := Find(l.queue, gone), Abandon(l, gone);
    if i < k {
      assert l'.queue[k - 1] == t;
    } else {
      assert l'.queue[..k + 1] == l.queue[..k + 1];
      assert l'.queue[k] == t;
    }
  }

  lemma BeforeWait(s: System, step: Step, t: Ticket, w: nat)
    requires Waits(s.lane, t, w) && step != Leave(t)
    ensures Waits(Before(s, step), t, w)
  {
    if step.Leave? {
      AbandonWait(s.lane, step.t, t, w);
    } else {
      var k: nat :| k < |s.lane.queue| && s.lane.queue[k] == t && Wait(s.lane, k) <= w;
      var l := Before(s, step);
      assert l.queue[..k + 1] == s.lane.queue[..k + 1];
      assert l.queue[k] == t;
    }
  }

  /** The tickets granted in one step, and in a run. */
  function GrantedIn(s: System, step: Step): seq<Ticket> {
    if step.Notice? then [] else Dispatch(Before(s, step)).1
  }

  function Granted(s: System, run: seq<Step>): seq<Ticket>
    decreases |run|
  {
    if run == [] then [] else GrantedIn(s, run[0]) + Granted(Next(s, run[0]), run[1..])
  }

  /** `Granted` is what the run adds to the log. */
  lemma {:induction false} GrantedIsLogged(s: System, run: seq<Step>)
    ensures Exec(s, run).log == s.log + Granted(s, run)
    decreases |run|
  {
    if run != [] {
      var s' := Next(s, run[0]);
      assert s'.log == s.log + GrantedIn(s, run[0]);
      GrantedIsLogged(s', run[1..]);
      assert Granted(s, run) == GrantedIn(s, run[0]) + Granted(s', run[1..]);
    }
  }

  lemma StepWait(s: System, step: Step, t: Ticket, w: nat)
    requires Waits(s.lane, t, w) && step != Leave(t)
    ensures var g := GrantedIn(s, step);
      GrantedWithin(g, t, w) || (|g| <= w && Waits(Next(s, step).lane, t, w - |g|))
  {
    if !step.Notice? {
      BeforeWait(s, step, t, w);
      DispatchWait(Before(s, step), t, w);
    }
  }

  lemma {:induction false} RunWait(s: System, run: seq<Step>, t: Ticket, w: nat)
    requires Leave(t) !in run && Waits(s.lane, t, w)
    ensures var g := Granted(s, run);
      GrantedWithin(g, t, w) || (|g| <= w && Waits(Exec(s, run).lane, t, w - |g|))
    decreases |run|
  {
    if run != [] {
      var s', now := Next(s, run[0]), GrantedIn(s, run[0]);
      StepWait(s, run[0], t, w);
      WithinAppend(now, Granted(s', run[1..]), t, w);
      if !GrantedWithin(now, t, w) {
        RunWait(s', run[1..], t, w - |now|);
      }
    }
  }

  /** A ticket with `k` tickets ahead that does not leave is among the next
      `2 * (k + 1)` grants of its lane, whatever arrives, leaves, finishes or
      changes the limit in the meantime. */
  lemma BoundedBypass(s: System, run: seq<Step>, t: Ticket, k: nat)
    requires Legal(s, run) && Leave(t) !in run
    requires k < |s.lane.queue| && s.lane.queue[k] == t
    ensures var g := Granted(s, run);
      |g| >= 2 * (k + 1) ==> exists p :: 0 <= p < 2 * (k + 1) && g[p] == t
  {
    assert Wait(s.lane, k) <= 2 * k + 1;
    RunWait(s, run, t, 2 * k + 1);
    var g := Granted(s, run);
    if |g| >= 2 * (k + 1) {
      var p: nat :| p < |g| && p <= 2 * k + 1 && g[p] == t;
    }
  }

  // ----- the bound is reached

  function Last<T>(s: seq<T>): T
    requires s != []
  {
    s[|s| - 1]
  }

  lemma PickAfter(ours: seq<Ticket>, others: seq<Ticket>, last: string)
    requires ours != [] && others != [] && AllOf(ours, last) && others[0].room != last
    ensures Pick(ours + others, last) == |ours|
  {
    assert (ours + others)[..|ours|] == ours;
    PickIs(ours + others, last, |ours|);
  }

  lemma OthersFirst(l: Lane, ours: seq<Ticket>, others: seq<Ticket>, room: string)
    requires ours != [] && others != [] && l.queue == ours + others
    requires AllOf(ours, l.last) && AllOf(others, room) && room != l.last
    ensures l.queue[Pick(l.queue, l.last)] == others[0]
    ensures Grant(l) == Lane(l.active + 1, l.limit, room, ours + others[1..])
  {
    PickAfter(ours, others, l.last);
    assert l.queue[..|ours|] == ours && l.queue[|ours| + 1..] == others[1..];
  }

  lemma OursNext(l: Lane, ours: seq<Ticket>, others: seq<Ticket>, ourRoom: string)
    requires ours != [] && l.queue == ours + others
    requires ours[0].room == ourRoom != l.last
    ensures l.queue[Pick(l.queue, l.last)] == ours[0]
    ensures Grant(l) == Lane(l.active + 1, l.limit, ourRoom, ours[1..] + others)
  {
    assert Pick(l.queue, l.last) == 0;
    assert l.queue[..0] == [] && l.queue[1..] == ours[1..] + others;
    assert [] + l.queue[1..] == l.queue[1..];
  }

  lemma TwoGrants(l: Lane, ours: seq<Ticket>, others: seq<Ticket>, room: string)
    requires |ours| == |others| > 0 && l.queue == ours + others
    requires AllOf(ours, l.last) && AllOf(others, room) && room != l.last
    requires l.limit - l.active >= 2
    ensures var l2 := Lane(l.active + 2, l.limit, l.last, ours[1..] + others[1..]);
      Dispatch(l).1 == [others[0], ours[0]] + Dispatch(l2).1
  {
    OthersFirst(l, ours, others, room);
    var l1 := Lane(l.active + 1, l.limit, room, ours + others[1..]);
    OursNext(l1, ours, others[1..], l.last);
  }

  lemma {:induction false} Alternates(l: Lane, ours: seq<Ticket>, others: seq<Ticket>, room: string)
    requires |ours| == |others| > 0 && l.queue == ours + others
    requires AllOf(ours, l.last) && AllOf(others, room) && room != l.last
    requires l.limit - l.active >= 2 * |ours|
    ensures |Dispatch(l).1| == 2 * |ours| && Last(Dispatch(l).1) == Last(ours)
    decreases |ours|
  {
    TwoGrants(l, ours, others, room);
    var l2 := Lane(l.active + 2, l.limit, l.last, ours[1..] + others[1..]);
    if |ours| > 1 {
      Alternates(l2, ours[1..], others[1..], room);
    } else {
      assert Dispatch(l2).1 == [];
    }
  }

  function Arrivals(ts: seq<Ticket>): (r: seq<Step>)
    ensures |r| == |ts| && forall i :: 0 <= i < |ts| ==> r[i] == Enqueue(ts[i])
  {
    seq(|ts|, i requires 0 <= i < |ts| => Enqueue(ts[i]))
  }

  lemma {:induction false} FullLaneQueues(s: System, ts: seq<Ticket>)
    requires s.lane.active >= s.lane.limit
    requires forall i :: 0 <= i < |ts| ==> ts[i].id !in s.seen
    requires forall i, j :: 0 <= i < j < |ts| ==> ts[i].id != ts[j].id
    ensures Legal(s, Arrivals(ts))
    ensures var e := Exec(s, Arrivals(ts));
      e.lane == s.lane.(queue := s.lane.queue + ts) && e.log == s.log
    decreases |ts|
  {
    if ts == [] {
      assert s.lane.queue + ts == s.lane.queue;
    } else {
      var s' := Next(s, Enqueue(ts[0]));
      assert Arrivals(ts)[1..] == Arrivals(ts[1..]);
      assert s'.lane.queue + ts[1..] == s.lane.queue + ts;
      FullLaneQueues(s', ts[1..]);
    }
  }

  function Crowd(n: nat, from: nat, room: string): (ts: seq<Ticket>)
    ensures |ts| == n && forall i :: 0 <= i < n ==> ts[i] == Ticket(from + i, room)
  {
    seq(n, i requires 0 <= i < n => Ticket(from + i, room))
  }

  lemma GrantedOnce(s: System, step: Step)
    requires Enabled(s, step)
    ensures Granted(s, [step]) == GrantedIn(s, step)
  {
    assert [step][1..] == [];
    assert Granted(s, [step]) == GrantedIn(s, step) + Granted(Next(s, step), []);
  }

  lemma CrowdedLane(s: System, ours: seq<Ticket>, others: seq<Ticket>, room: string)
    requires |ours| == |others| > 0 && s.lane.queue == ours + others && Distinct(ours + others)
    requires AllOf(ours, s.lane.last) && AllOf(others, room) && room != s.lane.last
    requires s.lane.active == 1
    ensures var g := Granted(s, [SetLimit(1 + 2 * |ours|)]);
      |g| == 2 * |ours| && Last(g) == Last(ours) && Last(g) !in g[..|g| - 1]
  {
    var step := SetLimit(1 + 2 * |ours|);
    Alternates(Before(s, step), ours, others, room);
    DispatchMoves(Before(s, step));
    GrantedOnce(s, step);
  }

  lemma CrowdArrives(crowd: seq<Ticket>) returns (run: seq<Step>, s: System)
    requires forall i :: 0 <= i < |crowd| ==> crowd[i].id == i + 1
    ensures Legal(Start(1), run) && s == Exec(Start(1), run)
    ensures s.lane == Lane(1, 1, "a", crowd)
  {
    var first := Enqueue(Ticket(0, "a"));
    FullLaneQueues(Next(Start(1), first), crowd);
    run := [first] + Arrivals(crowd);
    assert run[1..] == Arrivals(crowd);
    s := Exec(Next(Start(1), first), Arrivals(crowd));
    assert [] + crowd == crowd;
  }

  lemma TwoCrowds(n: nat) returns (ours: seq<Ticket>, others: seq<Ticket>)
    ensures |ours| == |others| == n && AllOf(ours, "a") && AllOf(others, "b")
    ensures Distinct(ours + others)
    ensures forall i :: 0 <= i < 2 * n ==> (ours + others)[i].id == i + 1
  {
    ours, others := Crowd(n, 1, "a"), Crowd(n, n + 1, "b");
  }

  /** No smaller bound holds: for every `k` a fresh lane reaches a state in which
      the ticket with `k` tickets ahead is granted as number `2 * (k + 1)`. */
  lemma BypassBoundIsTight(k: nat) returns (run: seq<Step>, s: System, last: Step, g: seq<Ticket>)
    ensures Legal(Start(1), run) && s == Exec(Start(1), run)
    ensures Enabled(s, last) && g == Granted(s, [last])
    ensures k < |s.lane.queue| && |g| == 2 * (k + 1)
    ensures Last(g) == s.lane.queue[k] && Last(g) !in g[..|g| - 1]
  {
    var ours, others := TwoCrowds(k + 1);
    run, s := CrowdArrives(ours + others);
    last := SetLimit(1 + 2 * |ours|);
    g := Granted(s, [last]);
    CrowdedLane(s, ours, others, "b");
  }

  // ----- order within a room

  ghost predicate Ahead(queue: seq<Ticket>, a: Ticket, b: Ticket) {
    exists i, j :: 0 <= i < j < |queue| && queue[i] == a && queue[j] == b
  }

  ghost predicate FirstOf(g: seq<Ticket>, a: Ticket, b: Ticket) {
    exists i :: 0 <= i < |g| && g[i] == a && b !in g[..i]
  }

  lemma FirstOfAppend(g: seq<Ticket>, h: seq<Ticket>, a: Ticket, b: Ticket)
    ensures FirstOf(g, a, b) ==> FirstOf(g + h, a, b)
    ensures b !in g && FirstOf(h, a, b) ==> FirstOf(g + h, a, b)
  {
    if FirstOf(g, a, b) {
      var p :| 0 <= p < |g| && g[p] == a && b !in g[..p];
      assert (g + h)[p] == a && (g + h)[..p] == g[..p];
    }
    if b !in g && FirstOf(h, a, b) {
      var p :| 0 <= p < |h| && h[p] == a && b !in h[..p];
      assert (g + h)[|g| + p] == a && (g + h)[..|g| + p] == g + h[..p];
    }
  }

  lemma AheadWithout(queue: seq<Ticket>, i: nat, x: nat, y: nat)
    requires x < y < |queue| && i < |queue| && i != x && i != y
    ensures Ahead(Without(queue, i), queue[x], queue[y])
  {
    var x', y' := if i < x then x - 1 else x, if i < y then y - 1 else y;
    assert x' < y' && Without(queue, i)[x'] == queue[x] && Without(queue, i)[y'] == queue[y];
  }

  lemma GrantOrder(l: Lane, a: Ticket, b: Ticket)
    requires Distinct(l.queue) && Ahead(l.queue, a, b) && a.room == b.room
    ensures var t := l.queue[Pick(l.queue, l.last)];
      t != b && (t == a || Ahead(Grant(l).queue, a, b))
  {
    var i := Pick(l.queue, l.last);
    PickRule(l.queue, l.last);
    var x, y :| 0 <= x < y < |l.queue| && l.queue[x] == a && l.queue[y] == b;
    assert x < i ==> l.queue[..i][x] == a;
    if i != x {
      AheadWithout(l.queue, i, x, y);
    }
  }

  lemma {:induction false} DispatchOrder(l: Lane, a: Ticket, b: Ticket)
    requires Distinct(l.queue) && Ahead(l.queue, a, b) && a.room == b.room
    ensures var (l', g) := Dispatch(l);
      FirstOf(g, a, b) || (a !in g && b !in g && Ahead(l'.queue, a, b))
    decreases |l.queue|
  {
    if l.active < l.limit && l.queue != [] {
      GrantOrder(l, a, b);
      var t, rest := l.queue[Pick(l.queue, l.last)], Dispatch(Grant(l)).1;
      if t == a {
        assert ([t] + rest)[0] == a && ([t] + rest)[..0] == [];
      } else {
        WithoutFacts(l.queue, Pick(l.queue, l.last));
        DispatchOrder(Grant(l), a, b);
        FirstOfAppend([t], rest, a, b);
      }
    }
  }

  lemma BeforeOrder(s: System, step: Step, a: Ticket, b: Ticket)
    requires Ahead(s.lane.queue, a, b) && step != Leave(a) && step != Leave(b)
    ensures Ahead(Before(s, step).queue, a, b)
  {
    var q := s.lane.queue;
    var x, y :| 0 <= x < y < |q| && q[x] == a && q[y] == b;
    var q' := Before(s, step).queue;
    if step.Leave? && Find(q, step.t) < |q| {
      AheadWithout(q, Find(q, step.t), x, y);
    } else {
      assert q'[x] == a && q'[y] == b;
    }
  }

  lemma {:induction false} RunOrder(s: System, run: seq<Step>, a: Ticket, b: Ticket)
    requires Inv(s) && Legal(s, run) && Leave(a) !in run && Leave(b) !in run
    requires Ahead(s.lane.queue, a, b) && a.room == b.room
    ensures var g := Granted(s, run);
      FirstOf(g, a, b) || (a !in g && b !in g && Ahead(Exec(s, run).lane.queue, a, b))
    decreases |run|
  {
    if run != [] {
      NextBooks(s, run[0]);
      StepOrder(s, run[0], a, b);
      var s', now := Next(s, run[0]), GrantedIn(s, run[0]);
      FirstOfAppend(now, Granted(s', run[1..]), a, b);
      if !FirstOf(now, a, b) {
        RunOrder(s', run[1..], a, b);
      }
    }
  }

  /** Tickets of one room are granted in the order in which they were queued,
      as long as neither of the two leaves. */
  lemma RoomOrder(s: System, run: seq<Step>, a: Ticket, b: Ticket)
    requires Inv(s) && Legal(s, run) && Leave(a) !in run && Leave(b) !in run
    requires Ahead(s.lane.queue, a, b) && a.room == b.room
    ensures b in Granted(s, run) ==> FirstOf(Granted(s, run), a, b)
  {
    RunOrder(s, run, a, b);
  }

  lemma StepOrder(s: System, step: Step, a: Ticket, b: Ticket)
    requires Inv(s) && Enabled(s, step) && step != Leave(a) && step != Leave(b)
    requires Ahead(s.lane.queue, a, b) && a.room == b.room
    ensures var g := GrantedIn(s, step);
      FirstOf(g, a, b) || (a !in g && b !in g && Ahead(Next(s, step).lane.queue, a, b))
  {
    if !step.Notice? {
      BeforeBooks(s, step);
      BeforeOrder(s, step, a, b);
      DispatchOrder(Before(s, step), a, b);
    }
  }

  /** What the dispatcher's scan finds is the specified ticket. */
  lemma PickIs(queue: seq<Ticket>, last: string, i: nat)
    requires queue != [] && i <= |queue| && AllOf(queue[..i], last)
    requires i < |queue| ==> queue[i].room != last
    ensures Pick(queue, last) == if i < |queue| then i else 0
  {
    var p := Pick(queue, last);
    assert p < i ==> queue[..i][p] == queue[p];
    assert i < p ==> queue[..p][i] == queue[i];
    PickRule(queue, last);
  }

}
