/** What the monitor's decisions say about the tools that ran. */
module ToolLoopTrace {
  import opened Options
  import opened ToolLoop

  /** A tracked start or completion, in the order of the observations. */
  datatype Effect = Began(start: Observation) | Ended(start: Observation, end: Observation)

  datatype Done = Done(start: Observation, end: Observation)

  /** The monitor, beside everything it tracked and the failures since the last
      reset, uncapped. */
  datatype System = System(monitor: Monitor, log: seq<Effect>, run: seq<Done>)

  const START := System(FRESH, [], [])

  function Effects(m: Monitor, v: Observation): seq<Effect> {
    if Starts(m, v) then [Began(v)] else if Finishes(m, v) then [Ended(m.executions[v.id].start, v)] else []
  }

  function RunAfter(m: Monitor, run: seq<Done>, v: Observation): seq<Done> {
    if Starts(m, v) then if m.inFlight > 0 then [] else run
    else if Finishes(m, v) then
      if Sequential(m.executions[v.id], v, m.inFlight - 1) then run + [Done(m.executions[v.id].start, v)] else []
    else run
  }

  function Next(h: Hash, s: System, value: Option<Observation>): System {
    var m' := Observe(h, s.monitor, value).0;
    if value.None? || m'.disabled then s.(monitor := m')
    else System(m', s.log + Effects(s.monitor, value.value), RunAfter(s.monitor, s.run, value.value))
  }

  function Exec(h: Hash, s: System, trace: seq<Option<Observation>>): System
    decreases |trace|
  {
    if trace == [] then s else Exec(h, Next(h, s, trace[0]), trace[1..])
  }

  // ----- executions in flight

  function Undone(executions: map<string, Execution>): set<string> {
    set id | id in executions && executions[id].end.None?
  }

  ghost predicate Counted(m: Monitor) { m.inFlight == |Undone(m.executions)| }

  lemma StartCounted(m: Monitor, v: Observation)
    requires Counted(m) && v.id !in m.executions
    ensures Counted(Start(m, v))
  {
    var m' := Start(m, v);
    assert Undone(m'.executions) == Undone(m.executions) + {v.id};
  }

  lemma FinishCounted(h: Hash, m: Monitor, v: Observation)
    requires Counted(m) && v.id in m.executions && m.executions[v.id].end.None?
    ensures Counted(Finish(h, m, v).0)
  {
    var m' := Finish(h, m, v).0;
    assert Undone(m'.executions) == Undone(m.executions) - {v.id};
  }

  lemma ObserveCounted(h: Hash, m: Monitor, value: Option<Observation>)
    requires Counted(m)
    ensures Counted(Observe(h, m, value).0)
  {
    if value.Some? {
      if Starts(m, value.value) {
        StartCounted(m, value.value);
      } else if Finishes(m, value.value) {
        FinishCounted(h, m, value.value);
      }
    }
  }

  lemma {:induction false} RunCounted(h: Hash, s: System, trace: seq<Option<Observation>>)
    requires Counted(s.monitor)
    ensures Counted(Exec(h, s, trace).monitor)
    decreases |trace|
  {
    if trace != [] {
      ObserveCounted(h, s.monitor, trace[0]);
      RunCounted(h, Next(h, s, trace[0]), trace[1..]);
    }
  }

  /** Whatever is observed, the counter is the number of tracked executions that
      have not finished. */
  lemma InFlightIsUndone(h: Hash, trace: seq<Option<Observation>>)
    ensures var m := Exec(h, START, trace).monitor; m.inFlight == |Undone(m.executions)|
  {
    assert Undone(FRESH.executions) == {};
    RunCounted(h, START, trace);
  }

  // ----- the failures since the last reset end the trace

  function Pairs(run: seq<Done>): seq<Effect> {
    if run == [] then [] else Pairs(run[..|run| - 1]) + [Began(run[|run| - 1].start), Ended(run[|run| - 1].start, run[|run| - 1].end)]
  }

  predicate EndsWith(log: seq<Effect>, tail: seq<Effect>) { |tail| <= |log| && log[|log| - |tail|..] == tail }

  lemma EndsWithPlus(log: seq<Effect>, tail: seq<Effect>, more: seq<Effect>)
    requires EndsWith(log, tail)
    ensures EndsWith(log + more, tail + more)
  {
  }

  function Attempts(h: Hash, run: seq<Done>): (r: seq<Attempt>)
    ensures |r| == |run| && forall i :: 0 <= i < |r| ==> r[i] == AttemptOf(h, run[i].end)
  {
    seq(|run|, i requires 0 <= i < |run| => AttemptOf(h, run[i].end))
  }

  /** A failed execution with its evidence. */
  predicate Failure(d: Done) {
    d.start.id == d.end.id && d.start.operation == d.end.operation && d.end.outcome == Failed && d.end.result != ""
  }

  predicate Open(m: Monitor, id: string) { id in m.executions && m.executions[id].end.None? }

  /** The log ends with the failures since the last reset, one after the other,
      and with the start of the one execution in flight, if it is alone. */
  ghost predicate Tracks(s: System) {
    && (s.monitor.inFlight == 0 ==> EndsWith(s.log, Pairs(s.run)))
    && (forall id :: Open(s.monitor, id) ==>
          if s.monitor.executions[id].overlapped then s.run == []
          else s.monitor.inFlight == 1 && EndsWith(s.log, Pairs(s.run) + [Began(s.monitor.executions[id].start)]))
    && forall id :: id in s.monitor.executions ==> s.monitor.executions[id].start.id == id
  }

  ghost predicate Remembers(h: Hash, s: System) {
    && s.monitor.attempts == Tail(Attempts(h, s.run), WINDOW)
    && forall i :: 0 <= i < |s.run| ==> Failure(s.run[i])
  }

  ghost predicate Faithful(h: Hash, s: System) {
    !s.monitor.disabled ==> Counted(s.monitor) && Tracks(s) && Remembers(h, s)
  }

  lemma NoneInFlight(m: Monitor, id: string)
    requires Counted(m) && Open(m, id)
    ensures m.inFlight > 0
  {
    assert id in Undone(m.executions);
  }

  lemma OnlyOne(m: Monitor, id: string, other: string)
    requires Counted(m) && Open(m, id) && Open(m, other) && m.inFlight == 1
    ensures id == other
  {
    assert {id, other} <= Undone(m.executions);
    if id != other {
      SubsetSize({id, other}, Undone(m.executions));
    }
  }

  lemma StartTracks(h: Hash, s: System, v: Observation)
    requires Faithful(h, s) && Starts(s.monitor, v)
    ensures Tracks(Next(h, s, Some(v)))
  {
    var s' := Next(h, s, Some(v));
    StartCounted(s.monitor, v);
    if s.monitor.inFlight == 0 {
      EndsWithPlus(s.log, Pairs(s.run), [Began(v)]);
      forall id | Open(s'.monitor, id)
        ensures id == v.id
      {
        OnlyOne(s'.monitor, id, v.id);
      }
    }
  }

  lemma FinishTracks(h: Hash, s: System, v: Observation)
    requires Faithful(h, s) && Finishes(s.monitor, v)
    ensures Tracks(Next(h, s, Some(v)))
  {
    var m, e := s.monitor, s.monitor.executions[v.id];
    var s' := Next(h, s, Some(v));
    FinishCounted(h, m, v);
    assert Open(m, v.id);
    if Sequential(e, v, m.inFlight - 1) {
      var d := Done(e.start, v);
      EndsWithPlus(s.log, Pairs(s.run) + [Began(e.start)], [Ended(e.start, v)]);
      assert Pairs(s.run) + [Began(e.start)] + [Ended(e.start, v)] == Pairs(s.run + [d]);
      forall id | Open(s'.monitor, id)
        ensures false
      {
        NoneInFlight(s'.monitor, id);
      }
    } else {
      forall id | Open(s'.monitor, id)
        ensures s'.monitor.executions[id].overlapped
      {
        assert Open(m, id);
        if !m.executions[id].overlapped {
          OnlyOne(m, id, v.id);
        }
      }
    }
  }

  lemma FinishRemembers(h: Hash, s: System, v: Observation)
    requires Faithful(h, s) && Finishes(s.monitor, v)
    ensures Remembers(h, Next(h, s, Some(v)))
  {
    var e := s.monitor.executions[v.id];
    if Sequential(e, v, s.monitor.inFlight - 1) {
      TailAppend(Attempts(h, s.run), [AttemptOf(h, v)], WINDOW);
    }
  }

  /** Neither a start nor a completion: nothing is logged. */
  lemma QuietFaithful(h: Hash, s: System, value: Option<Observation>)
    requires Faithful(h, s)
    requires value.Some? && !s.monitor.disabled ==> !Starts(s.monitor, value.value) && !Finishes(s.monitor, value.value)
    ensures Faithful(h, Next(h, s, value))
  {
    assert s.log + [] == s.log;
    if value.Some? && !s.monitor.disabled {
      ObserveCounted(h, s.monitor, value);
    }
  }

  lemma StepFaithful(h: Hash, s: System, value: Option<Observation>)
    requires Faithful(h, s)
    ensures Faithful(h, Next(h, s, value))
  {
    if value.None? || s.monitor.disabled || (!Starts(s.monitor, value.value) && !Finishes(s.monitor, value.value)) {
      QuietFaithful(h, s, value);
    } else if Starts(s.monitor, value.value) {
      StartCounted(s.monitor, value.value);
      StartTracks(h, s, value.value);
    } else {
      FinishCounted(h, s.monitor, value.value);
      FinishTracks(h, s, value.value);
      FinishRemembers(h, s, value.value);
    }
  }

  lemma {:induction false} RunFaithful(h: Hash, s: System, trace: seq<Option<Observation>>)
    requires Faithful(h, s)
    ensures Faithful(h, Exec(h, s, trace))
    decreases |trace|
  {
    if trace != [] {
      StepFaithful(h, s, trace[0]);
      RunFaithful(h, Next(h, s, trace[0]), trace[1..]);
    }
  }

  lemma StartFaithful(h: Hash)
    ensures Faithful(h, START)
  {
    assert Undone(FRESH.executions) == {};
  }
}
