/** Statistics counted from the correction ledger (internal/chat/types.go). */
module CorrectionCounts {
  import opened Options
  import opened Participants
  import opened Corrections
  import opened CorrectionTheorems

  datatype Counts = Counts(offered: int, accepted: int, retracted: int, pending: int, received: int)

  const ZERO := Counts(0, 0, 0, 0, 0)

  function Of(agents: map<string, Counts>, p: string): Counts { if p in agents then agents[p] else ZERO }

  predicate Waiting(s: Status) { s.PendingStatus? || s.DisputedStatus? }

  /** The counters that one correction moves: first `offered`, then one by status. */
  function Proposed(n: Counts, s: Status): Counts {
    var o := n.(offered := n.offered + 1);
    match s
    case AcceptedStatus => o.(accepted := o.accepted + 1)
    case RetractedStatus => o.(retracted := o.retracted + 1)
    case PendingStatus => o.(pending := o.pending + 1)
    case DisputedStatus => o.(pending := o.pending + 1)
  }

  function Received(n: Counts): Counts { n.(received := n.received + 1) }

  function InRoom(n: Counts, s: Status): Counts { if s.AcceptedStatus? then Received(Proposed(n, s)) else Proposed(n, s) }

  /** One round of the loop: the proposer's counts are read first and written
      last, around the update of the target's. */
  function Tally(agents: map<string, Counts>, c: Correction): map<string, Counts> {
    var proposer := Proposed(Of(agents, c.proposer), c.status);
    var agents' := if c.status.AcceptedStatus? then agents[c.target := Received(Of(agents, c.target))] else agents;
    agents'[c.proposer := proposer]
  }

  function TallyAll(agents: map<string, Counts>, l: seq<Correction>): map<string, Counts>
    decreases |l|
  {
    if l == [] then agents else TallyAll(Tally(agents, l[0]), l[1..])
  }

  function RoomAll(room: Counts, l: seq<Correction>): Counts
    decreases |l|
  {
    if l == [] then room else RoomAll(InRoom(room, l[0].status), l[1..])
  }

  const NOBODY: map<string, Counts> := map[AGENTS[0] := ZERO, AGENTS[1] := ZERO, AGENTS[2] := ZERO, AGENTS[3] := ZERO]

  // ----- counting independently

  function Num(l: seq<Correction>, f: Correction -> bool): nat {
    if l == [] then 0 else (if f(l[0]) then 1 else 0) + Num(l[1..], f)
  }

  function IsAccepted(): Correction -> bool { (c: Correction) => c.status.AcceptedStatus? }

  function IsRetracted(): Correction -> bool { (c: Correction) => c.status.RetractedStatus? }

  function IsWaiting(): Correction -> bool { (c: Correction) => Waiting(c.status) }

  function By(p: string): Correction -> bool { (c: Correction) => c.proposer == p }

  function AcceptedBy(p: string): Correction -> bool { (c: Correction) => c.proposer == p && c.status.AcceptedStatus? }

  function RetractedBy(p: string): Correction -> bool { (c: Correction) => c.proposer == p && c.status.RetractedStatus? }

  function WaitingBy(p: string): Correction -> bool { (c: Correction) => c.proposer == p && Waiting(c.status) }

  function AcceptedFrom(p: string): Correction -> bool { (c: Correction) => c.target == p && c.status.AcceptedStatus? }

  /** Acceptances of corrections that a participant proposed against itself. */
  function SelfAccepted(p: string): Correction -> bool {
    (c: Correction) => c.proposer == p && c.target == p && c.status.AcceptedStatus?
  }

  // ----- the room

  /** The counters agree with the corrections counted, on top of what was there. */
  predicate RoomAgrees(room: Counts, r: Counts, l: seq<Correction>) {
    && r.offered == room.offered + |l|
    && r.accepted == room.accepted + Num(l, IsAccepted())
    && r.retracted == room.retracted + Num(l, IsRetracted())
    && r.pending == room.pending + Num(l, IsWaiting())
    && r.received == room.received + Num(l, IsAccepted())
  }

  lemma {:induction false} RoomCounts(room: Counts, l: seq<Correction>)
    ensures RoomAgrees(room, RoomAll(room, l), l)
    decreases |l|
  {
    if l != [] {
      RoomCounts(InRoom(room, l[0].status), l[1..]);
    }
  }

  lemma {:induction false} StatusesCover(l: seq<Correction>)
    ensures |l| == Num(l, IsAccepted()) + Num(l, IsRetracted()) + Num(l, IsWaiting())
    decreases |l|
  {
    if l != [] {
      StatusesCover(l[1..]);
    }
  }

  /** In the room, every correction is accepted, retracted or pending, and is one
      of the ledger; acceptances received are acceptances. */
  lemma RoomConserves(l: seq<Correction>)
    ensures var r := RoomAll(ZERO, l);
      r.offered == |l| && r.offered == r.accepted + r.retracted + r.pending && r.received == r.accepted
  {
    RoomCounts(ZERO, l);
    StatusesCover(l);
  }

  // ----- the agents

  /** The counters of `p` agree, but acceptances of its own corrections against
      itself are lost. */
  predicate Agrees(n: Counts, r: Counts, l: seq<Correction>, p: string) {
    && r.offered == n.offered + Num(l, By(p))
    && r.accepted == n.accepted + Num(l, AcceptedBy(p))
    && r.retracted == n.retracted + Num(l, RetractedBy(p))
    && r.pending == n.pending + Num(l, WaitingBy(p))
    && r.received == n.received + Num(l, AcceptedFrom(p)) - Num(l, SelfAccepted(p))
  }

  lemma {:induction false} TallyCounts(agents: map<string, Counts>, l: seq<Correction>, p: string)
    ensures Agrees(Of(agents, p), Of(TallyAll(agents, l), p), l, p)
    decreases |l|
  {
    if l != [] {
      TallyCounts(Tally(agents, l[0]), l[1..], p);
    }
  }

  predicate AcceptedByAnother(c: Correction) { c.status.AcceptedStatus? ==> c.proposer != c.target }

  lemma {:induction false} NoneLost(l: seq<Correction>, p: string)
    requires forall i :: 0 <= i < |l| ==> AcceptedByAnother(l[i])
    ensures Num(l, SelfAccepted(p)) == 0
    decreases |l|
  {
    if l != [] {
      assert AcceptedByAnother(l[0]);
      forall i | 0 <= i < |l[1..]|
        ensures AcceptedByAnother(l[1..][i])
      {
        assert AcceptedByAnother(l[i + 1]);
      }
      NoneLost(l[1..], p);
    }
  }

  lemma {:induction false} SomeLost(l: seq<Correction>, i: nat)
    requires i < |l| && !AcceptedByAnother(l[i])
    ensures Num(l, SelfAccepted(l[i].target)) > 0
    decreases |l|
  {
    if i > 0 {
      SomeLost(l[1..], i - 1);
    }
  }

  predicate ReceivedRight(agents: map<string, Counts>, l: seq<Correction>, p: string) {
    Of(agents, p).received == Num(l, AcceptedFrom(p))
  }

  lemma RightAt(l: seq<Correction>, p: string)
    requires forall i :: 0 <= i < |l| ==> AcceptedByAnother(l[i])
    ensures ReceivedRight(TallyAll(NOBODY, l), l, p)
  {
    NoneLost(l, p);
    TallyCounts(NOBODY, l, p);
  }

  lemma WrongAt(l: seq<Correction>, i: nat)
    requires i < |l| && !AcceptedByAnother(l[i])
    ensures !ReceivedRight(TallyAll(NOBODY, l), l, l[i].target)
  {
    SomeLost(l, i);
    TallyCounts(NOBODY, l, l[i].target);
  }

  ghost predicate AllRight(l: seq<Correction>) { forall p :: ReceivedRight(TallyAll(NOBODY, l), l, p) }

  ghost predicate AllByAnother(l: seq<Correction>) { forall i :: 0 <= i < |l| ==> AcceptedByAnother(l[i]) }

  /** The read-modify-write of two entries counts the acceptances received rightly
      exactly when no accepted correction has its proposer as its target. */
  lemma ReceivedRightIff(l: seq<Correction>)
    ensures AllRight(l) <==> AllByAnother(l)
  {
    forall p | AllByAnother(l)
      ensures ReceivedRight(TallyAll(NOBODY, l), l, p)
    {
      RightAt(l, p);
    }
    forall i | 0 <= i < |l| && !AcceptedByAnother(l[i])
      ensures !ReceivedRight(TallyAll(NOBODY, l), l, l[i].target)
    {
      WrongAt(l, i);
    }
  }

  lemma LedgerByAnother(ms: seq<Message>, i: nat)
    requires i < |Ledger(ms)|
    ensures AcceptedByAnother(Ledger(ms)[i])
  {
    LedgerAttributed(ms);
    assert Attributed(ms, Ledger(ms)[i]);
  }

  /** For the ledger of any transcript every counter of every participant is the
      number of corrections it stands for. */
  lemma StatisticsRight(ms: seq<Message>, p: string)
    ensures var l := Ledger(ms);
      var n := Of(TallyAll(NOBODY, l), p);
      && n.offered == Num(l, By(p)) && n.accepted == Num(l, AcceptedBy(p)) && n.retracted == Num(l, RetractedBy(p))
      && n.pending == Num(l, WaitingBy(p)) && n.received == Num(l, AcceptedFrom(p))
  {
    var l := Ledger(ms);
    forall i | 0 <= i < |l|
      ensures AcceptedByAnother(l[i])
    {
      LedgerByAnother(ms, i);
    }
    NoneLost(l, p);
    TallyCounts(NOBODY, l, p);
  }

  // ----- the room is the sum of its agents

  function Sum(ps: seq<string>, f: string -> int): int {
    if ps == [] then 0 else f(ps[0]) + Sum(ps[1..], f)
  }

  lemma {:induction false} SumPlus(ps: seq<string>, f: string -> int, g: string -> int, h: string -> int)
    requires forall p :: p in ps ==> f(p) == g(p) + h(p)
    ensures Sum(ps, f) == Sum(ps, g) + Sum(ps, h)
    decreases |ps|
  {
    if ps != [] {
      SumPlus(ps[1..], f, g, h);
    }
  }

  lemma {:induction false} SumOnce(ps: seq<string>, x: string, f: string -> int)
    requires Distinct(ps) && forall p :: p in ps ==> f(p) == if p == x then 1 else 0
    ensures Sum(ps, f) == if x in ps then 1 else 0
    decreases |ps|
  {
    if ps != [] {
      assert Distinct(ps[1..]) && ps[0] !in ps[1..];
      SumOnce(ps[1..], x, f);
    }
  }

  lemma {:induction false} SumNothing(ps: seq<string>, f: string -> int)
    requires forall p :: p in ps ==> f(p) == 0
    ensures Sum(ps, f) == 0
    decreases |ps|
  {
    if ps != [] {
      SumNothing(ps[1..], f);
    }
  }

  /** The corrections of a kind that belong to a participant. */
  function Family(whose: Correction -> string, h: Correction -> bool, p: string): Correction -> bool {
    (c: Correction) => whose(c) == p && h(c)
  }

  function NumOf(l: seq<Correction>, whose: Correction -> string, h: Correction -> bool): string -> int {
    (p: string) => Num(l, Family(whose, h, p))
  }

  function Indicator(x: string, on: bool): string -> int { (p: string) => if p == x && on then 1 else 0 }

  /** Corrections counted by whom they belong to, summed over everyone they can
      belong to, are all of them. */
  lemma {:induction false} SumOfNum(l: seq<Correction>, ps: seq<string>, whose: Correction -> string, h: Correction -> bool)
    requires Distinct(ps) && forall i :: 0 <= i < |l| ==> whose(l[i]) in ps
    ensures Sum(ps, NumOf(l, whose, h)) == Num(l, h)
    decreases |l|
  {
    if l == [] {
      SumNothing(ps, NumOf(l, whose, h));
    } else {
      forall i | 0 <= i < |l[1..]|
        ensures whose(l[1..][i]) in ps
      {
        assert l[1..][i] == l[i + 1];
      }
      var first := Indicator(whose(l[0]), h(l[0]));
      SumOfNum(l[1..], ps, whose, h);
      SumPlus(ps, NumOf(l, whose, h), first, NumOf(l[1..], whose, h));
      assert whose(l[0]) in ps;
      if h(l[0]) {
        SumOnce(ps, whose(l[0]), first);
      } else {
        SumNothing(ps, first);
      }
    }
  }

  /** Every participant of the ledger is among these. */
  ghost predicate Everyone(l: seq<Correction>, ps: seq<string>) {
    Distinct(ps) && forall i :: 0 <= i < |l| ==> l[i].proposer in ps && l[i].target in ps
  }

  lemma {:induction false} SumSame(ps: seq<string>, f: string -> int, g: string -> int)
    requires forall p :: p in ps ==> f(p) == g(p)
    ensures Sum(ps, f) == Sum(ps, g)
    decreases |ps|
  {
    if ps != [] {
      SumSame(ps[1..], f, g);
    }
  }

  lemma {:induction false} NumSame(l: seq<Correction>, f: Correction -> bool, g: Correction -> bool)
    requires forall c :: f(c) == g(c)
    ensures Num(l, f) == Num(l, g)
    decreases |l|
  {
    if l != [] {
      NumSame(l[1..], f, g);
    }
  }

  function ProposerOf(): Correction -> string { (c: Correction) => c.proposer }

  function TargetOf(): Correction -> string { (c: Correction) => c.target }

  function Any(): Correction -> bool { (c: Correction) => true }

  lemma {:induction false} NumAny(l: seq<Correction>)
    ensures Num(l, Any()) == |l|
    decreases |l|
  {
    if l != [] {
      NumAny(l[1..]);
    }
  }

  function OfferedBy(agents: map<string, Counts>): string -> int { (p: string) => Of(agents, p).offered }

  function AcceptedCount(agents: map<string, Counts>): string -> int { (p: string) => Of(agents, p).accepted }

  function ReceivedCount(agents: map<string, Counts>): string -> int { (p: string) => Of(agents, p).received }

  lemma Families(ms: seq<Message>, p: string)
    ensures var (l, agents) := (Ledger(ms), TallyAll(NOBODY, Ledger(ms)));
      && OfferedBy(agents)(p) == NumOf(l, ProposerOf(), Any())(p)
      && AcceptedCount(agents)(p) == NumOf(l, ProposerOf(), IsAccepted())(p)
      && ReceivedCount(agents)(p) == NumOf(l, TargetOf(), IsAccepted())(p)
  {
    var l := Ledger(ms);
    StatisticsRight(ms, p);
    NumSame(l, By(p), Family(ProposerOf(), Any(), p));
    NumSame(l, AcceptedBy(p), Family(ProposerOf(), IsAccepted(), p));
    NumSame(l, AcceptedFrom(p), Family(TargetOf(), IsAccepted(), p));
  }

  /** Summed over all participants, in any order, the agents' offers are the
      room's, and the acceptances received, like those proposed, are the room's
      acceptances. */
  lemma AgentsSumToRoom(ms: seq<Message>, ps: seq<string>)
    requires Everyone(Ledger(ms), ps)
    ensures var (l, agents) := (Ledger(ms), TallyAll(NOBODY, Ledger(ms)));
      && Sum(ps, OfferedBy(agents)) == RoomAll(ZERO, l).offered
      && Sum(ps, AcceptedCount(agents)) == RoomAll(ZERO, l).accepted
      && Sum(ps, ReceivedCount(agents)) == RoomAll(ZERO, l).accepted
  {
    var l, agents := Ledger(ms), TallyAll(NOBODY, Ledger(ms));
    forall p
      ensures OfferedBy(agents)(p) == NumOf(l, ProposerOf(), Any())(p)
      ensures AcceptedCount(agents)(p) == NumOf(l, ProposerOf(), IsAccepted())(p)
      ensures ReceivedCount(agents)(p) == NumOf(l, TargetOf(), IsAccepted())(p)
    {
      Families(ms, p);
    }
    SumSame(ps, OfferedBy(agents), NumOf(l, ProposerOf(), Any()));
    SumSame(ps, AcceptedCount(agents), NumOf(l, ProposerOf(), IsAccepted()));
    SumSame(ps, ReceivedCount(agents), NumOf(l, TargetOf(), IsAccepted()));
    SumOfNum(l, ps, ProposerOf(), Any());
    SumOfNum(l, ps, ProposerOf(), IsAccepted());
    SumOfNum(l, ps, TargetOf(), IsAccepted());
    NumAny(l);
    RoomCounts(ZERO, l);
  }

  // ----- the loop

  method CorrectionStatistics(l: seq<Correction>) returns (room: Counts, agents: map<string, Counts>)
    ensures room == RoomAll(ZERO, l) && agents == TallyAll(NOBODY, l)
  {
    room, agents := ZERO, NOBODY;
    var i := 0;
    while i < |l|
      invariant i <= |l|
      invariant RoomAll(ZERO, l) == RoomAll(room, l[i..]) && TallyAll(NOBODY, l) == TallyAll(agents, l[i..])
    {
      assert l[i..][1..] == l[i + 1..];
      room, agents := Round(room, agents, l[i]);
      i := i + 1;
    }
  }

  method Round(room: Counts, agents: map<string, Counts>, c: Correction) returns (room': Counts, agents': map<string, Counts>)
    ensures room' == InRoom(room, c.status) && agents' == Tally(agents, c)
  {
    room', agents' := room, agents;
    room' := room'.(offered := room'.offered + 1);
    var proposer := Of(agents', c.proposer);
    proposer := proposer.(offered := proposer.offered + 1);
    match c.status {
      case AcceptedStatus =>
        room' := room'.(accepted := room'.accepted + 1);
        room' := room'.(received := room'.received + 1);
        proposer := proposer.(accepted := proposer.accepted + 1);
        var target := Of(agents', c.target);
        target := target.(received := target.received + 1);
        agents' := agents'[c.target := target];
      case RetractedStatus =>
        room' := room'.(retracted := room'.retracted + 1);
        proposer := proposer.(retracted := proposer.retracted + 1);
      case PendingStatus =>
        room' := room'.(pending := room'.pending + 1);
        proposer := proposer.(pending := proposer.pending + 1);
      case DisputedStatus =>
        room' := room'.(pending := room'.pending + 1);
        proposer := proposer.(pending := proposer.pending + 1);
    }
    agents' := agents'[c.proposer := proposer];
  }
}
