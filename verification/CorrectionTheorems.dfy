/** The ledger grows one message at a time, and says only what authors said. */
module CorrectionTheorems {
  import opened Options
  import opened Participants
  import opened Corrections
  import opened CorrectionOrder

  // ----- one more message

  /** The message comes after all the others. */
  predicate Later(ms: seq<Message>, m: Message) { m.sequence != 0 && forall i :: 0 <= i < |ms| ==> ms[i].sequence < m.sequence }

  lemma {:induction false} InsertBefore(x: Message, a: seq<Message>, m: Message)
    requires x.sequence <= m.sequence
    ensures Insert(x, a + [m]) == Insert(x, a) + [m]
    decreases |a|
  {
    if a == [] {
      assert [] + [m] == [m];
      assert Insert(x, [m]) == [x] + [m];
    } else if x.sequence <= a[0].sequence {
      assert (a + [m])[0] == a[0];
      assert [x] + (a + [m]) == ([x] + a) + [m];
    } else {
      assert (a + [m])[1..] == a[1..] + [m];
      InsertBefore(x, a[1..], m);
      assert [a[0]] + (Insert(x, a[1..]) + [m]) == ([a[0]] + Insert(x, a[1..])) + [m];
    }
  }

  lemma {:induction false} OrderedPlus(ms: seq<Message>, m: Message)
    requires Later(ms, m)
    ensures Ordered(ms + [m]) == Ordered(ms) + [m]
    decreases |ms|
  {
    if ms == [] {
      assert [] + [m] == [m] && [m][1..] == [];
      assert Ordered([m]) == Insert(m, []) == [m];
    } else {
      assert (ms + [m])[1..] == ms[1..] + [m];
      OrderedPlus(ms[1..], m);
      InsertBefore(ms[0], Ordered(ms[1..]), m);
    }
  }

  lemma SoloPlus(ms: seq<Message>, m: Message, x: Message)
    requires Later(ms, m) && x in ms
    ensures Solo(ms + [m], x) == Solo(ms, x)
  {
    CountSplit(ms, [m], x.sequence);
    assert [m][1..] == [];
  }

  lemma {:induction false} CountNone(ms: seq<Message>, s: int)
    requires forall i :: 0 <= i < |ms| ==> ms[i].sequence != s
    ensures Count(ms, s) == 0
    decreases |ms|
  {
    if ms != [] {
      CountNone(ms[1..], s);
    }
  }

  lemma LastSolo(ms: seq<Message>, m: Message)
    requires Later(ms, m)
    ensures Solo(ms + [m], m)
  {
    CountSplit(ms, [m], m.sequence);
    CountNone(ms, m.sequence);
    assert [m][1..] == [];
  }

  /** What was looked up before is looked up still. */
  lemma AtPlus(ms: seq<Message>, m: Message, s: int)
    requires Later(ms, m) && s != m.sequence
    ensures At(ms + [m], s) == At(ms, s)
  {
    var all := ms + [m];
    if At(ms, s).Some? {
      AtGives(ms, s);
      SoloPlus(ms, m, At(ms, s).value);
      AtFinds(all, At(ms, s).value);
    }
    if At(all, s).Some? {
      AtGives(all, s);
      var x := At(all, s).value;
      assert x in ms;
      SoloPlus(ms, m, x);
      AtFinds(ms, x);
    }
  }

  lemma ReplayPlus(l: seq<Correction>, x: Message, ms: seq<Message>, m: Message)
    requires Later(ms, m) && x in ms
    ensures Replay(l, x, ms + [m]) == Replay(l, x, ms)
  {
    SoloPlus(ms, m, x);
    var o := Offers(x.events);
    if |o| == 1 && o[0].corrected != m.sequence {
      AtPlus(ms, m, o[0].corrected);
    }
  }

  lemma {:induction false} ReplayAllPlus(l: seq<Correction>, xs: seq<Message>, ms: seq<Message>, m: Message)
    requires Later(ms, m) && forall x :: x in xs ==> x in ms
    ensures ReplayAll(l, xs + [m], ms + [m]) == Replay(ReplayAll(l, xs, ms), m, ms + [m])
    decreases |xs|
  {
    if xs == [] {
      assert [] + [m] == [m] && [m][1..] == [];
      assert ReplayAll(Replay(l, m, ms + [m]), [], ms + [m]) == Replay(l, m, ms + [m]);
    } else {
      assert (xs + [m])[1..] == xs[1..] + [m] && (xs + [m])[0] == xs[0];
      ReplayPlus(l, xs[0], ms, m);
      ReplayAllPlus(Replay(l, xs[0], ms), xs[1..], ms, m);
    }
  }

  /** Replaying one more message is one more step. */
  lemma LedgerPlus(ms: seq<Message>, m: Message)
    requires Later(ms, m)
    ensures Ledger(ms + [m]) == Replay(Ledger(ms), m, ms + [m])
  {
    OrderedPlus(ms, m);
    forall x | x in Ordered(ms)
      ensures x in ms
    {
      OrderedHas(ms, x);
    }
    ReplayAllPlus([], Ordered(ms), ms, m);
  }

  /** The same correction, moved on by the message. */
  predicate MovedOn(a: Correction, b: Correction, m: Message) {
    && !Final(a.status) && b.status != a.status && b.status != PendingStatus
    && b.sequence == a.sequence && b.corrected == a.corrected && b.proposer == a.proposer && b.target == a.target
    && b.createdAt == a.createdAt && b.statusSequence == m.sequence && b.updatedAt == m.createdAt
  }

  /** At most one correction moves on and at most one is added. */
  ghost predicate Advances(a: seq<Correction>, b: seq<Correction>, m: Message) {
    && |a| <= |b| <= |a| + 1
    && (forall i, j :: 0 <= i < j < |a| ==> b[i] == a[i] || b[j] == a[j])
    && (forall i :: 0 <= i < |a| ==> b[i] == a[i] || MovedOn(a[i], b[i], m))
    && (|b| == |a| + 1 ==> b[|a|].sequence == m.sequence && b[|a|].status == PendingStatus && b[|a|].proposer == m.author)
  }

  /** A later message advances at most one correction, adds at most one, and moves
      no accepted or retracted one. */
  lemma OneStep(ms: seq<Message>, m: Message)
    requires Later(ms, m)
    ensures Advances(Ledger(ms), Ledger(ms + [m]), m)
  {
    LedgerPlus(ms, m);
  }

  ghost predicate InOrder(ms: seq<Message>, more: seq<Message>) {
    && (forall i :: 0 <= i < |more| ==> Later(ms, more[i]))
    && forall i, j :: 0 <= i < j < |more| ==> more[i].sequence < more[j].sequence
  }

  /** An accepted or retracted correction never changes again. */
  lemma {:induction false} FinalForever(ms: seq<Message>, more: seq<Message>, i: nat)
    requires InOrder(ms, more) && i < |Ledger(ms)| && Final(Ledger(ms)[i].status)
    ensures i < |Ledger(ms + more)| && Ledger(ms + more)[i] == Ledger(ms)[i]
    decreases |more|
  {
    if more == [] {
      assert ms + more == ms;
    } else {
      var next := ms + [more[0]];
      OneStep(ms, more[0]);
      assert ms + more == next + more[1..];
      assert InOrder(next, more[1..]);
      FinalForever(next, more[1..], i);
    }
  }

  // ----- who said what

  predicate Authored(all: seq<Message>, s: int, author: string) {
    At(all, s).Some? && At(all, s).value.author == author && Readable(At(all, s).value)
  }

  /** The correction was offered by its proposer against another agent's message,
      and its status was given by the one who may give it. */
  predicate Attributed(all: seq<Message>, c: Correction) {
    && c.proposer != c.target && c.corrected < c.sequence
    && Authored(all, c.sequence, c.proposer) && Authored(all, c.corrected, c.target)
    && match c.status {
         case PendingStatus => c.statusSequence == 0
         case DisputedStatus => c.sequence < c.statusSequence && Authored(all, c.statusSequence, c.target)
         case AcceptedStatus => c.sequence < c.statusSequence && Authored(all, c.statusSequence, c.target)
         case RetractedStatus => c.sequence < c.statusSequence && Authored(all, c.statusSequence, c.proposer)
       }
  }

  ghost predicate AllAttributed(all: seq<Message>, l: seq<Correction>) {
    && (forall i :: 0 <= i < |l| ==> Attributed(all, l[i]))
    && forall i, j :: 0 <= i < j < |l| ==> l[i].sequence != l[j].sequence
  }

  lemma RuleAttributed(all: seq<Message>, c: Correction, m: Message, kind: EventType)
    requires Attributed(all, c) && c.sequence < m.sequence && Authored(all, m.sequence, m.author)
    ensures Attributed(all, Rule(c, m, kind)) && Rule(c, m, kind).sequence == c.sequence
  {
  }

  lemma ResolveAttributed(all: seq<Message>, l: seq<Correction>, m: Message)
    requires AllAttributed(all, l) && Authored(all, m.sequence, m.author)
    ensures AllAttributed(all, Resolve(l, m))
  {
    var r := Resolutions(m.events);
    if |r| == 1 {
      var i := Find(l, r[0].correction);
      if i < |l| && r[0].correction < m.sequence {
        RuleAttributed(all, l[i], m, r[0].kind);
      }
    }
  }

  lemma {:induction false} ReplayAttributed(all: seq<Message>, l: seq<Correction>, ms: seq<Message>)
    requires AllAttributed(all, l) && forall x :: x in ms ==> x in all
    ensures AllAttributed(all, ReplayAll(l, ms, all))
    decreases |ms|
  {
    if ms != [] {
      var m := ms[0];
      if Solo(all, m) && Readable(m) {
        AtFinds(all, m);
        ResolveAttributed(all, l, m);
      }
      ReplayAttributed(all, Replay(l, m, all), ms[1..]);
    }
  }

  /** Every entry is attributed to the authors of retained messages, and no two
      entries share a sequence. */
  lemma LedgerAttributed(ms: seq<Message>)
    ensures AllAttributed(ms, Ledger(ms))
  {
    forall x | x in Ordered(ms)
      ensures x in ms
    {
      OrderedHas(ms, x);
    }
    ReplayAttributed(ms, [], Ordered(ms));
  }
}
