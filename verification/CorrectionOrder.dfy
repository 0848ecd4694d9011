/** The ledger does not depend on the order of the messages, and grows by one
    message at a time. */
module CorrectionOrder {
  import opened Options
  import opened Participants
  import opened Corrections

  // ----- counting and sorting

  lemma {:induction false} CountSplit(a: seq<Message>, b: seq<Message>, s: int)
    ensures Count(a + b, s) == Count(a, s) + Count(b, s)
    decreases |a|
  {
    if a == [] {
      assert a + b == b;
    } else {
      assert (a + b)[1..] == a[1..] + b;
      CountSplit(a[1..], b, s);
    }
  }

  lemma CountAround(b: seq<Message>, k: nat, s: int)
    requires k < |b|
    ensures Count(b, s) == Count(b[..k] + b[k + 1..], s) + (if b[k].sequence == s then 1 else 0)
  {
    assert b == b[..k] + ([b[k]] + b[k + 1..]);
    CountSplit(b[..k], [b[k]] + b[k + 1..], s);
    CountSplit([b[k]], b[k + 1..], s);
    CountSplit(b[..k], b[k + 1..], s);
    assert [b[k]][1..] == [];
  }

  lemma SameRest(a: seq<Message>, b: seq<Message>, k: nat)
    requires a != [] && k < |b| && b[k] == a[0] && multiset(a) == multiset(b)
    ensures multiset(a[1..]) == multiset(b[..k] + b[k + 1..])
  {
    assert a == [a[0]] + a[1..];
    assert b == b[..k] + [b[k]] + b[k + 1..];
    assert multiset(b) == multiset(b[..k]) + multiset{b[k]} + multiset(b[k + 1..]);
    assert multiset(a) == multiset{a[0]} + multiset(a[1..]);
    Cancel(multiset(a[1..]), multiset(b[..k]), multiset(b[k + 1..]), a[0]);
  }

  lemma Cancel(t: multiset<Message>, p: multiset<Message>, q: multiset<Message>, x: Message)
    requires multiset{x} + t == p + multiset{x} + q
    ensures t == p + q
  {
    forall y
      ensures t[y] == (p + q)[y]
    {
      assert (multiset{x} + t)[y] == (p + multiset{x} + q)[y];
    }
  }

  lemma {:induction false} CountOrderFree(a: seq<Message>, b: seq<Message>, s: int)
    requires multiset(a) == multiset(b)
    ensures Count(a, s) == Count(b, s)
    decreases |a|
  {
    if a == [] {
      assert |multiset(b)| == 0;
    } else {
      assert a[0] in multiset(b);
      var k :| 0 <= k < |b| && b[k] == a[0];
      SameRest(a, b, k);
      CountOrderFree(a[1..], b[..k] + b[k + 1..], s);
      CountAround(b, k, s);
    }
  }

  lemma {:induction false} CountHas(a: seq<Message>, m: Message)
    requires m in a
    ensures Count(a, m.sequence) >= 1
    decreases |a|
  {
    if a[0] != m {
      CountHas(a[1..], m);
    }
  }

  /** A message that is alone with its sequence is the only one with it. */
  lemma {:induction false} SoloOnly(a: seq<Message>, m: Message, x: Message)
    requires m in a && x in a && x.sequence == m.sequence && Count(a, m.sequence) == 1
    ensures x == m
    decreases |a|
  {
    if a[0] == m || a[0] == x {
      if m in a[1..] {
        CountHas(a[1..], m);
      }
      if x in a[1..] {
        CountHas(a[1..], x);
      }
    } else {
      CountHas(a[1..], m);
      SoloOnly(a[1..], m, x);
    }
  }

  ghost predicate Sorted(a: seq<Message>) { forall i, j :: 0 <= i < j < |a| ==> a[i].sequence <= a[j].sequence }

  ghost predicate Strict(a: seq<Message>) { forall i, j :: 0 <= i < j < |a| ==> a[i].sequence < a[j].sequence }

  lemma SortedPlus(m: Message, a: seq<Message>)
    requires Sorted(a) && forall x :: x in a ==> m.sequence <= x.sequence
    ensures Sorted([m] + a)
  {
    assert forall i :: 0 <= i < |a| ==> a[i] in a;
  }

  lemma {:induction false} InsertHas(m: Message, a: seq<Message>)
    ensures multiset(Insert(m, a)) == multiset{m} + multiset(a)
    ensures forall x :: x in Insert(m, a) ==> x == m || x in a
    decreases |a|
  {
    if a != [] && m.sequence > a[0].sequence {
      InsertHas(m, a[1..]);
      assert a == [a[0]] + a[1..];
    }
  }

  lemma {:induction false} InsertSorted(m: Message, a: seq<Message>)
    requires Sorted(a)
    ensures Sorted(Insert(m, a))
    decreases |a|
  {
    if a == [] || m.sequence <= a[0].sequence {
      SortedPlus(m, a);
    } else {
      InsertSorted(m, a[1..]);
      InsertHas(m, a[1..]);
      SortedPlus(a[0], Insert(m, a[1..]));
    }
  }

  lemma {:induction false} OrderedSorts(a: seq<Message>)
    ensures Sorted(Ordered(a)) && multiset(Ordered(a)) == multiset(a)
    decreases |a|
  {
    if a != [] {
      OrderedSorts(a[1..]);
      InsertSorted(a[0], Ordered(a[1..]));
      InsertHas(a[0], Ordered(a[1..]));
      assert a == [a[0]] + a[1..];
    }
  }

  lemma OrderedHas(a: seq<Message>, m: Message)
    ensures m in Ordered(a) <==> m in a
  {
    OrderedSorts(a);
    assert m in multiset(Ordered(a)) <==> m in multiset(a);
  }

  // ----- looking up

  lemma {:induction false} LookupFinds(all: seq<Message>, among: seq<Message>, m: Message)
    requires m in among && Solo(all, m)
    requires forall x :: x in among && x.sequence == m.sequence && Solo(all, x) ==> x == m
    ensures Lookup(all, among, m.sequence) == Some(m)
    decreases |among|
  {
    if !(among[0].sequence == m.sequence && Solo(all, among[0])) {
      LookupFinds(all, among[1..], m);
    } else {
      assert among[0] in among;
    }
  }

  lemma {:induction false} LookupGives(all: seq<Message>, among: seq<Message>, s: int)
    requires Lookup(all, among, s).Some?
    ensures var m := Lookup(all, among, s).value; m in among && m.sequence == s && Solo(all, m)
    decreases |among|
  {
    if !(among[0].sequence == s && Solo(all, among[0])) {
      LookupGives(all, among[1..], s);
    }
  }

  function At(all: seq<Message>, s: int): Option<Message> { Lookup(all, Ordered(all), s) }

  lemma AtFinds(all: seq<Message>, m: Message)
    requires m in all && Solo(all, m)
    ensures At(all, m.sequence) == Some(m)
  {
    OrderedHas(all, m);
    forall x | x in Ordered(all) && x.sequence == m.sequence && Solo(all, x)
      ensures x == m
    {
      OrderedHas(all, x);
      SoloOnly(all, m, x);
    }
    LookupFinds(all, Ordered(all), m);
  }

  lemma AtGives(all: seq<Message>, s: int)
    requires At(all, s).Some?
    ensures At(all, s).value in all && At(all, s).value.sequence == s && Solo(all, At(all, s).value)
  {
    LookupGives(all, Ordered(all), s);
    OrderedHas(all, At(all, s).value);
  }

  lemma SoloOrderFree(a: seq<Message>, b: seq<Message>, m: Message)
    requires multiset(a) == multiset(b)
    ensures Solo(a, m) == Solo(b, m)
  {
    CountOrderFree(a, b, m.sequence);
  }

  lemma AtOrderFree(a: seq<Message>, b: seq<Message>, s: int)
    requires multiset(a) == multiset(b)
    ensures At(a, s) == At(b, s)
  {
    AtMoves(a, b, s);
    AtMoves(b, a, s);
  }

  lemma AtMoves(a: seq<Message>, b: seq<Message>, s: int)
    requires multiset(a) == multiset(b)
    ensures At(a, s).Some? ==> At(b, s) == At(a, s)
  {
    if At(a, s).Some? {
      var m := At(a, s).value;
      AtGives(a, s);
      assert m in multiset(b);
      SoloOrderFree(a, b, m);
      AtFinds(b, m);
    }
  }

  lemma ReplayOrderFree(l: seq<Correction>, m: Message, a: seq<Message>, b: seq<Message>)
    requires multiset(a) == multiset(b)
    ensures Replay(l, m, a) == Replay(l, m, b)
  {
    SoloOrderFree(a, b, m);
    var o := Offers(m.events);
    if |o| == 1 {
      AtOrderFree(a, b, o[0].corrected);
    }
  }

  lemma {:induction false} ReplayAllOrderFree(l: seq<Correction>, ms: seq<Message>, a: seq<Message>, b: seq<Message>)
    requires multiset(a) == multiset(b)
    ensures ReplayAll(l, ms, a) == ReplayAll(l, ms, b)
    decreases |ms|
  {
    if ms != [] {
      ReplayOrderFree(l, ms[0], a, b);
      ReplayAllOrderFree(Replay(l, ms[0], a), ms[1..], a, b);
    }
  }

  // ----- only messages alone with their sequence matter

  function Kept(all: seq<Message>, ms: seq<Message>): seq<Message> {
    if ms == [] then [] else (if Solo(all, ms[0]) then [ms[0]] else []) + Kept(all, ms[1..])
  }

  lemma {:induction false} KeptIs(all: seq<Message>, ms: seq<Message>)
    ensures forall x :: x in Kept(all, ms) <==> x in ms && Solo(all, x)
    decreases |ms|
  {
    if ms != [] {
      KeptIs(all, ms[1..]);
    }
  }

  lemma {:induction false} ReplayKept(l: seq<Correction>, ms: seq<Message>, all: seq<Message>)
    ensures ReplayAll(l, ms, all) == ReplayAll(l, Kept(all, ms), all)
    decreases |ms|
  {
    if ms != [] {
      var kept, rest := Kept(all, ms), Kept(all, ms[1..]);
      ReplayKept(Replay(l, ms[0], all), ms[1..], all);
      if Solo(all, ms[0]) {
        assert kept == [ms[0]] + rest;
        assert kept[0] == ms[0] && kept[1..] == rest;
        assert ReplayAll(l, kept, all) == ReplayAll(Replay(l, ms[0], all), rest, all);
      } else {
        assert kept == rest;
        assert Replay(l, ms[0], all) == l;
      }
    }
  }

  lemma {:induction false} KeptStrict(all: seq<Message>, ms: seq<Message>)
    requires Sorted(ms) && forall s :: Count(ms, s) <= Count(all, s)
    ensures Strict(Kept(all, ms))
    decreases |ms|
  {
    if ms != [] {
      forall s
        ensures Count(ms[1..], s) <= Count(all, s)
      {
        assert Count(ms, s) <= Count(all, s);
      }
      KeptStrict(all, ms[1..]);
      KeptIs(all, ms[1..]);
      if Solo(all, ms[0]) {
        var rest := Kept(all, ms[1..]);
        forall x | x in rest
          ensures ms[0].sequence < x.sequence
        {
          assert Count(ms, ms[0].sequence) <= 1;
          CountHas(ms[1..], x);
        }
        assert Kept(all, ms) == [ms[0]] + rest;
      } else {
        assert Kept(all, ms) == Kept(all, ms[1..]);
      }
    }
  }

  lemma HeadIn(b: seq<Message>)
    requires b != []
    ensures b[0] in b
  {
  }

  lemma {:induction false} StrictUnique(a: seq<Message>, b: seq<Message>)
    requires Strict(a) && Strict(b) && forall x :: x in a <==> x in b
    ensures a == b
    decreases |a|
  {
    if a == [] {
      if b != [] {
        HeadIn(b);
      }
    } else {
      assert a[0] in b;
      assert b[0] in a;
      assert a[0] == b[0];
      forall x
        ensures x in a[1..] <==> x in b[1..]
      {
        assert x in a[1..] <==> x in a && x != a[0];
        assert x in b[1..] <==> x in b && x != b[0];
      }
      StrictUnique(a[1..], b[1..]);
    }
  }

  lemma KeptOrderFree(a: seq<Message>, b: seq<Message>)
    requires multiset(a) == multiset(b)
    ensures Kept(a, Ordered(a)) == Kept(b, Ordered(b))
  {
    OrderedSorts(a);
    OrderedSorts(b);
    forall s
      ensures Count(Ordered(a), s) <= Count(a, s) && Count(Ordered(b), s) <= Count(b, s)
    {
      CountOrderFree(Ordered(a), a, s);
      CountOrderFree(Ordered(b), b, s);
    }
    KeptStrict(a, Ordered(a));
    KeptStrict(b, Ordered(b));
    KeptIs(a, Ordered(a));
    KeptIs(b, Ordered(b));
    forall x
      ensures x in Kept(a, Ordered(a)) <==> x in Kept(b, Ordered(b))
    {
      SoloOrderFree(a, b, x);
      assert x in Ordered(a) <==> x in multiset(Ordered(a));
      assert x in Ordered(b) <==> x in multiset(Ordered(b));
    }
    StrictUnique(Kept(a, Ordered(a)), Kept(b, Ordered(b)));
  }

  /** Every permutation of the messages gives the same ledger. */
  lemma LedgerOrderFree(a: seq<Message>, b: seq<Message>)
    requires multiset(a) == multiset(b)
    ensures Ledger(a) == Ledger(b)
  {
    ReplayKept([], Ordered(a), a);
    ReplayKept([], Ordered(b), b);
    KeptOrderFree(a, b);
    ReplayAllOrderFree([], Kept(a, Ordered(a)), a, b);
  }
}
