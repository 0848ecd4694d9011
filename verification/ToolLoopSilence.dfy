/** A reported cycle stays silent, except a cycle of four with three equal
    attempts in a row. */
module ToolLoopSilence {
  import opened Options
  import opened ToolLoop
  import opened ToolLoopCycles

  // ----- primitive cycles

  /** Not itself repetitions of a shorter cycle (for lengths up to 4). */
  predicate Primitive(keys: seq<int>) {
    && 1 <= |keys| <= 4
    && (|keys| == 2 ==> keys[0] != keys[1])
    && (|keys| == 3 ==> keys[0] != keys[1] || keys[1] != keys[2])
    && (|keys| == 4 ==> keys[0] != keys[2] || keys[1] != keys[3])
  }

  /** Three equal keys in a row, around the cycle. */
  predicate HasTriple(keys: seq<int>) {
    |keys| == 4 && (
      || (keys[0] == keys[1] && keys[1] == keys[2])
      || (keys[1] == keys[2] && keys[2] == keys[3])
      || (keys[2] == keys[3] && keys[3] == keys[0])
      || (keys[3] == keys[0] && keys[0] == keys[1]))
  }

  /** The attempts end with three rounds of the cycle. */
  predicate Ends(attempts: seq<Attempt>, keys: seq<int>) {
    && 1 <= |keys| <= 4 && |attempts| >= 3 * |keys|
    && Rounds(Signatures(Tail(attempts, 3 * |keys|)), keys)
  }

  predicate Rounds(s: seq<int>, keys: seq<int>) { s == keys + keys + keys }

  lemma EndsRepeats(attempts: seq<Attempt>, keys: seq<int>)
    requires Ends(attempts, keys)
    ensures Repeats(attempts, |keys|) && CycleKeys(attempts, |keys|) == keys
  {
    var n, tail := |keys|, Tail(attempts, 3 * |keys|);
    var s := Signatures(tail);
    forall i | 0 <= i < |tail|
      ensures tail[i].signature == tail[i % n].signature
    {
      assert s[i] == keys[i % n] by {
        ThreeRounds(keys, i);
      }
      assert s[i % n] == keys[i % n];
    }
    assert Signatures(tail[..n]) == s[..n] == keys;
  }

  lemma ThreeRounds(keys: seq<int>, i: nat)
    requires 1 <= |keys| <= 4 && i < 3 * |keys|
    ensures (keys + keys + keys)[i] == keys[i % |keys|]
  {
    var n := |keys|;
    if n == 1 {
      assert i % n == i % 1;
    } else if n == 2 {
      assert i % n == i % 2;
    } else if n == 3 {
      assert i % n == i % 3;
    } else {
      assert i % n == i % 4;
    }
  }

  // ----- no shorter period

  lemma LastThree(attempts: seq<Attempt>, keys: seq<int>)
    requires Ends(attempts, keys)
    ensures var n, m := |keys|, |attempts|;
      && attempts[m - 1].signature == keys[n - 1]
      && (n >= 2 ==> attempts[m - 2].signature == keys[n - 2])
      && (n >= 3 ==> attempts[m - 3].signature == keys[n - 3])
      && (n == 2 ==> attempts[m - 3].signature == keys[1])
  {
    var n, m := |keys|, |attempts|;
    var s := Signatures(Tail(attempts, 3 * n));
    assert forall k :: 0 <= k < 3 * n ==> s[k] == attempts[m - 3 * n + k].signature;
    assert s[3 * n - 1] == keys[n - 1];
  }

  lemma OneMeansTriple(attempts: seq<Attempt>, keys: seq<int>)
    requires Ends(attempts, keys) && Primitive(keys) && |keys| > 1
    ensures Repeats(attempts, 1) <==> |keys| == 4 && keys[1] == keys[2] && keys[2] == keys[3]
  {
    var m, t := |attempts|, Tail(attempts, 3);
    LastThree(attempts, keys);
    assert t[0] == attempts[m - 3] && t[1] == attempts[m - 2] && t[2] == attempts[m - 1];
    if Repeats(attempts, 1) {
      assert Periodic(t, 1);
      assert t[1].signature == t[1 % 1].signature && t[2].signature == t[2 % 1].signature;
    } else if t[0].signature == t[1].signature && t[1].signature == t[2].signature {
      assert Periodic(t, 1);
    }
  }

  lemma LastOfThree(attempts: seq<Attempt>, keys: seq<int>)
    requires Ends(attempts, keys) && |keys| == 3
    ensures var t := Tail(attempts, 6);
      && t[0].signature == keys[0] && t[1].signature == keys[1] && t[2].signature == keys[2]
      && t[3].signature == keys[0] && t[4].signature == keys[1] && t[5].signature == keys[2]
  {
    var t, s := Tail(attempts, 6), Signatures(Tail(attempts, 9));
    assert forall k :: 0 <= k < 6 ==> t[k].signature == s[3 + k];
    assert s[3] == keys[0] && s[4] == keys[1] && s[5] == keys[2] && s[6] == keys[0] && s[7] == keys[1] && s[8] == keys[2];
  }

  lemma LastOfFour(attempts: seq<Attempt>, keys: seq<int>)
    requires Ends(attempts, keys) && |keys| == 4
    ensures var t := Tail(attempts, 9);
      && t[0].signature == keys[3] && t[1].signature == keys[0] && t[2].signature == keys[1]
      && t[3].signature == keys[2] && t[4].signature == keys[3] && t[5].signature == keys[0]
      && t[6].signature == keys[1] && t[7].signature == keys[2] && t[8].signature == keys[3]
  {
    var t, s := Tail(attempts, 9), Signatures(Tail(attempts, 12));
    assert forall k :: 0 <= k < 9 ==> t[k].signature == s[3 + k];
    assert s[3] == keys[3] && s[4] == keys[0] && s[5] == keys[1] && s[6] == keys[2] && s[7] == keys[3] && s[8] == keys[0];
    assert s[9] == keys[1] && s[10] == keys[2] && s[11] == keys[3];
  }

  lemma PeriodTwo(t: seq<Attempt>)
    requires |t| == 6 && Periodic(t, 2)
    ensures t[0].signature == t[2].signature == t[4].signature && t[1].signature == t[3].signature == t[5].signature
  {
    assert t[2].signature == t[2 % 2].signature && t[3].signature == t[3 % 2].signature;
    assert t[4].signature == t[4 % 2].signature && t[5].signature == t[5 % 2].signature;
  }

  lemma PeriodThree(t: seq<Attempt>)
    requires |t| == 9 && Periodic(t, 3)
    ensures t[0].signature == t[3].signature && t[1].signature == t[4].signature && t[2].signature == t[5].signature
  {
    assert t[3].signature == t[3 % 3].signature && t[4].signature == t[4 % 3].signature && t[5].signature == t[5 % 3].signature;
  }

  lemma NotTwo(attempts: seq<Attempt>, keys: seq<int>)
    requires Ends(attempts, keys) && Primitive(keys) && |keys| > 2
    ensures !Repeats(attempts, 2)
  {
    if |keys| == 3 {
      LastOfThree(attempts, keys);
    } else {
      LastOfFour(attempts, keys);
      var t, u := Tail(attempts, 6), Tail(attempts, 9);
      assert forall k :: 0 <= k < 6 ==> t[k] == u[3 + k];
    }
    if Repeats(attempts, 2) {
      PeriodTwo(Tail(attempts, 6));
    }
  }

  lemma NotThree(attempts: seq<Attempt>, keys: seq<int>)
    requires Ends(attempts, keys) && Primitive(keys) && |keys| == 4
    ensures !Repeats(attempts, 3)
  {
    LastOfFour(attempts, keys);
    if Repeats(attempts, 3) {
      PeriodThree(Tail(attempts, 9));
    }
  }

  /** A cycle is found as itself, unless three equal attempts end the list. */
  lemma CycleFound(attempts: seq<Attempt>, keys: seq<int>)
    requires Ends(attempts, keys) && Primitive(keys)
    ensures Cycle(attempts) == if |keys| == 4 && keys[1] == keys[2] && keys[2] == keys[3] then 1 else |keys|
  {
    EndsRepeats(attempts, keys);
    if |keys| > 1 {
      OneMeansTriple(attempts, keys);
    }
    if |keys| > 2 {
      NotTwo(attempts, keys);
    }
    if |keys| > 3 {
      NotThree(attempts, keys);
    }
  }

  // ----- one more attempt of the cycle

  function Turned(keys: seq<int>): seq<int>
    requires keys != []
  {
    Rotate(keys, 1)
  }

  lemma TailTurns(attempts: seq<Attempt>, a: Attempt, k: nat)
    requires 0 < k <= |attempts|
    ensures Signatures(Tail(attempts + [a], k)) == Signatures(Tail(attempts, k))[1..] + [a.signature]
  {
    assert Tail(attempts + [a], k) == Tail(attempts, k)[1..] + [a];
  }

  lemma RoundsTurn(keys: seq<int>)
    requires keys != []
    ensures (keys + keys + keys)[1..] + [keys[0]] == Turned(keys) + Turned(keys) + Turned(keys)
  {
    var k, r := [keys[0]], keys[1..];
    assert keys == k + r && Turned(keys) == r + k;
    assert (keys + keys + keys)[1..] == r + (k + r) + (k + r);
  }

  lemma EndsOn(attempts: seq<Attempt>, keys: seq<int>, a: Attempt)
    requires Ends(attempts, keys) && a.signature == keys[0]
    ensures Ends(Tail(attempts + [a], WINDOW), Turned(keys))
  {
    TailTurns(attempts, a, 3 * |keys|);
    RoundsTurn(keys);
    assert |Turned(keys)| == |keys|;
  }

  lemma TurnedPrimitive(keys: seq<int>)
    requires Primitive(keys)
    ensures Primitive(Turned(keys)) && HasTriple(Turned(keys)) == HasTriple(keys)
  {
  }

  /** The reported cycle goes on: silence, unless the last three are equal in a
      cycle of four, which is a cycle of one in its own right. */
  lemma NextAttempt(h: Hash, m: Monitor, keys: seq<int>, a: Attempt)
    requires Ends(m.attempts, keys) && Primitive(keys) && m.warned == Some(Warning(h.key, keys)) && a.signature == keys[0]
    ensures var (m', d) := Attempted(h, m, a);
      && Ends(m'.attempts, Turned(keys)) && Primitive(Turned(keys))
      && (if |keys| == 4 && keys[2] == keys[3] && keys[3] == keys[0] then
            d == Silent <==> h.key([keys[0]]) == Warning(h.key, keys)
          else d == Silent && m'.warned == Some(Warning(h.key, Turned(keys))))
  {
    var all := Tail(m.attempts + [a], WINDOW);
    EndsOn(m.attempts, keys, a);
    TurnedPrimitive(keys);
    EndsRepeats(all, Turned(keys));
    CycleFound(all, Turned(keys));
    if |keys| > 1 {
      WarningIsCanonical(h.key, keys, 1);
    } else {
      assert Turned(keys) == keys;
    }
    if |keys| == 4 && keys[2] == keys[3] && keys[3] == keys[0] {
      LastThree(all, Turned(keys));
      assert CycleKeys(all, 1) == [keys[0]];
    }
  }

  // ----- all the attempts that go on

  function Decisions(h: Hash, m: Monitor, more: seq<Attempt>): seq<Decision>
    decreases |more|
  {
    if more == [] then [] else [Attempted(h, m, more[0]).1] + Decisions(h, Attempted(h, m, more[0]).0, more[1..])
  }

  /** The attempts go round the cycle. */
  predicate GoesOn(more: seq<Attempt>, keys: seq<int>)
    requires keys != []
    decreases |more|
  {
    more == [] || (more[0].signature == keys[0] && GoesOn(more[1..], Turned(keys)))
  }

  ghost predicate AllSilent(ds: seq<Decision>) { forall i :: 0 <= i < |ds| ==> ds[i] == Silent }

  /** The cycle was reported last. */
  predicate Reported(h: Hash, m: Monitor, keys: seq<int>) {
    Ends(m.attempts, keys) && Primitive(keys) && m.warned == Some(Warning(h.key, keys))
  }

  lemma {:induction false} StaysSilent(h: Hash, m: Monitor, keys: seq<int>, more: seq<Attempt>)
    requires Reported(h, m, keys) && !HasTriple(keys) && GoesOn(more, keys)
    ensures AllSilent(Decisions(h, m, more))
    decreases |more|
  {
    if more != [] {
      NextAttempt(h, m, keys, more[0]);
      TurnedPrimitive(keys);
      var m' := Attempted(h, m, more[0]).0;
      StaysSilent(h, m', Turned(keys), more[1..]);
      assert Decisions(h, m, more)[1..] == Decisions(h, m', more[1..]);
    }
  }

  /** No attempt fingerprint collides with the warning of the whole cycle. */
  ghost predicate Apart(h: Hash, keys: seq<int>) { forall i :: 0 <= i < |keys| ==> h.key([keys[i]]) != Warning(h.key, keys) }

  lemma TurnedApart(h: Hash, keys: seq<int>)
    requires Primitive(keys) && Apart(h, keys)
    ensures Apart(h, Turned(keys))
  {
    if |keys| > 1 {
      WarningIsCanonical(h.key, keys, 1);
      var t := Turned(keys);
      forall i | 0 <= i < |t|
        ensures h.key([t[i]]) != Warning(h.key, t)
      {
        assert t[i] == keys[if i + 1 < |keys| then i + 1 else 0];
      }
    } else {
      assert Turned(keys) == keys;
    }
  }

  /** How many attempts away the three equal ones are. */
  function Away(keys: seq<int>): nat
    requires |keys| == 4
  {
    if keys[2] == keys[3] && keys[3] == keys[0] then 1
    else if keys[3] == keys[0] && keys[0] == keys[1] then 2
    else if keys[0] == keys[1] && keys[1] == keys[2] then 3
    else 4
  }

  lemma Cons(h: Hash, m: Monitor, keys: seq<int>, a: Attempt, rest: seq<Attempt>)
    requires keys != [] && a.signature == keys[0] && GoesOn(rest, Turned(keys))
    requires !AllSilent(Decisions(h, Attempted(h, m, a).0, rest))
    ensures GoesOn([a] + rest, keys) && !AllSilent(Decisions(h, m, [a] + rest))
  {
    var more, ds := [a] + rest, Decisions(h, Attempted(h, m, a).0, rest);
    assert more[1..] == rest && more[0] == a;
    assert Decisions(h, m, more) == [Attempted(h, m, a).1] + ds;
    var i :| 0 <= i < |ds| && ds[i] != Silent;
    assert ([Attempted(h, m, a).1] + ds)[i + 1] == ds[i];
  }

  lemma SpeaksNow(h: Hash, m: Monitor, keys: seq<int>, a: Attempt)
    requires keys != [] && a.signature == keys[0] && Attempted(h, m, a).1 != Silent
    ensures GoesOn([a], keys) && !AllSilent(Decisions(h, m, [a]))
  {
    assert [a][1..] == [] && Decisions(h, Attempted(h, m, a).0, []) == [];
    assert Decisions(h, m, [a])[0] == Attempted(h, m, a).1;
  }

  lemma {:induction false} Speaks(h: Hash, m: Monitor, keys: seq<int>) returns (more: seq<Attempt>)
    requires Reported(h, m, keys) && HasTriple(keys) && Apart(h, keys)
    ensures |more| <= Away(keys) && GoesOn(more, keys) && !AllSilent(Decisions(h, m, more))
    decreases Away(keys)
  {
    var a := Attempt(keys[0], false);
    NextAttempt(h, m, keys, a);
    if Away(keys) == 1 {
      assert h.key([keys[0]]) != Warning(h.key, keys);
      SpeaksNow(h, m, keys, a);
      more := [a];
    } else {
      TurnedPrimitive(keys);
      TurnedApart(h, keys);
      var rest := Speaks(h, Attempted(h, m, a).0, Turned(keys));
      Cons(h, m, keys, a, rest);
      more := [a] + rest;
    }
  }

  /** However long a reported cycle goes on, nothing more is reported, if and only
      if it has no three equal attempts in a row. */
  lemma SilentIff(h: Hash, m: Monitor, keys: seq<int>)
    requires Reported(h, m, keys) && Apart(h, keys)
    ensures (forall more :: GoesOn(more, keys) ==> AllSilent(Decisions(h, m, more))) <==> !HasTriple(keys)
  {
    if HasTriple(keys) {
      var more := Speaks(h, m, keys);
      assert GoesOn(more, keys) && !AllSilent(Decisions(h, m, more));
    } else {
      forall more | GoesOn(more, keys)
        ensures AllSilent(Decisions(h, m, more))
      {
        StaysSilent(h, m, keys, more);
      }
    }
  }

  // ----- what is reported is primitive

  lemma RepeatsEnds(attempts: seq<Attempt>, n: nat)
    requires 1 <= n <= 4 && Repeats(attempts, n)
    ensures Ends(attempts, CycleKeys(attempts, n))
  {
    var tail, keys := Tail(attempts, 3 * n), CycleKeys(attempts, n);
    var s := Signatures(tail);
    forall i | 0 <= i < 3 * n
      ensures s[i] == (keys + keys + keys)[i]
    {
      assert tail[i].signature == tail[i % n].signature;
      ThreeRounds(keys, i);
      assert keys[i % n] == tail[..n][i % n].signature;
    }
    assert s == keys + keys + keys;
  }

  lemma EqualRepeats(attempts: seq<Attempt>, keys: seq<int>)
    requires Ends(attempts, keys) && 2 <= |keys| <= 3 && forall i :: 0 <= i < |keys| ==> keys[i] == keys[0]
    ensures Repeats(attempts, 1)
  {
    LastThree(attempts, keys);
    var m, t := |attempts|, Tail(attempts, 3);
    assert t[0] == attempts[m - 3] && t[1] == attempts[m - 2] && t[2] == attempts[m - 1];
    assert Periodic(t, 1);
  }

  /** The cycle of a report is primitive, and is the cycle reported last. */
  lemma ReportIsReported(h: Hash, m: Monitor, value: Option<Observation>)
    requires Observe(h, m, value).1.Report?
    ensures var (m', d) := Observe(h, m, value);
      1 <= d.size <= 4 && 3 * d.size <= |m'.attempts| && Reported(h, m', CycleKeys(m'.attempts, d.size))
  {
    var (m', d) := Observe(h, m, value);
    CycleRepeats(m'.attempts);
    var keys := CycleKeys(m'.attempts, d.size);
    RepeatsEnds(m'.attempts, d.size);
    SmallestIsPrimitive(m'.attempts, keys);
  }

  lemma SmallestIsPrimitive(attempts: seq<Attempt>, keys: seq<int>)
    requires Ends(attempts, keys) && Cycle(attempts) == |keys|
    ensures Primitive(keys)
  {
    if 2 <= |keys| <= 3 && forall i :: 0 <= i < |keys| ==> keys[i] == keys[0] {
      EqualRepeats(attempts, keys);
    }
  }
}
