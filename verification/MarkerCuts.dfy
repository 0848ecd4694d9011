/** What is cut from a response: disjoint spans outside every fence, and nothing
    else. */
module MarkerCuts {
  import opened Options
  import opened Text
  import opened Markers
  import opened MarkerLines

  // ----- an inline marker opens no fence

  /** The parts of an inline marker: "<!--", white space, "mohuddle:", the payload,
      white space, "-->", and white space to the end. */
  ghost predicate Parts(value: string, p: nat, q: nat, j: nat, r: nat, e: nat, c: nat) {
    && p <= q && q + 4 <= j && j + 9 == r && r <= e <= c && c + 3 <= |value|
    && (forall i :: p <= i < q ==> value[i] == ' ' || value[i] == '\t')
    && value[q..q + 4] == OPEN && (forall i :: q + 4 <= i < j ==> IsGap(value[i]))
    && value[j..r] == CONTROL && OneLine(value[r..e])
    && (forall i :: e <= i < c ==> IsGap(value[i])) && value[c..c + 3] == CLOSE
    && forall i :: c + 3 <= i < |value| ==> value[i] in {' ', '\t', '\r', '\n'}
  }

  lemma InlineParts(value: string, p: nat) returns (q: nat, j: nat, r: nat, e: nat, c: nat)
    requires p <= |value| && InlineAt(value, p).Some?
    ensures Parts(value, p, q, j, r, e, c)
  {
    q := SkipBlanks(value, p);
    j := SkipGap(value, q + 4);
    r := Head(value, q).value.1;
    var rest := value[r..];
    var t := TrimTrail(rest);
    var body := TrimGap(t[..|t| - 3]);
    e, c := r + |body|, r + |t| - 3;
    assert value[r..e] == body;
    forall i | e <= i < c
      ensures IsGap(value[i])
    {
      assert value[i] == t[..|t| - 3][i - r];
    }
    assert value[c..c + 3] == t[|t| - 3..];
    forall i | c + 3 <= i < |value|
      ensures value[i] in {' ', '\t', '\r', '\n'}
    {
      assert value[i] == rest[i - r];
    }
  }

  lemma PartsHarmless(value: string, p: nat, q: nat, j: nat, r: nat, e: nat, c: nat, s: nat)
    requires Parts(value, p, q, j, r, e, c) && p < s < |value| && value[s - 1] == '\n'
    ensures Harmless(value, s)
  {
    assert value[q..q + 4][0] == '<' && value[q..q + 4][1] == '!' && value[q..q + 4][2] == '-' && value[q..q + 4][3] == '-';
    assert forall k :: 0 <= k < 9 ==> value[j..r][k] == CONTROL[k] && CONTROL[k] != '\n';
    assert forall k :: j <= k < r ==> value[k] == value[j..r][k - j];
    assert value[j] == CONTROL[0];
    assert forall k :: r <= k < e ==> value[k] == value[r..e][k - r];
    assert value[c..c + 3][0] == '-' && value[c..c + 3][1] == '-' && value[c..c + 3][2] == '>';
    assert s - 1 >= q + 4;
    if s <= j {
    } else if s <= c {
      assert s - 1 >= e;
    }
  }

  lemma InlineHarmless(value: string, p: nat)
    requires p <= |value| && InlineAt(value, p).Some?
    ensures NoFenceBehind(value, p)
  {
    var q, j, r, e, c := InlineParts(value, p);
    forall s | p < s < |value| && value[s - 1] == '\n'
      ensures Harmless(value, s)
    {
      PartsHarmless(value, p, q, j, r, e, c, s);
    }
  }

  // ----- all terminal markers

  /** The spans lie in the response, in order and apart. */
  ghost predicate Apart(ms: seq<Marker>, n: nat) {
    && (forall i :: 0 <= i < |ms| ==> ms[i].start <= ms[i].end <= n)
    && forall i, j :: 0 <= i < j < |ms| ==> ms[i].end <= ms[j].start && ms[i].start < ms[j].start
  }

  lemma SuffixApart(value: string)
    ensures Apart(Suffix(SourceLines(value)), |value|)
  {
    var lines := SourceLines(value);
    var ms := Suffix(lines);
    SourceLinesTile(value);
    SuffixOwnLines(lines, |value|);
    forall i | 0 <= i < |ms|
      ensures ms[i].start < ms[i].end <= |value|
    {
      var k :| 0 <= k < |lines| && FromLine(ms[i], lines[k]);
      TilesBounds(lines, 0, |value|, k);
    }
  }

  lemma InlineUnfenced(value: string, p: nat, m: Marker)
    requires p <= |value| && InlineAt(value, p).Some? && OutsideFence(SourceLines(value), p) && m.start == p
    ensures Unfenced(m, SourceLines(value))
  {
    InlineHarmless(value, p);
    OutsideFrom(value, 0, NoFence, p);
  }

  /** The terminal markers are disjoint, ascending, inside the response, and no
      byte of them lies in a fenced line. */
  lemma TerminalSpans(value: string)
    ensures Apart(ScanMarkers(value).terminal, |value|)
    ensures forall i :: 0 <= i < |ScanMarkers(value).terminal| ==> Unfenced(ScanMarkers(value).terminal[i], SourceLines(value))
  {
    var lines, ms := SourceLines(value), ScanMarkers(value).terminal;
    SourceLinesTile(value);
    if Suffix(lines) != [] {
      SuffixApart(value);
      forall i | 0 <= i < |ms|
        ensures Unfenced(ms[i], lines)
      {
        SuffixUnfenced(lines, |value|, i);
      }
    } else if ms != [] {
      InlineUnfenced(value, ms[0].start, ms[0]);
    }
  }

  // ----- cutting

  /** The byte lies in a span whose start is listed. */
  predicate Cut(ms: seq<Marker>, starts: set<nat>, k: nat) {
    exists i :: 0 <= i < |ms| && ms[i].start in starts && ms[i].start <= k < ms[i].end
  }

  /** The bytes from `i` up to `n` that lie in no listed span, in order. */
  ghost function Kept(value: string, ms: seq<Marker>, starts: set<nat>, i: nat, n: nat): string
    requires n <= |value|
    decreases n - i
  {
    if i >= n then [] else (if Cut(ms, starts, i) then [] else [value[i]]) + Kept(value, ms, starts, i + 1, n)
  }

  lemma {:induction false} KeptSplit(value: string, ms: seq<Marker>, starts: set<nat>, i: nat, k: nat, n: nat)
    requires i <= k <= n <= |value|
    ensures Kept(value, ms, starts, i, n) == Kept(value, ms, starts, i, k) + Kept(value, ms, starts, k, n)
    decreases k - i
  {
    if i < k {
      KeptSplit(value, ms, starts, i + 1, k, n);
    }
  }

  lemma {:induction false} KeptAll(value: string, ms: seq<Marker>, starts: set<nat>, i: nat, n: nat)
    requires i <= n <= |value| && forall k :: i <= k < n ==> !Cut(ms, starts, k)
    ensures Kept(value, ms, starts, i, n) == value[i..n]
    decreases n - i
  {
    if i < n {
      KeptAll(value, ms, starts, i + 1, n);
      assert value[i..n] == [value[i]] + value[i + 1..n];
    }
  }

  lemma {:induction false} KeptNone(value: string, ms: seq<Marker>, starts: set<nat>, i: nat, n: nat)
    requires i <= n <= |value| && forall k :: i <= k < n ==> Cut(ms, starts, k)
    ensures Kept(value, ms, starts, i, n) == []
    decreases n - i
  {
    if i < n {
      KeptNone(value, ms, starts, i + 1, n);
    }
  }

  lemma {:induction false} KeptSame(value: string, ms: seq<Marker>, more: seq<Marker>, starts: set<nat>, i: nat, n: nat)
    requires i <= n <= |value| && forall k :: i <= k < n ==> Cut(ms, starts, k) == Cut(more, starts, k)
    ensures Kept(value, ms, starts, i, n) == Kept(value, more, starts, i, n)
    decreases n - i
  {
    if i < n {
      KeptSame(value, ms, more, starts, i + 1, n);
    }
  }

  lemma {:induction false} KeptPrefix(value: string, ms: seq<Marker>, starts: set<nat>, i: nat, n: nat)
    requires i <= n <= |value|
    ensures Kept(value[..n], ms, starts, i, n) == Kept(value, ms, starts, i, n)
    decreases n - i
  {
    if i < n {
      KeptPrefix(value, ms, starts, i + 1, n);
    }
  }

  /** Cutting before a point leaves what lies behind it. */
  lemma {:induction false} CutBackPrefix(a: string, b: string, ms: seq<Marker>, starts: set<nat>)
    requires Apart(ms, |a|)
    ensures CutBack(a + b, ms, starts) == CutBack(a, ms, starts) + b
    decreases |ms|
  {
    if ms != [] {
      var m, before := ms[|ms| - 1], ms[..|ms| - 1];
      if m.start in starts {
        assert (a + b)[..m.start] + (a + b)[m.end..] == a[..m.start] + (a[m.end..] + b);
        assert a[..m.start] + a[m.end..] + b == a[..m.start] + (a[m.end..] + b);
        CutBackPrefix(a[..m.start], a[m.end..] + b, before, starts);
        CutBackPrefix(a[..m.start], a[m.end..], before, starts);
        var x := CutBack(a[..m.start], before, starts);
        assert x + (a[m.end..] + b) == (x + a[m.end..]) + b;
      } else {
        CutBackPrefix(a, b, before, starts);
      }
    }
  }

  /** Cutting from the last span to the first leaves exactly the bytes outside the
      listed spans. */
  lemma {:induction false} CutBackKeeps(value: string, ms: seq<Marker>, starts: set<nat>)
    requires Apart(ms, |value|)
    ensures CutBack(value, ms, starts) == Kept(value, ms, starts, 0, |value|)
    decreases |ms|
  {
    var n := |value|;
    if ms == [] {
      KeptAll(value, ms, starts, 0, n);
    } else {
      var m, before := ms[|ms| - 1], ms[..|ms| - 1];
      var a := value[..m.start];
      KeptPieces(value, ms, starts);
      CutBackKeeps(a, before, starts);
      CutOne(value, ms, starts);
      KeptPrefix(value, before, starts, 0, m.start);
    }
  }

  /** What is kept, piece by piece: before the last span, in it, and behind it. */
  lemma KeptPieces(value: string, ms: seq<Marker>, starts: set<nat>)
    requires ms != [] && Apart(ms, |value|)
    ensures var (m, before) := (ms[|ms| - 1], ms[..|ms| - 1]);
      Kept(value, ms, starts, 0, |value|) ==
        Kept(value, before, starts, 0, m.start) + if m.start in starts then value[m.end..] else value[m.start..]
  {
    var m, before, n := ms[|ms| - 1], ms[..|ms| - 1], |value|;
    forall k: nat
      ensures k < m.start ==> Cut(ms, starts, k) == Cut(before, starts, k)
      ensures m.start <= k < m.end ==> Cut(ms, starts, k) == (m.start in starts)
      ensures k >= m.end ==> !Cut(ms, starts, k)
    {
    }
    KeptSplit(value, ms, starts, 0, m.start, n);
    KeptSame(value, ms, before, starts, 0, m.start);
    if m.start in starts {
      KeptSplit(value, ms, starts, m.start, m.end, n);
      KeptNone(value, ms, starts, m.start, m.end);
      KeptAll(value, ms, starts, m.end, n);
    } else {
      KeptAll(value, ms, starts, m.start, n);
    }
  }

  lemma CutOne(value: string, ms: seq<Marker>, starts: set<nat>)
    requires ms != [] && Apart(ms, |value|)
    ensures var (m, before) := (ms[|ms| - 1], ms[..|ms| - 1]);
      CutBack(value, ms, starts) ==
        CutBack(value[..m.start], before, starts) + if m.start in starts then value[m.end..] else value[m.start..]
  {
    var m, before := ms[|ms| - 1], ms[..|ms| - 1];
    if m.start in starts {
      CutBackPrefix(value[..m.start], value[m.end..], before, starts);
    } else {
      CutBackPrefix(value[..m.start], value[m.start..], before, starts);
      assert value[..m.start] + value[m.start..] == value;
    }
  }

  function Obeyed(value: string, d: Decoder): set<nat> {
    Starts(ControlMarker(ScanMarkers(value), d)) + Starts(AccessMarker(ScanMarkers(value), d))
  }

  /** The public text is the response without the spans of the markers that are
      obeyed, trimmed: every other byte is kept, in order. */
  lemma PublicIsKept(value: string, d: Decoder)
    ensures ParseResponse(value, d).public == Trim(Kept(value, ScanMarkers(value).terminal, Obeyed(value, d), 0, |value|))
  {
    TerminalSpans(value);
    CutBackKeeps(value, ScanMarkers(value).terminal, Obeyed(value, d));
  }

  /** No byte of a fenced line is ever cut. */
  lemma FencedKept(value: string, d: Decoder, k: nat, i: nat)
    requires i < |SourceLines(value)| && Holds(SourceLines(value)[i], k) && SourceLines(value)[i].fenced
    ensures !Cut(ScanMarkers(value).terminal, Obeyed(value, d), k)
  {
    TerminalSpans(value);
    var ms := ScanMarkers(value).terminal;
    forall j | 0 <= j < |ms|
      ensures !(ms[j].start <= k < ms[j].end)
    {
      assert Unfenced(ms[j], SourceLines(value));
    }
  }
}
