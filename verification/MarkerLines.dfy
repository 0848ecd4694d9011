/** The line table tiles the response, and markers are cut outside fences. */
module MarkerLines {
  import opened Options
  import opened Text
  import opened Markers

  // ----- tiling

  /** The lines cover from `start` to `n`, one behind the other. */
  ghost predicate Tiles(lines: seq<Line>, start: nat, n: nat)
    decreases |lines|
  {
    if lines == [] then start == n else lines[0].start == start && start < lines[0].end && Tiles(lines[1..], lines[0].end, n)
  }

  /** The line is a maximal stretch without newlines, and its text has neither the
      newline nor the carriage return before it. */
  predicate IsLine(value: string, l: Line) {
    && l.start < l.end <= |value|
    && (forall k :: l.start <= k < l.end - 1 ==> value[k] != '\n')
    && (l.end < |value| ==> value[l.end - 1] == '\n')
    && (l.start == 0 || value[l.start - 1] == '\n')
    && l.text == DropReturn(value[l.start..if value[l.end - 1] == '\n' then l.end - 1 else l.end])
  }

  lemma LineIsLine(value: string, start: nat, fence: Fence)
    requires start < |value| && (start == 0 || value[start - 1] == '\n')
    ensures IsLine(value, LineAt(value, start, fence))
    ensures LineAt(value, start, fence).end < |value| ==> value[LineAt(value, start, fence).end - 1] == '\n'
  {
  }

  lemma {:induction false} LinesTile(value: string, start: nat, fence: Fence)
    requires start <= |value| && (start == 0 || start == |value| || value[start - 1] == '\n')
    ensures Tiles(LinesFrom(value, start, fence), start, |value|)
    ensures forall i :: 0 <= i < |LinesFrom(value, start, fence)| ==> IsLine(value, LinesFrom(value, start, fence)[i])
    decreases |value| - start
  {
    if start < |value| {
      var l := LineAt(value, start, fence);
      LineIsLine(value, start, fence);
      LinesTile(value, l.end, StepFence(fence, FenceDelimiter(l.text)));
      var rest := LinesFrom(value, l.end, StepFence(fence, FenceDelimiter(l.text)));
      assert LinesFrom(value, start, fence) == [l] + rest;
    }
  }

  /** The line table covers the response without gap or overlap. */
  lemma SourceLinesTile(value: string)
    ensures Tiles(SourceLines(value), 0, |value|)
    ensures forall i :: 0 <= i < |SourceLines(value)| ==> IsLine(value, SourceLines(value)[i])
  {
    LinesTile(value, 0, NoFence);
  }

  lemma {:induction false} TilesOrder(lines: seq<Line>, start: nat, n: nat, i: nat, j: nat)
    requires Tiles(lines, start, n) && i < j < |lines|
    ensures start <= lines[i].start < lines[i].end <= lines[j].start < lines[j].end <= n
    decreases |lines|
  {
    if i > 0 {
      TilesOrder(lines[1..], lines[0].end, n, i - 1, j - 1);
    } else {
      TilesBounds(lines[1..], lines[0].end, n, j - 1);
    }
  }

  lemma {:induction false} TilesBounds(lines: seq<Line>, start: nat, n: nat, i: nat)
    requires Tiles(lines, start, n) && i < |lines|
    ensures start <= lines[i].start < lines[i].end <= n
    decreases |lines|
  {
    if i == 0 {
      TilesUp(lines[1..], lines[0].end, n);
    } else {
      TilesBounds(lines[1..], lines[0].end, n, i - 1);
    }
  }

  lemma {:induction false} TilesUp(lines: seq<Line>, start: nat, n: nat)
    requires Tiles(lines, start, n)
    ensures start <= n
    decreases |lines|
  {
    if lines != [] {
      TilesUp(lines[1..], lines[0].end, n);
    }
  }

  /** Every byte lies in one line. */
  lemma {:induction false} LineOfByte(lines: seq<Line>, start: nat, n: nat, k: nat, i: nat)
    requires Tiles(lines, start, n) && i < |lines| && lines[i].start <= k < lines[i].end
    ensures LineOf(lines, k) == Some(lines[i])
    decreases |lines|
  {
    if i > 0 {
      TilesOrder(lines, start, n, 0, i);
      LineOfByte(lines[1..], lines[0].end, n, k, i - 1);
    }
  }

  // ----- marker lines

  predicate FromLine(m: Marker, l: Line) { !l.fenced && m.start == l.start && m.end == l.end }

  /** Each marker is a line of its own, in order. */
  ghost predicate OwnLines(ms: seq<Marker>, lines: seq<Line>) {
    && (forall i :: 0 <= i < |ms| ==> exists k :: 0 <= k < |lines| && FromLine(ms[i], lines[k]))
    && forall i, j :: 0 <= i < j < |ms| ==> ms[i].end <= ms[j].start
  }

  lemma SuffixOwnLines(lines: seq<Line>, n: nat)
    requires Tiles(lines, 0, n)
    ensures OwnLines(Suffix(lines), lines)
  {
    SuffixBefore(lines, |lines|, n);
    assert lines[..|lines|] == lines;
  }

  lemma OwnLinesPlus(ms: seq<Marker>, lines: seq<Line>, m: Marker, k: nat)
    requires OwnLines(ms, lines) && k < |lines| && FromLine(m, lines[k])
    requires forall i :: 0 <= i < |ms| ==> ms[i].end <= m.start
    ensures OwnLines(ms + [m], lines)
  {
    var all := ms + [m];
    forall i | 0 <= i < |all|
      ensures exists k :: 0 <= k < |lines| && FromLine(all[i], lines[k])
    {
      if i < |ms| {
        var j :| 0 <= j < |lines| && FromLine(ms[i], lines[j]);
        assert FromLine(all[i], lines[j]);
      } else {
        assert FromLine(all[i], lines[k]);
      }
    }
  }

  lemma {:induction false} SuffixBefore(lines: seq<Line>, k: nat, n: nat)
    requires Tiles(lines, 0, n) && k <= |lines|
    ensures OwnLines(Suffix(lines[..k]), lines)
    ensures forall i :: 0 <= i < |Suffix(lines[..k])| ==> k > 0 && Suffix(lines[..k])[i].end <= lines[k - 1].end
    decreases k
  {
    if k > 0 {
      var l := lines[k - 1];
      assert lines[..k][..k - 1] == lines[..k - 1];
      assert lines[..k][k - 1] == l;
      SuffixBefore(lines, k - 1, n);
      if k > 1 {
        TilesOrder(lines, 0, n, k - 2, k - 1);
      }
      var m := MarkerOf(l);
      if !Blank(l.text) && m.Some? {
        assert Suffix(lines[..k]) == Suffix(lines[..k - 1]) + [m.value];
        OwnLinesPlus(Suffix(lines[..k - 1]), lines, m.value, k - 1);
      }
    }
  }

  predicate Holds(l: Line, k: nat) { l.start <= k < l.end }

  /** The bytes of the span lie outside every fence. */
  ghost predicate Unfenced(m: Marker, lines: seq<Line>) {
    forall k, i :: m.start <= k < m.end && 0 <= i < |lines| && Holds(lines[i], k) ==> !lines[i].fenced
  }

  lemma OwnLineUnfenced(m: Marker, lines: seq<Line>, k: nat, n: nat)
    requires Tiles(lines, 0, n) && k < |lines| && FromLine(m, lines[k])
    ensures Unfenced(m, lines)
  {
    forall b, i | m.start <= b < m.end && 0 <= i < |lines| && Holds(lines[i], b)
      ensures !lines[i].fenced
    {
      if i < k {
        TilesOrder(lines, 0, n, i, k);
      } else if k < i {
        TilesOrder(lines, 0, n, k, i);
      }
    }
  }

  lemma SuffixUnfenced(lines: seq<Line>, n: nat, i: nat)
    requires Tiles(lines, 0, n) && i < |Suffix(lines)|
    ensures Unfenced(Suffix(lines)[i], lines)
  {
    SuffixOwnLines(lines, n);
    var k :| 0 <= k < |lines| && FromLine(Suffix(lines)[i], lines[k]);
    OwnLineUnfenced(Suffix(lines)[i], lines, k, n);
  }

  // ----- an inline marker

  /** Behind an inline marker's start, a line break is followed by nothing that
      could open or close a fence. */
  predicate NoFenceBehind(value: string, p: nat) {
    forall s :: p < s < |value| && value[s - 1] == '\n' ==> Harmless(value, s)
  }

  /** The first character of the line, past its indentation, opens no fence. */
  predicate Harmless(value: string, s: nat)
    requires s <= |value|
  {
    var q := SkipBlanks(value, s);
    q == |value| || (value[q] != '`' && value[q] != '~')
  }

  lemma {:induction false} UnindentSkips(value: string, s: nat, e: nat)
    requires s <= e <= |value|
    ensures var q := SkipBlanks(value, s);
      Unindent(value[s..e]) == if q < e then value[q..e] else []
    decreases e - s
  {
    if s < e && (value[s] == ' ' || value[s] == '\t') {
      assert value[s..e][1..] == value[s + 1..e];
      UnindentSkips(value, s + 1, e);
    } else if s == e {
      assert value[s..e] == [];
    }
  }

  lemma HarmlessNoDelimiter(value: string, s: nat, e: nat)
    requires s <= e <= |value| && Harmless(value, s)
    ensures FenceDelimiter(DropReturn(value[s..e])).None?
  {
    var line, text := value[s..e], DropReturn(value[s..e]);
    if text == line {
      UnindentSkips(value, s, e);
    } else {
      assert line[..e - s - 1] == value[s..e - 1] == text;
      UnindentSkips(value, s, e - 1);
    }
    var t := Unindent(text);
    assert t == [] || (t[0] != '`' && t[0] != '~');
  }

  /** Once outside a fence, harmless lines stay outside. */
  lemma {:induction false} StaysOutside(value: string, start: nat, p: nat)
    requires p < start <= |value| && NoFenceBehind(value, p) && (start == |value| || value[start - 1] == '\n')
    ensures forall i :: 0 <= i < |LinesFrom(value, start, NoFence)| ==> !LinesFrom(value, start, NoFence)[i].fenced
    decreases |value| - start
  {
    if start < |value| {
      var l := LineAt(value, start, NoFence);
      assert Harmless(value, start);
      HarmlessNoDelimiter(value, start, Newline(value, start));
      StaysOutside(value, l.end, p);
      assert LinesFrom(value, start, NoFence) == [l] + LinesFrom(value, l.end, NoFence);
    }
  }

  /** From the unfenced line that holds `p` on, no line is fenced. */
  lemma {:induction false} OutsideFrom(value: string, start: nat, fence: Fence, p: nat)
    requires start <= |value| && NoFenceBehind(value, p) && (start == 0 || start == |value| || value[start - 1] == '\n')
    requires OutsideFence(LinesFrom(value, start, fence), p)
    ensures forall i :: 0 <= i < |LinesFrom(value, start, fence)| && LinesFrom(value, start, fence)[i].end > p ==>
      !LinesFrom(value, start, fence)[i].fenced
    decreases |value| - start
  {
    if start < |value| {
      var l := LineAt(value, start, fence);
      var next := StepFence(fence, FenceDelimiter(l.text));
      var rest := LinesFrom(value, l.end, next);
      assert LinesFrom(value, start, fence) == [l] + rest;
      LineIsLine(value, start, fence);
      if start <= p < l.end {
        assert !l.fenced;
        assert next == NoFence;
        StaysOutside(value, l.end, p);
      } else {
        OutsideFrom(value, l.end, next, p);
        if p < start {
          NoLineBefore(value, l.end, next, p);
        }
      }
    }
  }

  lemma {:induction false} NoLineBefore(value: string, start: nat, fence: Fence, p: nat)
    requires p < start <= |value|
    ensures LineOf(LinesFrom(value, start, fence), p) == None
    decreases |value| - start
  {
    if start < |value| {
      var l := LineAt(value, start, fence);
      NoLineBefore(value, l.end, StepFence(fence, FenceDelimiter(l.text)), p);
    }
  }
}
