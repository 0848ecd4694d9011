/** Reading a response, loop by loop (internal/agent/agent.go). */
module MarkerLoops {
  import opened Options
  import opened Text
  import opened M = Markers
  import opened MarkerLines

  lemma {:induction false} RunIs(s: string, c: char, n: nat)
    requires n <= |s| && (forall i :: 0 <= i < n ==> s[i] == c) && (n < |s| ==> s[n] != c)
    ensures Run(s, c) == n
    decreases n
  {
    if n > 0 {
      RunIs(s[1..], c, n - 1);
    }
  }

  method MarkdownFenceDelimiter(text: string) returns (d: Option<Delimiter>)
    ensures d == FenceDelimiter(text)
  {
    var trimmed := Unindent(text);
    if |trimmed| < 3 || (trimmed[0] != '`' && trimmed[0] != '~') {
      return None;
    }
    var width := 0;
    while width < |trimmed| && trimmed[width] == trimmed[0]
      invariant width <= |trimmed| && forall i :: 0 <= i < width ==> trimmed[i] == trimmed[0]
    {
      width := width + 1;
    }
    RunIs(trimmed, trimmed[0], width);
    d := if width < 3 then None else Some(Delimiter(trimmed[0], width, trimmed[width..]));
  }

  method FindNewline(value: string, start: nat) returns (i: nat)
    requires start <= |value|
    ensures i == Newline(value, start)
  {
    i := start;
    while i < |value| && value[i] != '\n'
      invariant start <= i <= |value| && Newline(value, start) == Newline(value, i)
    {
      i := i + 1;
    }
  }

  method ReadLine(value: string, start: nat, fence: Fence) returns (line: Line, next: Fence)
    requires start < |value|
    ensures line == LineAt(value, start, fence) && next == StepFence(fence, FenceDelimiter(line.text))
  {
    var contentEnd := FindNewline(value, start);
    var end := if contentEnd < |value| then contentEnd + 1 else contentEnd;
    var text := DropReturn(value[start..contentEnd]);
    var d := MarkdownFenceDelimiter(text);
    line := Line(start, end, text, fence.Fence? || d.Some?);
    next := fence;
    if fence.Fence? {
      if d.Some? && d.value.c == fence.c && d.value.width >= fence.width && Blank(d.value.rest) {
        next := NoFence;
      }
    } else if d.Some? {
      next := Fence(d.value.c, d.value.width);
    }
  }

  method ResponseSourceLines(value: string) returns (lines: seq<Line>)
    ensures lines == SourceLines(value)
  {
    lines := [];
    var start, fence := 0, NoFence;
    while start < |value|
      invariant start <= |value| && SourceLines(value) == lines + LinesFrom(value, start, fence)
      decreases |value| - start
    {
      var line, next := ReadLine(value, start, fence);
      assert LinesFrom(value, start, fence) == [line] + LinesFrom(value, line.end, next);
      lines := lines + [line];
      start, fence := line.end, next;
    }
    assert lines + [] == lines;
  }

  /** Count the marker starts of the lines that begin with one. */
  method CountControlStarts(lines: seq<Line>) returns (n: nat)
    ensures n == ControlStarts(lines)
  {
    n := 0;
    var i := 0;
    while i < |lines|
      invariant i <= |lines| && ControlStarts(lines) == n + ControlStarts(lines[i..])
    {
      assert lines[i..][1..] == lines[i + 1..];
      if !lines[i].fenced {
        var first := FirstStart(lines[i].text, 0);
        if first < |lines[i].text| && Blank(lines[i].text[..first]) {
          n := n + CountStarts(lines[i].text, 0);
        }
      }
      i := i + 1;
    }
  }

  lemma SuffixStep(lines: seq<Line>, k: nat)
    requires 0 < k <= |lines|
    ensures Suffix(lines[..k]) ==
      if Blank(lines[k - 1].text) then Suffix(lines[..k - 1])
      else if MarkerOf(lines[k - 1]).None? then [] else Suffix(lines[..k - 1]) + [MarkerOf(lines[k - 1]).value]
  {
    assert lines[..k][..k - 1] == lines[..k - 1];
  }

  function Reverse(ms: seq<Marker>): seq<Marker> { if ms == [] then [] else Reverse(ms[1..]) + [ms[0]] }

  lemma {:induction false} ReversePlus(ms: seq<Marker>, m: Marker)
    ensures Reverse(ms + [m]) == [m] + Reverse(ms)
    decreases |ms|
  {
    if ms == [] {
      assert [] + [m] == [m] && [m][1..] == [];
      assert Reverse([m]) == Reverse([]) + [m] == [m];
    } else {
      assert (ms + [m])[1..] == ms[1..] + [m];
      ReversePlus(ms[1..], m);
    }
  }

  lemma {:induction false} ReverseAt(ms: seq<Marker>, i: nat)
    requires i < |ms|
    ensures |Reverse(ms)| == |ms| && Reverse(ms)[i] == ms[|ms| - 1 - i]
    decreases |ms|
  {
    ReverseLength(ms[1..]);
    if i < |ms| - 1 {
      ReverseAt(ms[1..], i);
    }
  }

  lemma {:induction false} ReverseLength(ms: seq<Marker>)
    ensures |Reverse(ms)| == |ms|
    decreases |ms|
  {
    if ms != [] {
      ReverseLength(ms[1..]);
    }
  }

  method ReversePrivateMarkers(values: seq<Marker>) returns (r: seq<Marker>)
    ensures r == Reverse(values)
  {
    r := values;
    var left, right := 0, |values| - 1;
    while left < right
      invariant 0 <= left <= right + 2 && left + right == |values| - 1 && |r| == |values|
      invariant forall k :: left <= k <= right && k < |r| ==> r[k] == values[k]
      invariant forall k :: 0 <= k < left && k < |r| ==> r[k] == values[|values| - 1 - k]
      invariant forall k :: right < k < |r| && k >= 0 ==> r[k] == values[|values| - 1 - k]
    {
      r := r[left := values[right]][right := values[left]];
      left, right := left + 1, right - 1;
    }
    ReverseLength(values);
    forall k | 0 <= k < |r|
      ensures r[k] == Reverse(values)[k]
    {
      ReverseAt(values, k);
    }
  }

  /** The markers found so far, last first, and the lines still to look at. */
  ghost predicate Found(lines: seq<Line>, k: nat, found: seq<Marker>)
    requires k <= |lines|
  {
    Suffix(lines) == Suffix(lines[..k]) + Reverse(found)
  }

  lemma FoundStart(lines: seq<Line>)
    ensures Found(lines, |lines|, [])
  {
    assert lines[..|lines|] == lines && Reverse([]) == [];
    assert Suffix(lines) + [] == Suffix(lines);
  }

  lemma FoundBlank(lines: seq<Line>, k: nat, found: seq<Marker>)
    requires 0 < k <= |lines| && Found(lines, k, found) && Blank(lines[k - 1].text)
    ensures Found(lines, k - 1, found)
  {
    SuffixStep(lines, k);
  }

  lemma FoundMarker(lines: seq<Line>, k: nat, found: seq<Marker>, m: Marker)
    requires 0 < k <= |lines| && Found(lines, k, found) && !Blank(lines[k - 1].text) && MarkerOf(lines[k - 1]) == Some(m)
    ensures Found(lines, k - 1, found + [m])
  {
    SuffixStep(lines, k);
    ReversePlus(found, m);
  }

  lemma FoundAll(lines: seq<Line>, k: nat, found: seq<Marker>)
    requires k <= |lines| && Found(lines, k, found)
    requires k == 0 || (!Blank(lines[k - 1].text) && MarkerOf(lines[k - 1]).None?)
    ensures Suffix(lines) == Reverse(found)
  {
    if k > 0 {
      SuffixStep(lines, k);
    }
    assert [] + Reverse(found) == Reverse(found);
  }

  /** One line further back; false at a line that is neither blank nor a marker. */
  method LookBack(lines: seq<Line>, k: nat, found: seq<Marker>) returns (more: bool, ms: seq<Marker>)
    requires 0 < k <= |lines| && Found(lines, k, found)
    ensures if more then Found(lines, k - 1, ms) else ms == found && Suffix(lines) == Reverse(ms)
  {
    more, ms := true, found;
    var l := lines[k - 1];
    if Blank(l.text) {
      FoundBlank(lines, k, found);
      return;
    }
    var m := MarkerOf(l);
    if m.Some? {
      FoundMarker(lines, k, found, m.value);
      ms := found + [m.value];
    } else {
      FoundAll(lines, k, found);
      more := false;
    }
  }

  /** From the last line back: marker lines, with blank lines between. */
  method TerminalSuffix(lines: seq<Line>) returns (ms: seq<Marker>)
    ensures ms == Suffix(lines)
  {
    var found: seq<Marker> := [];
    var k, more := |lines|, true;
    FoundStart(lines);
    while k > 0 && more
      invariant 0 <= k <= |lines| && if more then Found(lines, k, found) else Suffix(lines) == Reverse(found)
      decreases k, more
    {
      more, found := LookBack(lines, k, found);
      if more {
        k := k - 1;
      }
    }
    if more {
      FoundAll(lines, k, found);
    }
    ms := ReversePrivateMarkers(found);
  }

  method ScanResponseMarkers(value: string) returns (scan: Scan)
    ensures scan == ScanMarkers(value)
  {
    var lines := ResponseSourceLines(value);
    var starts := CountControlStarts(lines);
    var suffix := TerminalSuffix(lines);
    if suffix != [] {
      return Scan(suffix, Some(suffix[0].start), starts);
    }
    var inline := Inline(value, 0);
    if inline.Some? && OutsideFence(lines, inline.value.0) {
      var p := inline.value.0;
      if !AtLinePrefix(lines, p) {
        starts := starts + 1;
      }
      return Scan([Marker(Control, p, |value|, inline.value.1, true)], Some(p), starts);
    }
    return Scan([], None, starts);
  }

  lemma {:induction false} OfKindPlus(ms: seq<Marker>, m: Marker, kind: Kind)
    ensures OfKind(ms + [m], kind) == OfKind(ms, kind) + if m.kind == kind then [m] else []
    decreases |ms|
  {
    if ms == [] {
      assert ms + [m] == [m] && [m][1..] == [];
    } else {
      assert (ms + [m])[1..] == ms[1..] + [m] && (ms + [m])[0] == ms[0];
      OfKindPlus(ms[1..], m, kind);
      var first, last := if ms[0].kind == kind then [ms[0]] else [], if m.kind == kind then [m] else [];
      assert first + (OfKind(ms[1..], kind) + last) == (first + OfKind(ms[1..], kind)) + last;
    }
  }

  method SplitKinds(ms: seq<Marker>) returns (control: seq<Marker>, access: seq<Marker>)
    ensures control == OfKind(ms, Control) && access == OfKind(ms, Access)
  {
    control, access := [], [];
    var i := 0;
    while i < |ms|
      invariant i <= |ms| && control == OfKind(ms[..i], Control) && access == OfKind(ms[..i], Access)
    {
      assert ms[..i + 1] == ms[..i] + [ms[i]];
      OfKindPlus(ms[..i], ms[i], Control);
      OfKindPlus(ms[..i], ms[i], Access);
      match ms[i].kind {
        case Control => control := control + [ms[i]];
        case Access => access := access + [ms[i]];
      }
      i := i + 1;
    }
    assert ms[..i] == ms;
  }

  /** Remove the obeyed spans from the last to the first. */
  method RemoveSpans(value: string, ms: seq<Marker>, starts: set<nat>) returns (public: string)
    ensures public == CutBack(value, ms, starts)
  {
    public := value;
    var k := |ms|;
    assert ms[..k] == ms;
    while k > 0
      invariant k <= |ms| && CutBack(value, ms, starts) == CutBack(public, ms[..k], starts)
    {
      var m := ms[k - 1];
      assert ms[..k][..k - 1] == ms[..k - 1];
      if m.start in starts && m.start <= m.end <= |public| {
        public := public[..m.start] + public[m.end..];
      }
      k := k - 1;
    }
  }

  method ParseResponse(value: string, d: Decoder) returns (r: Response)
    ensures r == M.ParseResponse(value, d)
  {
    var scan := ScanResponseMarkers(value);
    var control, access := SplitKinds(scan.terminal);
    var remove: set<nat> := {};
    var state := NEUTRAL;
    if scan.controlStarts == 1 && |control| == 1 && control[0].complete {
      var parsed := d.control(control[0].payload);
      if parsed.Some? {
        state := parsed.value;
        remove := remove + {control[0].start};
      }
    } else if scan.controlStarts == 0 {
      state := state.(done := true);
    }
    var request: Option<AccessRequest> := None;
    if |access| == 1 && access[0].complete {
      var parsed := d.access(access[0].payload);
      if parsed.Some? && !Blank(parsed.value.path) {
        request := parsed;
        remove := remove + {access[0].start};
      }
    }
    assert remove == Starts(ControlMarker(scan, d)) + Starts(AccessMarker(scan, d));
    var public := RemoveSpans(value, scan.terminal, remove);
    r := Response(Trim(public), Normalize(state), request);
  }
}
