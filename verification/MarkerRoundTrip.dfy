/** A control marker written behind a body is read back. */
module MarkerRoundTrip {
  import opened Options
  import opened Text
  import opened Markers
  import opened MarkerLines

  function Mark(payload: string): string { "<!-- mohuddle:" + payload + " -->" }

  const HEAD: string := "<!-- mohuddle:"

  // ----- the marker's own line

  lemma HeadOfMark(s: string)
    requires StartsAt(s, 0, HEAD)
    ensures Head(s, 0) == Some((Control, 14))
  {
    assert forall k :: 0 <= k < 14 ==> s[k] == s[0..14][k] == HEAD[k];
    assert s[0..4] == OPEN;
    assert SkipGap(s, 5) == 5 && SkipGap(s, 4) == 5;
    assert s[5..14] == CONTROL;
  }

  lemma PayloadOfMark(payload: string)
    requires IsPayload(payload)
    ensures Payload(payload + " -->") == Some(payload)
  {
    var rest := payload + " -->";
    assert rest[|rest| - 3..] == CLOSE;
    assert rest[..|rest| - 3] == payload + " ";
    assert (payload + " ")[..|payload + " "| - 1] == payload;
    assert TrimGap(payload) == payload;
    assert TrimGap(payload + " ") == payload;
  }

  lemma MarkerOfMark(l: Line, payload: string)
    requires !l.fenced && l.text == Mark(payload) && IsPayload(payload)
    ensures MarkerOf(l) == Some(Marker(Control, l.start, l.end, payload, true))
  {
    var s := Mark(payload);
    assert s[0..14] == HEAD;
    HeadOfMark(s);
    assert s[14..] == payload + " -->";
    PayloadOfMark(payload);
  }

  /** A control start needs these characters. */
  predicate InHead(c: char) { c in {'<', '!', '-', 'm', 'o', 'h', 'u', 'd', 'l', 'e', ':'} || IsGap(c) }

  lemma HeadChars(s: string, i: nat)
    requires ControlStart(s, i)
    ensures forall k :: i <= k < Head(s, i).value.1 ==> InHead(s[k])
    ensures s[i] == '<' && s[i + 1] == '!'
  {
    var j := SkipGap(s, i + 4);
    assert forall k :: 0 <= k < |OPEN| ==> InHead(OPEN[k]);
    assert forall k :: 0 <= k < |CONTROL| ==> InHead(CONTROL[k]);
  }

  lemma StartsShift(a: string, s: string, i: nat, w: string)
    ensures StartsAt(a + s, |a| + i, w) == StartsAt(s, i, w)
  {
    if i + |w| <= |s| {
      assert (a + s)[|a| + i..|a| + i + |w|] == s[i..i + |w|];
    }
  }

  lemma {:induction false} SkipGapInside(a: string, b: string, i: nat)
    requires i <= |a|
    ensures SkipGap(a + b, i) >= SkipGap(a, i)
    ensures SkipGap(a + b, i) < |a| || SkipGap(a, i) < |a| ==> SkipGap(a + b, i) == SkipGap(a, i)
    decreases |a| - i
  {
    if i < |a| && IsGap(a[i]) {
      SkipGapInside(a, b, i + 1);
    }
  }

  /** A head that ends within the first part is a head of the first part. */
  lemma HeadInside(a: string, b: string, i: nat)
    requires ControlStart(a + b, i) && Head(a + b, i).value.1 <= |a|
    ensures ControlStart(a, i)
  {
    var j := SkipGap(a + b, i + 4);
    SkipGapInside(a, b, i + 4);
    assert (a + b)[i..i + 4] == a[i..i + 4];
    assert (a + b)[j..j + 9] == a[j..j + 9];
  }

  lemma {:induction false} SkipGapShift(a: string, s: string, i: nat)
    requires i <= |s|
    ensures SkipGap(a + s, |a| + i) == |a| + SkipGap(s, i)
    decreases |s| - i
  {
    if i < |s| && IsGap(s[i]) {
      SkipGapShift(a, s, i + 1);
    }
  }

  lemma HeadShift(a: string, s: string, i: nat)
    ensures ControlStart(a + s, |a| + i) == ControlStart(s, i)
    ensures ControlStart(s, i) ==> Head(a + s, |a| + i).value.1 == |a| + Head(s, i).value.1
  {
    StartsShift(a, s, i, OPEN);
    if i + 4 <= |s| {
      SkipGapShift(a, s, i + 4);
      StartsShift(a, s, SkipGap(s, i + 4), CONTROL);
      StartsShift(a, s, SkipGap(s, i + 4), ACCESS);
    }
  }

  /** No marker starts inside. */
  predicate Startless(s: string) { forall i :: 0 <= i < |s| ==> !ControlStart(s, i) }

  lemma PayloadTailStartless(payload: string, i: nat)
    requires IsPayload(payload) && Startless(payload) && i < |payload + " -->"|
    ensures !ControlStart(payload + " -->", i)
  {
    var s := payload + " -->";
    assert s[|payload| - 1] == '}' && !InHead('}');
    assert forall k :: |payload| <= k < |s| ==> s[k] == " -->"[k - |payload|] && s[k] != '<';
    if ControlStart(s, i) {
      HeadChars(s, i);
      if Head(s, i).value.1 <= |payload| {
        HeadInside(payload, " -->", i);
      }
    }
  }

  lemma MarkStarts(payload: string, i: nat)
    requires IsPayload(payload) && Startless(payload) && i < |Mark(payload)|
    ensures ControlStart(Mark(payload), i) <==> i == 0
  {
    var s := Mark(payload);
    assert s == HEAD + (payload + " -->");
    assert s[0..14] == HEAD;
    HeadOfMark(s);
    if i >= 14 {
      HeadShift(HEAD, payload + " -->", i - 14);
      PayloadTailStartless(payload, i - 14);
    } else if i > 0 {
      assert s[i] == HEAD[i] && HEAD[i] != '<';
      if ControlStart(s, i) {
        HeadChars(s, i);
      }
    }
  }

  lemma {:induction false} CountFrom(text: string, i: nat)
    requires forall k :: i <= k < |text| ==> !ControlStart(text, k)
    ensures CountStarts(text, i) == 0
    decreases |text| - i
  {
    if i < |text| {
      CountFrom(text, i + 1);
    }
  }

  lemma LineStartsOfMark(l: Line, payload: string)
    requires !l.fenced && l.text == Mark(payload) && IsPayload(payload) && Startless(payload)
    ensures LineStarts(l) == 1
  {
    var s := Mark(payload);
    MarkStarts(payload, 0);
    assert FirstStart(s, 0) == 0 && s[..0] == [];
    forall k | 1 <= k < |s|
      ensures !ControlStart(s, k)
    {
      MarkStarts(payload, k);
    }
    CountFrom(s, 1);
  }

  // ----- the body's lines

  /** The line starts a private marker. */
  predicate StartsMarker(l: Line) { Head(Trim(l.text), 0).Some? }

  lemma {:induction false} FirstStartStarts(text: string, i: nat)
    requires i <= |text| && FirstStart(text, i) < |text|
    ensures ControlStart(text, FirstStart(text, i))
    decreases |text| - i
  {
    if !ControlStart(text, i) {
      FirstStartStarts(text, i + 1);
    }
  }

  /** A head survives the trimming of white space behind it. */
  lemma {:induction false} HeadTrimRight(s: string)
    requires ControlStart(s, 0)
    ensures ControlStart(TrimRight(s), 0)
    decreases |s|
  {
    HeadChars(s, 0);
    if IsSpace(s[|s| - 1]) {
      var a := s[..|s| - 1];
      assert s == a + s[|s| - 1..];
      HeadEnds(s);
      HeadInside(a, s[|s| - 1..], 0);
      HeadTrimRight(a);
    }
  }

  lemma HeadEnds(s: string)
    requires ControlStart(s, 0)
    ensures s[Head(s, 0).value.1 - 1] == ':'
  {
    var j := SkipGap(s, 4);
    assert s[j..j + 9][8] == CONTROL[8];
  }

  lemma TrimAfterBlank(a: string, s: string)
    requires Blank(a) && s != [] && !IsSpace(s[0])
    ensures Trim(a + s) == TrimRight(s)
  {
    TrimLeftBlank(a, s);
  }

  lemma HeadAfterBlank(text: string, j: nat)
    requires j < |text| && Blank(text[..j]) && ControlStart(text, j)
    ensures Head(Trim(text), 0).Some?
  {
    var a, s := text[..j], text[j..];
    assert text == a + s;
    HeadShift(a, s, 0);
    HeadChars(s, 0);
    TrimAfterBlank(a, s);
    HeadTrimRight(s);
  }

  lemma QuietLine(l: Line)
    requires !StartsMarker(l)
    ensures LineStarts(l) == 0
  {
    var j := FirstStart(l.text, 0);
    if j < |l.text| && Blank(l.text[..j]) {
      FirstStartStarts(l.text, 0);
      HeadAfterBlank(l.text, j);
    }
  }

  ghost predicate Quiet(lines: seq<Line>) { forall i :: 0 <= i < |lines| && !lines[i].fenced ==> !StartsMarker(lines[i]) }

  lemma {:induction false} QuietStarts(lines: seq<Line>)
    requires Quiet(lines)
    ensures ControlStarts(lines) == 0
    decreases |lines|
  {
    if lines != [] {
      if !lines[0].fenced {
        QuietLine(lines[0]);
      }
      assert Quiet(lines[1..]);
      QuietStarts(lines[1..]);
    }
  }

  lemma {:induction false} QuietSuffix(lines: seq<Line>)
    requires Quiet(lines)
    ensures Suffix(lines) == []
    decreases |lines|
  {
    if lines != [] {
      assert Quiet(lines[..|lines| - 1]);
      QuietSuffix(lines[..|lines| - 1]);
    }
  }

  lemma {:induction false} StartsPlus(a: seq<Line>, b: seq<Line>)
    ensures ControlStarts(a + b) == ControlStarts(a) + ControlStarts(b)
    decreases |a|
  {
    if a == [] {
      assert a + b == b;
    } else {
      assert (a + b)[1..] == a[1..] + b;
      StartsPlus(a[1..], b);
    }
  }

  // ----- the whole table

  lemma {:induction false} NewlineBefore(a: string, b: string, i: nat)
    requires i < |a| && a[|a| - 1] == '\n'
    ensures Newline(a + b, i) == Newline(a, i) < |a|
    decreases |a| - i
  {
    if a[i] != '\n' {
      NewlineBefore(a, b, i + 1);
    }
  }

  lemma LineBefore(a: string, b: string, start: nat, fence: Fence)
    requires start < |a| && a[|a| - 1] == '\n'
    ensures LineAt(a + b, start, fence) == LineAt(a, start, fence)
  {
    NewlineBefore(a, b, start);
    var e := Newline(a, start);
    assert (a + b)[start..e] == a[start..e];
  }

  lemma {:induction false} LinesBefore(a: string, b: string, start: nat, fence: Fence)
    requires start <= |a| && a != [] && a[|a| - 1] == '\n'
    ensures LinesFrom(a + b, start, fence) == LinesFrom(a, start, fence) + LinesFrom(a + b, |a|, FenceAfter(a, start, fence))
    decreases |a| - start
  {
    if start < |a| {
      LineBefore(a, b, start, fence);
      var l := LineAt(a, start, fence);
      var next := StepFence(fence, FenceDelimiter(l.text));
      LinesBefore(a, b, l.end, next);
      var x, y := LinesFrom(a, l.end, next), LinesFrom(a + b, |a|, FenceAfter(a, l.end, next));
      assert LinesFrom(a, start, fence) == [l] + x && LinesFrom(a + b, start, fence) == [l] + (x + y);
      assert [l] + (x + y) == ([l] + x) + y;
    } else {
      assert LinesFrom(a, start, fence) == [] && FenceAfter(a, start, fence) == fence;
      assert [] + LinesFrom(a + b, |a|, fence) == LinesFrom(a + b, |a|, fence);
    }
  }

  lemma LastLine(a: string, payload: string)
    requires IsPayload(payload)
    ensures LinesFrom(a + Mark(payload), |a|, NoFence) == [Line(|a|, |a + Mark(payload)|, Mark(payload), false)]
  {
    var mark := Mark(payload);
    var value := a + mark;
    forall k | |a| <= k < |value|
      ensures value[k] != '\n'
    {
      assert value[k] == mark[k - |a|];
    }
    assert value[|a|..|value|] == mark;
    assert mark[|mark| - 1] == '>' && mark[0] == '<';
    assert FenceDelimiter(mark).None?;
    assert LinesFrom(value, |value|, NoFence) == [];
  }

  /** A body with closed fences, none of whose unfenced lines starts a private
      marker, followed by a line with one control marker: the body comes back
      trimmed, with the decoded state, normalised. */
  lemma RoundTrip(body: string, payload: string, d: Decoder)
    requires FenceAfter(body + "\n", 0, NoFence) == NoFence && Quiet(SourceLines(body + "\n"))
    requires IsPayload(payload) && Startless(payload) && d.control(payload).Some?
    ensures ParseResponse(body + "\n" + Mark(payload), d) == Response(Trim(body), Normalize(d.control(payload).value), None)
  {
    var a, mark := body + "\n", Mark(payload);
    var value := a + mark;
    var m := Marker(Control, |a|, |value|, payload, true);
    ScanOfMark(a, payload);
    assert OfKind([m], Control) == [m] && OfKind([m], Access) == [] by {
      assert [m][1..] == [];
    }
    var scan := ScanMarkers(value);
    assert ControlMarker(scan, d) == Some(m) && AccessMarker(scan, d) == None;
    CutOneMark(a, mark, m);
    TrimPlusBlank(body, "\n");
  }

  lemma CutOneMark(a: string, mark: string, m: Marker)
    requires m.start == |a| && m.end == |a + mark|
    ensures CutBack(a + mark, [m], {m.start} + {}) == a
  {
    var value := a + mark;
    assert value[..m.start] + value[m.end..] == a;
    assert [m][..0] == [];
    assert CutBack(a, [], {m.start} + {}) == a;
  }

  lemma TableOfMark(a: string, payload: string)
    requires a != [] && a[|a| - 1] == '\n' && FenceAfter(a, 0, NoFence) == NoFence && IsPayload(payload)
    ensures SourceLines(a + Mark(payload)) == SourceLines(a) + [Line(|a|, |a + Mark(payload)|, Mark(payload), false)]
  {
    LinesBefore(a, Mark(payload), 0, NoFence);
    LastLine(a, payload);
  }

  lemma StartsOfMark(before: seq<Line>, l: Line, payload: string)
    requires Quiet(before) && !l.fenced && l.text == Mark(payload) && IsPayload(payload) && Startless(payload)
    ensures ControlStarts(before + [l]) == 1
  {
    StartsPlus(before, [l]);
    QuietStarts(before);
    LineStartsOfMark(l, payload);
    assert [l][1..] == [] && ControlStarts([]) == 0;
    assert ControlStarts([l]) == LineStarts(l) + ControlStarts([]);
  }

  lemma SuffixOfMark(before: seq<Line>, l: Line, payload: string)
    requires Quiet(before) && !l.fenced && l.text == Mark(payload) && IsPayload(payload)
    ensures Suffix(before + [l]) == [Marker(Control, l.start, l.end, payload, true)]
  {
    var lines := before + [l];
    assert lines[..|lines| - 1] == before && lines[|lines| - 1] == l;
    QuietSuffix(before);
    MarkerOfMark(l, payload);
    assert Mark(payload)[0] == '<' && !Blank(l.text);
    assert Suffix(lines) == [] + [MarkerOf(l).value];
  }

  lemma ScanOfMark(a: string, payload: string)
    requires a != [] && a[|a| - 1] == '\n' && FenceAfter(a, 0, NoFence) == NoFence && Quiet(SourceLines(a))
    requires IsPayload(payload) && Startless(payload)
    ensures ScanMarkers(a + Mark(payload)) == Scan([Marker(Control, |a|, |a + Mark(payload)|, payload, true)], Some(|a|), 1)
  {
    var l := Line(|a|, |a + Mark(payload)|, Mark(payload), false);
    TableOfMark(a, payload);
    StartsOfMark(SourceLines(a), l, payload);
    SuffixOfMark(SourceLines(a), l, payload);
  }

  // ----- a payload that holds another marker start

  lemma {:induction false} CountAt(text: string, i: nat, k: nat)
    requires i <= k < |text| && ControlStart(text, k)
    ensures CountStarts(text, i) >= 1
    decreases k - i
  {
    if i < k {
      CountAt(text, i + 1, k);
    }
  }

  lemma {:induction false} SkipGapMore(a: string, b: string, i: nat)
    requires i <= |a| && SkipGap(a, i) < |a|
    ensures SkipGap(a + b, i) == SkipGap(a, i)
    decreases |a| - i
  {
    if IsGap(a[i]) {
      SkipGapMore(a, b, i + 1);
    }
  }

  lemma StartMore(a: string, b: string, i: nat)
    requires ControlStart(a, i)
    ensures ControlStart(a + b, i)
  {
    var j := SkipGap(a, i + 4);
    SkipGapMore(a, b, i + 4);
    assert (a + b)[i..i + 4] == a[i..i + 4];
    assert (a + b)[j..j + 9] == a[j..j + 9];
  }

  lemma LineStartsAmbiguous(l: Line, payload: string, i: nat)
    requires !l.fenced && l.text == Mark(payload) && i < |payload| && ControlStart(payload, i)
    ensures LineStarts(l) >= 2
  {
    var s := Mark(payload);
    assert s == HEAD + (payload + " -->");
    assert s[0..14] == HEAD;
    HeadOfMark(s);
    assert FirstStart(s, 0) == 0 && s[..0] == [];
    StartMore(payload, " -->", i);
    HeadShift(HEAD, payload + " -->", i);
    CountAt(s, 1, 14 + i);
  }

  /** When the payload itself holds a marker start, the marker is ambiguous: it
      stays public and claims nothing. */
  lemma AmbiguousStays(body: string, payload: string, d: Decoder, i: nat)
    requires FenceAfter(body + "\n", 0, NoFence) == NoFence && Quiet(SourceLines(body + "\n"))
    requires IsPayload(payload) && i < |payload| && ControlStart(payload, i)
    ensures ParseResponse(body + "\n" + Mark(payload), d) == Response(Trim(body + "\n" + Mark(payload)), Normalize(NEUTRAL), None)
  {
    var a, mark := body + "\n", Mark(payload);
    var value := a + mark;
    var l := Line(|a|, |value|, mark, false);
    var before := SourceLines(a);
    TableOfMark(a, payload);
    StartsPlus(before, [l]);
    LineStartsAmbiguous(l, payload, i);
    assert [l][1..] == [] && ControlStarts([l]) == LineStarts(l) + ControlStarts([]);
    SuffixOfMark(before, l, payload);
    Ambiguous(value, l, payload, d);
  }

  lemma Ambiguous(value: string, l: Line, payload: string, d: Decoder)
    requires Suffix(SourceLines(value)) == [Marker(Control, l.start, l.end, payload, true)] && ControlStarts(SourceLines(value)) >= 2
    ensures ParseResponse(value, d) == Response(Trim(value), Normalize(NEUTRAL), None)
  {
    var scan := ScanMarkers(value);
    var m := scan.terminal[0];
    assert OfKind([m], Access) == [] by {
      assert [m][1..] == [];
    }
    assert ControlMarker(scan, d) == None && AccessMarker(scan, d) == None;
    assert CutBack(value, [m], {} + {}) == value by {
      assert [m][..0] == [];
      assert CutBack(value, [], {} + {}) == value;
    }
  }
}
