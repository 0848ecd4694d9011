/** Private markers at the end of a response (internal/agent/agent.go).

    The four patterns are written out as functions of the text.  Decoding JSON is
    any pair of functions.  Text is ASCII.
 */
module Markers {
  import opened Options
  import opened Text
  import opened Participants

  // ----- the line table and its fences

  datatype Fence = NoFence | Fence(c: char, width: nat)

  datatype Delimiter = Delimiter(c: char, width: nat, rest: string)

  datatype Line = Line(start: nat, end: nat, text: string, fenced: bool)

  /** The first newline from `start` on, or the end. */
  function Newline(value: string, start: nat): (i: nat)
    requires start <= |value|
    ensures start <= i <= |value|
    ensures forall k :: start <= k < i ==> value[k] != '\n'
    ensures i < |value| ==> value[i] == '\n'
    decreases |value| - start
  {
    if start == |value| || value[start] == '\n' then start else Newline(value, start + 1)
  }

  function DropReturn(s: string): (r: string)
    ensures r <= s
  {
    if s != [] && s[|s| - 1] == '\r' then s[..|s| - 1] else s
  }

  function Unindent(s: string): string { if s != [] && (s[0] == ' ' || s[0] == '\t') then Unindent(s[1..]) else s }

  function Run(s: string, c: char): (n: nat)
    ensures n <= |s|
  {
    if s != [] && s[0] == c then 1 + Run(s[1..], c) else 0
  }

  function FenceDelimiter(text: string): Option<Delimiter> {
    var t := Unindent(text);
    if |t| < 3 || (t[0] != '`' && t[0] != '~') then None
    else
      var width := Run(t, t[0]);
      if width < 3 then None else Some(Delimiter(t[0], width, t[width..]))
  }

  /** A fence is closed by a delimiter at least as wide of the same character with
      nothing behind it. */
  function StepFence(fence: Fence, d: Option<Delimiter>): Fence {
    if fence.Fence? then
      if d.Some? && d.value.c == fence.c && d.value.width >= fence.width && Blank(d.value.rest) then NoFence else fence
    else if d.Some? then Fence(d.value.c, d.value.width)
    else NoFence
  }

  function LineAt(value: string, start: nat, fence: Fence): (l: Line)
    requires start < |value|
    ensures l.start == start < l.end <= |value|
  {
    var e := Newline(value, start);
    var text := DropReturn(value[start..e]);
    Line(start, if e < |value| then e + 1 else e, text, fence.Fence? || FenceDelimiter(text).Some?)
  }

  function LinesFrom(value: string, start: nat, fence: Fence): seq<Line>
    decreases |value| - start
  {
    if start >= |value| then []
    else
      var l := LineAt(value, start, fence);
      [l] + LinesFrom(value, l.end, StepFence(fence, FenceDelimiter(l.text)))
  }

  function SourceLines(value: string): seq<Line> { LinesFrom(value, 0, NoFence) }

  /** The fence that is open at the end. */
  function FenceAfter(value: string, start: nat, fence: Fence): Fence
    decreases |value| - start
  {
    if start >= |value| then fence
    else
      var l := LineAt(value, start, fence);
      FenceAfter(value, l.end, StepFence(fence, FenceDelimiter(l.text)))
  }

  // ----- the patterns

  datatype Kind = Control | Access

  /** White space of the patterns. */
  predicate IsGap(c: char) { c == ' ' || c == '\t' || c == '\n' || c == '\r' || c == '\U{000C}' }

  function SkipGap(s: string, i: nat): (j: nat)
    requires i <= |s|
    ensures i <= j <= |s|
    ensures forall k :: i <= k < j ==> IsGap(s[k])
    ensures j < |s| ==> !IsGap(s[j])
    decreases |s| - i
  {
    if i < |s| && IsGap(s[i]) then SkipGap(s, i + 1) else i
  }

  function SkipBlanks(s: string, i: nat): (j: nat)
    requires i <= |s|
    ensures i <= j <= |s|
    ensures forall k :: i <= k < j ==> s[k] == ' ' || s[k] == '\t'
    ensures j < |s| ==> s[j] != ' ' && s[j] != '\t'
    decreases |s| - i
  {
    if i < |s| && (s[i] == ' ' || s[i] == '\t') then SkipBlanks(s, i + 1) else i
  }

  predicate StartsAt(s: string, i: nat, w: string) { i + |w| <= |s| && s[i..i + |w|] == w }

  const OPEN: string := "<!--"
  const CLOSE: string := "-->"
  const CONTROL: string := "mohuddle:"
  const ACCESS: string := "mohuddle-access:"

  /** A marker starts here: its kind, and where its payload would start. */
  function Head(s: string, i: nat): (r: Option<(Kind, nat)>)
    ensures r.Some? ==> i + 4 < r.value.1 <= |s|
  {
    if !StartsAt(s, i, OPEN) then None
    else
      var j := SkipGap(s, i + 4);
      if StartsAt(s, j, CONTROL) then Some((Control, j + |CONTROL|))
      else if StartsAt(s, j, ACCESS) then Some((Access, j + |ACCESS|))
      else None
  }

  predicate ControlStart(s: string, i: nat) { Head(s, i).Some? && Head(s, i).value.0 == Control }

  function TrimGap(s: string): (r: string)
    ensures r <= s
    ensures forall k :: |r| <= k < |s| ==> IsGap(s[k])
    ensures r == [] || !IsGap(r[|r| - 1])
  {
    if s != [] && IsGap(s[|s| - 1]) then TrimGap(s[..|s| - 1]) else s
  }

  predicate OneLine(s: string) { forall i :: 0 <= i < |s| ==> s[i] != '\n' && s[i] != '\r' }

  predicate IsPayload(s: string) { |s| >= 2 && s[0] == '{' && s[|s| - 1] == '}' && OneLine(s) }

  /** "{...}", white space, and the end of the comment. */
  function Payload(rest: string): (r: Option<string>)
    ensures r.Some? ==> IsPayload(r.value) && r.value <= rest
  {
    if |rest| < 3 || rest[|rest| - 3..] != CLOSE then None
    else
      var body := TrimGap(rest[..|rest| - 3]);
      if IsPayload(body) then Some(body) else None
  }

  datatype Marker = Marker(kind: Kind, start: nat, end: nat, payload: string, complete: bool)

  function MarkerOf(line: Line): Option<Marker> {
    if line.fenced then None
    else
      var t := Trim(line.text);
      var head := Head(t, 0);
      if head.None? then None
      else
        var p := Payload(t[head.value.1..]);
        Some(Marker(head.value.0, line.start, line.end, if p.Some? then p.value else "", p.Some?))
  }

  // ----- the scan

  /** How many markers start in the text from `i` on. */
  function CountStarts(text: string, i: nat): nat
    decreases |text| - i
  {
    if i >= |text| then 0 else (if ControlStart(text, i) then 1 else 0) + CountStarts(text, i + 1)
  }

  /** Where the first starts, or the end. */
  function FirstStart(text: string, i: nat): (j: nat)
    requires i <= |text|
    ensures i <= j <= |text|
    decreases |text| - i
  {
    if i == |text| || ControlStart(text, i) then i else FirstStart(text, i + 1)
  }

  /** A line counts when nothing but white space precedes its first marker. */
  function LineStarts(line: Line): nat {
    var j := FirstStart(line.text, 0);
    if line.fenced || j == |line.text| || !Blank(line.text[..j]) then 0 else CountStarts(line.text, 0)
  }

  function ControlStarts(lines: seq<Line>): nat {
    if lines == [] then 0 else LineStarts(lines[0]) + ControlStarts(lines[1..])
  }

  /** The marker lines at the end, with blank lines between and behind them. */
  function Suffix(lines: seq<Line>): seq<Marker> {
    if lines == [] then []
    else
      var l, before := lines[|lines| - 1], lines[..|lines| - 1];
      if Blank(l.text) then Suffix(before)
      else
        var m := MarkerOf(l);
        if m.None? then [] else Suffix(before) + [m.value]
  }

  function TrimTrail(s: string): (r: string)
    ensures r <= s
    ensures forall k :: |r| <= k < |s| ==> s[k] in {' ', '\t', '\r', '\n'}
  {
    if s != [] && s[|s| - 1] in {' ', '\t', '\r', '\n'} then TrimTrail(s[..|s| - 1]) else s
  }

  /** A carriage return only before a newline. */
  predicate IsTrail(s: string) { forall i :: 0 <= i < |s| && s[i] == '\r' ==> i + 1 < |s| && s[i + 1] == '\n' }

  /** One complete control marker from here to the end of the value. */
  function InlineAt(value: string, p: nat): Option<string>
    requires p <= |value|
  {
    var q := SkipBlanks(value, p);
    if !ControlStart(value, q) then None
    else
      var rest := value[Head(value, q).value.1..];
      var t := TrimTrail(rest);
      if IsTrail(rest[|t|..]) then Payload(t) else None
  }

  function Inline(value: string, p: nat): (r: Option<(nat, string)>)
    requires p <= |value|
    ensures r.Some? ==> p <= r.value.0 <= |value| && InlineAt(value, r.value.0) == Some(r.value.1)
    decreases |value| - p
  {
    if InlineAt(value, p).Some? then Some((p, InlineAt(value, p).value))
    else if p == |value| then None
    else Inline(value, p + 1)
  }

  /** The line that an offset lies in. */
  function LineOf(lines: seq<Line>, offset: nat): Option<Line> {
    if lines == [] then None
    else if lines[0].start <= offset < lines[0].end then Some(lines[0])
    else LineOf(lines[1..], offset)
  }

  predicate OutsideFence(lines: seq<Line>, offset: nat) {
    LineOf(lines, offset).Some? && !LineOf(lines, offset).value.fenced
  }

  predicate AtLinePrefix(lines: seq<Line>, offset: nat) {
    var l := LineOf(lines, offset);
    l.Some? && l.value.start <= offset
    && var n := if offset - l.value.start > |l.value.text| then |l.value.text| else offset - l.value.start;
       Blank(l.value.text[..n])
  }

  datatype Scan = Scan(terminal: seq<Marker>, suffixStart: Option<nat>, controlStarts: nat)

  function ScanMarkers(value: string): Scan {
    var lines := SourceLines(value);
    var starts, suffix := ControlStarts(lines), Suffix(lines);
    if suffix != [] then Scan(suffix, Some(suffix[0].start), starts)
    else
      var inline := Inline(value, 0);
      if inline.Some? && OutsideFence(lines, inline.value.0) then
        var p := inline.value.0;
        Scan([Marker(Control, p, |value|, inline.value.1, true)], Some(p), if AtLinePrefix(lines, p) then starts else starts + 1)
      else Scan([], None, starts)
  }

  /** The draft without its terminal suffix. */
  function SanitizeDraft(value: string): string {
    var s := ScanMarkers(value).suffixStart;
    Trim(if s.Some? && s.value <= |value| then value[..s.value] else value)
  }

  // ----- the response

  datatype Delegate = Delegate(target: string, task: string)

  datatype Research = Research(kind: string, query: string, url: string)

  /** The decoded control state; its other fields are passed on as they are. */
  datatype ControlState = ControlState(done: bool, position: string, reason: string, retained: string, next: string,
                                       delegates: seq<Delegate>, research: seq<Research>, others: int)

  datatype AccessRequest = AccessRequest(path: string, readWrite: bool, others: int)

  datatype Decoder = Decoder(control: string -> Option<ControlState>, access: string -> Option<AccessRequest>)

  const NEUTRAL := ControlState(false, "", "", "", "", [], [], 0)

  function Lower(s: string): string { seq(|s|, i requires 0 <= i < |s| => if 'A' <= s[i] <= 'Z' then s[i] - 'A' + 'a' else s[i]) }

  function TrimDelegates(ds: seq<Delegate>): seq<Delegate> {
    seq(|ds|, i requires 0 <= i < |ds| => ds[i].(task := Trim(ds[i].task)))
  }

  function TrimResearch(rs: seq<Research>): seq<Research> {
    seq(|rs|, i requires 0 <= i < |rs| => Research(Lower(Trim(rs[i].kind)), Trim(rs[i].query), Trim(rs[i].url)))
  }

  function Normalize(s: ControlState): ControlState {
    ControlState(s.done, Lower(Trim(s.position)), Trim(s.reason), Trim(s.retained), if ValidAgent(s.next) then s.next else "",
                 TrimDelegates(s.delegates), TrimResearch(s.research), s.others)
  }

  function OfKind(ms: seq<Marker>, kind: Kind): seq<Marker> {
    if ms == [] then [] else (if ms[0].kind == kind then [ms[0]] else []) + OfKind(ms[1..], kind)
  }

  /** The one control marker that is obeyed. */
  function ControlMarker(scan: Scan, d: Decoder): Option<Marker> {
    var c := OfKind(scan.terminal, Control);
    if scan.controlStarts == 1 && |c| == 1 && c[0].complete && d.control(c[0].payload).Some? then Some(c[0]) else None
  }

  function AccessMarker(scan: Scan, d: Decoder): Option<Marker> {
    var a := OfKind(scan.terminal, Access);
    if |a| == 1 && a[0].complete && d.access(a[0].payload).Some? && !Blank(d.access(a[0].payload).value.path) then Some(a[0]) else None
  }

  function State(scan: Scan, d: Decoder): ControlState {
    var m := ControlMarker(scan, d);
    Normalize(
      if m.Some? then d.control(m.value.payload).value
      else if scan.controlStarts > 0 then NEUTRAL
      else NEUTRAL.(done := true))
  }

  function Starts(m: Option<Marker>): set<nat> { if m.Some? then {m.value.start} else {} }

  /** Markers whose start is listed are cut, from the last to the first. */
  function CutBack(public: string, ms: seq<Marker>, starts: set<nat>): string
    decreases |ms|
  {
    if ms == [] then public
    else
      var m := ms[|ms| - 1];
      var cut := if m.start in starts && m.start <= m.end <= |public| then public[..m.start] + public[m.end..] else public;
      CutBack(cut, ms[..|ms| - 1], starts)
  }

  datatype Response = Response(public: string, state: ControlState, request: Option<AccessRequest>)

  function ParseResponse(value: string, d: Decoder): Response {
    var scan := ScanMarkers(value);
    var starts := Starts(ControlMarker(scan, d)) + Starts(AccessMarker(scan, d));
    var access := AccessMarker(scan, d);
    Response(Trim(CutBack(value, scan.terminal, starts)), State(scan, d),
             if access.Some? then d.access(access.value.payload) else None)
  }
}
