/** White space and trimming (Go's strings.TrimSpace, on ASCII text). */
module Text {
  predicate IsSpace(c: char) { c == ' ' || '\t' <= c <= '\r' }

  /** Only white space. */
  predicate Blank(s: string) { forall i :: 0 <= i < |s| ==> IsSpace(s[i]) }

  function TrimLeft(s: string): (r: string)
    ensures Blank(r) <==> Blank(s)
    ensures r == [] || !IsSpace(r[0])
  {
    if s != [] && IsSpace(s[0]) then
      assert s == [s[0]] + s[1..];
      TrimLeft(s[1..])
    else s
  }

  function TrimRight(s: string): (r: string)
    ensures Blank(r) <==> Blank(s)
    ensures r == [] || !IsSpace(r[|r| - 1])
    ensures r <= s
  {
    if s != [] && IsSpace(s[|s| - 1]) then
      assert s == s[..|s| - 1] + [s[|s| - 1]];
      TrimRight(s[..|s| - 1])
    else s
  }

  function Trim(s: string): string { TrimRight(TrimLeft(s)) }

  lemma {:induction false} TrimLeftBlank(a: string, s: string)
    requires Blank(a)
    ensures TrimLeft(a + s) == TrimLeft(s)
    decreases |a|
  {
    if a == [] {
      assert a + s == s;
    } else {
      assert (a + s)[1..] == a[1..] + s;
      TrimLeftBlank(a[1..], s);
    }
  }

  lemma {:induction false} TrimRightBlank(s: string, b: string)
    requires Blank(b)
    ensures TrimRight(s + b) == TrimRight(s)
    decreases |b|
  {
    if b == [] {
      assert s + b == s;
    } else {
      assert (s + b)[..|s + b| - 1] == s + b[..|b| - 1];
      TrimRightBlank(s, b[..|b| - 1]);
    }
  }

  lemma {:induction false} TrimLeftPlus(s: string, b: string)
    requires !Blank(s)
    ensures TrimLeft(s + b) == TrimLeft(s) + b
    decreases |s|
  {
    if IsSpace(s[0]) {
      assert (s + b)[1..] == s[1..] + b;
      assert s == [s[0]] + s[1..];
      TrimLeftPlus(s[1..], b);
    }
  }

  /** White space behind a text does not change what trimming leaves. */
  lemma TrimPlusBlank(s: string, b: string)
    requires Blank(b)
    ensures Trim(s + b) == Trim(s)
  {
    if Blank(s) {
      TrimLeftBlank(s, b);
      TrimLeftBlank(s, []);
      assert s + [] == s;
      TrimRightBlank([], TrimLeft(b));
      assert [] + TrimLeft(b) == TrimLeft(b);
      assert Blank(TrimLeft(b));
    } else {
      TrimLeftPlus(s, b);
      TrimRightBlank(TrimLeft(s), b);
    }
  }
}
