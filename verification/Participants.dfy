/** Participant identities (internal/chat/types.go): the primary agents, and
    their auxiliary participants "<provider>-<index>". */
module Participants {
  import opened Options

  const AGENTS: seq<string> := ["codex", "claude", "agy", "copilot"]
  const MAX_INDEX: nat := 0x8000_0000_0000_0000

  function Digit(d: nat): char
    requires d < 10
  {
    ['0', '1', '2', '3', '4', '5', '6', '7', '8', '9'][d]
  }

  function DigitValue(c: char): (r: nat)
    ensures r <= 10
    ensures r < 10 ==> Digit(r) == c
  {
    match c
    case '0' => 0
    case '1' => 1
    case '2' => 2
    case '3' => 3
    case '4' => 4
    case '5' => 5
    case '6' => 6
    case '7' => 7
    case '8' => 8
    case '9' => 9
    case _ => 10
  }

  /** Decimal notation without leading zeros. */
  function Decimal(n: nat): (s: string)
    ensures s != []
  {
    if n < 10 then [Digit(n)] else Decimal(n / 10) + [Digit(n % 10)]
  }

  /** The number that decimal digits denote, if they are digits. */
  function Number(s: string): Option<nat> {
    if s == [] then Some(0)
    else
      var high, d := Number(s[..|s| - 1]), DigitValue(s[|s| - 1]);
      if high.None? || d == 10 then None else Some(10 * high.value + d)
  }

  /** The index of a canonical suffix, or 0. */
  function Index(suffix: string): nat {
    var n := Number(suffix);
    if n.Some? && 0 < n.value < MAX_INDEX && Decimal(n.value) == suffix then n.value else 0
  }

  predicate HasProvider(value: string, provider: string) {
    && |value| > |provider| && value[..|provider|] == provider && value[|provider|] == '-'
    && Index(value[|provider| + 1..]) > 0
  }

  function ProviderAmong(value: string, providers: seq<string>): string {
    if providers == [] then "" else if HasProvider(value, providers[0]) then providers[0] else ProviderAmong(value, providers[1..])
  }

  /** The primary agent behind a participant; "" for anyone else. */
  function Provider(p: string): string { if p in AGENTS then p else ProviderAmong(p, AGENTS) }

  predicate ValidAgent(p: string) { Provider(p) != "" }

  predicate IsPrimary(p: string) { p in AGENTS }

  function Auxiliary(provider: string, index: int): Option<string> {
    if !IsPrimary(provider) || index < 1 then None else Some(provider + "-" + Decimal(index))
  }

  lemma {:induction false} DecimalNumber(n: nat)
    ensures Number(Decimal(n)) == Some(n)
    decreases n
  {
    if n >= 10 {
      DecimalNumber(n / 10);
      var s := Decimal(n);
      assert s[..|s| - 1] == Decimal(n / 10);
    } else {
      var s := Decimal(n);
      assert s[..|s| - 1] == [] && s[0] == Digit(n);
      assert Number([]) == Some(0);
    }
  }

  lemma DecimalInjective(m: nat, n: nat)
    requires Decimal(m) == Decimal(n)
    ensures m == n
  {
    DecimalNumber(m);
    DecimalNumber(n);
  }

  /** No agent's name is another's followed by a dash. */
  lemma AgentsApart(provider: string, other: string, suffix: string)
    requires provider in AGENTS && other in AGENTS && HasProvider(provider + "-" + suffix, other)
    ensures other == provider
  {
    var value := provider + "-" + suffix;
    assert value[..|other|] == other && value[|other|] == '-';
    assert value[..|provider|] == provider && value[|provider|] == '-';
    assert forall k :: 0 <= k < |provider| ==> value[k] == provider[k];
    assert forall k :: 0 <= k < |other| ==> value[k] == other[k];
    assert forall k :: 0 <= k < |provider| ==> provider[k] != '-';
    assert forall k :: 0 <= k < |other| ==> other[k] != '-';
    assert |provider| == |other|;
  }

  lemma {:induction false} AmongFinds(value: string, providers: seq<string>, p: string)
    requires p in providers && HasProvider(value, p)
    requires forall q :: q in providers && HasProvider(value, q) ==> q == p
    ensures ProviderAmong(value, providers) == p
    decreases |providers|
  {
    if providers[0] != p {
      AmongFinds(value, providers[1..], p);
    }
  }

  /** An auxiliary participant's name gives back its provider and its index, and
      is not the name of a primary agent. */
  lemma AuxiliaryRoundTrip(provider: string, index: int)
    requires IsPrimary(provider) && 1 <= index < MAX_INDEX
    ensures var a := Auxiliary(provider, index);
      a.Some? && Provider(a.value) == provider && !IsPrimary(a.value) && Index(a.value[|provider| + 1..]) == index
  {
    var suffix := Decimal(index);
    var value := provider + "-" + suffix;
    DecimalNumber(index);
    assert value[|provider| + 1..] == suffix && value[..|provider|] == provider;
    assert HasProvider(value, provider);
    forall q | q in AGENTS && HasProvider(value, q)
      ensures q == provider
    {
      AgentsApart(provider, q, suffix);
    }
    assert value[|provider|] == '-';
    AmongFinds(value, AGENTS, provider);
  }

  lemma AuxiliaryInjective(p: string, i: int, q: string, j: int)
    requires IsPrimary(p) && IsPrimary(q) && 1 <= i < MAX_INDEX && 1 <= j < MAX_INDEX
    requires Auxiliary(p, i) == Auxiliary(q, j)
    ensures p == q && i == j
  {
    AuxiliaryRoundTrip(p, i);
    AuxiliaryRoundTrip(q, j);
  }
}
