/** The replay loop over its maps (internal/chat/types.go). */
module CorrectionReplay {
  import opened Options
  import opened Participants
  import opened Corrections
  import opened CorrectionOrder

  lemma {:induction false} OffersPlus(events: seq<CorrectionEvent>, e: CorrectionEvent)
    ensures Offers(events + [e]) == Offers(events) + if e.kind == Offered then [e] else []
    decreases |events|
  {
    var all := events + [e];
    if events == [] {
      assert all[0] == e && all[1..] == [];
    } else {
      assert all[0] == events[0] && all[1..] == events[1..] + [e];
      OffersPlus(events[1..], e);
    }
  }

  lemma {:induction false} ResolutionsPlus(events: seq<CorrectionEvent>, e: CorrectionEvent)
    ensures Resolutions(events + [e]) == Resolutions(events) + if e.kind != Offered && e.kind != Unknown then [e] else []
    decreases |events|
  {
    var all := events + [e];
    if events == [] {
      assert all[0] == e && all[1..] == [];
    } else {
      assert all[0] == events[0] && all[1..] == events[1..] + [e];
      ResolutionsPlus(events[1..], e);
    }
  }

  /** The scan of one message's events: how many of each kind, and the last. */
  method ScanEvents(events: seq<CorrectionEvent>)
    returns (offers: nat, offered: Option<CorrectionEvent>, resolutions: nat, resolution: Option<CorrectionEvent>)
    ensures offers == |Offers(events)| && resolutions == |Resolutions(events)|
    ensures offers == 1 ==> offered == Some(Offers(events)[0])
    ensures resolutions == 1 ==> resolution == Some(Resolutions(events)[0])
  {
    offers, offered, resolutions, resolution := 0, None, 0, None;
    var k := 0;
    while k < |events|
      invariant k <= |events|
      invariant offers == |Offers(events[..k])| && resolutions == |Resolutions(events[..k])|
      invariant offers > 0 ==> offered == Some(Offers(events[..k])[offers - 1])
      invariant resolutions > 0 ==> resolution == Some(Resolutions(events[..k])[resolutions - 1])
    {
      OffersPlus(events[..k], events[k]);
      ResolutionsPlus(events[..k], events[k]);
      assert events[..k + 1] == events[..k] + [events[k]];
      if events[k].kind == Offered {
        offers, offered := offers + 1, Some(events[k]);
      } else if events[k].kind != Unknown {
        resolutions, resolution := resolutions + 1, Some(events[k]);
      }
      k := k + 1;
    }
    assert events[..k] == events;
  }

  lemma CountPlus(messages: seq<Message>, i: nat, s: int)
    requires i < |messages|
    ensures Count(messages[..i + 1], s) == Count(messages[..i], s) + if messages[i].sequence == s then 1 else 0
  {
    assert messages[..i + 1] == messages[..i] + [messages[i]];
    CountSplit(messages[..i], [messages[i]], s);
    assert [messages[i]][1..] == [];
  }

  function Tallied(counts: map<int, int>, s: int): int { if s in counts then counts[s] else 0 }

  method CountSequences(messages: seq<Message>) returns (counts: map<int, int>)
    ensures forall s :: s != 0 ==> Tallied(counts, s) == Count(messages, s)
  {
    counts := map[];
    var i := 0;
    while i < |messages|
      invariant i <= |messages|
      invariant forall s :: s != 0 ==> Tallied(counts, s) == Count(messages[..i], s)
    {
      ghost var before := counts;
      var q := messages[i].sequence;
      if q != 0 {
        counts := counts[q := Tallied(counts, q) + 1];
      }
      forall s | s != 0
        ensures Tallied(counts, s) == Count(messages[..i + 1], s)
      {
        CountPlus(messages, i, s);
        assert Tallied(before, s) == Count(messages[..i], s);
      }
      i := i + 1;
    }
    assert messages[..i] == messages;
  }

  /** The map holds the messages alone with their sequence, among these. */
  ghost predicate Indexed(bySequence: map<int, Message>, all: seq<Message>, among: seq<Message>) {
    && (forall s :: s in bySequence ==> bySequence[s] in among && bySequence[s].sequence == s && Solo(all, bySequence[s]))
    && forall m :: m in among && Solo(all, m) ==> m.sequence in bySequence
  }

  lemma IndexedIsAt(bySequence: map<int, Message>, all: seq<Message>, s: int)
    requires Indexed(bySequence, all, Ordered(all))
    ensures Get(bySequence, s) == Lookup(all, Ordered(all), s)
  {
    if s in bySequence {
      OrderedHas(all, bySequence[s]);
      AtFinds(all, bySequence[s]);
    }
    if At(all, s).Some? {
      AtGives(all, s);
      OrderedHas(all, At(all, s).value);
    }
  }

  method IndexSequences(all: seq<Message>, counts: map<int, int>) returns (bySequence: map<int, Message>)
    requires forall s :: s != 0 ==> Tallied(counts, s) == Count(all, s)
    ensures forall s :: Get(bySequence, s) == Lookup(all, Ordered(all), s)
  {
    var ordered := Ordered(all);
    bySequence := map[];
    var i := 0;
    while i < |ordered|
      invariant i <= |ordered| && Indexed(bySequence, all, ordered[..i])
    {
      var m := ordered[i];
      assert ordered[..i + 1] == ordered[..i] + [m];
      if m.sequence != 0 && Tallied(counts, m.sequence) == 1 {
        bySequence := bySequence[m.sequence := m];
      }
      i := i + 1;
    }
    assert ordered[..i] == ordered;
    forall s
      ensures Get(bySequence, s) == Lookup(all, Ordered(all), s)
    {
      IndexedIsAt(bySequence, all, s);
    }
  }

  /** The map gives each correction's place in the ledger. */
  ghost predicate Places(corrections: map<int, nat>, ledger: seq<Correction>) {
    forall s :: Get(corrections, s) == if Find(ledger, s) < |ledger| then Some(Find(ledger, s)) else None
  }

  lemma FindUpdated(ledger: seq<Correction>, i: nat, c: Correction, s: int)
    requires i < |ledger| && c.sequence == ledger[i].sequence
    ensures Find(ledger[i := c], s) == Find(ledger, s)
  {
    var a, b := Find(ledger, s), Find(ledger[i := c], s);
    assert a < |ledger| ==> ledger[i := c][a].sequence == s;
    assert b < |ledger| ==> ledger[b].sequence == s;
  }

  lemma FindAppended(ledger: seq<Correction>, c: Correction, s: int)
    ensures Find(ledger + [c], s) ==
      if Find(ledger, s) < |ledger| then Find(ledger, s) else if c.sequence == s then |ledger| else |ledger| + 1
  {
    var all := ledger + [c];
    var a, b := Find(ledger, s), Find(all, s);
    assert all[|ledger|] == c;
    assert a < |ledger| ==> all[a].sequence == s;
    assert b < |ledger| ==> ledger[b].sequence == s;
  }

  method ResolveOne(ledger: seq<Correction>, corrections: map<int, nat>, m: Message, event: CorrectionEvent) returns (r: seq<Correction>)
    requires Places(corrections, ledger) && Resolutions(m.events) == [event]
    ensures r == Resolve(ledger, m) && Places(corrections, r)
  {
    r := ledger;
    assert Get(corrections, event.correction) == if Find(ledger, event.correction) < |ledger| then Some(Find(ledger, event.correction)) else None;
    if event.correction in corrections && event.correction < m.sequence {
      var i := corrections[event.correction];
      var c := ledger[i];
      if c.status != AcceptedStatus && c.status != RetractedStatus {
        var valid := false;
        var status := c.status;
        match event.kind {
          case Accepted =>
            if m.author == c.target {
              status, valid := AcceptedStatus, true;
            }
          case Disputed =>
            if m.author == c.target && c.status != DisputedStatus {
              status, valid := DisputedStatus, true;
            }
          case Retracted =>
            if m.author == c.proposer {
              status, valid := RetractedStatus, true;
            }
          case Offered =>
          case Unknown =>
        }
        if valid {
          r := ledger[i := Correction(c.sequence, c.corrected, c.proposer, c.target, status, m.sequence, c.createdAt, m.createdAt)];
        }
      }
      assert r == ledger[i := Rule(c, m, event.kind)];
      forall s
        ensures Find(r, s) == Find(ledger, s)
      {
        FindUpdated(ledger, i, Rule(c, m, event.kind), s);
      }
    }
  }

  method OfferOne(ledger: seq<Correction>, corrections: map<int, nat>, m: Message, event: CorrectionEvent, corrected: Option<Message>)
    returns (r: seq<Correction>, places: map<int, nat>)
    requires Places(corrections, ledger)
    ensures Places(places, r)
    ensures r == if !MayOffer(event, m, corrected) || Find(ledger, event.correction) < |ledger| then ledger
      else ledger + [Correction(event.correction, event.corrected, event.proposer, event.target, PendingStatus, 0, m.createdAt, m.createdAt)]
  {
    r, places := ledger, corrections;
    assert Get(corrections, event.correction) == if Find(ledger, event.correction) < |ledger| then Some(Find(ledger, event.correction)) else None;
    if MayOffer(event, m, corrected) && event.correction !in corrections {
      var c := Correction(event.correction, event.corrected, event.proposer, event.target, PendingStatus, 0, m.createdAt, m.createdAt);
      r, places := ledger + [c], corrections[event.correction := |ledger|];
      forall s
        ensures Get(places, s) == if Find(r, s) < |r| then Some(Find(r, s)) else None
      {
        FindAppended(ledger, c, s);
        assert Get(corrections, s) == if Find(ledger, s) < |ledger| then Some(Find(ledger, s)) else None;
      }
    }
  }

  method ReplayOne(ledger: seq<Correction>, corrections: map<int, nat>, m: Message, all: seq<Message>, bySequence: map<int, Message>)
    returns (r: seq<Correction>, places: map<int, nat>)
    requires Places(corrections, ledger) && Solo(all, m) && Readable(m)
    requires forall s :: Get(bySequence, s) == Lookup(all, Ordered(all), s)
    ensures r == Replay(ledger, m, all) && Places(places, r)
  {
    r, places := ledger, corrections;
    var offers, offered, resolutions, resolution := ScanEvents(m.events);
    if resolutions == 1 {
      assert Resolutions(m.events) == [resolution.value];
      r := ResolveOne(ledger, corrections, m, resolution.value);
    }
    if offers == 1 {
      assert Offers(m.events) == [offered.value];
      assert Get(bySequence, offered.value.corrected) == Lookup(all, Ordered(all), offered.value.corrected);
      r, places := OfferOne(r, places, m, offered.value, Get(bySequence, offered.value.corrected));
    }
  }

  /** The ledger of a transcript. */
  method CorrectionLedger(messages: seq<Message>) returns (ledger: seq<Correction>)
    ensures ledger == Ledger(messages)
  {
    var counts := CountSequences(messages);
    var ordered := Ordered(messages);
    var bySequence := IndexSequences(messages, counts);
    var corrections: map<int, nat> := map[];
    ledger := [];
    var i := 0;
    while i < |ordered|
      invariant i <= |ordered| && Places(corrections, ledger)
      invariant ReplayAll(ledger, ordered[i..], messages) == Ledger(messages)
    {
      var m := ordered[i];
      if m.sequence != 0 && Tallied(counts, m.sequence) == 1 && m.isText && ValidAgent(m.author) && !m.blank {
        ledger, corrections := ReplayOne(ledger, corrections, m, messages, bySequence);
      }
      i := i + 1;
    }
  }
}
