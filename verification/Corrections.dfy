/** The correction ledger: replay of the events that transcript messages carry,
    and the statistics counted from it (internal/chat/types.go). */
module Corrections {
  import opened Options
  import opened Participants

  datatype EventType = Offered | Disputed | Accepted | Retracted | Unknown

  datatype CorrectionEvent = CorrectionEvent(kind: EventType, correction: int, corrected: int, proposer: string, target: string)

  datatype Message = Message(sequence: int, isText: bool, author: string, blank: bool, createdAt: int, events: seq<CorrectionEvent>)

  datatype Status = PendingStatus | DisputedStatus | AcceptedStatus | RetractedStatus

  datatype Correction = Correction(sequence: int, corrected: int, proposer: string, target: string,
                                   status: Status, statusSequence: int, createdAt: int, updatedAt: int)

  // ----- the messages that are replayed

  function Count(messages: seq<Message>, sequence: int): nat {
    if messages == [] then 0 else (if messages[0].sequence == sequence then 1 else 0) + Count(messages[1..], sequence)
  }

  /** No other message has its sequence. */
  predicate Solo(messages: seq<Message>, m: Message) { m.sequence != 0 && Count(messages, m.sequence) == 1 }

  predicate Readable(m: Message) { m.isText && ValidAgent(m.author) && !m.blank }

  /** Stable sort by sequence. */
  function Insert(m: Message, ordered: seq<Message>): seq<Message> {
    if ordered == [] || m.sequence <= ordered[0].sequence then [m] + ordered else [ordered[0]] + Insert(m, ordered[1..])
  }

  function Ordered(messages: seq<Message>): seq<Message> {
    if messages == [] then [] else Insert(messages[0], Ordered(messages[1..]))
  }

  /** The message of a sequence, if it is the only one. */
  function Lookup(all: seq<Message>, among: seq<Message>, sequence: int): Option<Message> {
    if among == [] then None
    else if among[0].sequence == sequence && Solo(all, among[0]) then Some(among[0])
    else Lookup(all, among[1..], sequence)
  }

  // ----- the events of one message

  function Offers(events: seq<CorrectionEvent>): seq<CorrectionEvent> {
    if events == [] then [] else (if events[0].kind == Offered then [events[0]] else []) + Offers(events[1..])
  }

  function Resolutions(events: seq<CorrectionEvent>): seq<CorrectionEvent> {
    if events == [] then []
    else (if events[0].kind != Offered && events[0].kind != Unknown then [events[0]] else []) + Resolutions(events[1..])
  }

  function Find(ledger: seq<Correction>, sequence: int): (i: nat)
    ensures i <= |ledger|
    ensures i < |ledger| ==> ledger[i].sequence == sequence
    ensures forall j :: 0 <= j < i ==> ledger[j].sequence != sequence
  {
    if ledger == [] || ledger[0].sequence == sequence then 0 else 1 + Find(ledger[1..], sequence)
  }

  predicate Final(s: Status) { s == AcceptedStatus || s == RetractedStatus }

  /** The status an event gives the correction, if its author may. */
  function Ruling(c: Correction, author: string, kind: EventType): Option<Status> {
    if Final(c.status) then None
    else
      match kind
      case Accepted => if author == c.target then Some(AcceptedStatus) else None
      case Disputed => if author == c.target && c.status != DisputedStatus then Some(DisputedStatus) else None
      case Retracted => if author == c.proposer then Some(RetractedStatus) else None
      case Offered => None
      case Unknown => None
  }

  function Rule(c: Correction, m: Message, kind: EventType): Correction {
    var s := Ruling(c, m.author, kind);
    if s.None? then c
    else Correction(c.sequence, c.corrected, c.proposer, c.target, s.value, m.sequence, c.createdAt, m.createdAt)
  }

  function Resolve(ledger: seq<Correction>, m: Message): seq<Correction> {
    var r := Resolutions(m.events);
    if |r| != 1 then ledger
    else
      var i := Find(ledger, r[0].correction);
      if i == |ledger| || r[0].correction >= m.sequence then ledger else ledger[i := Rule(ledger[i], m, r[0].kind)]
  }

  predicate MayOffer(e: CorrectionEvent, m: Message, corrected: Option<Message>) {
    && corrected.Some? && e.correction == m.sequence && e.corrected < m.sequence && Readable(corrected.value)
    && corrected.value.author != m.author && e.proposer == m.author && e.target == corrected.value.author
  }

  function Offer(ledger: seq<Correction>, m: Message, all: seq<Message>): seq<Correction> {
    var o := Offers(m.events);
    if |o| != 1 || !MayOffer(o[0], m, Lookup(all, Ordered(all), o[0].corrected)) || Find(ledger, o[0].correction) < |ledger| then ledger
    else ledger + [Correction(o[0].correction, o[0].corrected, o[0].proposer, o[0].target, PendingStatus, 0, m.createdAt, m.createdAt)]
  }

  function Replay(ledger: seq<Correction>, m: Message, all: seq<Message>): seq<Correction> {
    if !Solo(all, m) || !Readable(m) then ledger else Offer(Resolve(ledger, m), m, all)
  }

  function ReplayAll(ledger: seq<Correction>, messages: seq<Message>, all: seq<Message>): seq<Correction>
    decreases |messages|
  {
    if messages == [] then ledger else ReplayAll(Replay(ledger, messages[0], all), messages[1..], all)
  }

  function Ledger(messages: seq<Message>): seq<Correction> { ReplayAll([], Ordered(messages), messages) }
}
