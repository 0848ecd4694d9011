/** Per-host cooldowns after HTTP 429 (internal/research/rate_limit.go).

    Times are nanoseconds since 1970.  Go's durations are 64-bit, so every
    product and shift is taken modulo 2^64 here.  Parsing an HTTP date is any
    function.
 */
module RateLimits {
  import opened Options
  import opened Text
  import P = Participants

  const SECOND: int := 1_000_000_000
  const MAX_INT64: int := 0x7FFF_FFFF_FFFF_FFFF
  const MAX_UINT64: int := 0xFFFF_FFFF_FFFF_FFFF
  const FAILURES: int := 3
  /** The zero time, and the last second of the year 9999. */
  const NEVER: int := -62_135_596_800 * SECOND
  const FAR: int := 253_402_300_799 * SECOND

  /** The value of a 64-bit signed product. */
  function Int64(x: int): int { (x + 0x8000_0000_0000_0000) % 0x1_0000_0000_0000_0000 - 0x8000_0000_0000_0000 }

  lemma Int64Exact(x: int)
    requires 0 <= x <= MAX_INT64
    ensures Int64(x) == x
  {
  }

  // ----- the Retry-After header

  /** A delta in seconds, a date, or nothing usable. */
  function RetryAfter(header: string, now: int, minimum: int, date: string -> Option<int>): int {
    var retryAt, value := now + minimum, Trim(header);
    if value == "" then retryAt
    else
      var seconds := P.Number(value);
      if seconds.Some? then
        if seconds.value > MAX_UINT64 || seconds.value > MAX_INT64 / SECOND then FAR
        else
          var candidate := now + Int64(seconds.value * SECOND);
          if candidate > retryAt then candidate else retryAt
      else
        var d := date(value);
        if d.Some? && d.value > retryAt then d.value else retryAt
  }

  /** The time the server asked to wait for, if its header names one that the
      clock can represent; FAR for a longer one. */
  function Asked(header: string, now: int, date: string -> Option<int>): Option<int> {
    var value := Trim(header);
    if value == "" then None
    else
      var seconds := P.Number(value);
      if seconds.Some? then Some(if seconds.value * SECOND > MAX_INT64 then FAR else now + seconds.value * SECOND)
      else date(value)
  }

  /** The delay never overflows: the retry time is the later of the minimum and
      what was asked, and an enormous delta is the year 9999. */
  lemma RetryAfterIs(header: string, now: int, minimum: int, date: string -> Option<int>)
    requires now + minimum <= FAR
    ensures RetryAfter(header, now, minimum, date) ==
      var asked := Asked(header, now, date); if asked.Some? then Max(now + minimum, asked.value) else now + minimum
  {
    var value := Trim(header);
    var seconds := P.Number(value);
    if value != "" && seconds.Some? {
      var n := seconds.value;
      if n * SECOND <= MAX_INT64 {
        Int64Exact(n * SECOND);
      }
    }
  }

  // ----- one host

  datatype Host = Host(failures: int, retryAt: int)

  const CALM := Host(0, NEVER)

  /** 30 s, then 60 s, then five minutes, and up to five seconds of jitter. */
  function Delay(failures: int, jitter: int): int
    requires 1 <= failures <= FAILURES
  {
    var doubled := Int64(30 * SECOND * (if failures == 1 then 1 else if failures == 2 then 2 else 4));
    (if failures >= FAILURES then 300 * SECOND else doubled) + jitter
  }

  datatype Reply = Error | Status(code: int, retryAfter: string)

  predicate TooMany(r: Reply) { r.Status? && r.code == 429 }

  predicate Success(r: Reply) { r.Status? && 200 <= r.code < 400 }

  /** The host after a request that was sent. */
  function After(h: Host, r: Reply, now: int, jitter: int, date: string -> Option<int>): Host
    requires 0 <= h.failures <= FAILURES
  {
    if r.Error? then h
    else if !TooMany(r) then if Success(r) then CALM else h
    else
      var failures := Min(h.failures + 1, FAILURES);
      Host(failures, RetryAfter(r.retryAfter, now, Delay(failures, jitter), date))
  }

  /** Suppressed while the cooldown is active. */
  predicate MaySend(h: Host, now: int) { now >= h.retryAt }

  // ----- runs

  /** One request that passed its host's gate: when it was considered, the reply
      it would get, when that came, and the jitter drawn. */
  datatype Request = Request(host: string, at: int, reply: Reply, got: int, jitter: int)

  datatype System = System(hosts: map<string, Host>, sent: seq<Request>)

  function HostOf(hosts: map<string, Host>, name: string): Host { if name in hosts then hosts[name] else CALM }

  predicate Plausible(q: Request) { 0 <= q.jitter < 5 * SECOND && q.got + 305 * SECOND <= FAR }

  predicate Sane(s: System) { forall name :: name in s.hosts ==> 0 <= s.hosts[name].failures <= FAILURES }

  function Next(s: System, q: Request, date: string -> Option<int>): System
    requires Sane(s)
  {
    var h := HostOf(s.hosts, q.host);
    if !MaySend(h, q.at) then s.(hosts := s.hosts[q.host := h])
    else System(s.hosts[q.host := After(h, q.reply, q.got, q.jitter, date)], s.sent + [q])
  }

  function Exec(s: System, run: seq<Request>, date: string -> Option<int>): System
    requires Sane(s)
    decreases |run|
  {
    if run == [] then s else Exec(Next(s, run[0], date), run[1..], date)
  }

  /** How many replies in a row were 429 since the host's last success. */
  function Streak(sent: seq<Request>, host: string): nat {
    if sent == [] then 0
    else
      var q, before := sent[|sent| - 1], Streak(sent[..|sent| - 1], host);
      if q.host != host then before else if TooMany(q.reply) then before + 1 else if Success(q.reply) then 0 else before
  }

  function Backoff(streak: nat): int { if streak <= 1 then 30 * SECOND else if streak == 2 then 60 * SECOND else 300 * SECOND }

  function AskedFloor(q: Request, streak: nat, date: string -> Option<int>): int
    requires q.reply.Status?
  {
    var least, asked := q.got + Backoff(streak), Asked(q.reply.retryAfter, q.got, date);
    if asked.Some? then Max(least, asked.value) else least
  }

  /** Before this the host asked not to be asked again. */
  function Floor(sent: seq<Request>, host: string, date: string -> Option<int>): int {
    if sent == [] then NEVER
    else
      var q, before := sent[|sent| - 1], sent[..|sent| - 1];
      if q.host != host then Floor(before, host, date)
      else if TooMany(q.reply) then AskedFloor(q, Streak(sent, host), date)
      else if Success(q.reply) then NEVER
      else Floor(before, host, date)
  }

  lemma SentPlus(sent: seq<Request>, q: Request, host: string, date: string -> Option<int>)
    ensures Streak(sent + [q], host) ==
      (if q.host != host then Streak(sent, host) else if TooMany(q.reply) then Streak(sent, host) + 1 else if Success(q.reply) then 0 else Streak(sent, host))
    ensures q.host != host || (!TooMany(q.reply) && !Success(q.reply)) ==> Floor(sent + [q], host, date) == Floor(sent, host, date)
    ensures q.host == host && Success(q.reply) ==> Floor(sent + [q], host, date) == NEVER
    ensures q.host == host && TooMany(q.reply) ==> Floor(sent + [q], host, date) == AskedFloor(q, Streak(sent, host) + 1, date)
  {
    assert (sent + [q])[..|sent|] == sent;
  }

  /** A host remembers its streak, up to three, and a retry time that is late enough. */
  predicate Remembers(h: Host, sent: seq<Request>, host: string, date: string -> Option<int>) {
    h.failures == Min(Streak(sent, host), FAILURES) && h.retryAt >= Floor(sent, host, date)
  }

  ghost predicate Faithful(s: System, date: string -> Option<int>) {
    Sane(s) && forall host :: Remembers(HostOf(s.hosts, host), s.sent, host, date)
  }

  /** No request went out before its host's floor. */
  ghost predicate Respected(sent: seq<Request>, date: string -> Option<int>) {
    forall j :: 0 <= j < |sent| ==> sent[j].at >= Floor(sent[..j], sent[j].host, date)
  }

  lemma DelayCovers(failures: int, streak: nat, jitter: int)
    requires 0 <= jitter < 5 * SECOND && failures == Min(streak, FAILURES) && streak >= 1
    ensures Backoff(streak) <= Delay(failures, jitter) < 305 * SECOND
  {
    Int64Exact(30 * SECOND);
    Int64Exact(60 * SECOND);
    Int64Exact(120 * SECOND);
  }

  lemma AfterRemembers(h: Host, sent: seq<Request>, q: Request, date: string -> Option<int>)
    requires Plausible(q) && 0 <= h.failures <= FAILURES && Remembers(h, sent, q.host, date)
    ensures Remembers(After(h, q.reply, q.got, q.jitter, date), sent + [q], q.host, date)
    ensures 0 <= After(h, q.reply, q.got, q.jitter, date).failures <= FAILURES
  {
    SentPlus(sent, q, q.host, date);
    if TooMany(q.reply) {
      var failures, streak := Min(h.failures + 1, FAILURES), Streak(sent, q.host) + 1;
      DelayCovers(failures, streak, q.jitter);
      RetryAfterIs(q.reply.retryAfter, q.got, Delay(failures, q.jitter), date);
    }
  }

  lemma HostAfter(s: System, q: Request, date: string -> Option<int>, host: string)
    requires Faithful(s, date) && Plausible(q)
    ensures Remembers(HostOf(Next(s, q, date).hosts, host), Next(s, q, date).sent, host, date)
  {
    assert Remembers(HostOf(s.hosts, q.host), s.sent, q.host, date);
    assert Remembers(HostOf(s.hosts, host), s.sent, host, date);
    if host == q.host {
      AfterRemembers(HostOf(s.hosts, q.host), s.sent, q, date);
    } else {
      SentPlus(s.sent, q, host, date);
    }
  }

  lemma StepFaithful(s: System, q: Request, date: string -> Option<int>)
    requires Faithful(s, date) && Plausible(q)
    ensures Faithful(Next(s, q, date), date)
  {
    assert Remembers(HostOf(s.hosts, q.host), s.sent, q.host, date);
    AfterRemembers(HostOf(s.hosts, q.host), s.sent, q, date);
    forall host
      ensures Remembers(HostOf(Next(s, q, date).hosts, host), Next(s, q, date).sent, host, date)
    {
      HostAfter(s, q, date, host);
    }
  }

  lemma StepRespected(s: System, q: Request, date: string -> Option<int>)
    requires Faithful(s, date) && Respected(s.sent, date)
    ensures Respected(Next(s, q, date).sent, date)
  {
    assert Remembers(HostOf(s.hosts, q.host), s.sent, q.host, date);
    var sent := Next(s, q, date).sent;
    forall j | 0 <= j < |sent|
      ensures sent[j].at >= Floor(sent[..j], sent[j].host, date)
    {
      if j < |s.sent| {
        assert sent[..j] == s.sent[..j];
      } else {
        assert sent[..j] == s.sent;
      }
    }
  }

  lemma {:induction false} RunRespected(s: System, run: seq<Request>, date: string -> Option<int>)
    requires Faithful(s, date) && Respected(s.sent, date) && forall i :: 0 <= i < |run| ==> Plausible(run[i])
    ensures Respected(Exec(s, run, date).sent, date)
    decreases |run|
  {
    if run != [] {
      StepFaithful(s, run[0], date);
      StepRespected(s, run[0], date);
      RunRespected(Next(s, run[0], date), run[1..], date);
    }
  }

  /** Over any run, no request to a host goes out before the k-th 429 in a row is
      30 s, 60 s, then five minutes old, nor before the time its Retry-After asked
      for (section 10.2.3 of RFC 9110). */
  lemma CooldownsHold(run: seq<Request>, date: string -> Option<int>)
    requires forall i :: 0 <= i < |run| ==> Plausible(run[i])
    ensures Respected(Exec(System(map[], []), run, date).sent, date)
  {
    RunRespected(System(map[], []), run, date);
  }

  // ----- the transport

  class Transport {
    var hosts: map<string, Host>

    ghost predicate Valid()
      reads this
    {
      forall name :: name in hosts ==> 0 <= hosts[name].failures <= FAILURES
    }

    constructor ()
      ensures Valid() && hosts == map[]
    {
      hosts := map[];
    }

    /** One request behind its host's gate; false when it was not sent. */
    method RoundTrip(q: Request, date: string -> Option<int>) returns (sent: bool)
      requires Valid()
      modifies this
      ensures Valid()
      ensures sent == MaySend(HostOf(old(hosts), q.host), q.at)
      ensures forall log :: Next(System(old(hosts), log), q, date) == System(hosts, if sent then log + [q] else log)
    {
      var state := HostOf(hosts, q.host);
      hosts := hosts[q.host := state];
      if q.at < state.retryAt {
        return false;
      }
      sent := true;
      if q.reply.Error? {
        return;
      }
      if q.reply.code != 429 {
        if 200 <= q.reply.code < 400 {
          hosts := hosts[q.host := Host(0, NEVER)];
        }
        return;
      }
      var failures := Min(state.failures + 1, FAILURES);
      var delay := Delay(failures, q.jitter);
      hosts := hosts[q.host := Host(failures, RetryAfter(q.reply.retryAfter, q.got, delay, date))];
    }
  }
}
