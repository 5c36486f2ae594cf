/** The login rate limiter: windows, lockouts and exponential backoff. Times
    are nanoseconds; 0 is the zero time, so every clock reading is positive. */
module RateLimit {
  import opened Wrappers

  const MAX_ATTEMPTS: nat := 5
  const SECOND: int := 1_000_000_000
  const BASE_WINDOW: int := 15 * 60 * SECOND
  const MAX_BACKOFF: nat := 3

  datatype Entry = Entry(attempts: nat, windowStart: int, backoff: nat, lockedUntil: int)

  function Window(backoff: nat): (w: int)
    ensures BASE_WINDOW <= w <= 8 * BASE_WINDOW
  {
    match backoff
    case 0 => BASE_WINDOW
    case 1 => 2 * BASE_WINDOW
    case 2 => 4 * BASE_WINDOW
    case _ => 8 * BASE_WINDOW
  }

  /** Each level doubles the window, up to the last one. */
  lemma WindowDoubles(backoff: nat)
    ensures Window(0) == BASE_WINDOW <= Window(backoff) <= 8 * BASE_WINDOW
    ensures Window(backoff + 1) == if backoff < MAX_BACKOFF then 2 * Window(backoff) else Window(backoff)
  {
    if backoff > 3 {
      assert Window(backoff) == Window(backoff + 1) == 8 * BASE_WINDOW;
    }
  }

  predicate Expired(e: Entry, now: int) {
    now - e.windowStart > Window(e.backoff)
  }

  predicate Stale(e: Entry, now: int) {
    now > e.lockedUntil && Expired(e, now)
  }

  function Lookup(m: map<string, Entry>, ip: string): Option<Entry> {
    if ip in m then Some(m[ip]) else None
  }

  /** Only a running lockout refuses an attempt. */
  predicate Allowed(e: Option<Entry>, now: int) {
    e.Some? ==> e.value.lockedUntil <= now
  }

  function Failed(e: Option<Entry>, now: int): Entry {
    match e
    case None => Entry(1, now, 0, 0)
    case Some(e) =>
      if Expired(e, now) then
        var escalate := e.backoff > 0 || e.attempts >= MAX_ATTEMPTS;
        Entry(1, now, if !escalate then e.backoff else if e.backoff < MAX_BACKOFF then e.backoff + 1 else MAX_BACKOFF, 0)
      else
        var attempts := e.attempts + 1;
        Entry(attempts, e.windowStart, e.backoff,
              if attempts >= MAX_ATTEMPTS then now + Window(e.backoff) else e.lockedUntil)
  }

  function Cleaned(m: map<string, Entry>, now: int): map<string, Entry> {
    map ip | ip in m && !Stale(m[ip], now) :: m[ip]
  }

  class RateLimiter {
    var entries: map<string, Entry>

    constructor ()
      ensures entries == map[]
    {
      entries := map[];
    }

    /** A refused caller is told a whole number of seconds after which the
        lockout is over, and at most one second more than needed. */
    method IsAllowed(ip: string, now: int) returns (allowed: bool, retryAfter: int)
      ensures allowed == Allowed(Lookup(entries, ip), now) == (ip !in entries || entries[ip].lockedUntil <= now)
      ensures allowed ==> retryAfter == 0
      ensures !allowed ==>
        var left := entries[ip].lockedUntil - now;
        (retryAfter - 1) * SECOND <= left < retryAfter * SECOND
    {
      if ip !in entries {
        return true, 0;
      }
      var entry := entries[ip];
      if now < entry.lockedUntil {
        return false, (entry.lockedUntil - now) / SECOND + 1;
      }
      if now - entry.windowStart > Window(entry.backoff) {
        return true, 0;
      }
      if entry.attempts < MAX_ATTEMPTS {
        return true, 0;
      }
      return true, 0;
    }

    method RecordFailure(ip: string, now: int)
      modifies this
      ensures entries == old(entries)[ip := Failed(Lookup(old(entries), ip), now)]
    {
      if ip !in entries {
        entries := entries[ip := Entry(1, now, 0, 0)];
        return;
      }
      var entry := entries[ip];
      if now - entry.windowStart > Window(entry.backoff) {
        if entry.backoff > 0 || entry.attempts >= MAX_ATTEMPTS {
          entry := entry.(backoff := entry.backoff + 1);
          if entry.backoff > MAX_BACKOFF {
            entry := entry.(backoff := MAX_BACKOFF);
          }
        }
        entry := entry.(attempts := 1);
        entry := entry.(windowStart := now);
        entry := entry.(lockedUntil := 0);
        entries := entries[ip := entry];
        return;
      }
      entry := entry.(attempts := entry.attempts + 1);
      if entry.attempts >= MAX_ATTEMPTS {
        entry := entry.(lockedUntil := now + Window(entry.backoff));
      }
      entries := entries[ip := entry];
    }

    method RecordSuccess(ip: string)
      modifies this
      ensures entries == old(entries) - {ip}
    {
      entries := entries - {ip};
    }

    method Cleanup(now: int)
      modifies this
      ensures entries == Cleaned(old(entries), now)
      ensures forall ip :: ip in entries <==>
                && ip in old(entries)
                && var e := old(entries)[ip]; now <= e.lockedUntil || now <= e.windowStart + Window(e.backoff)
      ensures forall ip :: ip in entries ==> entries[ip] == old(entries)[ip]
    {
      ghost var before := entries;
      var todo := entries.Keys;
      while todo != {}
        invariant todo <= before.Keys
        invariant entries == map ip | ip in before && (ip in todo || !Stale(before[ip], now)) :: before[ip]
        decreases |todo|
      {
        var ip :| ip in todo;
        todo := todo - {ip};
        if now > entries[ip].lockedUntil && now - entries[ip].windowStart > Window(entries[ip].backoff) {
          entries := entries - {ip};
        }
      }
    }
  }

  // ---- Every run ----

  datatype Event =
    | Failure(ip: string, time: int)
    | Success(ip: string, time: int)
    | CleanupRun(time: int)

  function Next(m: map<string, Entry>, e: Event): map<string, Entry> {
    match e
    case Failure(ip, t) => m[ip := Failed(Lookup(m, ip), t)]
    case Success(ip, t) => m - {ip}
    case CleanupRun(t) => Cleaned(m, t)
  }

  /** The entries after a run that started with the entries `m`. */
  function EntriesAfter(es: seq<Event>, m: map<string, Entry> := map[]): map<string, Entry> {
    if es == [] then m else Next(EntriesAfter(es[..|es| - 1], m), es[|es| - 1])
  }

  /** The clock never runs back, and a failure is only recorded for an attempt
      that was allowed at that time. */
  predicate Legal(es: seq<Event>) {
    es == [] ||
    var before, e := es[..|es| - 1], es[|es| - 1];
    && Legal(before)
    && 0 < e.time
    && (before != [] ==> before[|before| - 1].time <= e.time)
    && (e.Failure? ==> Allowed(Lookup(EntriesAfter(before), e.ip), e.time))
  }

  /** The times of the failures recorded for `ip` since its last success. */
  function Failures(es: seq<Event>, ip: string): seq<int> {
    if es == [] then []
    else
      var before := Failures(es[..|es| - 1], ip);
      match es[|es| - 1]
      case Failure(i, t) => if i == ip then before + [t] else before
      case Success(i, _) => if i == ip then [] else before
      case CleanupRun(_) => before
  }

  ghost predicate Ordered(f: seq<int>, now: int) {
    && (forall i, j :: 0 <= i <= j < |f| ==> f[i] <= f[j])
    && (forall i :: 0 <= i < |f| ==> f[i] <= now)
  }

  /** Any nine consecutive failures span at least 15 minutes. */
  ghost predicate Spaced(f: seq<int>) {
    forall i :: 0 <= i && i + 8 < |f| ==> f[i] + BASE_WINDOW <= f[i + 8]
  }

  /** All but the last three failures among the first `n` are at least 15
      minutes older than `t`. */
  ghost predicate Settled(f: seq<int>, n: int, t: int) {
    n <= |f| && (4 <= n ==> f[n - 4] + BASE_WINDOW <= t)
  }

  /** How the entry remembers the failures: those of its window are the last
      `attempts` ones, and everything earlier had settled when it started. */
  ghost predicate Remembers(e: Option<Entry>, f: seq<int>, now: int) {
    match e
    case None => Settled(f, |f|, now)
    case Some(e) =>
      && 1 <= e.attempts <= |f|
      && f[|f| - e.attempts] == e.windowStart
      && Settled(f, |f| - e.attempts, e.windowStart)
      && (e.attempts >= MAX_ATTEMPTS ==> e.lockedUntil == f[|f| - 1] + Window(e.backoff))
      && (e.attempts < MAX_ATTEMPTS ==> e.lockedUntil == 0)
  }

  ghost predicate Inv(e: Option<Entry>, f: seq<int>, now: int) {
    Ordered(f, now) && Spaced(f) && Remembers(e, f, now)
  }

  lemma LaterKeepsInv(e: Option<Entry>, f: seq<int>, now: int, later: int)
    requires Inv(e, f, now) && now <= later
    ensures Inv(e, f, later)
  {
  }

  /** Once the lockout is over and the window has expired, all but the last
      three failures are 15 minutes old. */
  lemma ExpiredIsSettled(e: Entry, f: seq<int>, now: int)
    requires Inv(Some(e), f, now) && Expired(e, now) && e.lockedUntil <= now
    ensures Settled(f, |f|, now)
  {
    if |f| >= 4 {
      if e.attempts >= MAX_ATTEMPTS {
        assert f[|f| - 4] <= f[|f| - 1];
      } else {
        assert f[|f| - 4] <= f[|f| - e.attempts];
      }
    }
  }

  lemma FailureKeepsInv(e: Option<Entry>, f: seq<int>, now: int)
    requires Inv(e, f, now) && Allowed(e, now)
    ensures Inv(Some(Failed(e, now)), f + [now], now)
  {
    var g := f + [now];
    var e' := Failed(e, now);
    if e.None? || Expired(e.value, now) {
      if e.Some? {
        ExpiredIsSettled(e.value, f, now);
      }
      assert |f| >= 8 ==> f[|f| - 8] <= f[|f| - 4];
    } else if e.value.attempts >= MAX_ATTEMPTS {
      assert |f| >= 8 ==> f[|f| - 8] <= f[|f| - 1];
    } else {
      var a := e.value.attempts;
      assert |f| >= 8 ==> f[|f| - 8] <= f[|f| - a - 4];
    }
    assert Spaced(g);
    assert forall i :: 0 <= i < |f| ==> g[i] == f[i];
  }

  lemma CleanupKeepsInv(m: map<string, Entry>, ip: string, f: seq<int>, now: int)
    requires Inv(Lookup(m, ip), f, now)
    ensures Inv(Lookup(Cleaned(m, now), ip), f, now)
  {
    if ip in m && Stale(m[ip], now) {
      ExpiredIsSettled(m[ip], f, now);
    }
  }

  lemma {:induction false} RunKeepsInv(es: seq<Event>, ip: string)
    requires Legal(es)
    ensures Inv(Lookup(EntriesAfter(es), ip), Failures(es, ip), if es == [] then 0 else es[|es| - 1].time)
  {
    if es != [] {
      var before, e := es[..|es| - 1], es[|es| - 1];
      var m, f := EntriesAfter(before), Failures(before, ip);
      RunKeepsInv(before, ip);
      LaterKeepsInv(Lookup(m, ip), f, if before == [] then 0 else before[|before| - 1].time, e.time);
      match e
      case Failure(i, t) =>
        if i == ip {
          FailureKeepsInv(Lookup(m, ip), f, t);
        }
      case Success(i, t) =>
      case CleanupRun(t) =>
        CleanupKeepsInv(m, ip, f, t);
    }
  }

  function InWindow(f: seq<int>, start: int): set<int> {
    set i | 0 <= i < |f| && start <= f[i] < start + BASE_WINDOW
  }

  lemma {:induction false} BoundedRange(s: set<int>, lo: int, n: nat)
    requires forall i :: i in s ==> lo <= i < lo + n
    ensures |s| <= n
  {
    if n == 0 {
      assert forall i :: i !in s;
    } else {
      BoundedRange(s - {lo + n - 1}, lo, n - 1);
    }
  }

  lemma {:induction false} SpacedWindow(f: seq<int>, now: int, start: int, lo: nat)
    requires Ordered(f, now) && Spaced(f) && lo <= |f|
    requires forall i :: i in InWindow(f, start) ==> lo <= i
    ensures |InWindow(f, start)| <= 8
    decreases |f| - lo
  {
    if lo in InWindow(f, start) {
      forall i | i in InWindow(f, start)
        ensures lo <= i < lo + 8
      {
        assert lo + 8 < |f| ==> f[lo] + BASE_WINDOW <= f[lo + 8];
      }
      BoundedRange(InWindow(f, start), lo, 8);
    } else if lo < |f| {
      SpacedWindow(f, now, start, lo + 1);
    } else {
      assert InWindow(f, start) == {};
    }
  }

  /** Whatever the timing of attempts, successes and cleanup runs: between two
      successes any half-open 15-minute interval holds at most eight recorded
      failures of an address. */
  lemma AtMostEight(es: seq<Event>, ip: string, start: int)
    requires Legal(es)
    ensures |InWindow(Failures(es, ip), start)| <= 8
  {
    RunKeepsInv(es, ip);
    SpacedWindow(Failures(es, ip), if es == [] then 0 else es[|es| - 1].time, start, 0);
  }

  // ---- Eight is reached ----

  lemma Extend(es: seq<Event>, ip: string, t: int) returns (longer: seq<Event>)
    requires Legal(es) && 0 < t && (es != [] ==> es[|es| - 1].time <= t)
    requires Allowed(Lookup(EntriesAfter(es), ip), t)
    ensures longer == es + [Failure(ip, t)] && Legal(longer)
    ensures Lookup(EntriesAfter(longer), ip) == Some(Failed(Lookup(EntriesAfter(es), ip), t))
    ensures Failures(longer, ip) == Failures(es, ip) + [t]
  {
    longer := es + [Failure(ip, t)];
    assert longer[..|longer| - 1] == es;
  }

  /** Four failures in one window, three of them in its last instant. */
  lemma FirstFour(ip: string) returns (es: seq<Event>)
    ensures es != [] && es[|es| - 1].time == 1 + BASE_WINDOW && Legal(es)
    ensures Lookup(EntriesAfter(es), ip) == Some(Entry(4, 1, 0, 0))
    ensures Failures(es, ip) == [1, 1 + BASE_WINDOW, 1 + BASE_WINDOW, 1 + BASE_WINDOW]
  {
    assert Lookup(EntriesAfter([]), ip) == None && Failures([], ip) == [] && Legal([]);
    hide EntriesAfter, Legal, Failures;
    es := Extend([], ip, 1);
    es := Extend(es, ip, 1 + BASE_WINDOW);
    es := Extend(es, ip, 1 + BASE_WINDOW);
    es := Extend(es, ip, 1 + BASE_WINDOW);
  }

  function Repeated(e: Event, n: nat): (r: seq<Event>)
    ensures |r| == n && forall i :: 0 <= i < n ==> r[i] == e
  {
    seq(n, _ => e)
  }

  /** Up to five failures that start a new window at `t`. */
  lemma {:induction false} ExtendBy(es: seq<Event>, ip: string, t: int, n: nat) returns (longer: seq<Event>)
    requires Legal(es) && 0 < t && (es != [] ==> es[|es| - 1].time <= t) && 0 < n <= MAX_ATTEMPTS
    requires Allowed(Lookup(EntriesAfter(es), ip), t)
    requires var e := Failed(Lookup(EntriesAfter(es), ip), t); e == Entry(1, t, e.backoff, 0)
    ensures longer == es + Repeated(Failure(ip, t), n) && Legal(longer)
    ensures var level := Failed(Lookup(EntriesAfter(es), ip), t).backoff;
            Lookup(EntriesAfter(longer), ip)
            == Some(Entry(n, t, level, if n == MAX_ATTEMPTS then t + Window(level) else 0))
    ensures Failures(longer, ip) == Failures(es, ip) + seq(n, _ => t)
  {
    hide EntriesAfter, Legal, Failures, Repeated, Failed, Window;
    OneMore(es, Failures(es, ip), Failure(ip, t), t, n - 1);
    if n == 1 {
      longer := Extend(es, ip, t);
    } else {
      var level := Failed(Lookup(EntriesAfter(es), ip), t).backoff;
      longer := ExtendBy(es, ip, t, n - 1);
      NextAttempt(t, level, n);
      longer := Extend(longer, ip, t);
    }
  }

  lemma NextAttempt(t: int, level: nat, n: nat)
    requires 1 < n <= MAX_ATTEMPTS
    ensures Failed(Some(Entry(n - 1, t, level, 0)), t)
            == Entry(n, t, level, if n == MAX_ATTEMPTS then t + Window(level) else 0)
  {
  }

  lemma OneMore(es: seq<Event>, f: seq<int>, e: Event, t: int, n: nat)
    ensures es + Repeated(e, n) + [e] == es + Repeated(e, n + 1) && es + [e] == es + Repeated(e, 1)
    ensures f + seq(n, _ => t) + [t] == f + seq(n + 1, _ => t) && f + [t] == f + seq(1, _ => t)
  {
  }

  /** The bound is tight: three failures at the very end of a window and five
      in the next one, a nanosecond later. */
  lemma EightIsReached(ip: string) returns (es: seq<Event>, start: int)
    ensures Legal(es) && |InWindow(Failures(es, ip), start)| == 8
  {
    hide EntriesAfter, Legal, Failures;
    start := 1 + BASE_WINDOW;
    es := FirstFour(ip);
    es := ExtendBy(es, ip, start + 1, 5);
    assert InWindow(Failures(es, ip), start) == {1, 2, 3, 4, 5, 6, 7, 8};
  }

  // ---- Lockout, backoff and cleanup ----

  /** The fifth failure of a window refuses every attempt for a whole window. */
  lemma FifthFailureLocks(e: Entry, now: int, later: int)
    requires e.attempts >= MAX_ATTEMPTS - 1 && !Expired(e, now)
    ensures Allowed(Some(Failed(Some(e), now)), later) <==> now + Window(e.backoff) <= later
  {
  }

  /** The next failure of an expired entry raises the backoff level. */
  predicate Escalates(e: Entry) {
    e.backoff > 0 || e.attempts >= MAX_ATTEMPTS
  }

  /** A cleanup run at `now` throws away a backoff level of `ip`. */
  predicate ForgetsBackoff(m: map<string, Entry>, ip: string, now: int) {
    ip in m && Stale(m[ip], now) && Escalates(m[ip])
  }

  /** The next failure gets another backoff level because of the cleanup
      exactly when the entry was stale and would have escalated. */
  lemma CleanupForgetsBackoff(m: map<string, Entry>, ip: string, now: int, later: int)
    requires now <= later
    ensures Failed(Lookup(Cleaned(m, now), ip), later).backoff != Failed(Lookup(m, ip), later).backoff
            <==> ForgetsBackoff(m, ip, now)
  {
  }

  // Which later runs can tell that there was a cleanup.

  /** Events from `now` on, up to `later`. */
  ghost predicate IsContinuation(es: seq<Event>, now: int, later: int) {
    && now <= later
    && (forall i, j :: 0 <= i < j < |es| ==> es[i].time <= es[j].time)
    && (forall i :: 0 <= i < |es| ==> now <= es[i].time <= later)
  }

  /** An entry and what the cleanup left of it behave alike. */
  ghost predicate Alike(kept: Option<Entry>, cleaned: Option<Entry>, now: int) {
    kept == cleaned || (cleaned.None? && kept.Some? && Stale(kept.value, now) && !Escalates(kept.value))
  }

  lemma StepKeepsAlike(kept: map<string, Entry>, cleaned: map<string, Entry>, ip: string, now: int, e: Event)
    requires Alike(Lookup(kept, ip), Lookup(cleaned, ip), now) && now <= e.time
    ensures Alike(Lookup(Next(kept, e), ip), Lookup(Next(cleaned, e), ip), now)
  {
  }

  lemma {:induction false} RunKeepsAlike(kept: map<string, Entry>, cleaned: map<string, Entry>, ip: string, now: int,
                                         es: seq<Event>, later: int)
    requires Alike(Lookup(kept, ip), Lookup(cleaned, ip), now) && IsContinuation(es, now, later)
    ensures Alike(Lookup(EntriesAfter(es, kept), ip), Lookup(EntriesAfter(es, cleaned), ip), now) && now <= later
  {
    if es != [] {
      var init := es[..|es| - 1];
      RunKeepsAlike(kept, cleaned, ip, now, init, later);
      StepKeepsAlike(EntriesAfter(init, kept), EntriesAfter(init, cleaned), ip, now, es[|es| - 1]);
    }
  }

  /** The entry after `n` failures at one time, the first of a new window. */
  lemma {:induction false} FailuresAtOnce(m: map<string, Entry>, ip: string, t: int, n: nat)
    requires 0 < n
    ensures var e := Failed(Lookup(m, ip), t);
            e.windowStart == t && e.attempts == 1 && e.lockedUntil == 0 ==>
            Lookup(EntriesAfter(Repeated(Failure(ip, t), n), m), ip)
            == Some(Entry(n, t, e.backoff, if n >= MAX_ATTEMPTS then t + Window(e.backoff) else 0))
  {
    var es := Repeated(Failure(ip, t), n);
    assert es[..n - 1] == Repeated(Failure(ip, t), n - 1);
    if n > 1 {
      FailuresAtOnce(m, ip, t, n - 1);
    } else {
      assert EntriesAfter(es[..0], m) == m;
    }
  }

  /** Five failures right after a cleanup that threw a level away: a base
      window later the address is allowed, and without the cleanup it is not. */
  lemma ForgettingShows(m: map<string, Entry>, ip: string, now: int)
    requires ForgetsBackoff(m, ip, now)
    ensures var five, later := Repeated(Failure(ip, now), 5), now + BASE_WINDOW;
            && IsContinuation(five, now, later)
            && Allowed(Lookup(EntriesAfter(five, Cleaned(m, now)), ip), later)
            && !Allowed(Lookup(EntriesAfter(five, m), ip), later)
  {
    hide Repeated, EntriesAfter;
    FailuresAtOnce(m, ip, now, 5);
    FailuresAtOnce(Cleaned(m, now), ip, now, 5);
  }

  /** A cleanup run can be told from none, by whom it allows in some later run,
      exactly when it throws a backoff level away. */
  lemma CleanupIsInvisibleExactlyWhen(m: map<string, Entry>, ip: string, now: int)
    ensures (forall es, later :: IsContinuation(es, now, later) ==>
               (Allowed(Lookup(EntriesAfter(es, Cleaned(m, now)), ip), later) <==>
                Allowed(Lookup(EntriesAfter(es, m), ip), later)))
            <==> !ForgetsBackoff(m, ip, now)
  {
    hide EntriesAfter, IsContinuation, Repeated;
    if ForgetsBackoff(m, ip, now) {
      ForgettingShows(m, ip, now);
    } else {
      forall es, later | IsContinuation(es, now, later)
        ensures Allowed(Lookup(EntriesAfter(es, Cleaned(m, now)), ip), later) <==>
                Allowed(Lookup(EntriesAfter(es, m), ip), later)
      {
        RunKeepsAlike(m, Cleaned(m, now), ip, now, es, later);
      }
    }
  }

  /** The smallest such case as two runs that differ in one cleanup: five
      failures, a window, the cleanup or not, and five more failures. One more
      window later the address is allowed in one run and refused in the other. */
  lemma CleanupShortensLockout(ip: string) returns (first: seq<Event>, second: seq<Event>, now: int, later: int)
    ensures Legal(first + second) && Legal(first + [CleanupRun(now)] + second)
    ensures Allowed(Lookup(EntriesAfter(first + [CleanupRun(now)] + second), ip), later)
    ensures !Allowed(Lookup(EntriesAfter(first + second), ip), later)
  {
    assert Lookup(EntriesAfter([]), ip) == None && Failures([], ip) == [] && Legal([]);
    hide EntriesAfter, Legal, Failures, Repeated;
    now, later := 2 + BASE_WINDOW, 2 + 2 * BASE_WINDOW;
    first := ExtendBy([], ip, 1, 5);
    assert first == Repeated(Failure(ip, 1), 5);
    second := Repeated(Failure(ip, now), 5);
    var kept := ExtendBy(first, ip, now, 5);
    ExtendByCleanup(first, now);
    var cleaned := ExtendBy(first + [CleanupRun(now)], ip, now, 5);
  }

  lemma ExtendByCleanup(es: seq<Event>, t: int)
    requires Legal(es) && 0 < t && (es != [] ==> es[|es| - 1].time <= t)
    ensures Legal(es + [CleanupRun(t)]) && EntriesAfter(es + [CleanupRun(t)]) == Cleaned(EntriesAfter(es), t)
  {
    assert (es + [CleanupRun(t)])[..|es|] == es;
  }

  // ---- Escalation over runs ----

  /** The events that concern `ip`. */
  function Concerning(es: seq<Event>, ip: string): seq<Event> {
    if es == [] then []
    else
      var before, e := Concerning(es[..|es| - 1], ip), es[|es| - 1];
      if e.CleanupRun? || e.ip == ip then before + [e] else before
  }

  lemma AppendEvent(es: seq<Event>, e: Event, m: map<string, Entry>)
    ensures EntriesAfter(es + [e], m) == Next(EntriesAfter(es, m), e)
  {
    assert (es + [e])[..|es|] == es;
  }

  lemma SameNext(m: map<string, Entry>, m': map<string, Entry>, ip: string, e: Event)
    requires Lookup(m, ip) == Lookup(m', ip)
    ensures Lookup(Next(m, e), ip) == Lookup(Next(m', e), ip)
    ensures !e.CleanupRun? && e.ip != ip ==> Lookup(Next(m, e), ip) == Lookup(m, ip)
  {
  }

  /** Addresses are independent: what is remembered of one depends on its own
      events and the cleanup runs alone. */
  lemma {:induction false} AddressesAreIndependent(es: seq<Event>, ip: string)
    ensures Lookup(EntriesAfter(es), ip) == Lookup(EntriesAfter(Concerning(es, ip)), ip)
  {
    if es != [] {
      var init, e := es[..|es| - 1], es[|es| - 1];
      AddressesAreIndependent(init, ip);
      var own := Concerning(init, ip);
      SameNext(EntriesAfter(init), EntriesAfter(own), ip, e);
      AppendEvent(own, e, map[]);
    }
  }

  function FailuresAt(ip: string, ts: seq<int>): (r: seq<Event>)
    ensures |r| == |ts| && forall i :: 0 <= i < |ts| ==> r[i] == Failure(ip, ts[i])
  {
    seq(|ts|, i requires 0 <= i < |ts| => Failure(ip, ts[i]))
  }

  /** The failures of some rounds, one after the other. */
  function Rounds(ip: string, rounds: seq<seq<int>>): seq<Event> {
    if rounds == [] then [] else Rounds(ip, rounds[..|rounds| - 1]) + FailuresAt(ip, rounds[|rounds| - 1])
  }

  function Pow2(n: nat): (r: nat)
    ensures r >= 1
  {
    if n == 0 then 1 else 2 * Pow2(n - 1)
  }

  function Capped(n: nat): nat {
    if n < 3 then n else 3
  }

  /** How long the lockout after `n` earlier ones lasts. */
  function LockoutTime(n: nat): int {
    BASE_WINDOW * Pow2(Capped(n))
  }

  lemma LockoutIsWindow(n: nat)
    ensures LockoutTime(n) == Window(Capped(n))
  {
    assert Pow2(0) == 1 && Pow2(1) == 2 && Pow2(2) == 4 && Pow2(3) == 8;
  }

  /** Each round is five failures within the window they open, and each later
      round starts after the window of the one before. */
  predicate AreLockouts(rounds: seq<seq<int>>) {
    && (forall i :: 0 <= i < |rounds| ==> |rounds[i]| == 5)
    && (forall i, j :: 0 <= i < |rounds| && 0 <= j < 5 ==> rounds[i][j] <= rounds[i][0] + LockoutTime(i))
    && (forall i :: 0 < i < |rounds| ==> rounds[i][0] > rounds[i - 1][0] + LockoutTime(i - 1))
  }

  /** Failures after the first of a window only count up, and the fifth locks. */
  lemma {:induction false} CountUp(m: map<string, Entry>, ip: string, ts: seq<int>, level: nat)
    requires 1 <= |ts| <= 5 && Failed(Lookup(m, ip), ts[0]) == Entry(1, ts[0], level, 0)
    requires forall j :: 0 <= j < |ts| ==> ts[j] <= ts[0] + Window(level)
    ensures Lookup(EntriesAfter(FailuresAt(ip, ts), m), ip)
            == Some(Entry(|ts|, ts[0], level, if |ts| == 5 then ts[4] + Window(level) else 0))
  {
    var n := |ts|;
    var es := FailuresAt(ip, ts);
    assert es[..n - 1] == FailuresAt(ip, ts[..n - 1]) && es == es[..n - 1] + [es[n - 1]];
    assert EntriesAfter([], m) == m;
    hide Window, Failed, EntriesAfter, FailuresAt;
    AppendEvent(es[..n - 1], es[n - 1], m);
    if n == 1 {
      assert es[..0] == [];
    } else {
      CountUp(m, ip, ts[..n - 1], level);
      OneMoreFailure(n - 1, ts[0], level, ts[n - 1]);
    }
  }

  lemma OneMoreFailure(n: nat, start: int, level: nat, now: int)
    requires 1 <= n < 5 && now <= start + Window(level)
    ensures Failed(Some(Entry(n, start, level, 0)), now)
            == Entry(n + 1, start, level, if n + 1 == 5 then now + Window(level) else 0)
  {
  }

  lemma {:induction false} AppendRun(a: seq<Event>, b: seq<Event>, m: map<string, Entry>)
    ensures EntriesAfter(a + b, m) == EntriesAfter(b, EntriesAfter(a, m))
  {
    if b == [] {
      assert a + b == a;
    } else {
      AppendRun(a, b[..|b| - 1], m);
      assert (a + b)[..|a + b| - 1] == a + b[..|b| - 1];
    }
  }

  /** A new window raises the level of an address that was locked out. */
  lemma NewWindow(e: Entry, n: nat, now: int)
    requires e.attempts == 5 && e.backoff == Capped(n) && now > e.windowStart + Window(Capped(n))
    ensures Failed(Some(e), now) == Entry(1, now, Capped(n + 1), 0)
  {
  }

  /** One more lockout after `n` others, the last of which started at `start`. */
  lemma NextRound(m: map<string, Entry>, ip: string, ts: seq<int>, n: nat, start: int)
    requires |ts| == 5 && forall j :: 0 <= j < 5 ==> ts[j] <= ts[0] + LockoutTime(n)
    requires if n == 0 then Lookup(m, ip).None?
             else
               && Lookup(m, ip).Some? && Lookup(m, ip).value.attempts == 5 && Lookup(m, ip).value.windowStart == start
               && Lookup(m, ip).value.backoff == Capped(n - 1) && ts[0] > start + LockoutTime(n - 1)
    ensures Lookup(EntriesAfter(FailuresAt(ip, ts), m), ip)
            == Some(Entry(5, ts[0], Capped(n), ts[4] + LockoutTime(n)))
  {
    hide LockoutTime, Window, Failed, Capped, EntriesAfter;
    LockoutIsWindow(n);
    if n > 0 {
      LockoutIsWindow(n - 1);
      NewWindow(Lookup(m, ip).value, n - 1, ts[0]);
    } else {
      FirstWindow(ts[0]);
    }
    CountUp(m, ip, ts, Capped(n));
  }

  lemma {:induction false} EntryAfterRounds(ip: string, rounds: seq<seq<int>>)
    requires rounds != [] && AreLockouts(rounds)
    ensures var n := |rounds| - 1;
            |rounds[n]| == 5 &&
            Lookup(EntriesAfter(Rounds(ip, rounds)), ip)
            == Some(Entry(5, rounds[n][0], Capped(n), rounds[n][4] + LockoutTime(n)))
  {
    hide LockoutTime, Capped, EntriesAfter, FailuresAt;
    var n := |rounds| - 1;
    var init, ts := rounds[..n], rounds[n];
    AppendRun(Rounds(ip, init), FailuresAt(ip, ts), map[]);
    if n > 0 {
      EntryAfterRounds(ip, init);
      NextRound(EntriesAfter(Rounds(ip, init)), ip, ts, n, init[n - 1][0]);
    } else {
      NoEntries(ip);
      NextRound(EntriesAfter([]), ip, ts, 0, 0);
    }
  }

  lemma NoEntries(ip: string)
    ensures Lookup(EntriesAfter([]), ip).None?
  {
  }

  lemma FirstWindow(now: int)
    ensures Failed(None, now) == Entry(1, now, Capped(0), 0)
  {
  }

  /** Whatever other addresses do: when an address is locked out again and again,
      each time failing after the window of the last lockout, the lockout after
      `n` others lasts exactly 15 minutes times 2^n, and after three or more
      others two hours. */
  lemma LockoutsDouble(es: seq<Event>, ip: string, rounds: seq<seq<int>>, later: int)
    requires rounds != [] && AreLockouts(rounds) && Concerning(es, ip) == Rounds(ip, rounds)
    ensures var n := |rounds| - 1;
            Allowed(Lookup(EntriesAfter(es), ip), later) <==> later >= rounds[n][4] + LockoutTime(n)
  {
    AddressesAreIndependent(es, ip);
    EntryAfterRounds(ip, rounds);
  }

  /** A window in which an address was never locked out does not escalate. */
  lemma QuietWindowsDoNotEscalate(e: Entry, now: int)
    requires Expired(e, now) && e.backoff == 0
    ensures Failed(Some(e), now) == Entry(1, now, if e.attempts < 5 then 0 else 1, 0)
  {
  }
}
