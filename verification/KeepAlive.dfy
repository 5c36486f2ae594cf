/** Jitter-aware keepalives: a tick from the client moves the auto-release
    deadline of every running timer. Times are in milliseconds. */
module KeepAlive {
  import opened Wrappers

  const EXPECTED_RATE: int := 50
  const MAX_LATENESS: int := 50
  const BASE_EXTENSION: int := EXPECTED_RATE + MAX_LATENESS
  const MAX_STALENESS: int := 225

  /** The two remembered instants; both are unset after a reset. */
  datatype Clock = Clock(lastArrival: Option<int>, lastReset: Option<int>)

  const UNSET := Clock(None, None)

  /** How far ahead a tick moves the deadline, or `None` if it is rejected. */
  function Extension(c: Clock, now: int): Option<int> {
    if c.lastReset.Some? && now - c.lastReset.value > MAX_STALENESS then None
    else if c.lastArrival.None? then Some(BASE_EXTENSION)
    else
      var lateness := now - c.lastArrival.value - EXPECTED_RATE;
      if lateness <= 0 then Some(BASE_EXTENSION)
      else if lateness <= MAX_LATENESS then Some(BASE_EXTENSION - lateness)
      else None
  }

  function After(c: Clock, now: int): Clock {
    if Extension(c, now).Some? then Clock(Some(now), Some(now)) else c
  }

  class Session {
    var lastKeepAliveArrivalTime: Option<int>
    var lastTimerResetTime: Option<int>

    ghost function View(): Clock
      reads this
    {
      Clock(lastKeepAliveArrivalTime, lastTimerResetTime)
    }

    constructor ()
      ensures View() == UNSET
    {
      lastKeepAliveArrivalTime, lastTimerResetTime := None, None;
    }

    method ResetKeepAliveTime()
      modifies this
      ensures View() == UNSET
    {
      lastKeepAliveArrivalTime := None;
      lastTimerResetTime := None;
    }

    /** The duration passed on to the auto-release timers, if the tick counts. */
    method HandleKeepAlive(now: int) returns (delay: Option<int>)
      modifies this
      ensures delay == Extension(old(View()), now)
      ensures View() == After(old(View()), now)
    {
      if lastTimerResetTime.Some? && now - lastTimerResetTime.value > MAX_STALENESS {
        return None;
      }
      var validTick := true;
      var timerExtension := BASE_EXTENSION;
      if lastKeepAliveArrivalTime.Some? {
        var timeSinceLastTick := now - lastKeepAliveArrivalTime.value;
        var lateness := timeSinceLastTick - EXPECTED_RATE;
        if lateness > 0 {
          if lateness <= MAX_LATENESS {
            timerExtension := timerExtension - lateness;
          } else {
            validTick := false;
          }
        }
      }
      if !validTick {
        return None;
      }
      lastKeepAliveArrivalTime := Some(now);
      lastTimerResetTime := Some(now);
      delay := Some(timerExtension);
    }
  }

  // ---- Every run of ticks since a reset ----

  ghost predicate Ordered(ticks: seq<int>) {
    forall i, j :: 0 <= i <= j < |ticks| ==> ticks[i] <= ticks[j]
  }

  function ClockAfter(ticks: seq<int>): Clock {
    if ticks == [] then UNSET else After(ClockAfter(ticks[..|ticks| - 1]), ticks[|ticks| - 1])
  }

  /** The verdict on the `i`th tick of the run. */
  function Verdict(ticks: seq<int>, i: nat): Option<int>
    requires i < |ticks|
  {
    Extension(ClockAfter(ticks[..i]), ticks[i])
  }

  predicate Accepted(ticks: seq<int>, i: nat)
    requires i < |ticks|
  {
    Verdict(ticks, i).Some?
  }

  function Deadline(ticks: seq<int>, i: nat): int
    requires i < |ticks| && Accepted(ticks, i)
  {
    ticks[i] + Verdict(ticks, i).value
  }

  /** After a rejected tick the clock never moves again. */
  lemma {:induction false} RejectedForGood(ticks: seq<int>, i: nat, j: nat)
    requires Ordered(ticks) && i < j < |ticks| && !Accepted(ticks, i)
    ensures !Accepted(ticks, j) && ClockAfter(ticks[..j]) == ClockAfter(ticks[..i])
    decreases j
  {
    BothInstantsAgree(ticks[..i]);
    assert ticks[..i + 1][..i] == ticks[..i];
    assert ClockAfter(ticks[..i + 1]) == ClockAfter(ticks[..i]);
    if i + 1 < j {
      RejectedForGood(ticks, i, j - 1);
      assert ticks[..j][..j - 1] == ticks[..j - 1];
    }
    assert ClockAfter(ticks[..j]) == ClockAfter(ticks[..i]);
  }

  lemma {:induction false} BothInstantsAgree(ticks: seq<int>)
    ensures var c := ClockAfter(ticks); c.lastArrival == c.lastReset
  {
    if ticks != [] {
      BothInstantsAgree(ticks[..|ticks| - 1]);
    }
  }

  /** An accepted tick sets a deadline 50 to 100 ms ahead: 100 ms, less what
      it came later than 50 ms after the tick before it. Compared with the
      tick before it, which was accepted too, the deadline never moves back and
      lies at most 150 ms after that tick, which was at most 100 ms ago. */
  lemma AcceptedTick(ticks: seq<int>, i: nat)
    requires Ordered(ticks) && i < |ticks| && Accepted(ticks, i)
    ensures 50 <= Verdict(ticks, i).value <= 100
    ensures i > 0 ==>
      && Accepted(ticks, i - 1)
      && Deadline(ticks, i - 1) <= Deadline(ticks, i) <= ticks[i - 1] + 150
      && ticks[i] <= ticks[i - 1] + 100
    ensures Verdict(ticks, i).value ==
            if i == 0 || ticks[i] - ticks[i - 1] <= 50 then 100 else 150 - (ticks[i] - ticks[i - 1])
  {
    BothInstantsAgree(ticks[..i]);
    if i > 0 {
      if !Accepted(ticks, i - 1) {
        RejectedForGood(ticks, i - 1, i);
      }
      assert ticks[..i][..i - 1] == ticks[..i - 1];
      assert ClockAfter(ticks[..i]) == Clock(Some(ticks[i - 1]), Some(ticks[i - 1]));
    }
  }

  /** Without another tick the deadlines never run away: after `i` ticks the
      key is released at most 100 ms after the last one, and at most 100 ms per
      tick after the first. */
  lemma {:induction false} HoldIsBounded(ticks: seq<int>, i: nat)
    requires Ordered(ticks) && i < |ticks| && Accepted(ticks, i)
    ensures Deadline(ticks, i) <= ticks[i] + 100
    ensures ticks[i] <= ticks[0] + 100 * i
  {
    AcceptedTick(ticks, i);
    if i > 0 {
      HoldIsBounded(ticks, i - 1);
    }
  }

  /** The staleness guard never decides alone: dropping it changes no verdict. */
  lemma StalenessIsRedundant(ticks: seq<int>, i: nat)
    requires Ordered(ticks) && i < |ticks|
    ensures var c := ClockAfter(ticks[..i]);
            Verdict(ticks, i) == Extension(c.(lastReset := None), ticks[i])
  {
    BothInstantsAgree(ticks[..i]);
  }

  /** A tick is accepted exactly when every gap since the reset, its own
      included, is at most 100 ms. */
  lemma {:induction false} AcceptedExactlyWhen(ticks: seq<int>, i: nat)
    requires Ordered(ticks) && i < |ticks|
    ensures Accepted(ticks, i) <==> forall j :: 0 < j <= i ==> ticks[j] - ticks[j - 1] <= 100
  {
    if i > 0 {
      AcceptedExactlyWhen(ticks, i - 1);
      if Accepted(ticks, i - 1) {
        BothInstantsAgree(ticks[..i]);
        assert ticks[..i][..i - 1] == ticks[..i - 1];
        assert ClockAfter(ticks[..i]) == Clock(Some(ticks[i - 1]), Some(ticks[i - 1]));
      } else {
        RejectedForGood(ticks, i - 1, i);
      }
    }
  }
}
