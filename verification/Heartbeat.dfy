/**
 The operation heartbeat: ticks arrive at a fixed interval from the claim, each one
 refreshes the row or fails. Times are in nanoseconds.
 */
module Heartbeat {

  const SECOND: nat := 1_000_000_000
  const STALENESS: nat := 60 * SECOND
  const MAX_INTERVAL: nat := 10 * SECOND

  function Interval(poll: nat): nat {
    if poll < MAX_INTERVAL then poll else MAX_INTERVAL
  }

  /** When the row was last refreshed after these ticks; the claim itself refreshes it at time 0. */
  function LastRefresh(ticks: seq<bool>, interval: nat): nat {
    if ticks == [] then 0
    else if ticks[|ticks| - 1] then |ticks| * interval
    else LastRefresh(ticks[..|ticks| - 1], interval)
  }

  /** Failed ticks since the last refresh. */
  function Trailing(ticks: seq<bool>): (n: nat)
    ensures n <= |ticks|
  {
    if ticks == [] || ticks[|ticks| - 1] then 0 else 1 + Trailing(ticks[..|ticks| - 1])
  }

  lemma {:induction false} RefreshTime(ticks: seq<bool>, interval: nat)
    ensures LastRefresh(ticks, interval) == (|ticks| - Trailing(ticks)) * interval
  {
    if ticks != [] && !ticks[|ticks| - 1] {
      RefreshTime(ticks[..|ticks| - 1], interval);
    }
  }

  ghost predicate FiveFail(ticks: seq<bool>, i: nat) {
    i + 5 <= |ticks| && forall k | i <= k < i + 5 :: !ticks[k]
  }

  /** Never five failed ticks in a row. */
  ghost predicate AtMostFourFailures(ticks: seq<bool>) {
    forall i: nat :: !FiveFail(ticks, i)
  }

  lemma {:induction false} TrailingFailures(ticks: seq<bool>, k: nat)
    requires |ticks| - Trailing(ticks) <= k < |ticks|
    ensures !ticks[k]
  {
    if k < |ticks| - 1 {
      TrailingFailures(ticks[..|ticks| - 1], k);
    }
  }

  lemma FewTrailing(ticks: seq<bool>)
    requires AtMostFourFailures(ticks)
    ensures Trailing(ticks) <= 4
  {
    forall k | |ticks| - Trailing(ticks) <= k < |ticks| ensures !ticks[k] {
      TrailingFailures(ticks, k);
    }
    assert Trailing(ticks) > 4 ==> FiveFail(ticks, |ticks| - 5);
  }

  lemma Age(ticks: seq<bool>, interval: nat, now: nat)
    requires |ticks| * interval <= now <= (|ticks| + 1) * interval
    ensures LastRefresh(ticks, interval) <= now
    ensures now - LastRefresh(ticks, interval) <= (Trailing(ticks) + 1) * interval
  {
    var n, f := |ticks|, Trailing(ticks);
    RefreshTime(ticks, interval);
    assert (n + 1) * interval - (n - f) * interval == (f + 1) * interval;
    assert (n - f) * interval <= n * interval;
  }

  lemma Scaled(f: nat, interval: nat)
    requires f <= 4 && interval <= MAX_INTERVAL
    ensures (f + 1) * interval < STALENESS
  {
    assert (f + 1) * interval <= 5 * interval;
  }

  /** At most four failed ticks in a row never let the row go stale, whatever the poll interval. */
  lemma FreshThroughFourFailures(poll: nat, ticks: seq<bool>, now: nat)
    requires poll > 0 && AtMostFourFailures(ticks)
    requires |ticks| * Interval(poll) <= now <= (|ticks| + 1) * Interval(poll)
    ensures now - LastRefresh(ticks, Interval(poll)) < STALENESS
  {
    FewTrailing(ticks);
    Age(ticks, Interval(poll), now);
    Scaled(Trailing(ticks), Interval(poll));
  }

  /** Between the last of these ticks and the next one, the row reaches the staleness age at time `now`. */
  ghost predicate StaleAt(ticks: seq<bool>, interval: nat, now: nat) {
    |ticks| * interval <= now <= (|ticks| + 1) * interval && now - LastRefresh(ticks, interval) >= STALENESS
  }

  /** The exact limit: the row goes stale before its next tick exactly when enough ticks in a row have failed. */
  lemma StaleIff(ticks: seq<bool>, interval: nat)
    ensures (exists now: nat :: StaleAt(ticks, interval, now)) <==> (Trailing(ticks) + 1) * interval >= STALENESS
  {
    var next := (|ticks| + 1) * interval;
    NextTick(ticks, interval);
    if (Trailing(ticks) + 1) * interval >= STALENESS {
      assert StaleAt(ticks, interval, next);
    }
    forall now: nat | StaleAt(ticks, interval, now) ensures (Trailing(ticks) + 1) * interval >= STALENESS {
      Age(ticks, interval, now);
    }
  }

  lemma NextTick(ticks: seq<bool>, interval: nat)
    ensures |ticks| * interval <= (|ticks| + 1) * interval
    ensures (|ticks| + 1) * interval - LastRefresh(ticks, interval) == (Trailing(ticks) + 1) * interval
  {
    RefreshTime(ticks, interval);
  }
}
