/** The client's reconnect loop and its capped exponential backoff. */
module Reconnects {
  import opened Protocol

  /** The longest wait between two attempts, in milliseconds. */
  const CAP: nat := 32_000

  /** `attempt` is a saturating 32-bit counter; `base` is a duration in milliseconds. */
  datatype Backoff = Backoff(attempt: nat, maxAttempts: Option<nat>, base: nat)

  predicate Valid(b: Backoff) {
    b.attempt < U32 && (b.maxAttempts.Some? ==> 0 < b.maxAttempts.value < U32)
  }

  function Fresh(baseMillis: nat, maxAttempts: nat): Backoff {
    Backoff(0, if maxAttempts == 0 then None else Some(maxAttempts), if baseMillis < 100 then 100 else baseMillis)
  }

  function Min(a: nat, b: nat): nat {
    if a < b then a else b
  }

  function Pow2(n: nat): nat {
    if n == 0 then 1 else 2 * Pow2(n - 1)
  }

  /** `Duration::checked_mul`: whole seconds are a 64-bit count. */
  function CheckedMul(millis: nat, factor: nat): Option<nat> {
    if millis * factor / 1000 < U64 then Some(millis * factor) else None
  }

  function NextDelay(b: Backoff): (Option<nat>, Backoff) {
    if b.maxAttempts.Some? && b.attempt >= b.maxAttempts.value then (None, b)
    else
      var product := CheckedMul(b.base, Pow2(Min(b.attempt, 5)));
      var delay := if product.Some? then product.value else 32_000;
      (Some(if delay > CAP then CAP else delay), b.(attempt := Min(b.attempt + 1, U32 - 1)))
  }

  // ---- what a run of failures gives ----

  /** The wait after `k` earlier failures: doubled five times at most, never above the cap. */
  function DelayAt(base: nat, k: nat): nat {
    Min(base * Pow2(Min(k, 5)), CAP)
  }

  datatype Call = Failure | Reset

  function After(b: Backoff, history: seq<Call>): Backoff {
    if history == [] then b
    else
      var before := After(b, history[..|history| - 1]);
      if history[|history| - 1] == Reset then before.(attempt := 0) else NextDelay(before).1
  }

  /** Failures since the last reset. */
  function SinceReset(history: seq<Call>): nat {
    if history == [] || history[|history| - 1] == Reset then 0 else SinceReset(history[..|history| - 1]) + 1
  }

  lemma {:induction false} AttemptCounts(baseMillis: nat, maxAttempts: nat, history: seq<Call>)
    requires maxAttempts < U32
    ensures var b := After(Fresh(baseMillis, maxAttempts), history);
      && b == Fresh(baseMillis, maxAttempts).(attempt := b.attempt)
      && b.attempt == Min(SinceReset(history), if maxAttempts == 0 then U32 - 1 else maxAttempts)
  {
    if history != [] {
      AttemptCounts(baseMillis, maxAttempts, history[..|history| - 1]);
    }
  }

  lemma PowAtMost(n: nat)
    requires n <= 5
    ensures 1 <= Pow2(n) <= 32
  {
    assert Pow2(1) == 2 && Pow2(2) == 4 && Pow2(3) == 8 && Pow2(4) == 16 && Pow2(5) == 32;
  }

  /** An overflowing product is over the cap anyway. */
  lemma OverflowIsCapped(millis: nat, factor: nat)
    requires CheckedMul(millis, factor).None?
    ensures millis * factor > CAP
  {
    assert (millis * factor / 1000) * 1000 <= millis * factor;
  }

  /** After any history of failures and resets: the next failure is granted the capped doubling of its count since
      the reset, for exactly `maxAttempts` failures, and refused from then on. */
  lemma DelayAfterHistory(baseMillis: nat, maxAttempts: nat, history: seq<Call>)
    requires maxAttempts < U32
    ensures var b := After(Fresh(baseMillis, maxAttempts), history);
      var k := SinceReset(history);
      && NextDelay(b).0 == (if maxAttempts > 0 && k >= maxAttempts then None else Some(DelayAt(b.base, k)))
      && b.base == (if baseMillis < 100 then 100 else baseMillis)
  {
    AttemptCounts(baseMillis, maxAttempts, history);
    var b := After(Fresh(baseMillis, maxAttempts), history);
    var factor := Pow2(Min(b.attempt, 5));
    if CheckedMul(b.base, factor).None? {
      OverflowIsCapped(b.base, factor);
    }
  }

  /** The waits doubled five times: 1, 2, 4, 8, 16 and from then on 32 times the base, never above 32 seconds. */
  lemma DelaysDouble(base: nat, k: nat)
    ensures DelayAt(base, 0) == Min(base, 32_000) && DelayAt(base, 1) == Min(2 * base, 32_000)
    ensures DelayAt(base, 2) == Min(4 * base, 32_000) && DelayAt(base, 3) == Min(8 * base, 32_000)
    ensures DelayAt(base, 4) == Min(16 * base, 32_000)
    ensures k >= 5 ==> DelayAt(base, k) == Min(32 * base, 32_000)
    ensures Min(k, base) <= k && Min(k, base) <= base && (Min(k, base) == k || Min(k, base) == base)
  {
    assert Pow2(1) == 2 && Pow2(2) == 4 && Pow2(3) == 8 && Pow2(4) == 16 && Pow2(5) == 32;
  }

  lemma {:induction false} PowMonotone(i: nat, j: nat)
    requires i <= j
    ensures Pow2(i) <= Pow2(j)
  {
    if i < j {
      PowMonotone(i, j - 1);
    }
  }

  /** Waits never shorten as failures accumulate. */
  lemma DelaysGrow(base: nat, j: nat, k: nat)
    requires j <= k
    ensures DelayAt(base, j) <= DelayAt(base, k) <= CAP
  {
    PowMonotone(Min(j, 5), Min(k, 5));
  }

  /** A product overflows exactly from 2^64 seconds on, and is the product otherwise. */
  lemma OverflowsExactly(millis: nat, factor: nat)
    ensures CheckedMul(millis, factor) == None <==> millis * factor >= 18_446_744_073_709_551_616_000
    ensures CheckedMul(millis, factor).Some? ==> CheckedMul(millis, factor) == Some(millis * factor)
  {
  }

  /** With a base of 64-bit milliseconds the multiplication never overflows: the fallback is dead code. */
  lemma NeverOverflows(baseMillis: nat, maxAttempts: nat, k: nat)
    requires baseMillis < U64
    ensures CheckedMul(Fresh(baseMillis, maxAttempts).base, Pow2(Min(k, 5))).Some?
  {
    PowAtMost(Min(k, 5));
    var base := Fresh(baseMillis, maxAttempts).base;
    assert base * Pow2(Min(k, 5)) <= base * 32;
    assert base * 32 / 1000 < U64;
  }

  // ---- the loop ----

  datatype SessionResult = Shutdown(hadConnection: bool) | Reconnect(error: string, hadConnection: bool)

  /** One turn: how its session ended, and when the shutdown token was found cancelled. */
  datatype Round = Round(cancelledBefore: bool, outcome: SessionResult, cancelledAfter: bool, cancelledAsleep: bool)

  datatype Verdict = Retrying | Stopped(round: nat) | GaveUp(round: nat, error: string)

  /** Failures the backoff has counted when round `i` asks for a delay. */
  function Streak(rounds: seq<Round>, i: nat): nat
    requires i < |rounds|
  {
    if rounds[i].outcome.hadConnection || i == 0 then 0 else Streak(rounds, i - 1) + 1
  }

  /** The last `m` rounds up to `i` were retries and none of them connected. */
  ghost predicate Exhausted(rounds: seq<Round>, i: nat, m: nat)
    requires i < |rounds|
  {
    0 < m <= i && forall j :: i - m < j <= i ==> !rounds[j].outcome.hadConnection
  }

  lemma {:induction false} StreakExhausts(rounds: seq<Round>, i: nat, m: nat)
    requires i < |rounds| && m > 0
    ensures Streak(rounds, i) >= m <==> Exhausted(rounds, i, m)
  {
    if !rounds[i].outcome.hadConnection && i > 0 {
      if m > 1 {
        StreakExhausts(rounds, i - 1, m - 1);
      }
    }
  }

  /** The user asked to stop before round `r` could retry or give up. */
  predicate StopsEarly(r: Round) {
    r.cancelledBefore || r.outcome.Shutdown? || r.cancelledAfter
  }

  /** Round `i` neither stops nor gives up. */
  ghost predicate Carries(rounds: seq<Round>, i: nat, m: nat)
    requires i < |rounds|
  {
    !StopsEarly(rounds[i]) && !Exhausted(rounds, i, m) && !rounds[i].cancelledAsleep
  }

  /** What the loop owes: an error at the first round that ends `m` unconnected retries in a row, an orderly stop at
      the first cancellation, and otherwise another try. */
  ghost predicate Owed(v: Verdict, rounds: seq<Round>, m: nat) {
    match v
    case Retrying => forall j :: 0 <= j < |rounds| ==> Carries(rounds, j, m)
    case Stopped(i) =>
      && i < |rounds| && (forall j :: 0 <= j < i ==> Carries(rounds, j, m))
      && (StopsEarly(rounds[i]) || (!Exhausted(rounds, i, m) && rounds[i].cancelledAsleep))
    case GaveUp(i, error) =>
      && i < |rounds| && (forall j :: 0 <= j < i ==> Carries(rounds, j, m))
      && !StopsEarly(rounds[i]) && Exhausted(rounds, i, m) && error == rounds[i].outcome.error
  }

  lemma EndsThere(v: Verdict, rounds: seq<Round>, m: nat)
    requires Owed(v, rounds, m) && !v.Retrying?
    ensures !Carries(rounds, v.round, m)
  {
  }

  /** There is only one verdict to owe, so the conditions are exact. */
  lemma OwedOnce(v: Verdict, w: Verdict, rounds: seq<Round>, m: nat)
    requires Owed(v, rounds, m) && Owed(w, rounds, m)
    ensures v == w
  {
    if !v.Retrying? {
      EndsThere(v, rounds, m);
    }
    if !w.Retrying? {
      EndsThere(w, rounds, m);
    }
  }

  /** Without a limit the loop never gives up; with one, a connected session at or behind round `i` defers it. */
  lemma GivesUpOnlyExhausted(v: Verdict, rounds: seq<Round>, m: nat, i: nat)
    requires Owed(v, rounds, m) && v.GaveUp? && i <= v.round && rounds[i].outcome.hadConnection
    ensures m > 0 && v.round >= i + m
  {
  }

  /** The waits the first `n` rounds end with, when none of them ends the loop. */
  function Waits(rounds: seq<Round>, n: nat, base: nat): seq<nat>
    requires n <= |rounds|
  {
    if n == 0 then [] else Waits(rounds, n - 1, base) + [DelayAt(base, Streak(rounds, n - 1))]
  }

  // ---- in place ----

  class ReconnectBackoff {
    var attempt: nat
    const maxAttempts: Option<nat>
    const base: nat

    ghost function View(): Backoff
      reads this
    {
      Backoff(attempt, maxAttempts, base)
    }

    constructor (baseMillis: nat, maxAttempts: nat)
      ensures View() == Fresh(baseMillis, maxAttempts)
    {
      attempt := 0;
      this.maxAttempts := if maxAttempts == 0 then None else Some(maxAttempts);
      base := if baseMillis < 100 then 100 else baseMillis;
    }

    method Reset()
      modifies this
      ensures View() == old(View()).(attempt := 0)
    {
      attempt := 0;
    }

    method Next() returns (delay: Option<nat>)
      modifies this
      ensures (delay, View()) == NextDelay(old(View()))
    {
      if maxAttempts.Some? && attempt >= maxAttempts.value {
        return None;
      }
      var product := CheckedMul(base, Pow2(Min(attempt, 5)));
      attempt := if attempt + 1 < U32 then attempt + 1 else U32 - 1;
      var wait := if product.Some? then product.value else 32_000;
      if wait > CAP {
        wait := CAP;
      }
      return Some(wait);
    }
  }

  /** The counter follows the streak. */
  lemma NextFollowsStreak(b: Backoff, k: nat)
    requires Valid(b) && b.attempt == Min(k, U32 - 1)
    ensures NextDelay(b).0 ==
              if b.maxAttempts.Some? && k >= b.maxAttempts.value then None else Some(DelayAt(b.base, k))
    ensures NextDelay(b).0.Some? ==> NextDelay(b).1 == b.(attempt := Min(k + 1, U32 - 1))
  {
    var factor := Pow2(Min(b.attempt, 5));
    if CheckedMul(b.base, factor).None? {
      OverflowIsCapped(b.base, factor);
    }
  }

  /** The reconnect loop over the rounds it lives through; `granted` are the waits it was given. */
  method RunWithToken(baseMillis: nat, maxAttempts: nat, rounds: seq<Round>) returns (v: Verdict, granted: seq<nat>)
    requires maxAttempts < U32
    ensures Owed(v, rounds, maxAttempts)
    ensures |granted| <= |rounds|
    ensures granted == Waits(rounds, |granted|, Fresh(baseMillis, maxAttempts).base)
    ensures v.Retrying? ==> |granted| == |rounds|
    ensures v.Stopped? ==> |granted| == v.round + if StopsEarly(rounds[v.round]) then 0 else 1
    ensures v.GaveUp? ==> |granted| == v.round
  {
    var backoff := new ReconnectBackoff(baseMillis, maxAttempts);
    granted := [];
    ghost var failures := 0;
    for i := 0 to |rounds|
      invariant fresh(backoff) && |granted| == i
      invariant backoff.View() == Fresh(baseMillis, maxAttempts).(attempt := Min(failures, U32 - 1))
      invariant failures == if i == 0 then 0 else Streak(rounds, i - 1) + 1
      invariant forall j :: 0 <= j < i ==> Carries(rounds, j, maxAttempts)
      invariant granted == Waits(rounds, i, backoff.base)
    {
      if rounds[i].cancelledBefore || rounds[i].outcome.Shutdown? || rounds[i].cancelledAfter {
        return Stopped(i), granted;
      }
      if rounds[i].outcome.hadConnection {
        failures := 0;
        backoff.Reset();
      }
      NextFollowsStreak(backoff.View(), failures);
      if maxAttempts > 0 {
        StreakExhausts(rounds, i, maxAttempts);
      }
      var delay := backoff.Next();
      if delay.None? {
        return GaveUp(i, rounds[i].outcome.error), granted;
      }
      granted := granted + [delay.value];
      failures := failures + 1;
      if rounds[i].cancelledAsleep {
        return Stopped(i), granted;
      }
    }
    v := Retrying;
  }
}
