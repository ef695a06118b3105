/** Exponential backoff (pkg/connection/reconnect.go) and the waits of one reconnection loop
    (pkg/connection/manager.go, reconnectionLoop). time.Duration is a 64-bit integer whose
    doubling wraps. The random jitter is an argument bounded by a tenth of the delay. */
module Backoff {
  import opened Basics

  const TWO_62: int := 0x4000_0000_0000_0000
  const TWO_63: int := 0x8000_0000_0000_0000

  function Wrap(x: int): int { (x + TWO_63) % (2 * TWO_63) - TWO_63 }

  function Pow2(n: nat): nat { if n == 0 then 1 else 2 * Pow2(n - 1) }

  /** The delay the backoff is meant to have before jitter. */
  function Ideal(base: int, max: int, attempt: int): int {
    Min(base * Pow2(if attempt < 0 then 0 else attempt), max)
  }

  /** NextDelay up to the jitter, doubling with wrap-around. */
  method Delay(base: int, max: int, attempt: int) returns (delay: int)
    requires -TWO_63 <= base < TWO_63 && -TWO_63 <= max < TWO_63
    ensures delay == Looped(base, max, if attempt < 0 then 0 else attempt)
  {
    var n := if attempt < 0 then 0 else attempt;
    delay := base;
    var i := 0;
    while i < n
      invariant 0 <= i <= n
      invariant DoubledFrom(base, max, n) == DoubledFrom(delay, max, n - i)
    {
      delay := Wrap(delay * 2);
      i := i + 1;
      if delay >= max {
        delay := max;
        break;
      }
    }
    if delay > max { delay := max; }
  }

  /** The loop as a function: double `n` times, stopping at the cap. */
  function DoubledFrom(delay: int, max: int, n: nat): int
    decreases n
  {
    if n == 0 then delay
    else if Wrap(delay * 2) >= max then max
    else DoubledFrom(Wrap(delay * 2), max, n - 1)
  }

  function Looped(base: int, max: int, n: nat): int { Min(DoubledFrom(base, max, n), max) }

  lemma {:induction false} PowersGrow(base: int, n: nat)
    requires base >= 0
    ensures base * Pow2(n) >= base && base * Pow2(n + 1) == 2 * (base * Pow2(n))
    decreases n
  {
    if n > 0 { PowersGrow(base, n - 1); }
  }

  lemma Rebalance(delay: int, n: nat)
    requires n > 0
    ensures delay * Pow2(n) == (delay * 2) * Pow2(n - 1)
  {
    assert Pow2(n) == 2 * Pow2(n - 1);
  }

  lemma {:induction false} DoublingIsExact(delay: int, max: int, n: nat)
    requires 0 <= delay < TWO_62 && 0 <= max <= TWO_62
    ensures Min(DoubledFrom(delay, max, n), max) == Min(delay * Pow2(n), max)
    decreases n
  {
    if n > 0 {
      assert Wrap(delay * 2) == delay * 2;
      Rebalance(delay, n);
      PowersGrow(delay * 2, n - 1);
      if delay * 2 < max { DoublingIsExact(delay * 2, max, n - 1); }
    }
  }

  /** The closed form holds for every base below 2^62 and every attempt exactly when the cap
      is at most 2^62: above it some delay wraps negative before the cap can stop it. */
  lemma ClosedFormExactly(max: int)
    requires 0 <= max < TWO_63
    ensures max <= TWO_62 <==>
            forall base: int, n: nat :: 0 <= base < TWO_62 ==> Looped(base, max, n) == Ideal(base, max, n)
  {
    if max <= TWO_62 {
      forall base: int, n: nat | 0 <= base < TWO_62 ensures Looped(base, max, n) == Ideal(base, max, n) {
        DoublingIsExact(base, max, n);
      }
    } else {
      var base := TWO_62 / 2;
      assert Wrap(base * 2) == TWO_62 && Wrap(TWO_62 * 2) == -TWO_63;
      assert DoubledFrom(base, max, 2) == DoubledFrom(TWO_62, max, 1) == DoubledFrom(-TWO_63, max, 0);
      assert Pow2(2) == 4;
      assert Looped(base, max, 2) != Ideal(base, max, 2);
    }
  }

  lemma {:induction false} IdealMonotone(base: int, max: int, m: nat, n: nat)
    requires base >= 0 && m <= n
    ensures Ideal(base, max, m) <= Ideal(base, max, n)
    decreases n
  {
    if m < n {
      PowersGrow(base, n - 1);
      IdealMonotone(base, max, m, n - 1);
    }
  }

  predicate Int64(x: int) { -TWO_63 <= x < TWO_63 }

  /** Where the closed form holds. */
  predicate Moderate(base: int, max: int) { 0 <= base < TWO_62 && 0 <= max <= TWO_62 }

  lemma ModerateIsIdeal(base: int, max: int, n: nat)
    requires Moderate(base, max)
    ensures Looped(base, max, n) == Ideal(base, max, n) >= 0
  {
    DoublingIsExact(base, max, n);
    PowersGrow(base, n);
  }

  function Abs(x: int): int { if x < 0 then -x else x }

  /** The jitter, idealised: at most a tenth of the delay either way. */
  predicate Jitter(delay: int, j: int) { 10 * Abs(j) <= Abs(delay) }

  /** For every base, cap and attempt: a delay that comes out negative, be it by the cap, by
      doubling or by adding the jitter, is replaced by the base, so it is negative only if the
      base is; and where the closed form holds, the delay is that plus the jitter. */
  method NextDelay(base: int, max: int, attempt: int, jitter: int) returns (delay: int)
    requires Int64(base) && Int64(max)
    requires Jitter(Looped(base, max, if attempt < 0 then 0 else attempt), jitter)
    ensures var d := Wrap(Looped(base, max, if attempt < 0 then 0 else attempt) + jitter);
      delay == if d < 0 then base else d
    ensures Moderate(base, max) ==> delay == Ideal(base, max, attempt) + jitter && 0 <= delay
  {
    var n := if attempt < 0 then 0 else attempt;
    delay := Delay(base, max, attempt);
    if Moderate(base, max) { JitterIsSmall(base, max, n, jitter); }
    delay := Wrap(delay + jitter);
    if delay < 0 { delay := base; }
  }

  lemma JitterIsSmall(base: int, max: int, n: nat, jitter: int)
    requires Moderate(base, max) && Jitter(Looped(base, max, n), jitter)
    ensures 0 <= Looped(base, max, n) + jitter
    ensures Wrap(Looped(base, max, n) + jitter) == Ideal(base, max, n) + jitter
  {
    ModerateIsIdeal(base, max, n);
  }

  predicate ShouldRetry(attempts: int, maxAttempts: int) { maxAttempts == 0 || attempts < maxAttempts }

  /** Sum of the ideal delays of the first `n` attempts. */
  function IdealSum(base: int, max: int, n: nat): int {
    if n == 0 then 0 else IdealSum(base, max, n - 1) + Ideal(base, max, n - 1)
  }

  /** What the world answers to one round of the loop: the jitter drawn, and whether the wait
      is cancelled, the peer turns out blacklisted, or the dial fails. */
  datatype Round = Round(jitter: int, cancelled: bool, blacklisted: bool, fails: bool)

  /** A whole reconnection loop against any answers, stopped early if they run out: it dials
      at most maxAttempts times; unless it was cancelled, refused or successful, it used up
      exactly its attempts; and where the closed form holds it waits at most 11/10 of the
      ideal sum. A negative delay is no wait at all. */
  method ReconnectionLoop(base: int, max: int, maxAttempts: int, rounds: seq<Round>)
    returns (dials: nat, waited: int, exhausted: bool)
    requires Int64(base) && Int64(max)
    requires forall i :: 0 <= i < |rounds| ==> Jitter(Looped(base, max, i), rounds[i].jitter)
    ensures dials <= |rounds| && (maxAttempts > 0 ==> dials <= maxAttempts) && (maxAttempts < 0 ==> dials == 0)
    ensures exhausted && maxAttempts > 0 ==> dials == maxAttempts
    ensures exhausted ==> maxAttempts != 0
    ensures exhausted ==>
              forall i :: 0 <= i < dials ==> rounds[i].fails && !rounds[i].blacklisted && !rounds[i].cancelled
    ensures waited >= 0
    ensures Moderate(base, max) ==> 9 * IdealSum(base, max, dials) <= 10 * waited
    ensures Moderate(base, max) && maxAttempts > 0 ==> 10 * waited <= 11 * IdealSum(base, max, maxAttempts)
    ensures Moderate(base, max) && exhausted && maxAttempts > 0 ==> 10 * waited <= 11 * IdealSum(base, max, dials)
  {
    var attempts := 0;
    dials, waited, exhausted := 0, 0, false;
    if Moderate(base, max) { SumsGrow(base, max, 0, if maxAttempts > 0 then maxAttempts else 0); }
    while attempts < |rounds|
      invariant 0 <= dials == attempts <= |rounds| && !exhausted && waited >= 0
      invariant maxAttempts > 0 ==> attempts <= maxAttempts
      invariant maxAttempts < 0 ==> attempts == 0
      invariant Moderate(base, max) ==>
                  9 * IdealSum(base, max, attempts) <= 10 * waited <= 11 * IdealSum(base, max, attempts)
      invariant forall i :: 0 <= i < dials ==> rounds[i].fails && !rounds[i].blacklisted && !rounds[i].cancelled
    {
      if !ShouldRetry(attempts, maxAttempts) {
        exhausted := true;
        break;
      }
      var round := rounds[attempts];
      if Moderate(base, max) { ModerateIsIdeal(base, max, attempts); }
      var delay := NextDelay(base, max, attempts, round.jitter);
      attempts := attempts + 1;
      if Moderate(base, max) && maxAttempts > 0 { SumsGrow(base, max, attempts, maxAttempts); }
      if round.cancelled { return; }
      if delay > 0 { waited := waited + delay; }
      if round.blacklisted { return; }
      dials := dials + 1;
      if !round.fails { return; }
    }
    if Moderate(base, max) && maxAttempts > 0 { SumsGrow(base, max, attempts, maxAttempts); }
    if !exhausted && !ShouldRetry(attempts, maxAttempts) { exhausted := true; }
  }

  lemma {:induction false} SumsGrow(base: int, max: int, m: nat, n: nat)
    requires base >= 0 && max >= 0 && m <= n
    ensures 0 <= IdealSum(base, max, m) <= IdealSum(base, max, n)
    decreases n
  {
    if m < n {
      PowersGrow(base, n - 1);
      SumsGrow(base, max, m, n - 1);
    } else if n > 0 {
      PowersGrow(base, n - 1);
      SumsGrow(base, max, n - 1, n - 1);
    }
  }
}
