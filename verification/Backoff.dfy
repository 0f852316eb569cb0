/** RetryDelay: exponential backoff with full jitter. Times are in nanoseconds. */
module Backoff {
  import opened Prelude

  const BASE: int := 2 * SECOND
  const CEILING: int := 300 * SECOND

  function Pow2(n: nat): nat {
    if n == 0 then 1 else 2 * Pow2(n - 1)
  }

  /** The jitter range after `n` retries: the backoff, capped at five minutes. */
  function Window(n: nat): int {
    if BASE * Pow2(n) > CEILING then CEILING else BASE * Pow2(n)
  }

  /** `draw` is what rand.Int63n(Window(n)) returned. */
  function RetryDelay(n: nat, draw: int): int
    requires 0 <= draw < Window(n)
  {
    draw + BASE
  }

  lemma {:induction false} Pow2Grows(n: nat, m: nat)
    requires n <= m
    ensures 1 <= Pow2(n) <= Pow2(m)
    decreases m
  {
    if n < m {
      Pow2Grows(n, m - 1);
    } else if n > 0 {
      Pow2Grows(n - 1, n - 1);
    }
  }

  lemma Pow2Step(n: nat)
    ensures Pow2(n + 1) == 2 * Pow2(n)
  {
  }

  lemma Pow2Small()
    ensures Pow2(0) == 1 && Pow2(1) == 2 && Pow2(2) == 4 && Pow2(3) == 8 && Pow2(4) == 16
    ensures Pow2(5) == 32 && Pow2(6) == 64 && Pow2(7) == 128 && Pow2(8) == 256
  {
    assert Pow2(4) == 16;
    assert Pow2(8) == 256;
  }

  /** Below the eighth retry the window doubles each time; from then on it is the cap. */
  lemma WindowShape(n: nat)
    ensures n < 8 ==> Window(n) == BASE * Pow2(n)
    ensures n >= 8 ==> Window(n) == CEILING
  {
    Pow2Small();
    if n >= 8 {
      Pow2Grows(8, n);
    } else {
      Pow2Grows(n, 7);
    }
  }

  predicate Draws(n: nat, draw: int, delay: int) {
    0 <= draw < Window(n) && RetryDelay(n, draw) == delay
  }

  /**
   Full jitter: after `n` retries every delay from two seconds up to, but not
   including, the capped doubling plus two seconds is possible, by exactly one draw,
   and no other delay is.
   */
  lemma FullJitter(n: nat, delay: int)
    ensures (exists draw :: Draws(n, draw, delay)) <==>
            2 * SECOND <= delay < Min(2 * SECOND * Pow2(n), 300 * SECOND) + 2 * SECOND
    ensures forall d, e :: Draws(n, d, delay) && Draws(n, e, delay) ==> d == e
  {
    if BASE <= delay < Min(BASE * Pow2(n), CEILING) + BASE {
      assert Draws(n, delay - BASE, delay);
    }
  }

  /**
   Every delay is at least two seconds and below the window plus two seconds, so
   the true ceiling is five minutes and two seconds; windows never shrink.
   */
  lemma DelayBounds(n: nat, draw: int)
    requires 0 <= draw < Window(n)
    ensures 2 * SECOND <= RetryDelay(n, draw) < Min(2 * SECOND * Pow2(n), 300 * SECOND) + 2 * SECOND <= 302 * SECOND
    ensures forall m: nat :: m >= n ==> Window(n) <= Window(m)
  {
    forall m: nat | m >= n
      ensures Window(n) <= Window(m)
    {
      Pow2Grows(n, m);
    }
  }

  /** One draw per retry, each within its window. */
  predicate ValidDraws(draws: seq<int>) {
    forall i :: 0 <= i < |draws| ==> 0 <= draws[i] < Window(i)
  }

  /** Total time spent waiting before the last of |draws| retries. */
  function TotalDelay(draws: seq<int>): int
    requires ValidDraws(draws)
  {
    if draws == [] then 0
    else TotalDelay(draws[..|draws| - 1]) + RetryDelay(|draws| - 1, draws[|draws| - 1])
  }

  lemma DoublingStep(prev: int, draw: int, p: int, k: int)
    requires BASE * k <= prev <= BASE * (p - 1) + BASE * k && 0 <= draw < BASE * p
    ensures BASE * (k + 1) <= prev + draw + BASE < BASE * (2 * p - 1) + BASE * (k + 1)
  {
  }

  /** k retries take at least 2k seconds and, while the window still doubles, less than 2(2^k - 1) + 2k seconds. */
  lemma {:induction false} TotalDelayWhileDoubling(draws: seq<int>)
    requires ValidDraws(draws) && |draws| <= 8
    ensures 2 * SECOND * |draws| <= TotalDelay(draws) <= 2 * SECOND * (Pow2(|draws|) - 1) + 2 * SECOND * |draws|
    ensures draws != [] ==> TotalDelay(draws) < 2 * SECOND * (Pow2(|draws|) - 1) + 2 * SECOND * |draws|
  {
    assert Pow2(0) == 1;
    hide Pow2, Window;
    if draws != [] {
      var k := |draws| - 1;
      TotalDelayWhileDoubling(draws[..k]);
      WindowShape(k);
      Pow2Step(k);
      DoublingStep(TotalDelay(draws[..k]), draws[k], Pow2(k), k);
    }
  }

  /** From the eighth retry on, each further one adds less than 302 seconds. */
  lemma {:induction false} TotalDelayAtTheCap(draws: seq<int>)
    requires ValidDraws(draws) && |draws| >= 8
    ensures 2 * SECOND * |draws| <= TotalDelay(draws) < 510 * SECOND + 300 * SECOND * (|draws| - 8) + 2 * SECOND * |draws|
  {
    if |draws| == 8 {
      TotalDelayWhileDoubling(draws);
      Pow2Small();
    } else {
      var k := |draws| - 1;
      hide Pow2, Window;
      TotalDelayAtTheCap(draws[..k]);
      WindowShape(k);
    }
  }
}
