/** The wait between two attempts of a step, in nanoseconds. */
module Backoff {
  import opened Options

  const MILLISECOND := 1_000_000
  const SECOND := 1_000 * MILLISECOND

  /** The configured base and cap. What is not positive falls back to the default. */
  datatype Waits = Waits(base: int, max: int) {
    function Base(): (b: int)
      ensures b > 0
    {
      if base <= 0 then 200 * MILLISECOND else base
    }

    function Max(): (m: int)
      ensures m > 0
    {
      if max <= 0 then 10 * SECOND else max
    }
  }

  function Pow2(n: nat): (p: nat)
    ensures p > 0
  {
    if n == 0 then 1 else 2 * Pow2(n - 1)
  }

  function Lesser(a: int, b: int): int {
    if a <= b then a else b
  }

  /** The wait of the attempt without its jitter. */
  function Delay(w: Waits, attempt: nat): int
    requires attempt >= 1
  {
    Lesser(w.Base() * Pow2(attempt - 1), w.Max())
  }

  /** The wait with its jitter. `draw` is the random number, reduced to the range asked for; asking
      for an empty range is a panic. */
  function Wait(w: Waits, attempt: nat, draw: nat): Option<int>
    requires attempt >= 1
  {
    var d := Delay(w, attempt);
    if d / 2 <= 0 then None else Some(d + draw % (d / 2))
  }

  /** The waits of the first `n` attempts, one after each attempt, the last included. */
  function TotalWait(w: Waits, draws: nat -> nat, n: nat): Option<int> {
    if n == 0 then Some(0)
    else
      var before := TotalWait(w, draws, n - 1);
      var last := Wait(w, n, draws(n));
      if before.None? || last.None? then None else Some(before.value + last.value)
  }

  lemma ProductAtLeast(b: int, p: int)
    requires b >= 1 && p >= 1
    ensures b * p >= b && b * p >= p
  {
  }

  lemma DelayIsShort(w: Waits, attempt: nat)
    requires attempt >= 1
    ensures Delay(w, attempt) >= 1
    ensures Delay(w, attempt) == 1 <==> w.Max() == 1 || (w.Base() == 1 && attempt == 1)
  {
    var p := Pow2(attempt - 1);
    ProductAtLeast(w.Base(), p);
    if attempt > 1 {
      assert p == 2 * Pow2(attempt - 2);
    } else {
      assert w.Base() * p == w.Base();
    }
  }

  lemma RemainderBelow(n: nat, d: nat)
    requires d > 0
    ensures 0 <= n % d < d
  {
  }

  /** A wait is its delay and less than half as much again. There is none, and the executor
      panics, exactly when the cap is 1 ns or the base is 1 ns and the attempt the first. */
  lemma WaitBounds(w: Waits, attempt: nat, draw: nat)
    requires attempt >= 1
    ensures var d, r := Delay(w, attempt), Wait(w, attempt, draw);
            && (r.None? <==> w.Max() == 1 || (w.Base() == 1 && attempt == 1))
            && (r.Some? ==> d <= r.value && 2 * r.value < 3 * d)
  {
    DelayIsShort(w, attempt);
    hide Delay;
    var d := Delay(w, attempt);
    if d >= 2 {
      RemainderBelow(draw, d / 2);
    }
  }

  /** The delay starts at the base, doubles from one attempt to the next and stays at the cap. */
  lemma DelayDoubles(w: Waits, attempt: nat)
    requires attempt >= 1
    ensures Delay(w, 1) == Lesser(w.Base(), w.Max())
    ensures Delay(w, attempt + 1) == Lesser(2 * Delay(w, attempt), w.Max())
  {
    assert Pow2(0) == 1;
    var p := Pow2(attempt - 1);
    assert w.Base() * (2 * p) == 2 * (w.Base() * p);
  }

  /** The delays of the first `n` attempts: a geometric series, capped. */
  function TotalDelay(w: Waits, n: nat): int {
    if n == 0 then 0 else TotalDelay(w, n - 1) + Delay(w, n)
  }

  lemma SeriesStep(b: int, m: int, n: nat)
    requires n >= 1
    ensures b * (Pow2(n) - 1) == b * (Pow2(n - 1) - 1) + b * Pow2(n - 1)
    ensures n * m == (n - 1) * m + m
  {
    var p := Pow2(n - 1);
    assert b * (2 * p - 1) == b * (p - 1) + b * p;
  }

  lemma NoDelay(w: Waits, draws: nat -> nat)
    ensures TotalDelay(w, 0) == 0 && TotalWait(w, draws, 0) == Some(0)
    ensures w.Base() * (Pow2(0) - 1) == 0 && 0 * w.Max() == 0
  {
  }

  lemma LesserOfSums(a: int, b: int, c: int, d: int)
    ensures Lesser(a, c) + Lesser(b, d) <= Lesser(a + b, c + d)
  {
  }

  /** The series stays below its uncapped form and below `n` caps. */
  lemma {:induction false} TotalDelayBound(w: Waits, n: nat)
    ensures TotalDelay(w, n) <= Lesser(w.Base() * (Pow2(n) - 1), n * w.Max())
  {
    var b, m := w.Base(), w.Max();
    if n == 0 {
      NoDelay(w, _ => 0);
    } else {
      TotalDelayBound(w, n - 1);
      SeriesStep(b, m, n);
      LesserOfSums(b * (Pow2(n - 1) - 1), b * Pow2(n - 1), (n - 1) * m, m);
      hide Pow2, Lesser;
    }
  }

  /** Waiting after all of `n` attempts, the last included, takes at least the capped geometric
      series of their delays and less than half as much again; in all less than one and a half
      times both the uncapped series and `n` times the cap. */
  lemma {:induction false} TotalWaitBounds(w: Waits, draws: nat -> nat, n: nat)
    requires w.Base() >= 2 && w.Max() >= 2 && n >= 1
    ensures var r := TotalWait(w, draws, n);
            && r.Some?
            && TotalDelay(w, n) <= r.value && 2 * r.value < 3 * TotalDelay(w, n)
            && 2 * r.value < 3 * Lesser(w.Base() * (Pow2(n) - 1), n * w.Max())
  {
    WaitBounds(w, n, draws(n));
    TotalDelayBound(w, n);
    if n > 1 {
      TotalWaitBounds(w, draws, n - 1);
    } else {
      NoDelay(w, draws);
    }
    hide Pow2, Wait, Delay, Lesser;
  }

  lemma DelayIs(w: Waits, attempt: nat)
    requires attempt >= 1
    ensures Delay(w, attempt) == Lesser(w.Base() * Pow2(attempt - 1), w.Max())
  {
  }

  /** The delay over the configured fields, in nanoseconds: the base doubled for every attempt before,
      up to the cap. A base that is not positive counts as 200 ms, a cap that is not as 10 s. */
  lemma DelayAsConfigured(w: Waits, attempt: nat)
    requires attempt >= 1
    ensures var base := if w.base > 0 then w.base else 200_000_000;
            var max := if w.max > 0 then w.max else 10_000_000_000;
            && Delay(w, attempt) == (if base * Pow2(attempt - 1) <= max then base * Pow2(attempt - 1) else max)
            && Delay(w, 1) == (if base <= max then base else max)
            && Delay(w, attempt + 1) == (if 2 * Delay(w, attempt) <= max then 2 * Delay(w, attempt) else max)
    ensures Pow2(0) == 1 && Pow2(attempt) == 2 * Pow2(attempt - 1)
  {
    DelayDoubles(w, attempt);
    hide Delay;
    assert Delay(w, attempt) == Lesser(w.Base() * Pow2(attempt - 1), w.Max()) by { DelayIs(w, attempt); }
  }

  lemma RemainderSame(n: nat, d: nat)
    requires n < d
    ensures n % d == n
  {
  }

  /** Every wait from the delay up to half as much again is drawn for some random number, and no other. */
  lemma WaitAsConfigured(w: Waits, attempt: nat, wait: int)
    requires attempt >= 1
    ensures (exists draw: nat :: Wait(w, attempt, draw) == Some(wait))
            <==> Delay(w, attempt) <= wait < Delay(w, attempt) + Delay(w, attempt) / 2
  {
    var d := Delay(w, attempt);
    DelayIsShort(w, attempt);
    hide Delay;
    if draw: nat :| Wait(w, attempt, draw) == Some(wait) {
      RemainderBelow(draw, d / 2);
    }
    if d <= wait < d + d / 2 {
      RemainderSame(wait - d, d / 2);
      assert Wait(w, attempt, wait - d) == Some(wait);
    }
  }

  /** The waits of a step that fails `n` times, over the configured fields: unless base or cap is 1 ns,
      which can panic, they add up to less than one and a half times base * (2^n - 1), and than n times
      the cap. */
  lemma TotalAsConfigured(w: Waits, draws: nat -> nat, n: nat)
    requires w.base != 1 && w.max != 1 && n >= 1
    ensures var base := if w.base > 0 then w.base else 200_000_000;
            var max := if w.max > 0 then w.max else 10_000_000_000;
            var r := TotalWait(w, draws, n);
            && r.Some? && TotalDelay(w, n) <= r.value
            && 2 * r.value < 3 * (base * (Pow2(n) - 1)) && 2 * r.value < 3 * (n * max)
  {
    TotalWaitBounds(w, draws, n);
    hide TotalWait, TotalDelay, Pow2;
  }
}
