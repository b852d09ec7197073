/**
 * The frame arithmetic of an image animator's timer tick, as pure functions:
 * every tick adds one tick period to the animation time, modulo the length of
 * a full cycle, and the frame shown is the elapsed time divided by the period.
 */
module FrameClock {

  /** Animation time (ms) and the index of the frame it selects. */
  datatype Frame = Frame(time: int, index: int)

  /** The tick arithmetic runs only with more than one frame and a positive period. */
  predicate Animates(period: int, count: int)
  {
    count > 1 && period > 0
  }

  /** Euclidean division by `m` is determined by quotient and remainder. */
  lemma DivModUnique(x: int, m: int, q: int, r: int)
    requires m > 0 && 0 <= r < m && x == q * m + r
    ensures x / m == q && x % m == r
  {
    var q0, r0 := x / m, x % m;
    assert x == q0 * m + r0;
    if q0 > q {
      assert q0 * m - q * m == (q0 - q) * m;
      MulAtLeast(q0 - q, m);
    } else if q0 < q {
      assert q * m - q0 * m == (q - q0) * m;
      MulAtLeast(q - q0, m);
    }
  }

  lemma MulAtLeast(a: int, m: int)
    requires a >= 1 && m > 0
    ensures a * m >= m
  {
  }

  /** Adding whole cycles does not change a remainder. */
  lemma ModAddMultiple(x: int, j: int, m: int)
    requires m > 0
    ensures (x + j * m) % m == x % m
  {
    DivModUnique(x + j * m, m, x / m + j, x % m);
  }

  /** Reducing the accumulator before adding gives the same remainder. */
  lemma ModOfModSum(a: int, b: int, m: int)
    requires m > 0
    ensures (a % m + b) % m == (a + b) % m
  {
    ModAddMultiple(a % m + b, a / m, m);
    assert a % m + b + (a / m) * m == a + b;
  }

  lemma DivBelow(t: int, p: int, c: int)
    requires p > 0 && 0 <= t < p * c
    ensures 0 <= t / p < c
  {
    DivModUnique(t, p, t / p, t % p);
    if t / p >= c {
      assert (t / p) * p >= c * p by { MulMono(c, t / p, p); }
    }
  }

  lemma MulMono(a: int, b: int, p: int)
    requires a <= b && p > 0
    ensures a * p <= b * p
  {
  }

  /**
   * One timer tick: the period is added to the time modulo the cycle length
   * and the frame is the time divided by the period; a single-frame or
   * zero-period animation shows frame 0 and keeps its time.
   */
  function Step(time: int, period: int, count: int): (f: Frame)
    requires time >= 0 && period >= 0
    ensures f.time >= 0 && f.index >= 0
    ensures Animates(period, count) ==> f.index < count && f.time < period * count
    ensures Animates(period, count) ==> f.index == f.time / period
    ensures !Animates(period, count) ==> f == Frame(time, 0)
  {
    if Animates(period, count) then
      var t := (time + period) % (period * count);
      DivBelow(t, period, count);
      Frame(t, t / period)
    else
      Frame(time, 0)
  }

  /** The frame after `k` successive ticks (k >= 1) starting from `time`. */
  function Ticks(time: int, period: int, count: int, k: nat): (f: Frame)
    requires time >= 0 && period >= 0 && k >= 1
    ensures f.time >= 0
    decreases k
  {
    if k == 1 then Step(time, period, count)
    else Step(Ticks(time, period, count, k - 1).time, period, count)
  }

  /** After k ticks the time is the start time plus k periods, modulo a cycle. */
  lemma {:induction false} TicksAccumulate(time: int, period: int, count: int, k: nat)
    requires time >= 0 && Animates(period, count) && k >= 1
    ensures Ticks(time, period, count, k).time == (time + k * period) % (period * count)
  {
    var m := period * count;
    if k == 1 {
      assert Ticks(time, period, count, 1).time == (time + period) % m;
    } else {
      TicksAccumulate(time, period, count, k - 1);
      var a := time + (k - 1) * period;
      var prev := Ticks(time, period, count, k - 1).time;
      assert prev == a % m;
      assert Ticks(time, period, count, k).time == (prev + period) % m;
      ModOfModSum(a, period, m);
      SuccTimes(k, period);
    }
  }

  lemma SuccTimes(k: int, p: int)
    ensures (k - 1) * p + p == k * p
  {
  }

  /**
   * Full-cycle idempotence: j further rounds of `count` ticks bring the
   * animator back to the same time and the same frame.
   */
  lemma FullCycle(time: int, period: int, count: int, k: nat, j: nat)
    requires time >= 0 && Animates(period, count) && k >= 1
    ensures Ticks(time, period, count, k + j * count) == Ticks(time, period, count, k)
  {
    var m := period * count;
    TicksAccumulate(time, period, count, k);
    TicksAccumulate(time, period, count, k + j * count);
    CycleTimes(k, j, count, period);
    ModAddMultiple(time + k * period, j, m);
  }

  lemma CycleTimes(k: int, j: int, c: int, p: int)
    ensures (k + j * c) * p == k * p + j * (p * c)
  {
  }

  lemma MulSucc(p: int, i: int)
    ensures p * i + p == p * (i + 1)
  {
  }

  lemma MulStrict(p: int, a: int, b: int)
    requires p > 0 && a < b
    ensures p * a < p * b
  {
  }

  /** From a frame-aligned time, one tick moves exactly one frame on, wrapping after the last. */
  lemma StepFromAligned(i: int, period: int, count: int)
    requires Animates(period, count) && 0 <= i < count
    ensures var j := (i + 1) % count; Step(period * i, period, count) == Frame(period * j, j)
  {
    var m := period * count;
    var t := (period * i + period) % m;
    assert Step(period * i, period, count) == Frame(t, t / period);
    MulSucc(period, i);
    if i + 1 < count {
      MulStrict(period, i + 1, count);
      DivModUnique(period * (i + 1), m, 0, period * (i + 1));
      DivModUnique(period * (i + 1), period, i + 1, 0);
      DivModUnique(i + 1, count, 0, i + 1);
    } else {
      DivModUnique(m, m, 1, 0);
      DivModUnique(0, period, 0, 0);
      DivModUnique(i + 1, count, 1, 0);
    }
  }

  /**
   * From time 0 (a new animator), the k-th tick shows frame k mod count, so
   * the last frame is reached exactly once per cycle.
   */
  lemma {:induction false} TicksFromStart(period: int, count: int, k: nat)
    requires Animates(period, count) && k >= 1
    ensures Ticks(0, period, count, k) == Frame(period * (k % count), k % count)
  {
    if k == 1 {
      StepFromAligned(0, period, count);
    } else {
      TicksFromStart(period, count, k - 1);
      var i := (k - 1) % count;
      StepFromAligned(i, period, count);
      assert Ticks(0, period, count, k) == Step(period * i, period, count);
      ModOfModSum(k - 1, 1, count);
    }
  }
}
