/** The session clock, and the tick arithmetic of the performance-counter timer. */
module Timers {
  import opened Words

  type Clock = nat -> u64

  /** A timer: its n-th reading is whatever the clock shows then. */
  class Timer {
    const clock: Clock
    var taken: nat

    constructor (clock: Clock)
      ensures this.clock == clock && taken == 0
    {
      this.clock := clock;
      taken := 0;
    }

    method NowUs() returns (us: u64)
      modifies this
      ensures us == clock(old(taken)) && taken == old(taken) + 1
    {
      us := clock(taken);
      taken := taken + 1;
    }
  }

  /** Readings never go back. */
  ghost predicate Monotone(clock: Clock) {
    forall i: nat, j: nat :: i <= j ==> clock(i) <= clock(j)
  }

  // ----- QPCTimer

  const MICROS: nat := 1_000_000

  /** The largest tick count whose product with a million fits in 64 bits. */
  const TICK_LIMIT: nat := UINT64_MAX / MICROS

  function Mul64(a: u64, b: u64): u64 {
    a * b % TWO_64
  }

  function QpcNowUs(freq: u64, start: u64, now: u64): u64
    requires freq > 0
  {
    DivShrinks(Mul64(Sub64(now, start), MICROS), freq);
    Mul64(Sub64(now, start), MICROS) / freq
  }

  lemma WrapBelow(x: nat)
    requires x >= TWO_64
    ensures x % TWO_64 + TWO_64 <= x
  {
    assert x == TWO_64 * (x / TWO_64) + x % TWO_64;
    assert x / TWO_64 >= 1;
  }

  lemma ProductFits(d: u64)
    ensures d <= 18_446_744_073_709 ==> Mul64(d, MICROS) == d * 1_000_000
    ensures d > 18_446_744_073_709 ==> Mul64(d, MICROS) + TWO_64 <= d * 1_000_000
  {
    if d > 18_446_744_073_709 {
      WrapBelow(d * 1_000_000);
    }
  }

  /** The reading is the exact number of elapsed microseconds, rounded down, precisely while the
      elapsed ticks stay within the limit. */
  lemma QpcExactIffWithinLimit(freq: u64, start: u64, now: u64)
    requires freq > 0 && start <= now
    ensures QpcNowUs(freq, start, now) == (now - start) * 1_000_000 / freq
      <==> now - start <= 18_446_744_073_709
  {
    hide Mul64;
    ProductFits(now - start);
    var x := (now - start) * 1_000_000;
    var y := Mul64(now - start, MICROS);
    if now - start > 18_446_744_073_709 {
      DivShift(y, freq);
      DivGrows(y + freq, x, freq);
    }
  }

  lemma QpcMonotone(freq: u64, start: u64, a: u64, b: u64)
    requires freq > 0 && start <= a <= b && b - start <= TICK_LIMIT
    ensures QpcNowUs(freq, start, a) <= QpcNowUs(freq, start, b)
  {
    QpcExactIffWithinLimit(freq, start, a);
    QpcExactIffWithinLimit(freq, start, b);
    DivGrows((a - start) * MICROS, (b - start) * MICROS, freq);
  }

  function QpcDuration(freq: u64, start: u64, a: u64, b: u64): u64
    requires freq > 0
  {
    Sub64(QpcNowUs(freq, start, b), QpcNowUs(freq, start, a))
  }

  /** A duration taken as the difference of two readings is within one microsecond of the ticks
      between them (both sides scaled by the frequency). */
  lemma QpcDurationError(freq: u64, start: u64, a: u64, b: u64)
    requires freq > 0 && start <= a <= b && b - start <= TICK_LIMIT
    ensures (b - a) * MICROS - freq < QpcDuration(freq, start, a, b) * freq < (b - a) * MICROS + freq
  {
    QpcExactIffWithinLimit(freq, start, a);
    QpcExactIffWithinLimit(freq, start, b);
    QpcMonotone(freq, start, a, b);
    var x := (a - start) * MICROS;
    var y := (b - start) * MICROS;
    DivBounds(x, freq);
    DivBounds(y, freq);
    Distribute(y / freq, x / freq, freq);
  }

  /** The four stages of a chunk, each between two readings, sum to within four microseconds of
      the ticks they took together. */
  lemma {:induction false} QpcTotalError(freq: u64, start: u64, t: seq<u64>)
    requires freq > 0 && |t| == 8 && forall i, j :: 0 <= i <= j < 8 ==> start <= t[i] <= t[j]
    requires t[7] - start <= TICK_LIMIT
    ensures var total := QpcDuration(freq, start, t[0], t[1]) + QpcDuration(freq, start, t[2], t[3])
                       + QpcDuration(freq, start, t[4], t[5]) + QpcDuration(freq, start, t[6], t[7]);
      var ticks := (t[1] - t[0]) + (t[3] - t[2]) + (t[5] - t[4]) + (t[7] - t[6]);
      ticks * MICROS - 4 * freq < total * freq < ticks * MICROS + 4 * freq
  {
    QpcDurationError(freq, start, t[0], t[1]);
    QpcDurationError(freq, start, t[2], t[3]);
    QpcDurationError(freq, start, t[4], t[5]);
    QpcDurationError(freq, start, t[6], t[7]);
    SumScale(QpcDuration(freq, start, t[0], t[1]), QpcDuration(freq, start, t[2], t[3]),
      QpcDuration(freq, start, t[4], t[5]), QpcDuration(freq, start, t[6], t[7]), freq);
  }

  lemma SumScale(a: int, b: int, c: int, d: int, f: int)
    ensures (a + b + c + d) * f == a * f + b * f + c * f + d * f
  {
  }
}
