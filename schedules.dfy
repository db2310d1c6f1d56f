/** The two re-arm disciplines the driver uses on its compare channels.

    Relative-to-now: `TA0CCRx = TA0R + ticks` (Start of channels 1 and 3, the delay channel 4,
    and the re-arm of channel 3 and of channel 1 in the GPS build).
    Additive: `TA0CCRx += period` (channel 0, and channel 1 in the sidereal build), which
    keeps a drift-free schedule whatever the interrupt latency. */
module Schedules {
  import opened Registers

  /** Compare value written by a relative-to-now arm. */
  function RelativeTarget(now: U16, ticks: U16): (target: U16)
    ensures target == now <==> ticks == 0
  {
    Add16(now, ticks)
  }

  /** Number of counter increments from `now` until TA0R next equals `target`.
      A compare match happens when the counter counts TO the compare value, so a
      target equal to the present count is reached only after a full wrap. */
  function TicksUntil(now: U16, target: U16): (d: nat)
    ensures 1 <= d <= Modulus
    ensures Add16(now, d) == target
    ensures forall e :: 1 <= e < d ==> Add16(now, e) != target
  {
    if now < target then target - now else target - now + Modulus
  }

  /** A channel armed with `ticks` relative to now fires exactly `ticks` counts later,
      or after a whole counter period of 65536 counts when `ticks` is 0. */
  lemma RelativeArmFiresAfter(now: U16, ticks: U16)
    ensures TicksUntil(now, RelativeTarget(now, ticks)) == if ticks == 0 then Modulus else ticks
  {
    var t := RelativeTarget(now, ticks);
    if now + ticks >= Modulus {
      assert t == now + ticks - Modulus;
    } else {
      assert t == now + ticks;
    }
  }

  /** Compare value after `n` additive re-arms of `period` counts starting from `first`. */
  function AfterFires(first: U16, period: nat, n: nat): U16
  {
    if n == 0 then first else Add16(AfterFires(first, period, n - 1), period)
  }

  lemma AddModulo(a: int, b: int)
    ensures (a % Modulus + b) % Modulus == (a + b) % Modulus
  {
    var q := a / Modulus;
    assert a == q * Modulus + a % Modulus;
    assert a + b == (a % Modulus + b) + q * Modulus;
    ShiftByMultiple(a % Modulus + b, q);
  }

  lemma ShiftByMultiple(a: int, q: int)
    ensures (a + q * Modulus) % Modulus == a % Modulus
  {
  }

  /** The additive schedule is self-correcting: after `n` fires the compare value depends
      only on `n`, as `first + n * period` reduced to 16 bits. */
  lemma {:induction false} AfterFiresClosedForm(first: U16, period: nat, n: nat)
    ensures AfterFires(first, period, n) == (first + period * n) % Modulus
  {
    if n > 0 {
      AfterFiresClosedForm(first, period, n - 1);
      AddModulo(first + period * (n - 1), period);
      assert period * (n - 1) + period == period * n;
    }
  }

  /** `Timer0_Init` programs CCR0 to 32768 - 1 and every channel-0 fire adds 32768. */
  const Ccr0Initial: U16 := 32767
  const Ccr0Period: nat := 32768

  /** The 1 Hz compare value alternates between 0x7FFF and 0xFFFF, one half of the
      16-bit period apart, so the interrupt comes once per 32768 counts (one second). */
  lemma Ccr0Alternates(n: nat)
    ensures AfterFires(Ccr0Initial, Ccr0Period, n) == if n % 2 == 0 then 0x7FFF else 0xFFFF
  {
    AfterFiresClosedForm(Ccr0Initial, Ccr0Period, n);
    assert Ccr0Initial + Ccr0Period * n == Ccr0Initial + Ccr0Period * (n % 2) + (n / 2) * Modulus;
    ShiftByMultiple(Ccr0Initial + Ccr0Period * (n % 2), n / 2);
  }

  /** Sidereal build: the channel-1 period is 32678 counts when the sidereal second is odd
      and 32679 when it is even, to approximate 32678.53 counts per sidereal second. */
  function SiderealPeriod(secondOdd: bool): nat
  {
    if secondOdd then 32678 else 32679
  }

  /** CCR1 after one sidereal fire per element of `odd` (the parity of the second at each fire). */
  function SiderealAfter(ccr1: U16, odd: seq<bool>): U16
    decreases |odd|
  {
    if odd == [] then ccr1 else SiderealAfter(Add16(ccr1, SiderealPeriod(odd[0])), odd[1..])
  }

  function CountOdd(odd: seq<bool>): (c: nat)
    ensures c <= |odd|
  {
    if odd == [] then 0 else (if odd[0] then 1 else 0) + CountOdd(odd[1..])
  }

  /** Every fire adds 32679 counts, less one for each odd second. */
  lemma {:induction false} SiderealClosedForm(ccr1: U16, odd: seq<bool>)
    ensures SiderealAfter(ccr1, odd) == (ccr1 + 32679 * |odd| - CountOdd(odd)) % Modulus
    decreases |odd|
  {
    if odd != [] {
      var next := Add16(ccr1, SiderealPeriod(odd[0]));
      SiderealClosedForm(next, odd[1..]);
      AddModulo(ccr1 + SiderealPeriod(odd[0]), 32679 * |odd[1..]| - CountOdd(odd[1..]));
    }
  }

  /** Parities of `n` consecutive seconds, the first of which is odd when `firstOdd` holds. */
  function Alternating(firstOdd: bool, n: nat): (s: seq<bool>)
    ensures |s| == n
    decreases n
  {
    if n == 0 then [] else [firstOdd] + Alternating(!firstOdd, n - 1)
  }

  lemma {:induction false} AlternatingCount(firstOdd: bool, k: nat)
    ensures CountOdd(Alternating(firstOdd, 2 * k)) == k
  {
    if k > 0 {
      AlternatingCount(firstOdd, k - 1);
      var s := Alternating(firstOdd, 2 * k);
      assert s[1..] == Alternating(!firstOdd, 2 * k - 1);
      assert s[1..][1..] == Alternating(firstOdd, 2 * (k - 1));
    }
  }

  /** While the sidereal second alternates in parity, every pair of fires advances CCR1 by
      32678 + 32679 = 65357 counts: on average 32678.5 counts per sidereal second. */
  lemma SiderealAlternating(ccr1: U16, firstOdd: bool, k: nat)
    ensures SiderealAfter(ccr1, Alternating(firstOdd, 2 * k)) == (ccr1 + 65357 * k) % Modulus
  {
    SiderealClosedForm(ccr1, Alternating(firstOdd, 2 * k));
    AlternatingCount(firstOdd, k);
  }
}
