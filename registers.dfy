/** Register vocabulary of the Timer0_A5 peripheral of the CC430 that drives the watch.

    TA0R (the free-running counter) and TA0CCR0..TA0CCR4 (the compare registers) hold
    16-bit numbers that are added to, so they are integers that wrap at 2^16.
    TA0CTL and TA0CCTL0..TA0CCTL4 are control words in which the driver only sets, clears
    and tests single bits. They are modelled as records of the bits the driver names;
    `CtlOf` and `CctlOf` read those bits out of a 16-bit word, and the lemmas below show
    that every record update reads the same as the driver's `|=` or `&= ~` on the word. */
module Registers {

  /** Number of distinct counter values; every sum on TA0R or a TA0CCRx wraps here. */
  const Modulus: nat := 0x1_0000

  /** Contents of a 16-bit counter or compare register. */
  type U16 = x: int | 0 <= x < 0x1_0000

  /** Index of one of the five capture/compare channels CCR0..CCR4. */
  type Channel = k: int | 0 <= k < 5

  /** 16-bit addition with wrap-around, as the CPU performs `u16 + u16`. */
  function Add16(a: U16, b: nat): (r: U16)
    ensures (r - a - b) % Modulus == 0
  {
    (a + b) % Modulus
  }

  // TA0CTL bits used by the driver.
  const TACLR: bv16 := 0x0004    // counter clear, reads back as zero
  const MC0: bv16 := 0x0010      // BIT4, mode control low bit
  const MC1: bv16 := 0x0020      // BIT5, mode control high bit
  const MC_2: bv16 := 0x0020     // mode 2 (continuous) = MC1
  const TASSEL0: bv16 := 0x0100  // clock source ACLK

  // TA0CCTLx bits used by the driver.
  const CCIFG: bv16 := 0x0001    // compare interrupt flag (pending)
  const CCIE: bv16 := 0x0010     // compare interrupt enable

  // -------------------------------------------------------------------------------------
  // TA0CTL

  /** TA0CTL as the driver sees it: clock-source bit TASSEL0 and mode bits MC0 and MC1. */
  datatype Ctl = Ctl(tassel0: bool, mc0: bool, mc1: bool)

  /** The named bits of a TA0CTL word. */
  function CtlOf(w: bv16): Ctl {
    Ctl(w & TASSEL0 != 0, w & MC0 != 0, w & MC1 != 0)
  }

  /** The counter counts when either mode bit is set. */
  predicate Counting(c: Ctl) {
    c.mc0 || c.mc1
  }

  /** `Counting` is the driver's test `TA0CTL & (BIT4 | BIT5)`. */
  lemma CountingIsModeTest(w: bv16)
    ensures Counting(CtlOf(w)) <==> w & (MC0 | MC1) != 0
  {
  }

  /** `TA0CTL |= TASSEL0 + MC1 + TACLR;`: ACLK, continuous mode, counter cleared. */
  function InitControl(c: Ctl): (r: Ctl)
    ensures Counting(r)
  {
    c.(tassel0 := true, mc1 := true)
  }

  lemma InitControlIsOr(w: bv16)
    ensures CtlOf(w | TASSEL0 | MC1 | TACLR) == InitControl(CtlOf(w))
  {
  }

  /** `TA0CTL |= MC_2;` */
  function ContinuousOn(c: Ctl): (r: Ctl)
    ensures Counting(r)
  {
    c.(mc1 := true)
  }

  lemma ContinuousOnIsOr(w: bv16)
    ensures CtlOf(w | MC_2) == ContinuousOn(CtlOf(w))
  {
  }

  /** `TA0CTL &= ~MC_2;` */
  function ContinuousOff(c: Ctl): (r: Ctl)
    ensures Counting(r) <==> c.mc0
  {
    c.(mc1 := false)
  }

  lemma ContinuousOffIsAndNot(w: bv16)
    ensures CtlOf(w & !MC_2) == ContinuousOff(CtlOf(w))
  {
  }

  // -------------------------------------------------------------------------------------
  // TA0CCTLx

  /** TA0CCTLx as the driver sees it: interrupt enable CCIE and interrupt flag CCIFG. */
  datatype Cctl = Cctl(ccie: bool, ccifg: bool)

  /** The named bits of a TA0CCTLx word. */
  function CctlOf(w: bv16): Cctl {
    Cctl(w & CCIE != 0, w & CCIFG != 0)
  }

  predicate Enabled(c: Cctl) {
    c.ccie
  }

  predicate Pending(c: Cctl) {
    c.ccifg
  }

  /** `TA0CCTLx |= CCIE;` */
  function Enable(c: Cctl): Cctl {
    c.(ccie := true)
  }

  lemma EnableIsOr(w: bv16)
    ensures CctlOf(w | CCIE) == Enable(CctlOf(w))
  {
  }

  /** `TA0CCTLx &= ~CCIE;` */
  function Disarm(c: Cctl): Cctl {
    c.(ccie := false)
  }

  lemma DisarmIsAndNot(w: bv16)
    ensures CctlOf(w & !CCIE) == Disarm(CctlOf(w))
  {
  }

  /** `TA0CCTLx &= ~CCIFG;` */
  function ClearFlag(c: Cctl): Cctl {
    c.(ccifg := false)
  }

  lemma ClearFlagIsAndNot(w: bv16)
    ensures CctlOf(w & !CCIFG) == ClearFlag(CctlOf(w))
  {
  }

  /** The compare unit sets CCIFG when the counter counts to TA0CCRx. */
  function RaiseFlag(c: Cctl): Cctl {
    c.(ccifg := true)
  }

  lemma RaiseFlagIsOr(w: bv16)
    ensures CctlOf(w | CCIFG) == RaiseFlag(CctlOf(w))
  {
  }

  /** Clear a stale match, then enable: how every channel is armed. */
  function Arm(c: Cctl): (r: Cctl)
    ensures Enabled(r) && !Pending(r)
  {
    Enable(ClearFlag(c))
  }

  /** Disable, then clear: how every handler opens. */
  function Quiesce(c: Cctl): (r: Cctl)
    ensures !Enabled(r) && !Pending(r)
  {
    ClearFlag(Disarm(c))
  }
}
