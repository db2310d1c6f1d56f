/** The once-per-second bookkeeping that TIMER0_A0_ISR performs after re-arming channel 0:
    the radio-mode timeout, the message flags, the backlight countdown and the detection of
    long button presses. Each stage is a function on the values it updates; `SecondTick`
    composes them in the order the handler runs them. */
module Housekeeping {

  /** Button levels sampled by the handler (the BUTTON_*_IS_PRESSED macros). */
  datatype Buttons = Buttons(star: bool, num: bool, up: bool, down: bool, backlight: bool)

  /** What the handler reads from other modules each second: whether a radio stack is
      active (`is_rf()`, or `is_bluerobin_searching()` when BlueRobin is built) and the buttons. */
  datatype TickInputs = TickInputs(rfActive: bool, buttons: Buttons)

  // ---------------------------------------------------------------------------------------
  // Long presses

  /** A button's seconds-held counter and whether this second reports a long press. */
  datatype LongPress = LongPress(timeout: nat, long: bool)

  /** One second of long-press detection for a single button: count while held, report and
      restart once the count passes `limit`, restart when released. */
  function LongPressStep(timeout: nat, pressed: bool, limit: nat): (r: LongPress)
    ensures r.timeout <= limit
    ensures r.long <==> pressed && timeout >= limit
    ensures r.long || !pressed ==> r.timeout == 0
    ensures pressed && !r.long ==> r.timeout == timeout + 1
  {
    if pressed then
      if timeout + 1 > limit then LongPress(0, true) else LongPress(timeout + 1, false)
    else
      LongPress(0, false)
  }

  /** Counter after a button is held for some seconds, and how many long presses were reported. */
  datatype Held = Held(timeout: nat, events: nat)

  function Hold(timeout: nat, k: nat, limit: nat): Held
    decreases k
  {
    if k == 0 then Held(timeout, 0)
    else
      var s := LongPressStep(timeout, true, limit);
      var rest := Hold(s.timeout, k - 1, limit);
      Held(rest.timeout, rest.events + if s.long then 1 else 0)
  }

  lemma DivModOf(a: nat, m: nat, q: nat, r: nat)
    requires 0 <= r < m && a == q * m + r
    ensures a / m == q && a % m == r
  {
    var q', r' := a / m, a % m;
    assert a == q' * m + r';
    if q' < q {
      assert (q - q') * m == q * m - q' * m;
      MulAtLeast(q - q', m);
      assert false;
    } else if q' > q {
      assert (q' - q) * m == q' * m - q * m;
      MulAtLeast(q' - q, m);
      assert false;
    }
  }

  lemma MulAtLeast(x: nat, m: nat)
    requires x >= 1
    ensures x * m >= m
  {
    assert x * m == (x - 1) * m + m;
  }

  lemma OnePeriodMore(a: nat, m: nat)
    requires m > 0
    ensures (a + m) % m == a % m && (a + m) / m == a / m + 1
  {
    var q, r := a / m, a % m;
    assert a + m == (q + 1) * m + r;
    DivModOf(a + m, m, q + 1, r);
  }

  /** Holding a button from a counter at most `limit` reports a long press every
      limit + 1 seconds: after k seconds the counter is (timeout + k) mod (limit + 1) and
      (timeout + k) div (limit + 1) long presses have been reported. */
  lemma {:induction false} HoldPeriodic(timeout: nat, k: nat, limit: nat)
    requires timeout <= limit
    ensures Hold(timeout, k, limit) == Held((timeout + k) % (limit + 1), (timeout + k) / (limit + 1))
    decreases k
  {
    if k == 0 {
      DivModOf(timeout, limit + 1, 0, timeout);
    } else if timeout == limit {
      HoldPeriodic(0, k - 1, limit);
      var q, r := (k - 1) / (limit + 1), (k - 1) % (limit + 1);
      assert Hold(timeout, k, limit) == Held(r, q + 1);
      OnePeriodMore(k - 1, limit + 1);
    } else {
      HoldPeriodic(timeout + 1, k - 1, limit);
    }
  }

  /** A single button first reports a long press after exactly limit + 1 seconds held;
      a combination first toggles after limit + 2 seconds. */
  lemma FirstLongPress(limit: nat)
    ensures Hold(0, limit, limit) == Held(limit, 0)
    ensures Hold(0, limit + 1, limit) == Held(0, 1)
    ensures Hold(0, limit + 1, limit + 1) == Held(limit + 1, 0)
    ensures Hold(0, limit + 2, limit + 1) == Held(0, 1)
  {
    HoldPeriodic(0, limit, limit);
    DivModOf(limit, limit + 1, 0, limit);
    HoldPeriodic(0, limit + 1, limit);
    DivModOf(limit + 1, limit + 1, 1, 0);
    HoldPeriodic(0, limit + 1, limit + 1);
    DivModOf(limit + 1, limit + 2, 0, limit + 1);
    HoldPeriodic(0, limit + 2, limit + 1);
    DivModOf(limit + 2, limit + 2, 1, 0);
  }

  // ---------------------------------------------------------------------------------------
  // Backlight

  /** `sButton.backlight_status` and `sButton.backlight_timeout`. */
  datatype Backlight = Backlight(on: bool, timeout: nat)

  /** One second of the backlight: count down while on; at zero switch off and reload. */
  function BacklightStep(b: Backlight, reload: nat): (r: Backlight)
    ensures !b.on ==> r == b
    ensures b.on && !r.on ==> b.timeout == 0 && r.timeout == reload
  {
    if !b.on then b
    else if b.timeout <= 0 then Backlight(false, reload)
    else Backlight(true, b.timeout - 1)
  }

  function BacklightAfter(b: Backlight, k: nat, reload: nat): Backlight
    decreases k
  {
    if k == 0 then b else BacklightAfter(BacklightStep(b, reload), k - 1, reload)
  }

  /** A backlight switched on with timeout t stays on for t more seconds and is switched
      off, with the timeout reloaded, in the second after that. */
  lemma {:induction false} BacklightCountdown(t: nat, k: nat, reload: nat)
    requires k <= t
    ensures BacklightAfter(Backlight(true, t), k, reload) == Backlight(true, t - k)
    ensures BacklightAfter(Backlight(true, t), t + 1, reload) == Backlight(false, reload)
    decreases t
  {
    if t > 0 {
      if k > 0 {
        BacklightCountdown(t - 1, k - 1, reload);
      }
      BacklightCountdown(t - 1, 0, reload);
    }
  }

  // ---------------------------------------------------------------------------------------
  // Radio mode

  /** `sRFsmpl.timeout` and the SIMPLICITI_TRIGGER_STOP bit of `simpliciti_flag`. */
  datatype RfCountdown = RfCountdown(timeout: nat, stop: bool)

  /** One second while a radio stack runs: count the timeout down; at zero request a stop. */
  function RfStep(c: RfCountdown): (r: RfCountdown)
    ensures c.stop ==> r.stop
  {
    if c.timeout == 0 then c.(stop := true) else c.(timeout := c.timeout - 1)
  }

  function RfAfter(c: RfCountdown, k: nat): RfCountdown
    decreases k
  {
    if k == 0 then c else RfAfter(RfStep(c), k - 1)
  }

  /** Radio mode with timeout t requests its stop in second t + 1 and not before. */
  lemma {:induction false} RfStopsAfter(t: nat, stop: bool, k: nat)
    ensures RfAfter(RfCountdown(t, stop), k)
         == RfCountdown(if k <= t then t - k else 0, stop || k > t)
    decreases k
  {
    if k > 0 {
      if t == 0 {
        RfStopsAfter(0, true, k - 1);
      } else {
        RfStopsAfter(t - 1, stop, k - 1);
      }
    }
  }

  // ---------------------------------------------------------------------------------------
  // Messages

  /** The bits of `message.flag` that this handler reads or writes. */
  datatype Message = Message(
    prepare: bool, show: bool, erase: bool, blockLine1: bool, blockLine2: bool,
    typeNoBeepOn: bool, typeNoBeepOff: bool, typeLocked: bool, typeUnlocked: bool)

  /** The message after this second, and whether a full display redraw is requested. */
  datatype MessageOutcome = MessageOutcome(message: Message, fullUpdate: bool)

  /** A prepared message is shown in the next second; otherwise a message whose cycle is
      over is erased, releasing both display lines. Never both in one second. */
  function MessageStep(m: Message): (r: MessageOutcome)
    ensures m.prepare ==> !r.message.prepare && r.message.show && r.message.erase == m.erase
    ensures m.prepare ==> r.message.blockLine1 == m.blockLine1 && r.message.blockLine2 == m.blockLine2
    ensures !m.prepare ==> !r.message.prepare && r.message.show == m.show
    ensures !m.prepare && m.erase ==> !r.message.erase && !r.message.blockLine1 && !r.message.blockLine2
    ensures !m.prepare && !m.erase ==> r.message == m
    ensures r.fullUpdate <==> !m.prepare && m.erase
    ensures r.message.(prepare := m.prepare, show := m.show, erase := m.erase,
                       blockLine1 := m.blockLine1, blockLine2 := m.blockLine2) == m
  {
    if m.prepare then
      MessageOutcome(m.(prepare := false, show := true), false)
    else if m.erase then
      MessageOutcome(m.(erase := false, blockLine1 := false, blockLine2 := false), true)
    else
      MessageOutcome(m, false)
  }

  // ---------------------------------------------------------------------------------------
  // The whole second

  /** Seconds-held counters of `sButton` and the backlight it also holds. */
  datatype SButton = SButton(
    starTimeout: nat, numTimeout: nat, upTimeout: nat, downTimeout: nat, bbacklightTimeout: nat,
    backlight: Backlight)

  /** The long-press bits of `button.flag`. */
  datatype ButtonFlags = ButtonFlags(
    starLong: bool, numLong: bool, upLong: bool, downLong: bool, backlightLong: bool)

  /** Everything the per-second bookkeeping reads and writes. */
  datatype Seconds = Seconds(
    rf: RfCountdown, message: Message, fullUpdate: bool, sButton: SButton, button: ButtonFlags,
    beepCounter: nat, lockCounter: nat, noBeep: bool, lockButtons: bool)

  /** Which branch of the button detection a set of levels selects. */
  datatype Combo = BeepCombo | LockCombo | Singles

  function ComboOf(p: Buttons): Combo
  {
    if p.star && p.up then BeepCombo
    else if p.num && p.down then LockCombo
    else Singles
  }

  /** Every counter within the range the detection keeps it in (below 256 for the u8
      counters of the source when limit <= 254). */
  predicate Bounded(s: Seconds, limit: nat)
  {
    && s.sButton.starTimeout <= limit && s.sButton.numTimeout <= limit
    && s.sButton.upTimeout <= limit && s.sButton.downTimeout <= limit
    && s.sButton.bbacklightTimeout <= limit
    && s.beepCounter <= limit + 1 && s.lockCounter <= limit + 1
  }

  /** Long-press bits are only ever set here; other modules consume and clear them. */
  predicate FlagsKept(before: ButtonFlags, after: ButtonFlags)
  {
    && (before.starLong ==> after.starLong) && (before.numLong ==> after.numLong)
    && (before.upLong ==> after.upLong) && (before.downLong ==> after.downLong)
    && (before.backlightLong ==> after.backlightLong)
  }

  /** Star+Up held: count, and past the limit toggle the key beep and prepare the message
      that says which way it went. */
  function BeepComboStep(s: Seconds, limit: nat): (r: Seconds)
    ensures r.noBeep != s.noBeep <==> s.beepCounter > limit
    ensures r.noBeep == s.noBeep ==> r.beepCounter == s.beepCounter + 1 && r.message == s.message
    ensures r.noBeep != s.noBeep ==> r.beepCounter == 0 && r.message.prepare
    ensures r.noBeep != s.noBeep ==> (if r.noBeep then r.message.typeNoBeepOn else r.message.typeNoBeepOff)
    ensures r.noBeep != s.noBeep ==>
      (if r.noBeep then r.message.typeNoBeepOff == s.message.typeNoBeepOff
       else r.message.typeNoBeepOn == s.message.typeNoBeepOn)
    ensures r.message.(prepare := s.message.prepare, typeNoBeepOn := s.message.typeNoBeepOn,
                       typeNoBeepOff := s.message.typeNoBeepOff) == s.message
    ensures s.beepCounter <= limit + 1 ==> r.beepCounter <= limit + 1
    ensures r.(beepCounter := s.beepCounter, noBeep := s.noBeep, message := s.message) == s
  {
    if s.beepCounter > limit then
      var noBeep := !s.noBeep;
      s.(beepCounter := 0, noBeep := noBeep,
         message := s.message.(prepare := true,
                               typeNoBeepOn := s.message.typeNoBeepOn || noBeep,
                               typeNoBeepOff := s.message.typeNoBeepOff || !noBeep))
    else
      s.(beepCounter := s.beepCounter + 1)
  }

  /** Num+Down held: the same for the key lock. */
  function LockComboStep(s: Seconds, limit: nat): (r: Seconds)
    ensures r.lockButtons != s.lockButtons <==> s.lockCounter > limit
    ensures r.lockButtons == s.lockButtons ==> r.lockCounter == s.lockCounter + 1 && r.message == s.message
    ensures r.lockButtons != s.lockButtons ==> r.lockCounter == 0 && r.message.prepare
    ensures r.lockButtons != s.lockButtons ==> (if r.lockButtons then r.message.typeLocked else r.message.typeUnlocked)
    ensures r.lockButtons != s.lockButtons ==>
      (if r.lockButtons then r.message.typeUnlocked == s.message.typeUnlocked
       else r.message.typeLocked == s.message.typeLocked)
    ensures r.message.(prepare := s.message.prepare, typeLocked := s.message.typeLocked,
                       typeUnlocked := s.message.typeUnlocked) == s.message
    ensures s.lockCounter <= limit + 1 ==> r.lockCounter <= limit + 1
    ensures r.(lockCounter := s.lockCounter, lockButtons := s.lockButtons, message := s.message) == s
  {
    if s.lockCounter > limit then
      var lock := !s.lockButtons;
      s.(lockCounter := 0, lockButtons := lock,
         message := s.message.(prepare := true,
                               typeLocked := s.message.typeLocked || lock,
                               typeUnlocked := s.message.typeUnlocked || !lock))
    else
      s.(lockCounter := s.lockCounter + 1)
  }

  /** Seconds-held counters after one second in which no combination is held. */
  function TimedCounters(b: SButton, p: Buttons, limit: nat): (r: SButton)
    ensures r.starTimeout <= limit && r.numTimeout <= limit && r.upTimeout <= limit
    ensures r.downTimeout <= limit && r.bbacklightTimeout <= limit
    ensures r.backlight == b.backlight
  {
    SButton(LongPressStep(b.starTimeout, p.star, limit).timeout,
            LongPressStep(b.numTimeout, p.num, limit).timeout,
            LongPressStep(b.upTimeout, p.up, limit).timeout,
            LongPressStep(b.downTimeout, p.down, limit).timeout,
            LongPressStep(b.bbacklightTimeout, p.backlight, limit).timeout,
            b.backlight)
  }

  /** Long-press bits after one second in which no combination is held: a bit is set when
      its button has been held past the limit, and no bit is cleared. */
  function TimedFlags(b: SButton, f: ButtonFlags, p: Buttons, limit: nat): (r: ButtonFlags)
    ensures FlagsKept(f, r)
    ensures r.starLong <==> f.starLong || (p.star && b.starTimeout >= limit)
    ensures r.numLong <==> f.numLong || (p.num && b.numTimeout >= limit)
    ensures r.upLong <==> f.upLong || (p.up && b.upTimeout >= limit)
    ensures r.downLong <==> f.downLong || (p.down && b.downTimeout >= limit)
    ensures r.backlightLong <==> f.backlightLong || (p.backlight && b.bbacklightTimeout >= limit)
  {
    ButtonFlags(f.starLong || LongPressStep(b.starTimeout, p.star, limit).long,
                f.numLong || LongPressStep(b.numTimeout, p.num, limit).long,
                f.upLong || LongPressStep(b.upTimeout, p.up, limit).long,
                f.downLong || LongPressStep(b.downTimeout, p.down, limit).long,
                f.backlightLong || LongPressStep(b.bbacklightTimeout, p.backlight, limit).long)
  }

  /** No combination held: the five buttons are timed one by one and the lock counter is
      cleared. The Star+Up counter is left alone, so its seconds add up across presses. */
  function SinglesStep(s: Seconds, p: Buttons, limit: nat): (r: Seconds)
    ensures r.lockCounter == 0 && r.beepCounter == s.beepCounter
    ensures r.(sButton := s.sButton, button := s.button, lockCounter := s.lockCounter) == s
  {
    s.(lockCounter := 0,
       sButton := TimedCounters(s.sButton, p, limit),
       button := TimedFlags(s.sButton, s.button, p, limit))
  }

  /** The counter of a combination is compared BEFORE it is incremented, so a combination
      needs one second more than a single button: both behave as a single button held with
      limit + 1, the toggle taking the place of the long-press bit. */
  lemma CombosAreLongerPresses(s: Seconds, limit: nat)
    ensures var c := LongPressStep(s.beepCounter, true, limit + 1);
      BeepComboStep(s, limit).beepCounter == c.timeout && (BeepComboStep(s, limit).noBeep != s.noBeep) == c.long
    ensures var c := LongPressStep(s.lockCounter, true, limit + 1);
      LockComboStep(s, limit).lockCounter == c.timeout && (LockComboStep(s, limit).lockButtons != s.lockButtons) == c.long
  {
  }

  /** The button stage of one second: a held combination takes precedence over the
      single buttons. */
  function ButtonsStep(s: Seconds, p: Buttons, limit: nat): (r: Seconds)
    ensures Bounded(s, limit) ==> Bounded(r, limit)
    ensures FlagsKept(s.button, r.button)
    ensures ComboOf(p) != Singles ==> r.sButton == s.sButton && r.button == s.button
    ensures r.rf == s.rf && r.fullUpdate == s.fullUpdate && r.sButton.backlight == s.sButton.backlight
  {
    match ComboOf(p)
    case BeepCombo => BeepComboStep(s, limit)
    case LockCombo => LockComboStep(s, limit)
    case Singles => SinglesStep(s, p, limit)
  }

  /** One second of bookkeeping. While a radio stack runs the handler returns early, and
      nothing but the radio timeout moves; otherwise messages, the backlight and the
      buttons are serviced in that order. */
  function SecondTick(s: Seconds, input: TickInputs, limit: nat, reload: nat): (r: Seconds)
    ensures input.rfActive ==> r.rf == RfStep(s.rf) && r.(rf := s.rf) == s
    ensures !input.rfActive ==> r.rf == s.rf
    ensures Bounded(s, limit) ==> Bounded(r, limit)
    ensures FlagsKept(s.button, r.button)
    ensures !input.rfActive && s.message.prepare ==> r.message.show
  {
    if input.rfActive then
      s.(rf := RfStep(s.rf))
    else
      var m := MessageStep(s.message);
      var s1 := s.(message := m.message, fullUpdate := s.fullUpdate || m.fullUpdate);
      var s2 := s1.(sButton := s1.sButton.(backlight := BacklightStep(s1.sButton.backlight, reload)));
      ButtonsStep(s2, input.buttons, limit)
  }

  /** A message prepared by a button toggle during one second is shown in the next second
      (unless a radio stack starts in between, which freezes it until it stops). */
  lemma ToggleShownNextSecond(s: Seconds, p: Buttons, q: Buttons, limit: nat, reload: nat)
    requires ComboOf(p) == BeepCombo && s.beepCounter > limit
    ensures SecondTick(SecondTick(s, TickInputs(false, p), limit, reload), TickInputs(false, q), limit, reload).message.show
  {
  }
}
