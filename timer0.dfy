/** Timer0_A5 driver of the watch: one 16-bit free-running counter and five compare
    channels multiplexed into five logical timers.

      channel 0  1 Hz clock tick, additive re-arm            (TIMER0_A0_ISR)
      channel 1  BlueRobin / sidereal clock / GPS polling    (TIMER0_A1_5_ISR, vector 0x02)
      channel 2  stopwatch and eggtimer                      (vector 0x04)
      channel 3  configurable periodic timer                 (vector 0x06)
      channel 4  one-shot blocking delay                     (vector 0x08)

    Every interrupt handler is one atomic method. The clock tick and the calls the channel
    handlers make are recorded, in order, in the ghost log `hooks`; their effects are not
    modelled. The per-second servicing of other modules is neither modelled nor logged. */
module Timer {
  import opened Registers
  import opened Schedules
  import opened Housekeeping

  /** Which of the mutually exclusive bodies of `case 0x02` the build compiles
      (none when BlueRobin is eliminated and neither sidereal time nor GPS is configured). */
  datatype Aux1Build = BlueRobin | Sidereal | Gps | NoAux1

  /** Identity of the function a handler pointer holds; `Unbound` is the NULL that a global
      pointer holds until another module assigns it. */
  datatype Handler = Unbound | Bound(id: nat)

  /** A call from this driver into another module. The two pointer calls carry the compare
      value and enable bit of their channel at the moment of the call, and the two calls that
      reprogram channel 2 carry its enable bit. */
  datatype Hook =
    | ClockTick
    | BlueRobinTask
    | SiderealClockTick
    | A1Function(handler: Handler, ccr1: U16, enabled: bool)
    | UpdateStopwatchTimer(enabled: bool)
    | UpdateEggtimerTimer(enabled: bool)
    | StopwatchTick
    | EggtimerTick
    | A3Function(handler: Handler, ccr3: U16, enabled: bool)

  /** Calls made by the channel-2 handler: both timer updates with the channel disabled,
      then both ticks, for the features the build contains. */
  function A2Hooks(stopwatch: bool, eggtimer: bool): (h: seq<Hook>)
    ensures UpdateStopwatchTimer(false) in h <==> stopwatch
    ensures UpdateEggtimerTimer(false) in h <==> eggtimer
    ensures UpdateStopwatchTimer(true) !in h && UpdateEggtimerTimer(true) !in h
    ensures StopwatchTick in h <==> stopwatch
    ensures EggtimerTick in h <==> eggtimer
  {
    (if stopwatch then [UpdateStopwatchTimer(false)] else [])
    + (if eggtimer then [UpdateEggtimerTimer(false)] else [])
    + (if stopwatch then [StopwatchTick] else [])
    + (if eggtimer then [EggtimerTick] else [])
  }

  /** The block TIMER0_A0_ISR repeats for each button: count a held button, and once the
      count passes LEFT_BUTTON_LONG_TIME report a long press and start again. */
  method TimeButton(timeout: nat, pressed: bool, limit: nat) returns (r: LongPress)
    ensures r == LongPressStep(timeout, pressed, limit)
  {
    var next, long := 0, false;
    if pressed {
      next := timeout + 1;
      if next > limit {
        long := true;
        next := 0;
      }
    }
    r := LongPress(next, long);
  }

  /** The five buttons timed one after the other; each sets only its own long-press bit. */
  method TimeSingles(b: SButton, f: ButtonFlags, p: Buttons, limit: nat) returns (b': SButton, f': ButtonFlags)
    ensures b' == TimedCounters(b, p, limit)
    ensures f' == TimedFlags(b, f, p, limit)
  {
    ghost var counters, flags := TimedCounters(b, p, limit), TimedFlags(b, f, p, limit);
    var star := TimeButton(b.starTimeout, p.star, limit);
    var num := TimeButton(b.numTimeout, p.num, limit);
    var up := TimeButton(b.upTimeout, p.up, limit);
    var down := TimeButton(b.downTimeout, p.down, limit);
    var light := TimeButton(b.bbacklightTimeout, p.backlight, limit);
    b' := SButton(star.timeout, num.timeout, up.timeout, down.timeout, light.timeout, b.backlight);
    f' := ButtonFlags(f.starLong || star.long, f.numLong || num.long, f.upLong || up.long,
                      f.downLong || down.long, f.backlightLong || light.long);
    assert b' == counters;
    assert f' == flags;
  }

  class Timer0 {
    // Build configuration.
    const aux1: Aux1Build
    const stopwatch: bool        // CONFIG_STOP_WATCH
    const eggtimer: bool         // CONFIG_EGGTIMER
    const longTime: nat          // LEFT_BUTTON_LONG_TIME, in seconds
    const backlightTimeOn: nat   // BACKLIGHT_TIME_ON, in seconds

    // Peripheral registers.
    var ctl: Ctl                 // TA0CTL
    var tar: U16                 // TA0R
    var ccr: seq<U16>            // TA0CCR0 .. TA0CCR4
    var cctl: seq<Cctl>          // TA0CCTL0 .. TA0CCTL4

    // Driver state.
    var a1Ticks: U16             // sTimer.timer0_A1_ticks
    var a3Ticks: U16             // sTimer.timer0_A3_ticks
    var delayOver: bool          // sys.flag.delay_over
    var a1Function: Handler      // fptr_Timer0_A1_function (GPS build)
    var a3Function: Handler      // fptr_Timer0_A3_function
    var updateTime: bool         // display.flag.update_time
    var updateSiderealTime: bool // display.flag.update_sidereal_time

    // State of the per-second bookkeeping.
    var rfTimeout: nat           // sRFsmpl.timeout
    var simplicitiStop: bool     // SIMPLICITI_TRIGGER_STOP in simpliciti_flag
    var message: Message         // message.flag
    var fullUpdate: bool         // display.flag.full_update
    var sButton: SButton
    var button: ButtonFlags      // button.flag
    var beepCounter: nat         // button_beep_counter
    var lockCounter: nat         // button_lock_counter
    var noBeep: bool             // sys.flag.no_beep
    var lockButtons: bool        // sys.flag.lock_buttons

    ghost var hooks: seq<Hook>

    /** The per-second bookkeeping state as one value. */
    ghost function Bookkeeping(): Seconds
      reads this`rfTimeout, this`simplicitiStop, this`message, this`fullUpdate, this`sButton
      reads this`button, this`beepCounter, this`lockCounter, this`noBeep, this`lockButtons
    {
      Seconds(RfCountdown(rfTimeout, simplicitiStop), message, fullUpdate, sButton, button,
              beepCounter, lockCounter, noBeep, lockButtons)
    }

    /** Five channels; nothing in the driver sets mode bit MC0, so the counter counts exactly
      when MC1 is set; the u8 button counters never exceed their range. */
    ghost predicate Valid()
      reads this
    {
      && |ccr| == 5 && |cctl| == 5
      && !ctl.mc0
      && longTime <= 254
      && Bounded(Bookkeeping(), longTime)
    }

    predicate Running()
      reads this
    {
      Counting(ctl)
    }

    /** State after power-on reset: every register zero, the counter halted. */
    constructor (aux1: Aux1Build, stopwatch: bool, eggtimer: bool, longTime: nat, backlightTimeOn: nat)
      requires longTime <= 254
      ensures Valid() && !Running()
      ensures this.aux1 == aux1 && this.stopwatch == stopwatch && this.eggtimer == eggtimer
      ensures this.longTime == longTime && this.backlightTimeOn == backlightTimeOn
      ensures ctl == CtlOf(0) && tar == 0 && ccr == [0, 0, 0, 0, 0]
      ensures cctl == seq(5, _ => CctlOf(0))
      ensures !delayOver && a1Function == Unbound && a3Function == Unbound && hooks == []
      ensures a1Ticks == 0 && a3Ticks == 0 && !updateTime && !updateSiderealTime
      ensures Bookkeeping() == Seconds(RfCountdown(0, false),
                                       Message(false, false, false, false, false, false, false, false, false), false,
                                       SButton(0, 0, 0, 0, 0, Backlight(false, 0)),
                                       ButtonFlags(false, false, false, false, false), 0, 0, false, false)
    {
      this.aux1, this.stopwatch, this.eggtimer := aux1, stopwatch, eggtimer;
      this.longTime, this.backlightTimeOn := longTime, backlightTimeOn;
      ctl, tar := CtlOf(0), 0;
      ccr, cctl := [0, 0, 0, 0, 0], seq(5, _ => CctlOf(0));
      a1Ticks, a3Ticks, delayOver := 0, 0, false;
      a1Function, a3Function := Unbound, Unbound;
      updateTime, updateSiderealTime := false, false;
      rfTimeout, simplicitiStop := 0, false;
      message := Message(false, false, false, false, false, false, false, false, false);
      fullUpdate := false;
      sButton := SButton(0, 0, 0, 0, 0, Backlight(false, 0));
      button := ButtonFlags(false, false, false, false, false);
      beepCounter, lockCounter, noBeep, lockButtons := 0, 0, false, false;
      hooks := [];
    }

    // -------------------------------------------------------------------------------------
    // Hardware

    /** The counter advances by `dt` counts when a mode bit is set, wrapping at 0xFFFF. */
    method Elapse(dt: nat)
      requires Valid()
      modifies this`tar
      ensures Valid()
      ensures tar == if Running() then Add16(old(tar), dt) else old(tar)
    {
      if Counting(ctl) {
        tar := Add16(tar, dt);
      }
    }

    /** The counter has counted to TA0CCRk: the hardware raises the channel's flag. */
    method CompareMatch(k: Channel)
      requires Valid() && tar == ccr[k]
      modifies this`cctl
      ensures Valid()
      ensures cctl == old(cctl)[k := RaiseFlag(old(cctl)[k])]
    {
      cctl := cctl[k := RaiseFlag(cctl[k])];
    }

    // -------------------------------------------------------------------------------------
    // Foreground API

    /** Timer0_Init: CCR0 one second minus one count ahead of zero, channel 0 enabled, the
        counter cleared and started in continuous mode on ACLK. */
    method Init()
      requires Valid()
      modifies this`ctl, this`tar, this`ccr, this`cctl
      ensures Valid() && Running()
      ensures ctl == InitControl(old(ctl)) && tar == 0
      ensures ccr == old(ccr)[0 := Ccr0Initial]
      ensures cctl == old(cctl)[0 := Enable(old(cctl)[0])]
    {
      ccr := ccr[0 := 32768 - 1];
      cctl := cctl[0 := Enable(cctl[0])];
      // TACLR zeroes TA0R and reads back as zero.
      ctl := InitControl(ctl);
      tar := 0;
    }

    /** Timer0_Start: continuous mode on; the compare values are not touched. */
    method Start()
      requires Valid()
      modifies this`ctl
      ensures Valid() && Running()
      ensures ctl == ContinuousOn(old(ctl))
    {
      ctl := ContinuousOn(ctl);
    }

    /** Timer0_Stop: continuous mode off and the counter zeroed; the compare values and
        interrupt enables are not touched. */
    method Stop()
      requires Valid()
      modifies this`ctl, this`tar
      ensures Valid() && !Running()
      ensures ctl == ContinuousOff(old(ctl)) && tar == 0
    {
      ctl := ContinuousOff(ctl);
      tar := 0;
    }

    /** Timer0_A1_Start: remember the interval and arm channel 1 `ticks` counts from now. */
    method A1Start(ticks: U16)
      requires Valid()
      modifies this`a1Ticks, this`ccr, this`cctl
      ensures Valid()
      ensures a1Ticks == ticks
      ensures ccr == old(ccr)[1 := RelativeTarget(old(tar), ticks)]
      ensures cctl == old(cctl)[1 := Arm(old(cctl)[1])]
    {
      a1Ticks := ticks;
      var value := Add16(tar, ticks);
      ccr := ccr[1 := value];
      cctl := cctl[1 := ClearFlag(cctl[1])];
      cctl := cctl[1 := Enable(cctl[1])];
    }

    /** Timer0_A1_Stop: disable channel 1 only; interval and compare value stay. */
    method A1Stop()
      requires Valid()
      modifies this`cctl
      ensures Valid()
      ensures cctl == old(cctl)[1 := Disarm(old(cctl)[1])]
    {
      cctl := cctl[1 := Disarm(cctl[1])];
    }

    /** Timer0_A3_Start: remember the interval and arm channel 3 `ticks` counts from now. */
    method A3Start(ticks: U16)
      requires Valid()
      modifies this`a3Ticks, this`ccr, this`cctl
      ensures Valid()
      ensures a3Ticks == ticks
      ensures ccr == old(ccr)[3 := RelativeTarget(old(tar), ticks)]
      ensures cctl == old(cctl)[3 := Arm(old(cctl)[3])]
    {
      a3Ticks := ticks;
      var value := Add16(tar, ticks);
      ccr := ccr[3 := value];
      cctl := cctl[3 := ClearFlag(cctl[3])];
      cctl := cctl[3 := Enable(cctl[3])];
    }

    /** Timer0_A3_Stop: disable channel 3 only; interval and compare value stay, so the
        next fire after a later enable re-arms with the last interval started. */
    method A3Stop()
      requires Valid()
      modifies this`cctl
      ensures Valid()
      ensures cctl == old(cctl)[3 := Disarm(old(cctl)[3])]
    {
      cctl := cctl[3 := Disarm(cctl[3])];
    }

    /** Assignment of `fptr_Timer0_A1_function` by the module that owns channel 1. */
    method BindA1Function(h: Handler)
      requires Valid() && aux1 == Gps
      modifies this`a1Function
      ensures Valid() && a1Function == h
    {
      a1Function := h;
    }

    /** Assignment of `fptr_Timer0_A3_function` by the module that owns channel 3. */
    method BindA3Function(h: Handler)
      requires Valid()
      modifies this`a3Function
      ensures Valid() && a3Function == h
    {
      a3Function := h;
    }

    /** Timer0_A4_Delay: when the counter is halted, return at once without touching
        anything. Otherwise arm channel 4 `ticks` counts from now, clear `delay_over`, and
        sleep until the channel-4 handler has set it. The processor may wake earlier, at any
        count, for other interrupts; those handlers touch neither channel 4 nor
        `delay_over` and are not run here. */
    method A4Delay(ticks: U16)
      requires Valid()
      modifies this`tar, this`ccr, this`cctl, this`delayOver
      ensures Valid()
      ensures !old(Running()) ==>
        tar == old(tar) && ccr == old(ccr) && cctl == old(cctl) && delayOver == old(delayOver)
      ensures old(Running()) ==>
        && delayOver
        && ccr == old(ccr)[4 := RelativeTarget(old(tar), ticks)]
        && cctl == old(cctl)[4 := Quiesce(old(cctl)[4])]
        && tar == ccr[4]
    {
      if !Counting(ctl) {
        return;
      }
      ArmDelay(ticks);
      var value := ccr[4];
      var left := TicksUntil(tar, value);
      while true
        invariant Valid() && Running()
        invariant 0 < left <= Modulus && Add16(tar, left) == value
        invariant ccr == old(ccr)[4 := value]
        invariant cctl == old(cctl)[4 := Arm(old(cctl)[4])]
        invariant !delayOver
        decreases left
      {
        // to_lpm(): sleep until the next interrupt.
        var step :| 1 <= step <= left;
        Elapse(step);
        left := left - step;
        if left == 0 {
          CompareMatch(4);
          FireA4();
        }
        if delayOver {
          break;
        }
      }
    }

    /** The arming part of Timer0_A4_Delay: disable channel 4, clear `delay_over`, set
        CCR4 `ticks` counts ahead, clear a stale match, enable. */
    method ArmDelay(ticks: U16)
      requires Valid()
      modifies this`ccr, this`cctl, this`delayOver
      ensures Valid() && !delayOver
      ensures ccr == old(ccr)[4 := RelativeTarget(tar, ticks)]
      ensures cctl == old(cctl)[4 := Arm(old(cctl)[4])]
    {
      cctl := cctl[4 := Disarm(cctl[4])];
      delayOver := false;
      var value := Add16(tar, ticks);
      ccr := ccr[4 := value];
      cctl := cctl[4 := ClearFlag(cctl[4])];
      cctl := cctl[4 := Enable(cctl[4])];
    }

    // -------------------------------------------------------------------------------------
    // Interrupt handlers

    /** TIMER0_A0_ISR: re-arm channel 0 one second further on (additively, so the 1 Hz
        schedule never drifts), advance the clock, request a time redraw, then run the
        per-second bookkeeping. */
    method Timer0A0Isr(input: TickInputs)
      requires Valid()
      modifies this`ccr, this`cctl, this`hooks, this`updateTime
      modifies this`rfTimeout, this`simplicitiStop, this`message, this`fullUpdate
      modifies this`sButton, this`button, this`beepCounter, this`lockCounter
      modifies this`noBeep, this`lockButtons
      ensures Valid()
      ensures ccr == old(ccr)[0 := Add16(old(ccr)[0], Ccr0Period)]
      ensures cctl == old(cctl)[0 := Arm(old(cctl)[0])]
      ensures hooks == old(hooks) + [ClockTick]
      ensures updateTime
      ensures Bookkeeping() == SecondTick(old(Bookkeeping()), input, longTime, backlightTimeOn)
    {
      cctl := cctl[0 := Quiesce(cctl[0])];
      ccr := ccr[0 := Add16(ccr[0], 32768)];
      cctl := cctl[0 := Enable(cctl[0])];

      hooks := hooks + [ClockTick];
      updateTime := true;
      PerSecond(input);
    }

    /** The rest of TIMER0_A0_ISR: the radio countdown while a radio stack runs, and
        otherwise messages, backlight and buttons, in that order. */
    method PerSecond(input: TickInputs)
      requires Valid()
      modifies this`rfTimeout, this`simplicitiStop, this`message, this`fullUpdate
      modifies this`sButton, this`button, this`beepCounter, this`lockCounter
      modifies this`noBeep, this`lockButtons
      ensures Valid()
      ensures Bookkeeping() == SecondTick(old(Bookkeeping()), input, longTime, backlightTimeOn)
    {
      if input.rfActive {
        RfSecond();
        return;
      }
      MessageSecond();
      BacklightSecond();
      ghost var s0 := old(Bookkeeping());
      ghost var m := MessageStep(s0.message);
      ghost var s1 := s0.(message := m.message, fullUpdate := s0.fullUpdate || m.fullUpdate);
      assert Bookkeeping() == s1.(sButton := s1.sButton.(backlight := BacklightStep(s1.sButton.backlight, backlightTimeOn)));
      ButtonsSecond(input.buttons);
    }

    /** While a radio stack runs, the handler only counts down its timeout, and requests
        the stack to stop once the timeout has run out. */
    method RfSecond()
      modifies this`rfTimeout, this`simplicitiStop
      ensures RfCountdown(rfTimeout, simplicitiStop) == RfStep(old(RfCountdown(rfTimeout, simplicitiStop)))
    {
      if rfTimeout == 0 {
        simplicitiStop := true;
      } else {
        rfTimeout := rfTimeout - 1;
      }
    }

    /** Show a prepared message, else erase one whose cycle is over. */
    method MessageSecond()
      modifies this`message, this`fullUpdate
      ensures message == MessageStep(old(message)).message
      ensures fullUpdate == (old(fullUpdate) || MessageStep(old(message)).fullUpdate)
    {
      if message.prepare {
        message := message.(prepare := false, show := true);
      } else if message.erase {
        message := message.(erase := false, blockLine1 := false, blockLine2 := false);
        fullUpdate := true;
      }
    }

    /** Count the backlight down; when it has run out, switch it off and reload it. */
    method BacklightSecond()
      modifies this`sButton
      ensures sButton == old(sButton).(backlight := BacklightStep(old(sButton).backlight, backlightTimeOn))
    {
      if sButton.backlight.on {
        if sButton.backlight.timeout <= 0 {
          sButton := sButton.(backlight := Backlight(false, backlightTimeOn));
        } else {
          sButton := sButton.(backlight := sButton.backlight.(timeout := sButton.backlight.timeout - 1));
        }
      }
    }

    /** The button part of TIMER0_A0_ISR: Star+Up, else Num+Down, else each button alone. */
    method ButtonsSecond(p: Buttons)
      requires Valid()
      modifies this`message, this`sButton, this`button, this`beepCounter, this`lockCounter
      modifies this`noBeep, this`lockButtons
      ensures Valid()
      ensures Bookkeeping() == ButtonsStep(old(Bookkeeping()), p, longTime)
    {
      if p.star && p.up {
        BeepComboSecond();
      } else if p.num && p.down {
        LockComboSecond();
      } else {
        SinglesSecond(p);
      }
    }

    /** Star+Up held for one more second: the counter is compared before it is
        incremented. */
    method BeepComboSecond()
      modifies this`message, this`beepCounter, this`noBeep
      ensures Bookkeeping() == BeepComboStep(old(Bookkeeping()), longTime)
    {
      var held := beepCounter;
      var counter, toggled, m := held + 1, noBeep, message;
      if held > longTime {
        toggled := !toggled;
        m := m.(prepare := true);
        if toggled {
          m := m.(typeNoBeepOn := true);
        } else {
          m := m.(typeNoBeepOff := true);
        }
        counter := 0;
      }
      beepCounter, noBeep, message := counter, toggled, m;
    }

    /** Num+Down held for one more second. */
    method LockComboSecond()
      modifies this`message, this`lockCounter, this`lockButtons
      ensures Bookkeeping() == LockComboStep(old(Bookkeeping()), longTime)
    {
      var held := lockCounter;
      var counter, toggled, m := held + 1, lockButtons, message;
      if held > longTime {
        toggled := !toggled;
        m := m.(prepare := true);
        if toggled {
          m := m.(typeLocked := true);
        } else {
          m := m.(typeUnlocked := true);
        }
        counter := 0;
      }
      lockCounter, lockButtons, message := counter, toggled, m;
    }

    /** No combination held: time each button on its own and clear the lock counter. */
    method SinglesSecond(p: Buttons)
      modifies this`sButton, this`button, this`lockCounter
      ensures Bookkeeping() == SinglesStep(old(Bookkeeping()), p, longTime)
    {
      lockCounter := 0;
      sButton, button := TimeSingles(sButton, button, p, longTime);
    }

    /** Effect of vector 0x02 on the channel state, according to the build. */
    twostate predicate FiredA1(secondOdd: bool)
      reads this
    {
      && |old(ccr)| == 5 && |old(cctl)| == 5
      && delayOver == old(delayOver)
      && match aux1
         case BlueRobin =>
           ccr == old(ccr) && cctl == old(cctl) && hooks == old(hooks) + [BlueRobinTask]
           && updateSiderealTime == old(updateSiderealTime)
         case Sidereal =>
           && ccr == old(ccr)[1 := Add16(old(ccr)[1], SiderealPeriod(secondOdd))]
           && cctl == old(cctl)[1 := Arm(old(cctl)[1])]
           && hooks == old(hooks) + [SiderealClockTick]
           && updateSiderealTime
         case Gps =>
           && ccr == old(ccr)[1 := RelativeTarget(old(tar), old(a1Ticks))]
           && cctl == old(cctl)[1 := Arm(old(cctl)[1])]
           && hooks == old(hooks) + [A1Function(old(a1Function), ccr[1], true)]
           && updateSiderealTime == old(updateSiderealTime)
         case NoAux1 =>
           ccr == old(ccr) && cctl == old(cctl) && hooks == old(hooks)
           && updateSiderealTime == old(updateSiderealTime)
    }

    /** Vector 0x02, channel 1, as the build defines it. `secondOdd` is the parity of the
        sidereal second, which the sidereal clock module owns. The GPS build calls through
        its pointer, which must have been assigned. */
    method FireA1(secondOdd: bool)
      requires Valid()
      requires aux1 == Gps ==> a1Function.Bound?
      modifies this`ccr, this`cctl, this`hooks, this`updateSiderealTime
      ensures Valid() && FiredA1(secondOdd)
    {
      match aux1
      case BlueRobin =>
        hooks := hooks + [BlueRobinTask];
      case Sidereal =>
        cctl := cctl[1 := Quiesce(cctl[1])];
        if secondOdd {
          ccr := ccr[1 := Add16(ccr[1], 32678)];
        } else {
          ccr := ccr[1 := Add16(ccr[1], 32679)];
        }
        cctl := cctl[1 := Enable(cctl[1])];
        hooks := hooks + [SiderealClockTick];
        updateSiderealTime := true;
      case Gps =>
        cctl := cctl[1 := Quiesce(cctl[1])];
        var value := Add16(tar, a1Ticks);
        ccr := ccr[1 := value];
        cctl := cctl[1 := Enable(cctl[1])];
        hooks := hooks + [A1Function(a1Function, ccr[1], Enabled(cctl[1]))];
      case NoAux1 =>
    }

    /** Effect of vector 0x04: when a channel-2 feature is built, CCR2 holds the capture
        point its update function loaded. */
    twostate predicate FiredA2(capture: U16)
      reads this
    {
      && |old(ccr)| == 5 && |old(cctl)| == 5
      && ccr == (if stopwatch || eggtimer then old(ccr)[2 := capture] else old(ccr))
      && cctl == old(cctl)[2 := Arm(old(cctl)[2])]
      && hooks == old(hooks) + A2Hooks(stopwatch, eggtimer)
      && updateSiderealTime == old(updateSiderealTime) && delayOver == old(delayOver)
    }

    /** Vector 0x04, channel 2: disable and clear, let the stopwatch and eggtimer reprogram
        their next capture point, re-enable, then tick both. `capture` is the value the
        update functions, which other modules own, leave in CCR2. */
    method FireA2(capture: U16)
      requires Valid()
      modifies this`ccr, this`cctl, this`hooks
      ensures Valid() && FiredA2(capture)
    {
      var c := Quiesce(cctl[2]);
      ghost var log := hooks;
      log := log + (if stopwatch then [UpdateStopwatchTimer(Enabled(c))] else []);
      log := log + (if eggtimer then [UpdateEggtimerTimer(Enabled(c))] else []);
      c := Enable(c);
      log := log + (if stopwatch then [StopwatchTick] else []);
      log := log + (if eggtimer then [EggtimerTick] else []);
      assert log == hooks + A2Hooks(stopwatch, eggtimer);
      cctl, hooks := cctl[2 := c], log;
      if stopwatch || eggtimer {
        ccr := ccr[2 := capture];
      }
    }

    /** Effect of vector 0x06. */
    twostate predicate FiredA3()
      reads this
    {
      && |old(ccr)| == 5 && |old(cctl)| == 5
      && ccr == old(ccr)[3 := RelativeTarget(old(tar), old(a3Ticks))]
      && cctl == old(cctl)[3 := Arm(old(cctl)[3])]
      && hooks == old(hooks) + [A3Function(old(a3Function), ccr[3], true)]
      && updateSiderealTime == old(updateSiderealTime) && delayOver == old(delayOver)
    }

    /** Vector 0x06, channel 3: re-arm relative to the present count with the stored
        interval, then call the bound function once, with the channel already re-armed.
        The call goes through the pointer, which must have been assigned. */
    method FireA3()
      requires Valid() && a3Function.Bound?
      modifies this`ccr, this`cctl, this`hooks
      ensures Valid() && FiredA3()
    {
      cctl := cctl[3 := Quiesce(cctl[3])];
      var value := Add16(tar, a3Ticks);
      ccr := ccr[3 := value];
      cctl := cctl[3 := Enable(cctl[3])];
      hooks := hooks + [A3Function(a3Function, ccr[3], Enabled(cctl[3]))];
    }

    /** Effect of vector 0x08. */
    twostate predicate FiredA4()
      reads this
    {
      && |old(cctl)| == 5
      && ccr == old(ccr) && cctl == old(cctl)[4 := Quiesce(old(cctl)[4])]
      && delayOver
      && hooks == old(hooks) && updateSiderealTime == old(updateSiderealTime)
    }

    /** Vector 0x08, channel 4: one shot. Disable and clear the channel and report the end
        of the delay; CCR4 is not written, so nothing is scheduled again. */
    method FireA4()
      requires Valid()
      modifies this`cctl, this`delayOver
      ensures Valid() && FiredA4()
    {
      cctl := cctl[4 := Quiesce(cctl[4])];
      delayOver := true;
    }

    /** TIMER0_A1_5_ISR: dispatch on the TA0IV value; any other value does nothing. */
    method Timer0A1To5Isr(iv: int, secondOdd: bool, capture: U16)
      requires Valid()
      requires iv == 0x02 && aux1 == Gps ==> a1Function.Bound?
      requires iv == 0x06 ==> a3Function.Bound?
      modifies this`ccr, this`cctl, this`hooks, this`updateSiderealTime, this`delayOver
      ensures Valid()
      ensures iv == 0x02 ==> FiredA1(secondOdd)
      ensures iv == 0x04 ==> FiredA2(capture)
      ensures iv == 0x06 ==> FiredA3()
      ensures iv == 0x08 ==> FiredA4()
      ensures iv !in {0x02, 0x04, 0x06, 0x08} ==>
        ccr == old(ccr) && cctl == old(cctl) && hooks == old(hooks)
        && updateSiderealTime == old(updateSiderealTime) && delayOver == old(delayOver)
    {
      if iv == 0x02 {
        FireA1(secondOdd);
      } else if iv == 0x04 {
        FireA2(capture);
      } else if iv == 0x06 {
        FireA3();
      } else if iv == 0x08 {
        FireA4();
      }
    }
  }
}
