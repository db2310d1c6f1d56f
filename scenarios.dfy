/** Concrete call sequences on the driver, written as client code: each method drives one Timer0
    through a sequence of calls and asserts the register contents the contracts promise. */
module Scenarios {
  import opened Registers
  import opened Schedules
  import opened Housekeeping
  import opened Timer

  /** Channel 3 armed 500 counts after a counter at 1000, then stopped: the compare value
      and the interval survive the stop, only the enable bit goes. */
  method PeriodicTimerArmedAndStopped() {
    var t := new Timer0(NoAux1, true, true, 3, 5);
    t.Init();
    t.Elapse(1000);
    t.A3Start(500);
    assert t.ccr[3] == 1500 && t.a3Ticks == 500;
    assert Enabled(t.cctl[3]) && !Pending(t.cctl[3]);
    t.A3Stop();
    assert t.ccr[3] == 1500 && t.a3Ticks == 500;
    assert !Enabled(t.cctl[3]);
  }

  /** A target past 0xFFFF wraps: 65000 + 1000 is programmed as 464. */
  method TargetWraps() {
    var t := new Timer0(Gps, false, false, 3, 5);
    assert t.a1Ticks == 0 && !t.updateTime && !t.updateSiderealTime;
    t.Init();
    t.Elapse(65000);
    t.A1Start(1000);
    assert t.ccr[1] == 464;
  }

  /** Two clock ticks after Timer0_Init: CCR0 goes 0x7FFF, 0xFFFF, 0x7FFF. */
  method ClockAlternates() {
    var t := new Timer0(NoAux1, false, false, 3, 5);
    var idle := TickInputs(false, Buttons(false, false, false, false, false));
    t.Init();
    assert t.ccr[0] == 0x7FFF;
    t.Timer0A0Isr(idle);
    assert t.ccr[0] == 0xFFFF;
    t.Timer0A0Isr(idle);
    assert t.ccr[0] == 0x7FFF;
    assert t.hooks == [ClockTick, ClockTick];
  }

  /** `Timer0_Init` followed by n clock ticks: CCR0 follows the additive schedule, so it is
      0x7FFF after an even number of seconds and 0xFFFF after an odd one. */
  method ClockAfterSeconds(n: nat, input: TickInputs) returns (t: Timer0)
    ensures t.Valid() && t.ccr[0] == AfterFires(Ccr0Initial, Ccr0Period, n)
    ensures t.ccr[0] == if n % 2 == 0 then 0x7FFF else 0xFFFF
  {
    t := new Timer0(NoAux1, false, false, 3, 5);
    t.Init();
    var i := 0;
    while i < n
      invariant 0 <= i <= n
      invariant t.Valid() && t.ccr[0] == AfterFires(Ccr0Initial, Ccr0Period, i)
    {
      t.Timer0A0Isr(input);
      i := i + 1;
    }
    Ccr0Alternates(n);
  }

  /** The channel-3 handler calls the function bound when it fires, with the channel
      already re-armed. */
  method RebindPeriodicFunction() {
    var t := new Timer0(NoAux1, false, false, 3, 5);
    t.BindA3Function(Bound(1));
    t.A3Start(10);
    assert t.ccr[3] == 10;
    t.BindA3Function(Bound(2));
    assert t.tar == 0 && t.a3Ticks == 10 && t.hooks == [];
    t.FireA3();
    assert t.hooks == [A3Function(Bound(2), 10, true)];
  }

  /** A delay with the counter stopped returns at once; with it running, it returns when the
      counter has reached the programmed compare value, with channel 4 switched off. */
  method DelayOnlyWhileRunning() {
    var t := new Timer0(NoAux1, false, false, 3, 5);
    t.Init();
    t.Stop();
    assert !t.Running() && !t.delayOver && t.ccr[4] == 0;
    t.A4Delay(100);
    assert !t.delayOver && t.ccr[4] == 0;
    t.Start();
    assert t.Running() && t.tar == 0;
    t.A4Delay(100);
    assert t.delayOver && t.ccr[4] == 100 && t.tar == 100;
    assert !Enabled(t.cctl[4]) && !Pending(t.cctl[4]);
  }

  /** Star held alone for limit + 1 seconds reports one long press. */
  method StarLongPress() {
    var t := new Timer0(NoAux1, false, false, 2, 5);
    var star := TickInputs(false, Buttons(true, false, false, false, false));
    t.PerSecond(star);
    assert t.sButton.starTimeout == 1;
    t.PerSecond(star);
    assert t.sButton.starTimeout == 2 && !t.button.starLong;
    t.PerSecond(star);
    assert t.sButton.starTimeout == 0 && t.button.starLong;
  }
}
