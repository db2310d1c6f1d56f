# Timer0 driver of the OpenChronos watch firmware, in Dafny

`driver/timer.c` shares one peripheral of the CC430 among five logical timers. The peripheral
is Timer0_A5: a 16-bit free-running counter TA0R, clocked at 32768 Hz, and five
capture/compare channels CCR0–CCR4.

- **Channel 0**: the 1 Hz clock tick. It is re-armed additively (`TA0CCR0 += 32768`), so the
  schedule never drifts.
- **Channel 1**: one of three build-time variants.
  - the BlueRobin receiver task;
  - a sidereal clock, re-armed additively by 32678 or 32679 counts;
  - a GPS polling timer, re-armed relative to the present count.
- **Channel 2**: the stopwatch and egg timer.
- **Channel 3**: a configurable periodic timer that calls a function pointer.
- **Channel 4**: the one-shot blocking delay `Timer0_A4_Delay`.

After re-arming channel 0, the 1 Hz handler does the per-second bookkeeping:

- the radio-mode timeout, during which everything else is frozen;
- message display flags;
- the backlight countdown;
- the detection of long presses of single buttons and of the Star+Up (key beep) and
  Num+Down (key lock) combinations.

Module layout:

- `registers.dfy` (`Registers`): the register vocabulary.
  - TA0R and TA0CCRx are integers that wrap at 2^16 (`Add16`).
  - TA0CTL and TA0CCTLx are records of the bits the driver names (`Ctl`, `Cctl`).
  - One lemma per bit operation proves that the record update reads the same as the driver's
    `|=` or `&= ~` on a 16-bit word.
- `schedules.dfy` (`Schedules`): the two re-arm disciplines.
  - A relative-to-now target fires exactly `ticks` counts later, or 65536 counts later when
    `ticks` is 0.
  - The additive schedules have closed forms. CCR0 alternates between 0x7FFF and 0xFFFF.
    The sidereal CCR1 advances by 65357 counts per pair of seconds.
- `housekeeping.dfy` (`Housekeeping`): the per-second bookkeeping as pure step functions on
  the values it updates.
  - `SecondTick` composes the steps in the handler's order.
  - Lemmas give the periodicity of long presses, the backlight and radio countdowns, and
    when a toggled message is shown.
- `timer0.dfy` (`Timer`): class `Timer0`.
  - Its fields are the registers, the stored intervals, `delay_over`, the two handler
    pointers and the bookkeeping globals.
  - There is one method per driver function and per interrupt vector.
  - Every method states its new state field by field. The clock tick and the calls the
    channel handlers make are recorded, in order, in a ghost log `hooks`. Their effects are
    not modelled, except the capture point that the stopwatch and egg timer load into CCR2,
    which is a parameter of the channel-2 handler. The calls made by the per-second servicing
    of other modules are neither modelled nor logged (see "Left out").
  - The two handlers that call through a function pointer (channel 3, and channel 1 in the
    GPS build) require the pointer to have been assigned. Jumping through the NULL it holds
    at reset is undefined in the source.
- `scenarios.dfy` (`Scenarios`): concrete call sequences checked against the contracts:
  - channel 3 armed and then stopped, keeping its compare value and interval;
  - a wrapped target;
  - CCR0 going 0x7FFF, 0xFFFF, 0x7FFF, and after n seconds following the additive schedule;
  - rebinding the channel-3 function;
  - a delay while stopped and while running;
  - a long press after limit + 1 seconds.

Build options are parameters of the `Timer0` constructor:

- which variant of `case 0x02` is compiled (`Aux1Build`);
- CONFIG_STOP_WATCH and CONFIG_EGGTIMER;
- LEFT_BUTTON_LONG_TIME and BACKLIGHT_TIME_ON, which live in a header outside this model.

`Timer0_A4_Delay` sleeps until the channel-4 handler sets `delay_over`. It is modelled as a
loop in which the counter advances by an arbitrary number of counts between wake-ups. When
the counter reaches CCR4, the compare match raises CCIFG4 and the vector-0x08 handler runs.
The loop terminates because the remaining distance to CCR4 decreases.

The Star+Up counter `button_beep_counter` is not cleared when the combination is released:
only `button_lock_counter` is. Seconds of Star+Up therefore add up across separate presses.
The model keeps this as written (`SinglesStep` leaves the beep counter alone).

## Model

| member | source | states |
|---|---|---|
| `Registers.Add16` | driver/timer.c:214 | The sum of two 16-bit values is congruent to the mathematical sum modulo 65536. |
| `Registers.CountingIsModeTest` | driver/timer.c:252 | "The counter is counting" is exactly the driver's test that BIT4 or BIT5 of TA0CTL is set. |
| `Registers.InitControl` | driver/timer.c:131 | After Timer0_Init's control write the counter is counting. |
| `Registers.InitControlIsOr` | driver/timer.c:131 | Or-ing TASSEL0 + MC1 + TACLR into TA0CTL sets the ACLK source and continuous mode and nothing else the driver reads. |
| `Registers.ContinuousOn` | driver/timer.c:144 | After Timer0_Start the counter is counting. |
| `Registers.ContinuousOnIsOr` | driver/timer.c:144 | Or-ing MC_2 into TA0CTL sets the continuous-mode bit and leaves the others. |
| `Registers.ContinuousOff` | driver/timer.c:157 | After Timer0_Stop the counter counts only if MC0 was set, which the driver never does. |
| `Registers.ContinuousOffIsAndNot` | driver/timer.c:157 | Masking MC_2 out of TA0CTL clears the continuous-mode bit and leaves the others. |
| `Registers.EnableIsOr` | driver/timer.c:127 | Or-ing CCIE into TA0CCTLx sets the enable bit and keeps the flag. |
| `Registers.DisarmIsAndNot` | driver/timer.c:195 | Masking CCIE out of TA0CCTLx clears the enable bit and keeps the flag. |
| `Registers.ClearFlagIsAndNot` | driver/timer.c:220 | Masking CCIFG out of TA0CCTLx clears the pending flag and keeps the enable bit. |
| `Registers.RaiseFlagIsOr` | driver/timer.c:652 | A compare match sets CCIFG, which TA0IV reports, and keeps the enable bit. |
| `Registers.Arm` | driver/timer.c:219-223 | Clearing the flag and then enabling leaves the channel enabled with no stale match pending. |
| `Registers.Quiesce` | driver/timer.c:318-320 | Every handler's opening leaves its channel disabled and not pending. |
| `Schedules.RelativeTarget` | driver/timer.c:213-217 | `TA0R + ticks` lands on the present count exactly when ticks is 0. |
| `Schedules.TicksUntil` | driver/timer.c:272-289 | The wait for a compare value is between 1 and 65536 counts, reaches the target, and no earlier count does. |
| `Schedules.RelativeArmFiresAfter` | driver/timer.c:206-224 | A channel armed `ticks` counts from now fires after exactly `ticks` counts, or after a full 65536-count wrap when ticks is 0. |
| `Schedules.AfterFiresClosedForm` | driver/timer.c:322 | After n additive re-arms the compare value is `(first + n * period) mod 65536`, whatever the interrupt latency. |
| `Schedules.Ccr0Alternates` | driver/timer.c:318-324 | Starting from 32767, CCR0 alternates 0x7FFF / 0xFFFF: one interrupt per 32768 counts. |
| `Schedules.SiderealClosedForm` | driver/timer.c:668-677 | After a sequence of sidereal fires, CCR1 has advanced 32679 counts per fire less one per odd second. |
| `Schedules.SiderealAlternating` | driver/timer.c:668-677 | While seconds alternate in parity, every two fires advance CCR1 by 65357 counts (32678.5 per second). |
| `Housekeeping.LongPressStep` | driver/timer.c:544-558 | One second of a button: the counter stays at most LEFT_BUTTON_LONG_TIME; a long press is reported iff the button is held and the counter had reached the limit; a report or a release restarts the count; otherwise it grows by one. |
| `Housekeeping.HoldPeriodic` | driver/timer.c:544-558 | Holding a button for k seconds leaves the counter at `(t + k) mod (limit + 1)` and reports `(t + k) div (limit + 1)` long presses. |
| `Housekeeping.FirstLongPress` | driver/timer.c:549-552 | A button first reports after exactly limit + 1 seconds held; a combination toggles after limit + 2. |
| `Housekeeping.BacklightStep` | driver/timer.c:490-503 | An off backlight is untouched; it is switched off only when its timeout has reached zero, and the timeout is then reloaded with BACKLIGHT_TIME_ON. |
| `Housekeeping.BacklightCountdown` | driver/timer.c:490-503 | A backlight on with timeout t stays on for t seconds, counting down, and goes off with the reload in second t + 1. |
| `Housekeeping.RfStep` | driver/timer.c:340-347 | A stop request, once made, is never withdrawn by the countdown. |
| `Housekeeping.RfStopsAfter` | driver/timer.c:340-347 | With timeout t, the radio stop is requested in second t + 1 and not before; the timeout counts down to 0 and stays there. |
| `Housekeeping.MessageStep` | driver/timer.c:463-479 | A prepared message is shown in the next second; otherwise an expired message is erased with both display lines released and a full redraw requested; no other message bit changes. |
| `Housekeeping.BeepComboStep` | driver/timer.c:508-522 | Star+Up toggles the key beep iff its counter exceeded the limit. A toggle restarts the counter and prepares the beep on/off message matching the new setting. Otherwise the counter grows by one and the message is untouched. No other message bit or global changes. |
| `Housekeeping.LockComboStep` | driver/timer.c:523-537 | Num+Down toggles the key lock iff its counter exceeded the limit. A toggle restarts the counter and prepares the locked/unlocked message matching the new setting. Otherwise the counter grows by one and the message is untouched. No other message bit or global changes. |
| `Housekeeping.CombosAreLongerPresses` | driver/timer.c:510-525 | Each combination counts like a single button held with limit + 1, the toggle taking the place of the long-press bit. |
| `Housekeeping.TimedCounters` | driver/timer.c:539-622 | With no combination held, every single-button counter ends at most LEFT_BUTTON_LONG_TIME and the backlight is untouched. |
| `Housekeeping.TimedFlags` | driver/timer.c:539-622 | A long-press bit is set iff it was set or its button is held past the limit; no bit is cleared. |
| `Housekeeping.SinglesStep` | driver/timer.c:539-543 | Without a combination the lock counter is cleared, the beep counter is kept, and only buttons, flags and the lock counter change. |
| `Housekeeping.ButtonsStep` | driver/timer.c:505-623 | The button stage keeps every counter in range and never clears a long-press bit. A held combination leaves the single-button counters and bits alone. The radio state, the redraw request and the backlight are untouched. |
| `Housekeeping.SecondTick` | driver/timer.c:334-623 | In radio mode only the radio countdown moves. Otherwise the radio state is untouched and a prepared message is shown. Counters stay in range and long-press bits are never cleared. |
| `Housekeeping.ToggleShownNextSecond` | driver/timer.c:508-522 | The message a Star+Up toggle prepares is shown in the following second. |
| `Timer.A2Hooks` | driver/timer.c:704-725 | The channel-2 handler updates and ticks the stopwatch iff it is built, and the same for the egg timer. Every update call is made with channel 2 disabled. |
| `Timer.TimeButton` | driver/timer.c:544-558 | The per-button block computes one `LongPressStep`. |
| `Timer.TimeSingles` | driver/timer.c:544-622 | The five per-button blocks compute the single-button counters and long-press bits of `TimedCounters` / `TimedFlags`. |
| `Timer.Timer0.constructor` | driver/timer.c:314-315 | Power-on state: counter halted, registers zero, handlers unbound, stored intervals zero, no redraw requested, every bookkeeping counter and flag zero. |
| `Timer.Timer0.Elapse` | driver/timer.c:252 | The counter advances, modulo 65536, only while a mode bit is set. |
| `Timer.Timer0.CompareMatch` | driver/timer.c:652 | When the counter equals CCRk, the channel's flag is raised and nothing else changes. |
| `Timer.Timer0.Init` | driver/timer.c:121-132 | CCR0 is 32767, CCIE0 is set, the counter is cleared and counts on ACLK; nothing else changes. |
| `Timer.Timer0.Start` | driver/timer.c:141-145 | Only the mode bits change, and the counter then counts. |
| `Timer.Timer0.Stop` | driver/timer.c:154-161 | The counter is halted and zeroed; compare values and enables are untouched. |
| `Timer.Timer0.A1Start` | driver/timer.c:164-190 | The interval is stored, CCR1 becomes `(TA0R + ticks) mod 65536`, and channel 1 is enabled with its flag cleared; nothing else changes. |
| `Timer.Timer0.A1Stop` | driver/timer.c:192-196 | Only CCIE1 is cleared; the interval and CCR1 stay. |
| `Timer.Timer0.A3Start` | driver/timer.c:206-224 | The interval is stored, CCR3 becomes `(TA0R + ticks) mod 65536`, and channel 3 is enabled with its flag cleared; nothing else changes. |
| `Timer.Timer0.A3Stop` | driver/timer.c:234-238 | Only CCIE3 is cleared; the interval and CCR3 stay, so a later fire re-arms with the last interval started. |
| `Timer.Timer0.BindA1Function` | driver/timer.c:98 | In the GPS build, `fptr_Timer0_A1_function` holds the handler assigned last. |
| `Timer.Timer0.BindA3Function` | driver/timer.c:96 | `fptr_Timer0_A3_function` holds the handler assigned last. |
| `Timer.Timer0.A4Delay` | driver/timer.c:247-290 | Halted: nothing changes, not even `delay_over`. Running: CCR4 is `(TA0R + ticks) mod 65536`, and the call returns with `delay_over` set, the counter at CCR4 and channel 4 disabled and clear. |
| `Timer.Timer0.ArmDelay` | driver/timer.c:255-270 | `delay_over` is cleared, CCR4 is `ticks` counts ahead of the counter, and channel 4 is enabled with no stale match. |
| `Timer.Timer0.Timer0A0Isr` | driver/timer.c:313-330 | CCR0 advances by exactly 32768 mod 65536 and channel 0 is left enabled and clear. The clock ticks once, the time redraw is requested, and the bookkeeping moves by one `SecondTick`. |
| `Timer.Timer0.PerSecond` | driver/timer.c:334-623 | The bookkeeping globals move by exactly one `SecondTick` and stay in range. |
| `Timer.Timer0.RfSecond` | driver/timer.c:340-347 | The radio timeout and stop request move by one `RfStep`. |
| `Timer.Timer0.MessageSecond` | driver/timer.c:463-479 | The message flags and the redraw request move by one `MessageStep`. |
| `Timer.Timer0.BacklightSecond` | driver/timer.c:490-503 | The backlight moves by one `BacklightStep`; the button counters stay. |
| `Timer.Timer0.ButtonsSecond` | driver/timer.c:505-623 | The button globals move by one `ButtonsStep`, and the counters stay in range. |
| `Timer.Timer0.BeepComboSecond` | driver/timer.c:508-522 | The beep counter, `no_beep` and the message move by one `BeepComboStep`. |
| `Timer.Timer0.LockComboSecond` | driver/timer.c:523-537 | The lock counter, `lock_buttons` and the message move by one `LockComboStep`. |
| `Timer.Timer0.SinglesSecond` | driver/timer.c:539-622 | Button counters, long-press bits and the lock counter move by one `SinglesStep`. |
| `Timer.Timer0.FireA1` | driver/timer.c:655-701 | BlueRobin build: only the receiver task is called. Sidereal build: CCR1 advances by 32678 on an odd second and 32679 on an even one, the channel is re-armed, the sidereal clock ticks and its redraw is requested. GPS build: CCR1 is re-armed `a1_ticks` from now and then the bound function, which must have been assigned, is called once. |
| `Timer.Timer0.FireA2` | driver/timer.c:704-725 | Channel 2 is disabled and cleared, and the stopwatch and egg timer updates run while it is disabled. CCR2 then holds the capture point they loaded if either feature is built, and is untouched otherwise. The channel is re-enabled and then the ticks run. |
| `Timer.Timer0.FireA3` | driver/timer.c:728-740 | CCR3 becomes `(TA0R + a3_ticks) mod 65536` and the channel is re-armed. The bound function, which must have been assigned, is then called exactly once, with the channel already enabled. |
| `Timer.Timer0.FireA4` | driver/timer.c:743-749 | Channel 4 is disabled and cleared and `delay_over` is set. CCR4 is not written, so the timer is one-shot. |
| `Scenarios.ClockAfterSeconds` | driver/timer.c:318-324 | After `Timer0_Init` and n clock ticks, CCR0 is the n-th value of the additive schedule: 0x7FFF after an even number of seconds, 0xFFFF after an odd one. |
| `Timer.Timer0.Timer0A1To5Isr` | driver/timer.c:642-754 | Vectors 0x02/0x04/0x06/0x08 run the matching channel handler; any other vector value changes nothing. |

## Left out

- Low-power sleep and wake-up (`to_lpm()`, `_BIC_SR_IRQ(LPM3_bits)`): the delay's sleep is the loop's arbitrary advance of the counter, and the exit from LPM3 on return is not modelled.
- Watchdog service and stopwatch redraw inside the delay loop: hardware and display side effects with no bearing on the timer state.
- Other interrupts taken while `Timer0_A4_Delay` waits: they may run between wake-ups but are not interleaved in the model. Interrupt preemption and priorities are not modelled either; each handler is one atomic method.
- The bodies of the functions this driver calls: `clock_tick`, `BRRX_TimerTask_v`, `sidereal_clock_tick`, `update_stopwatch_timer`, `update_eggtimer_timer`, `stopwatch_tick`, `eggtimer_tick`, and the functions behind the two handler pointers. Each call is recorded in the ghost log `hooks`.
- The per-minute and per-second servicing of other modules between the radio check and the message handling (driver/timer.c:357-461) is neither modelled nor logged in `hooks`. It covers three kinds of work:
  - the request flags it raises for battery, buzzer, temperature, altitude and acceleration measurements;
  - the calls `check_alarm`, `stop_alarm`, `strength_tick`, `stop_altitude_measurement`, `display_chars`, `display_symbol`, `as_stop` and `get_bluerobin_data`;
  - the countdowns of other modules' timeouts: alarm duration, altitude timeout, acceleration timeout and low-battery display counter.
- `Housekeeping.SecondTick`: the low-battery branch writes this driver's own `message.flag.prepare` and `type_lobatt` before the message stage, so in the source a low-battery message is shown in the same second it is prepared. The model has no low-battery input, so every message it shows was prepared in an earlier second.
- The idle-timeout check: it compares time fields owned by the clock module.
- `is_rf()` and `is_bluerobin_searching()`: their combined answer is the input `rfActive`.
- The GPIO reads behind `BUTTON_*_IS_PRESSED`: the button levels are the input `Buttons`.
- The backlight port writes (`P2OUT`, `P2DIR`).
- TA0CTL and TA0CCTLx bits the driver never writes (clock divider, capture mode, output mode, overflow interrupt): the records carry only the bits the driver names.
- Mode bit MC0 and up/down counting: the driver never sets MC0, so `Valid` excludes it.
- The automatic clearing of the highest pending flag when TA0IV is read. Every handler except two clears its own flag explicitly:
  - the BlueRobin handler's channel is owned by code outside this model;
  - in the build with no channel-1 function (`NoAux1`) there is no `case 0x02`, so the TA0IV read at driver/timer.c:652 is the only thing that clears CCIFG1, yet the model leaves TA0CCTL1 unchanged on that vector.
- `sSidereal_time.second`, owned by the sidereal clock module: its parity is the parameter `secondOdd`.
- `Timer.Timer0.constructor`: the 8-bit width of the button counters is not modelled. Requiring LEFT_BUTTON_LONG_TIME <= 254 keeps every counter below 256, so none of them can wrap.
- `Timer.Timer0.A4Delay`: the counter moves only in `Elapse`, never while driver code runs, and an `Elapse` that passes a CCRk value raises no flag. Only under these two assumptions does the delay return with TA0R equal to CCR4. In the source, a match that lands before `to_lpm()` leaves the CPU in LPM3 until some later interrupt.
- `Timer.Timer0.A4Delay`: the number of counts the wait lasts is not part of its contract. `Schedules.RelativeArmFiresAfter` states it for the compare value the delay programs.
- `Timer.Timer0.FireA2`: how `update_stopwatch_timer` and `update_eggtimer_timer` compute the next channel-2 capture point is not modelled. The value they leave in CCR2 is the parameter `capture`, so the contract says only that CCR2 holds it when either feature is built.
