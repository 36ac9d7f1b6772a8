# Perimeter guard controller, modelled in Dafny

The perimeter guard is an ATtiny2313 program that watches a perimeter. A
seven-state machine (`START`, `FIRST_ON` … `FOURTH_ON`, `RING_ON`, `RING_OFF`)
is stepped by the Timer1 compare-match interrupt. While the evening sensor on
PD4 reads "armed", four LEDs on PB0..PB3 light one after another. A perimeter
crossing (external interrupt INT0) while armed enters the alarm hyperstate. In
that hyperstate all LEDs and the siren on PB4 are switched on and the timer is
made four times faster. The signalization-off button (INT1) leaves the alarm
and restarts the chase.

The model has four modules:

- `Wrappers` (`wrappers.dfy`): an `Option` type.
- `Timer` (`timer.dfy`): the timer constants `F_CPU`, `T1`, `T2`, `OCR1AH` and
  `OCR1AL`, the clock-select table of TCCR1B, the 16-bit compare value and its
  byte split, and the nominal period in CPU cycles.
- `Perimeter` (`perimeter.dfy`):
  - the state codes, as `bv8` so that the default branch of the switch can be
    reached;
  - a `Registers` snapshot of `state`, `PORTB`, `GIMSK` and `TCCR1B`;
  - specification functions for one tick, one crossing and one disarm;
  - the device invariant `Consistent`;
  - `Run` (ticks only) and `Replay` (any events);
  - the class `Controller`. Its fields are the global `state` and the three
    registers. Its methods `Tick`, `Breach` and `Disarm` change them in place,
    as `StateTransition` and the two ISRs do.
- `PerimeterProperties` (`properties.dfy`): lemmas about the tick table, the
  chase cycle, the alarm hyperstate, the handlers and the timer arithmetic.

The armed reading `PIND & (1<<PIND4)` is a `bool` parameter. Each step gets
its own fresh reading. `nextState` is a local of `Tick`, because nothing else
reads it. `Breach` and `Disarm` require their enable bit in GIMSK (bit 6 for
INT0, bit 7 for INT1), since the hardware runs a handler only while it is
enabled.

Behaviour of the code that the model keeps and that is easy to miss:

- `RING_OFF` does not clear PORTB. From the first alarm tick onwards, PORTB
  stays at `0x1F` for the rest of the alarm (`AlarmToggles`,
  `AlarmPatternHeld`). The alarm output does not blink.
- A failed armed check in `FIRST_ON` leaves PORTB as it was.
- The disarm handler writes `GIMSK = 0x40`. This re-enables INT0 and masks
  INT1, its own interrupt, so INT1 is not enabled all the time: it is enabled
  only while the alarm is on, or from start-up until the first disarm.
- An unarmed crossing changes only `state`.
- A disarm does not write PORTB, so the alarm pattern `0x1F`, siren included,
  stays on after it. With an unarmed reading the first tick from `FIRST_ON`
  falls back to `START` without writing PORTB, so the siren stays on for up to
  two ticks after a disarm (`SirenOutlivesDisarm`).

## Model

| member | source | states |
|---|---|---|
| Timer.Prescaler | Perimeter/Perimeter/main.c:34-39 | The clock-select bits of TCCR1B decode as the datasheet table: 001, 010, 011, 100 and 101 give exactly clk/1, clk/8, clk/64, clk/256 and clk/1024, and 000, 110 and 111 give no internal prescaler. |
| Timer.CompareValue | Perimeter/Perimeter/main.c:58-61 | The compare value of OCR1AH:OCR1AL fits in 16 bits. Both bytes can be recovered from it (it inverts `Split`). |
| Timer.Split | Perimeter/Perimeter/main.c:58-61 | Splitting a 16-bit compare value into the OCR1AH and OCR1AL bytes and joining them again gives the same value. |
| Timer.PeriodCycles | Perimeter/Perimeter/main.c:58-63 | A TCCR1B setting has a period exactly when it selects an internal prescaler. The period is a whole multiple of the compare value. |
| PerimeterProperties.CompareIs31250 | Perimeter/Perimeter/main.c:58-61 | The bytes 0x7A and 0x12 hold 31250, and 31250 splits into exactly those bytes. |
| PerimeterProperties.PrescalerSettings | Perimeter/Perimeter/main.c:34-39 | `T1` selects clk/256 and `T2` selects clk/64. Both select clear-timer-on-compare mode. |
| PerimeterProperties.PeriodRatio | Perimeter/Perimeter/main.c:17-39 | At 8 MHz, `T1` gives `F_CPU` cycles (1 s) and `T2` gives `F_CPU/4` cycles (0.25 s): a 4:1 ratio. |
| PerimeterProperties.PeriodFollowsHyperstate | Perimeter/Perimeter/main.c:78-109 | In a consistent device the timer has the quarter-second period exactly in the alarm hyperstate, and the one-second period exactly outside it. |
| Perimeter.NextState | Perimeter/Perimeter/main.c:143-221 | A tick always lands on one of the seven codes and never enters or leaves the alarm hyperstate. An unknown code goes to START. START is reached exactly from an unknown code, or from START or FIRST_ON on an unarmed reading. |
| Perimeter.PortWrite | Perimeter/Perimeter/main.c:143-218 | A tick leaves PORTB unwritten exactly in RING_OFF and in FIRST_ON when unarmed. Any written pattern uses only PB0..PB4. Outside the alarm it lights at most one LED. The alarm pattern 0x1F is written exactly from RING_ON. All-off is written exactly from START or an unknown code. |
| Perimeter.TickNext | Perimeter/Perimeter/main.c:143-221 | One tick never changes GIMSK or TCCR1B, lands on one of the seven codes from any state value, never enters or leaves the alarm hyperstate, and keeps the device invariant. |
| Perimeter.BreachNext | Perimeter/Perimeter/main.c:78-97 | The crossing handler never writes PORTB. It ends in the alarm hyperstate exactly when armed, and then INT0 is masked and INT1 enabled. Unarmed, GIMSK and TCCR1B are unchanged. With INT0 enabled it keeps the device invariant. |
| Perimeter.DisarmNext | Perimeter/Perimeter/main.c:102-109 | The disarm handler never writes PORTB. From any state it leaves the alarm hyperstate, enables INT0 and masks INT1. The result is consistent whenever PORTB drives only the five output lines. |
| Perimeter.Deliver | Perimeter/Perimeter/main.c:78-109 | A tick, or a handler that GIMSK lets run, keeps the device invariant; a masked handler does nothing. |
| Perimeter.Replay | Perimeter/Perimeter/main.c:67-109 | Any sequence of atomically handled events keeps the device invariant. |
| Perimeter.Run | Perimeter/Perimeter/main.c:67-73 | Ticks alone never change GIMSK or TCCR1B and never cross the border of the alarm hyperstate. After one tick the state is one of the seven codes. |
| Perimeter.Controller.constructor | Perimeter/Perimeter/main.c:114-123 | Start-up state: `state = START`, PORTB reset, `GIMSK = 0b11000000`, `TCCR1B = T1`. This state satisfies the invariant. |
| Perimeter.Controller.Tick | Perimeter/Perimeter/main.c:143-221 | The switch of `StateTransition` with the local `nextState`. The new registers are the tick specification applied to the old ones. GIMSK and TCCR1B are unchanged and the invariant is kept. |
| Perimeter.Controller.Breach | Perimeter/Perimeter/main.c:78-97 | The INT0 handler, run only while INT0 is enabled. The new registers are the crossing specification of the old ones. PORTB is unchanged and the invariant is kept. |
| Perimeter.Controller.Disarm | Perimeter/Perimeter/main.c:102-109 | The INT1 handler, run only while INT1 is enabled. The new registers are the disarm specification of the old ones. PORTB is unchanged and the invariant is kept. |
| PerimeterProperties.TickFromStart | Perimeter/Perimeter/main.c:147-163 | From START a tick sets PORTB to 0. It moves to FIRST_ON if armed and stays in START otherwise. |
| PerimeterProperties.TickFromFirstOn | Perimeter/Perimeter/main.c:165-181 | From FIRST_ON an armed tick writes 0x01 and moves to SECOND_ON. An unarmed tick moves to START and leaves PORTB alone. |
| PerimeterProperties.TickThroughChase | Perimeter/Perimeter/main.c:183-196 | SECOND_ON moves to THIRD_ON, THIRD_ON to FOURTH_ON and FOURTH_ON to FIRST_ON, whatever the armed reading. They write 0x02, 0x04 and 0x08. |
| PerimeterProperties.TickInAlarm | Perimeter/Perimeter/main.c:198-209 | RING_ON writes 0x1F and moves to RING_OFF. RING_OFF moves to RING_ON and leaves PORTB alone. |
| PerimeterProperties.TickFromUnknown | Perimeter/Perimeter/main.c:211-217 | An out-of-range state resets PORTB to 0 and the state to START. |
| PerimeterProperties.UnarmedStaysAtStart | Perimeter/Perimeter/main.c:147-163 | From START with every reading unarmed, any number of ticks stays in START. PORTB is 0 after the first tick. |
| PerimeterProperties.ArmingTakesTwoTicks | Perimeter/Perimeter/main.c:147-181 | Two armed ticks from START reach SECOND_ON with only LED 0 lit. The armed reading is checked on two consecutive ticks. |
| PerimeterProperties.ChaseCycles | Perimeter/Perimeter/main.c:165-196 | With armed held, n ticks from chase stage k reach stage (k+n) mod 4 and never START. |
| PerimeterProperties.FourTicksComeBack | Perimeter/Perimeter/main.c:165-196 | Four armed ticks from FIRST_ON return to FIRST_ON with 0x08 on PORTB. |
| PerimeterProperties.AlarmToggles | Perimeter/Perimeter/main.c:198-209 | In the hyperstate, ticks alternate RING_ON and RING_OFF by parity, whatever the readings. PORTB is 0x1F once RING_ON has been left. |
| PerimeterProperties.AlarmPatternHeld | Perimeter/Perimeter/main.c:200-207 | Once PORTB shows 0x1F in the hyperstate, no tick changes it. |
| PerimeterProperties.BreachWhenArmed | Perimeter/Perimeter/main.c:78-88 | An armed crossing sets `state = RING_ON`, `GIMSK = 0b10000000` and `TCCR1B = T2`, and keeps PORTB. INT0 is then masked and INT1 is enabled. |
| PerimeterProperties.BreachWhenUnarmed | Perimeter/Perimeter/main.c:89-94 | An unarmed crossing sets `state = START` and changes nothing else. |
| PerimeterProperties.DisarmFromAnyState | Perimeter/Perimeter/main.c:102-109 | From any state, disarm sets `state = FIRST_ON`, `GIMSK = 0b01000000` and `TCCR1B = T1`, and keeps PORTB. INT0 is then enabled and INT1 is masked. |
| PerimeterProperties.BreachAcceptedAfterDisarm | Perimeter/Perimeter/main.c:78-109 | After a disarm, an armed crossing is accepted and re-enters RING_ON. |
| PerimeterProperties.DisarmUndoesBreach | Perimeter/Perimeter/main.c:78-109 | From a consistent non-alarm state, an armed crossing followed by a disarm restores TCCR1B and re-enables INT0. The chase restarts at FIRST_ON. GIMSK is restored exactly when it was 0x40 before. |
| PerimeterProperties.SirenOutlivesDisarm | Perimeter/Perimeter/main.c:102-181 | After a disarm from the alarm, PORTB still holds 0x1F. An unarmed tick moves to START and keeps 0x1F; only the next tick clears it. An armed tick shows 0x01. |
| PerimeterProperties.HyperstateEntryAndExit | Perimeter/Perimeter/main.c:78-109 | In a consistent device, the alarm hyperstate is entered exactly by an armed crossing and left exactly by a disarm. |
| PerimeterProperties.ReachableIsConsistent | Perimeter/Perimeter/main.c:43-221 | Every state reachable from start-up by any events is consistent, so its state code is one of the seven. |

## Left out

- Hardware bring-up is not modelled: the `MCUCR` edge-sense setting, the `DDRB`/`DDRD` directions, the `PORTD` pull-ups and the `TIMSK` write. Only the registers the state machine reads or writes are kept.
- The idle `while (1)` loop of `main` is not modelled: it does nothing.
- The `sei()` calls inside the handlers, and the preemption they allow, are not modelled. Each handler is one atomic step, so interleaved, half-finished updates are not modelled.
- Timer1's counting and its phase when the prescaler changes are not modelled. Only the integer period arithmetic is kept.
- Timer.PeriodCycles: gives the nominal period, compare value times divider, as the comment at main.c:58 reads it. In clear-timer-on-compare mode the hardware counts OCR1A + 1 timer clocks, so the real period is longer by one timer clock. The 4:1 ratio is the same either way.
- Perimeter.Deliver: drops a crossing or disarm edge that arrives while its interrupt is masked. On the device the edge sets the pending flag in EIFR, and the handler runs once the interrupt is enabled again. Pending flags are not modelled.
- The `avr/io.h` and `avr/interrupt.h` register definitions are not part of this model. The registers are plain `bv8` fields.
