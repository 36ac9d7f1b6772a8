/** What the perimeter guard's state machine and timer settings guarantee,
    stated over the specification functions of modules Perimeter and Timer. */
module PerimeterProperties {
  import opened Wrappers
  import opened Timer
  import opened Perimeter

  // ----- Timer constants -----

  /** OCR1AH:OCR1AL hold 31250, and 31250 is written as exactly those bytes. */
  lemma CompareIs31250()
    ensures CompareValue(OCR1AH, OCR1AL) == 31250
    ensures Split(31250) == (OCR1AH, OCR1AL)
  {
  }

  /** T1 selects clk/256 and T2 clk/64, both in clear-timer-on-compare mode. */
  lemma PrescalerSettings()
    ensures Prescaler(T1) == Some(256) && Prescaler(T2) == Some(64)
    ensures ClearsOnCompare(T1) && ClearsOnCompare(T2)
  {
  }

  /** With an 8 MHz clock the normal period is one second, the alarm period
      a quarter second, so the chase advances four times slower than the
      alarm toggles. */
  lemma PeriodRatio()
    ensures PeriodCycles(T1) == Some(F_CPU)
    ensures PeriodCycles(T2) == Some(F_CPU / 4)
    ensures PeriodCycles(T1).value == 4 * PeriodCycles(T2).value
  {
  }

  /** In a consistent device the timer runs at the alarm period exactly in
      the alarm hyperstate and at the one-second period everywhere else. */
  lemma PeriodFollowsHyperstate(r: Registers)
    requires Consistent(r)
    ensures PeriodCycles(r.tccr1b) == Some(F_CPU / 4) <==> IsAlarm(r.state)
    ensures PeriodCycles(r.tccr1b) == Some(F_CPU) <==> !IsAlarm(r.state)
  {
  }

  // ----- One tick, state by state -----

  /** START clears all outputs and arms to FIRST_ON only on an armed reading. */
  lemma TickFromStart(r: Registers, armed: bool)
    requires r.state == START
    ensures TickNext(r, armed) == r.(portB := 0, state := if armed then FIRST_ON else START)
  {
  }

  /** FIRST_ON re-checks the armed reading: on success it lights LED 0 and
      goes on to SECOND_ON, otherwise it falls back to START and leaves PORTB
      as it was. */
  lemma TickFromFirstOn(r: Registers, armed: bool)
    requires r.state == FIRST_ON
    ensures armed ==> TickNext(r, armed) == r.(portB := 0x01, state := SECOND_ON)
    ensures !armed ==> TickNext(r, armed) == r.(state := START)
  {
  }

  /** SECOND_ON, THIRD_ON and FOURTH_ON light one LED each and advance
      whatever the armed reading. */
  lemma TickThroughChase(r: Registers, armed: bool)
    ensures r.state == SECOND_ON ==> TickNext(r, armed) == r.(portB := 0x02, state := THIRD_ON)
    ensures r.state == THIRD_ON ==> TickNext(r, armed) == r.(portB := 0x04, state := FOURTH_ON)
    ensures r.state == FOURTH_ON ==> TickNext(r, armed) == r.(portB := 0x08, state := FIRST_ON)
  {
  }

  /** RING_ON switches all LEDs and the siren on and moves to RING_OFF;
      RING_OFF moves back to RING_ON without writing PORTB. */
  lemma TickInAlarm(r: Registers, armed: bool)
    ensures r.state == RING_ON ==> TickNext(r, armed) == r.(portB := ALARM_PATTERN, state := RING_OFF)
    ensures r.state == RING_OFF ==> TickNext(r, armed) == r.(state := RING_ON)
  {
  }

  /** An unknown state code resets the outputs and the state to START. */
  lemma TickFromUnknown(r: Registers, armed: bool)
    requires !IsState(r.state)
    ensures TickNext(r, armed) == r.(portB := 0, state := START)
  {
  }

  // ----- Many ticks -----

  /** Unarmed, the device stays in START with all outputs off. */
  lemma {:induction false} UnarmedStaysAtStart(r: Registers, readings: seq<bool>)
    requires r.state == START
    requires forall i :: 0 <= i < |readings| ==> !readings[i]
    ensures Run(r, readings).state == START
    ensures |readings| > 0 ==> Run(r, readings).portB == 0
    decreases |readings|
  {
    if readings != [] {
      var next := TickNext(r, readings[0]);
      assert next.state == START && next.portB == 0;
      UnarmedStaysAtStart(next, readings[1..]);
    }
  }

  /** Two armed ticks from START reach SECOND_ON with LED 0 lit: the armed
      reading is checked on two consecutive ticks before the chase shows. */
  lemma ArmingTakesTwoTicks(r: Registers)
    requires r.state == START
    ensures Run(r, [true]).state == FIRST_ON
    ensures Run(r, [true, true]).state == SECOND_ON && Run(r, [true, true]).portB == 0x01
  {
  }

  /** Armed, the chase goes round the four stages in order: k + n ticks
      after stage k it is at stage (k + n) mod 4, and never at START. */
  lemma {:induction false} ChaseCycles(r: Registers, k: nat, readings: seq<bool>)
    requires k < 4 && r.state == CHASE[k]
    requires forall i :: 0 <= i < |readings| ==> readings[i]
    ensures Run(r, readings).state == CHASE[(k + |readings|) % 4]
    ensures Run(r, readings).state != START
    decreases |readings|
  {
    if readings != [] {
      var next := TickNext(r, true);
      assert next.state == CHASE[(k + 1) % 4];
      ChaseCycles(next, (k + 1) % 4, readings[1..]);
      assert ((k + 1) % 4 + (|readings| - 1)) % 4 == (k + |readings|) % 4;
    }
  }

  /** Four armed ticks from FIRST_ON come back to FIRST_ON with the last
      LED of the chase lit. */
  lemma FourTicksComeBack(r: Registers)
    requires r.state == FIRST_ON
    ensures Run(r, [true, true, true, true]).state == FIRST_ON
    ensures Run(r, [true, true, true, true]).portB == 0x08
  {
  }

  /** Inside the alarm hyperstate ticks toggle RING_ON and RING_OFF,
      whatever the armed readings, and once RING_ON has been left PORTB
      holds the alarm pattern for good. */
  lemma {:induction false} AlarmToggles(r: Registers, readings: seq<bool>)
    requires IsAlarm(r.state)
    ensures Run(r, readings).state ==
      if |readings| % 2 == 0 then r.state else if r.state == RING_ON then RING_OFF else RING_ON
    ensures (|readings| >= 2 || (|readings| == 1 && r.state == RING_ON)) ==>
      Run(r, readings).portB == ALARM_PATTERN
    decreases |readings|
  {
    if readings != [] {
      var next := TickNext(r, readings[0]);
      assert next.state == if r.state == RING_ON then RING_OFF else RING_ON;
      assert r.state == RING_ON ==> next.portB == ALARM_PATTERN;
      AlarmToggles(next, readings[1..]);
      if r.state == RING_ON {
        AlarmPatternHeld(next, readings[1..]);
      }
    }
  }

  /** Once PORTB shows the alarm pattern in the hyperstate, ticks keep it. */
  lemma {:induction false} AlarmPatternHeld(r: Registers, readings: seq<bool>)
    requires IsAlarm(r.state) && r.portB == ALARM_PATTERN
    ensures Run(r, readings).portB == ALARM_PATTERN
    decreases |readings|
  {
    if readings != [] {
      AlarmPatternHeld(TickNext(r, readings[0]), readings[1..]);
    }
  }

  // ----- The interrupt handlers -----

  /** An armed crossing masks INT0 (keeping INT1), enters RING_ON and selects
      the alarm prescaler; PORTB is not written. */
  lemma BreachWhenArmed(r: Registers)
    ensures BreachNext(r, true) == Registers(RING_ON, r.portB, GIMSK_INT1_ONLY, T2)
    ensures !BreachEnabled(BreachNext(r, true)) && DisarmEnabled(BreachNext(r, true))
  {
  }

  /** An unarmed crossing only resets the state to START. */
  lemma BreachWhenUnarmed(r: Registers)
    ensures BreachNext(r, false) == Registers(START, r.portB, r.gimsk, r.tccr1b)
  {
  }

  /** Disarm, from any state, restarts the chase at FIRST_ON with the normal
      prescaler, enables INT0 again and masks its own interrupt INT1; PORTB
      is not written. */
  lemma DisarmFromAnyState(r: Registers)
    ensures DisarmNext(r) == Registers(FIRST_ON, r.portB, GIMSK_INT0_ONLY, T1)
    ensures BreachEnabled(DisarmNext(r)) && !DisarmEnabled(DisarmNext(r))
  {
  }

  /** After a disarm a new crossing is accepted again: with an armed reading
      it re-enters the alarm. */
  lemma BreachAcceptedAfterDisarm(r: Registers)
    requires DisarmEnabled(r)
    ensures Deliver(Deliver(r, SignalOff), Crossing(true)).state == RING_ON
  {
  }

  /** An armed crossing followed by a disarm restores TCCR1B, re-enables
      INT0 and restarts the chase at FIRST_ON. GIMSK always ends at 0x40,
      so it is restored only if it was 0x40 before: from start-up (0xC0)
      INT1 stays masked afterwards. */
  lemma DisarmUndoesBreach(r: Registers)
    requires Consistent(r) && !IsAlarm(r.state)
    ensures DisarmNext(BreachNext(r, true)).tccr1b == r.tccr1b
    ensures DisarmNext(BreachNext(r, true)).state == FIRST_ON
    ensures BreachEnabled(DisarmNext(BreachNext(r, true)))
    ensures DisarmNext(BreachNext(r, true)).gimsk == r.gimsk <==> r.gimsk == GIMSK_INT0_ONLY
  {
  }

  /** A disarm does not write PORTB, so the alarm pattern (siren included)
      stays on after it: with an unarmed reading the first tick from
      FIRST_ON falls back to START without writing PORTB, and only the
      second tick clears it; with an armed reading the first tick shows
      LED 0 alone. */
  lemma SirenOutlivesDisarm(r: Registers)
    requires IsAlarm(r.state) && r.portB == ALARM_PATTERN
    ensures DisarmNext(r).portB == ALARM_PATTERN
    ensures TickNext(DisarmNext(r), false).state == START
    ensures TickNext(DisarmNext(r), false).portB == ALARM_PATTERN
    ensures TickNext(TickNext(DisarmNext(r), false), false).portB == 0
    ensures TickNext(DisarmNext(r), true).portB == 0x01
  {
  }

  /** In a consistent device the alarm hyperstate is entered only by an armed
      crossing and left only by a disarm. */
  lemma HyperstateEntryAndExit(r: Registers, e: Event)
    requires Consistent(r)
    ensures !IsAlarm(r.state) ==> (IsAlarm(Deliver(r, e).state) <==> e == Crossing(true))
    ensures IsAlarm(r.state) ==> (!IsAlarm(Deliver(r, e).state) <==> e == SignalOff)
  {
  }

  /** The device starts consistent, so every sequence of events keeps it
      consistent: in particular the state code never leaves the seven. */
  lemma ReachableIsConsistent(events: seq<Event>)
    ensures Consistent(Replay(INITIAL, events))
    ensures IsState(Replay(INITIAL, events).state)
  {
  }
}
