/** The perimeter guard's controller: a seven-state machine advanced by the
    Timer1 compare-match interrupt (Tick), overridden by the perimeter
    crossing interrupt INT0 (Breach) and the signalization-off interrupt INT1
    (Disarm). The "armed" input is pin PD4 (high in the evening) and is passed
    to each step as a fresh reading. */
module Perimeter {
  import opened Wrappers
  import opened Timer

  // The state codes. `state` is an unsigned byte, so any other value can
  // occur in it and is handled by the defensive default branch.
  const START: bv8 := 1
  const FIRST_ON: bv8 := 2
  const SECOND_ON: bv8 := 3
  const THIRD_ON: bv8 := 4
  const FOURTH_ON: bv8 := 5
  const RING_ON: bv8 := 6
  const RING_OFF: bv8 := 7

  /** The four chase states in the order the LEDs light up. */
  const CHASE: seq<bv8> := [FIRST_ON, SECOND_ON, THIRD_ON, FOURTH_ON]

  // GIMSK values: bit 6 enables INT0 (crossing), bit 7 enables INT1 (signal off).
  const GIMSK_BOTH: bv8 := 0xC0
  const GIMSK_INT1_ONLY: bv8 := 0x80
  const GIMSK_INT0_ONLY: bv8 := 0x40

  // PORTB patterns: LEDs on PB0..PB3, siren on PB4.
  const ALARM_PATTERN: bv8 := 0x1F

  predicate IsState(s: bv8) {
    START <= s <= RING_OFF
  }

  /** The alarm hyperstate. */
  predicate IsAlarm(s: bv8) {
    s == RING_ON || s == RING_OFF
  }

  /** The registers the controller reads and writes. */
  datatype Registers = Registers(state: bv8, portB: bv8, gimsk: bv8, tccr1b: bv8)

  /** The crossing handler runs only while INT0 is enabled. */
  predicate BreachEnabled(r: Registers) {
    r.gimsk & 0x40 != 0
  }

  /** The signalization-off handler runs only while INT1 is enabled. */
  predicate DisarmEnabled(r: Registers) {
    r.gimsk & 0x80 != 0
  }

  /** The register values after start-up: state START, all outputs reset,
      both external interrupts enabled, Timer1 at the normal prescaler. */
  const INITIAL: Registers := Registers(START, 0, GIMSK_BOTH, T1)

  /** The invariant of the running device: the state code is one of the
      seven, only the five output lines of PORTB are ever set, and the
      alarm hyperstate coincides with "INT0 masked, INT1 enabled, fast
      prescaler" while every other state has INT0 enabled and the normal
      prescaler. */
  predicate Consistent(r: Registers) {
    IsState(r.state) && r.portB & 0xE0 == 0 &&
    if IsAlarm(r.state) then
      r.gimsk == GIMSK_INT1_ONLY && r.tccr1b == T2
    else
      (r.gimsk == GIMSK_BOTH || r.gimsk == GIMSK_INT0_ONLY) && r.tccr1b == T1
  }

  /** The state a tick moves to from state `s` with armed reading `armed`:
      always one of the seven codes, never across the border of the alarm
      hyperstate, and START for any unknown code. */
  function NextState(s: bv8, armed: bool): (n: bv8)
    ensures IsState(n)
    ensures IsAlarm(n) <==> IsAlarm(s)
    ensures !IsState(s) ==> n == START
    ensures n == START <==> (!IsState(s) || ((s == START || s == FIRST_ON) && !armed))
  {
    if s == START then (if armed then FIRST_ON else START)
    else if s == FIRST_ON then (if armed then SECOND_ON else START)
    else if s == SECOND_ON then THIRD_ON
    else if s == THIRD_ON then FOURTH_ON
    else if s == FOURTH_ON then FIRST_ON
    else if s == RING_ON then RING_OFF
    else if s == RING_OFF then RING_ON
    else START
  }

  /** What a tick from state `s` writes to PORTB, if anything: nothing
      exactly in RING_OFF and in FIRST_ON with a failed armed check, and
      otherwise a pattern that uses only the five output lines, with at
      most one LED lit outside the alarm hyperstate. */
  function PortWrite(s: bv8, armed: bool): (w: Option<bv8>)
    ensures w.None? <==> (s == RING_OFF || (s == FIRST_ON && !armed))
    ensures w.Some? ==> w.value & 0xE0 == 0
    ensures w.Some? && !IsAlarm(s) ==> w.value in {0x00, 0x01, 0x02, 0x04, 0x08}
    ensures w == Some(ALARM_PATTERN) <==> s == RING_ON
    ensures w == Some(0) <==> (s == START || !IsState(s))
  {
    if s == START then Some(0x00)
    else if s == FIRST_ON then (if armed then Some(0x01) else None)
    else if s == SECOND_ON then Some(0x02)
    else if s == THIRD_ON then Some(0x04)
    else if s == FOURTH_ON then Some(0x08)
    else if s == RING_ON then Some(ALARM_PATTERN)
    else if s == RING_OFF then None
    else Some(0x00)
  }

  /** One timer tick: write the outgoing state's pattern, then commit the
      next state. The interrupt and prescaler registers are not touched,
      every state value lands on one of the seven codes, the alarm
      hyperstate is neither entered nor left, and the device invariant is
      kept. */
  function TickNext(r: Registers, armed: bool): (r': Registers)
    ensures r'.gimsk == r.gimsk && r'.tccr1b == r.tccr1b
    ensures IsState(r'.state)
    ensures IsAlarm(r'.state) <==> IsAlarm(r.state)
    ensures Consistent(r) ==> Consistent(r')
  {
    r.(state := NextState(r.state, armed), portB := PortWrite(r.state, armed).GetOr(r.portB))
  }

  /** The crossing handler: when armed it masks INT0, enters the alarm
      hyperstate and selects the alarm prescaler; otherwise it only resets
      the state to START. It never writes PORTB; it ends in the alarm
      hyperstate exactly when armed, and then INT0 is masked and INT1
      enabled. Run on a consistent device with INT0 enabled, it keeps the
      device invariant. */
  function BreachNext(r: Registers, armed: bool): (r': Registers)
    ensures r'.portB == r.portB
    ensures IsAlarm(r'.state) <==> armed
    ensures armed ==> !BreachEnabled(r') && DisarmEnabled(r')
    ensures !armed ==> r'.gimsk == r.gimsk && r'.tccr1b == r.tccr1b
    ensures Consistent(r) && BreachEnabled(r) ==> Consistent(r')
  {
    if armed then r.(gimsk := GIMSK_INT1_ONLY, state := RING_ON, tccr1b := T2)
    else r.(state := START)
  }

  /** The signalization-off handler: it enables INT0 (and thereby masks
      INT1), restarts the chase at FIRST_ON and restores the normal
      prescaler. PORTB is left as it was. From any state it leaves the
      alarm hyperstate with INT0 enabled and INT1 masked, and the result
      is consistent whenever PORTB only drives the five output lines. */
  function DisarmNext(r: Registers): (r': Registers)
    ensures r'.portB == r.portB
    ensures !IsAlarm(r'.state) && IsState(r'.state)
    ensures BreachEnabled(r') && !DisarmEnabled(r')
    ensures r.portB & 0xE0 == 0 ==> Consistent(r')
  {
    r.(gimsk := GIMSK_INT0_ONLY, state := FIRST_ON, tccr1b := T1)
  }

  /** A hardware event with the armed reading sampled at that moment. */
  datatype Event = TimerTick(armed: bool) | Crossing(armed: bool) | SignalOff

  /** The effect of an event: a handler whose interrupt is masked in GIMSK
      does not run. Every event keeps the device invariant. */
  function Deliver(r: Registers, e: Event): (r': Registers)
    ensures Consistent(r) ==> Consistent(r')
  {
    match e
    case TimerTick(armed) => TickNext(r, armed)
    case Crossing(armed) => if BreachEnabled(r) then BreachNext(r, armed) else r
    case SignalOff => if DisarmEnabled(r) then DisarmNext(r) else r
  }

  /** A sequence of events, each handled atomically in order; the device
      invariant holds after all of them when it held before. */
  function Replay(r: Registers, events: seq<Event>): (r': Registers)
    ensures Consistent(r) ==> Consistent(r')
    decreases |events|
  {
    if events == [] then r
    else
      Replay(Deliver(r, events[0]), events[1..])
  }

  /** Ticks alone, one per armed reading. They never change GIMSK or
      TCCR1B and never move the state into or out of the alarm hyperstate;
      after at least one tick the state is one of the seven codes. */
  function Run(r: Registers, readings: seq<bool>): (r': Registers)
    ensures r'.gimsk == r.gimsk && r'.tccr1b == r.tccr1b
    ensures IsAlarm(r'.state) <==> IsAlarm(r.state)
    ensures |readings| > 0 ==> IsState(r'.state)
    decreases |readings|
  {
    if readings == [] then r
    else Run(TickNext(r, readings[0]), readings[1..])
  }

  /** The controller's global variables and the three registers it writes,
      updated in place by the interrupt handlers. */
  class Controller {
    /** The current FSM state (an unsigned char in the device). */
    var state: bv8
    /** Output port B: LEDs on PB0..PB3, siren on PB4. */
    var PORTB: bv8
    /** General interrupt mask: bit 6 enables INT0, bit 7 enables INT1. */
    var GIMSK: bv8
    /** Timer1 control register B: mode and prescaler. */
    var TCCR1B: bv8

    /** The current register values as one value. */
    function Snapshot(): Registers
      reads this
    {
      Registers(state, PORTB, GIMSK, TCCR1B)
    }

    ghost predicate Valid()
      reads this
    {
      Consistent(Snapshot())
    }

    /** Start-up: the initial value of `state`, the GIMSK write of `main`,
        PORTB reset and the prescaler set by the timer initialisation. */
    constructor ()
      ensures Snapshot() == INITIAL
      ensures Valid()
    {
      state := START;
      GIMSK := GIMSK_BOTH;
      TCCR1B := T1;
      PORTB := 0x00;
    }

    /** The Timer1 compare-match handler: one step of the state machine. */
    method Tick(armed: bool)
      modifies this
      ensures Snapshot() == TickNext(old(Snapshot()), armed)
      ensures GIMSK == old(GIMSK) && TCCR1B == old(TCCR1B)
      ensures old(Valid()) ==> Valid()
    {
      var nextState: bv8;
      if state == START {
        PORTB := PORTB & 0x00;
        if armed {
          nextState := FIRST_ON;
        } else {
          nextState := START;
        }
      } else if state == FIRST_ON {
        if armed {
          PORTB := 0x01;
          nextState := SECOND_ON;
        } else {
          nextState := START;
        }
      } else if state == SECOND_ON {
        PORTB := 0x02;
        nextState := THIRD_ON;
      } else if state == THIRD_ON {
        PORTB := 0x04;
        nextState := FOURTH_ON;
      } else if state == FOURTH_ON {
        PORTB := 0x08;
        nextState := FIRST_ON;
      } else if state == RING_ON {
        PORTB := 0x1F;
        nextState := RING_OFF;
      } else if state == RING_OFF {
        nextState := RING_ON;
      } else {
        PORTB := PORTB & 0x00;
        nextState := START;
      }
      state := nextState;
    }

    /** The INT0 handler (perimeter crossing), run only while INT0 is enabled. */
    method Breach(armed: bool)
      requires GIMSK & 0x40 != 0
      modifies this
      ensures Snapshot() == BreachNext(old(Snapshot()), armed)
      ensures PORTB == old(PORTB)
      ensures old(Valid()) ==> Valid()
    {
      if armed {
        GIMSK := GIMSK_INT1_ONLY;
        state := RING_ON;
        TCCR1B := T2;
      } else {
        state := START;
      }
    }

    /** The INT1 handler (signalization off), run only while INT1 is enabled. */
    method Disarm()
      requires GIMSK & 0x80 != 0
      modifies this
      ensures Snapshot() == DisarmNext(old(Snapshot()))
      ensures PORTB == old(PORTB)
      ensures old(Valid()) ==> Valid()
    {
      GIMSK := GIMSK_INT0_ONLY;
      state := FIRST_ON;
      TCCR1B := T1;
    }
  }
}
