/** Timer1 of the ATtiny2313 as the perimeter guard configures it: the CPU
    clock, the two prescaler settings written to TCCR1B and the 16-bit compare
    value written to OCR1AH:OCR1AL. Only the integer period arithmetic is
    modelled; the counting itself is not. */
module Timer {
  import opened Wrappers

  /** CPU clock frequency in Hz (8 MHz). */
  const F_CPU: nat := 8000000

  /** TCCR1B for the normal chase period: WGM12 (clear timer on compare) and
      clock select 100, clk/256. */
  const T1: bv8 := 0x0C

  /** TCCR1B for the alarm period: WGM12 and clock select 011, clk/64. */
  const T2: bv8 := 0x0B

  /** A register byte used as a number. */
  type Byte = x: nat | x < 256

  /** High and low bytes of the compare value written to OCR1A. */
  const OCR1AH: Byte := 0x7A
  const OCR1AL: Byte := 0x12

  /** The clock divider selected by the three clock-select bits CS12:CS10 of
      TCCR1B, per the Timer/Counter1 clock select table of the ATtiny2313
      datasheet: 000 stops the timer and 110/111 select the external pin, so
      neither gives an internal prescaler. */
  function Prescaler(tccr1b: bv8): (r: Option<nat>)
    ensures r.Some? ==> r.value in {1, 8, 64, 256, 1024}
    ensures r.None? <==> (tccr1b & 0x07) in {0, 6, 7}
    ensures r == Some(1) <==> tccr1b & 0x07 == 0x01
    ensures r == Some(8) <==> tccr1b & 0x07 == 0x02
    ensures r == Some(64) <==> tccr1b & 0x07 == 0x03
    ensures r == Some(256) <==> tccr1b & 0x07 == 0x04
    ensures r == Some(1024) <==> tccr1b & 0x07 == 0x05
  {
    var cs := tccr1b & 0x07;
    if cs == 1 then Some(1)
    else if cs == 2 then Some(8)
    else if cs == 3 then Some(64)
    else if cs == 4 then Some(256)
    else if cs == 5 then Some(1024)
    else None
  }

  /** True when TCCR1B selects clear-timer-on-compare mode (bit WGM12). */
  predicate ClearsOnCompare(tccr1b: bv8) {
    tccr1b & 0x08 != 0
  }

  /** The 16-bit compare value held by the register pair OCR1AH:OCR1AL.
      The bytes are recovered from it: it is the inverse of Split. */
  function CompareValue(hi: Byte, lo: Byte): (n: nat)
    ensures n < 0x1_0000
    ensures n / 256 == hi && n % 256 == lo
  {
    hi * 256 + lo
  }

  /** The high and low bytes to write to OCR1AH and OCR1AL for a 16-bit
      compare value. */
  function Split(n: nat): (bytes: (Byte, Byte))
    requires n < 0x1_0000
    ensures CompareValue(bytes.0, bytes.1) == n
  {
    (n / 256, n % 256)
  }

  /** Nominal number of CPU cycles between two compare-match interrupts for
      a TCCR1B setting: compare value times clock divider. */
  function PeriodCycles(tccr1b: bv8): (r: Option<nat>)
    ensures r.Some? <==> Prescaler(tccr1b).Some?
    ensures r.Some? ==> r.value % CompareValue(OCR1AH, OCR1AL) == 0
  {
    match Prescaler(tccr1b)
    case Some(p) => Some(CompareValue(OCR1AH, OCR1AL) * p)
    case None => None
  }
}
