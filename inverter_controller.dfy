/** The computed parts of InverterController.c: the delay word of the blink
    program and the thermocouple word as that file reads and decodes it (the
    decoding itself is the shared one of module Max31855k). */
module InverterController {
  import opened CNumeric
  import opened CText
  import Arith
  import Max31855k

  /** The system clock the delay formula assumes. */
  const CLK_HZ: nat := 125000000
  /** Cycles the blink loop adds to the count it is given: wait for n + 1, mov, jmp. */
  const LOOP_OVERHEAD: nat := 3
  /** The rate `main` blinks at. */
  const MAIN_BLINK_HZ: nat := 3
  /** The largest rate whose delay word does not wrap. */
  const MAX_BLINK_HZ: nat := 20833333

  /** `(125000000 / (2 * freq)) - 3` in `uint` arithmetic; `None` where the
      divisor wraps to 0 and the division is undefined. */
  function BlinkDelay(freq: nat): (d: Option<nat>)
    requires freq < U32
    ensures d.None? <==> freq == 0 || freq == U32 / 2
    ensures d.Some? ==> d.value < U32
  {
    var divisor := (2 * freq) % U32;
    if divisor == 0 then None
    else
      assert CLK_HZ / divisor <= CLK_HZ;
      Some((CLK_HZ / divisor + U32 - LOOP_OVERHEAD) % U32)
  }

  /** The word `main` writes for its 3 Hz blink. */
  lemma MainBlinkDelay()
    ensures BlinkDelay(MAIN_BLINK_HZ) == Some(20833330)
  {
    Arith.ModUnique(2 * MAIN_BLINK_HZ, U32, 0, 6);
    Arith.DivUnique(CLK_HZ, 6, 20833333, 2);
    Arith.ModUnique(20833333 + U32 - LOOP_OVERHEAD, U32, 1, 20833330);
  }

  /** Up to `MAX_BLINK_HZ` the word plus the loop overhead is the number of
      whole cycles in half a period: the pin toggles every `d + 3` cycles,
      the most that fit in half a period. */
  lemma HalfPeriodCycles(freq: nat)
    requires 1 <= freq <= MAX_BLINK_HZ
    ensures BlinkDelay(freq).Some?
    ensures var d := BlinkDelay(freq).value;
      (d + LOOP_OVERHEAD) * (2 * freq) <= CLK_HZ < (d + LOOP_OVERHEAD + 1) * (2 * freq)
  {
    var m := 2 * freq;
    Arith.ModUnique(m, U32, 0, m);
    var q, r := CLK_HZ / m, CLK_HZ % m;
    assert q * m + r == CLK_HZ && r < m;
    assert 3 <= q;
    Arith.ModUnique(q + U32 - LOOP_OVERHEAD, U32, 1, q - LOOP_OVERHEAD);
    Arith.MulStep(q, m);
  }

  /** Above `MAX_BLINK_HZ` (and below the rate whose divisor wraps to 0) the
      subtraction wraps and the word lands in the last three values of `uint`. */
  lemma DelayWrapsAboveMax(freq: nat)
    requires MAX_BLINK_HZ < freq < U32 / 2
    ensures BlinkDelay(freq).Some?
    ensures U32 - LOOP_OVERHEAD <= BlinkDelay(freq).value
  {
    var m := 2 * freq;
    Arith.ModUnique(m, U32, 0, m);
    Arith.DivBelow(CLK_HZ, m, 3);
    var q := CLK_HZ / m;
    Arith.ModUnique(q + U32 - LOOP_OVERHEAD, U32, 0, q + U32 - LOOP_OVERHEAD);
  }

  /** `max31855k_read` followed by `max31855k_temp_c`: the temperature is
      negative exactly when the top bit of the first byte received is set. */
  lemma SignFromFirstByte(rx: seq<nat>)
    requires Max31855k.IsFrame(rx)
    ensures Max31855k.TempC(Max31855k.Pack(rx)) < 0.0 <==> rx[0] >= 0x80
  {
    var rest := rx[1] * 0x1_0000 + rx[2] * 0x100 + rx[3];
    assert rest < 0x100_0000;
    assert Max31855k.Pack(rx) == rx[0] * 0x100_0000 + rest;
    if rx[0] >= 0x80 {
      assert rx[0] * 0x100_0000 >= 0x80 * 0x100_0000;
    } else {
      assert rx[0] * 0x100_0000 <= 0x7F * 0x100_0000;
    }
  }
}
