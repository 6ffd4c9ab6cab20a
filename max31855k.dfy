/** The MAX31855K thermocouple converter as the firmware reads it: four SPI
    bytes packed into a 32-bit word, and the 14-bit signed temperature field in
    its top bits. Helpers/thermocouple.c, UserDefinedLib/thermocouple.c and
    InverterController.c carry identical copies of this code. */
module Max31855k {
  import opened CNumeric
  import Arith

  /** Bit 18: the temperature field starts here. */
  const FIELD_SHIFT: nat := 0x4_0000
  /** `0x3FFF`: the field is 14 bits wide. */
  const FIELD_SPAN: nat := 0x4000
  /** Bit 31 of the word, the sign of the temperature. */
  const SIGN_BIT: nat := 0x8000_0000

  /** Four bytes as SPI delivers them. */
  predicate IsFrame(rx: seq<nat>)
  {
    |rx| == 4 && forall i :: 0 <= i < 4 ==> rx[i] < 256
  }

  /** `max31855k_read`: the first byte received is the most significant. */
  function Pack(rx: seq<nat>): (w: nat)
    requires IsFrame(rx)
    ensures w < U32
  {
    rx[0] * 0x100_0000 + rx[1] * 0x1_0000 + rx[2] * 0x100 + rx[3]
  }

  /** Byte `i` of a word, counting from the most significant. */
  function ByteOf(w: nat, i: nat): nat
    requires i < 4
  {
    (w / [0x100_0000, 0x1_0000, 0x100, 1][i]) % 0x100
  }

  /** Packing loses nothing: every received byte sits in its own place. */
  lemma UnpackPack(rx: seq<nat>)
    requires IsFrame(rx)
    ensures forall i :: 0 <= i < 4 ==> ByteOf(Pack(rx), i) == rx[i]
  {
    var w := Pack(rx);
    Arith.DivUnique(w, 0x100_0000, rx[0], rx[1] * 0x1_0000 + rx[2] * 0x100 + rx[3]);
    Arith.ModUnique(rx[0], 0x100, 0, rx[0]);
    Arith.DivUnique(w, 0x1_0000, rx[0] * 0x100 + rx[1], rx[2] * 0x100 + rx[3]);
    Arith.ModUnique(rx[0] * 0x100 + rx[1], 0x100, rx[0], rx[1]);
    Arith.DivUnique(w, 0x100, rx[0] * 0x1_0000 + rx[1] * 0x100 + rx[2], rx[3]);
    Arith.ModUnique(rx[0] * 0x1_0000 + rx[1] * 0x100 + rx[2], 0x100, rx[0] * 0x100 + rx[1], rx[2]);
    Arith.ModUnique(w, 0x100, rx[0] * 0x1_0000 + rx[1] * 0x100 + rx[2], rx[3]);
  }

  /** `(value >> 18) & 0x3FFF`. */
  function Field(w: nat): (f: nat)
    ensures f < FIELD_SPAN
  {
    (w / FIELD_SHIFT) % FIELD_SPAN
  }

  /** Conversion of a value in [0, 65536) to `int16_t`. */
  function ToInt16(x: nat): int
    requires x < 0x1_0000
  {
    if x < 0x8000 then x else x - 0x1_0000
  }

  /** The field held in an `int16_t`, with `temp |= 0xC000` when bit 13 is set. */
  function SignExtend(f: nat): (t: int)
    requires f < FIELD_SPAN
    ensures -0x2000 <= t < 0x2000
    ensures t % FIELD_SPAN == f
  {
    if f >= 0x2000 then ToInt16(f + 0xC000) else f
  }

  /** `max31855k_temp_c`: the field in quarter degrees. */
  function TempC(w: nat): (c: real)
    requires w < U32
    ensures -2048.0 <= c <= 2047.75
    ensures c < 0.0 <==> w >= SIGN_BIT
  {
    assert w / FIELD_SHIFT < FIELD_SPAN by {
      Arith.DivBelow(w, FIELD_SHIFT, FIELD_SPAN);
    }
    assert Field(w) == w / FIELD_SHIFT;
    assert w >= SIGN_BIT <==> Field(w) >= 0x2000 by {
      if w >= SIGN_BIT {
        Arith.DivUnique(SIGN_BIT, FIELD_SHIFT, 0x2000, 0);
      } else {
        Arith.DivBelow(w, FIELD_SHIFT, 0x2000);
      }
    }
    SignExtend(Field(w)) as real * 0.25
  }

  /** A word whose bits 31..18 hold `t` in 14-bit two's complement over the low bits `low`. */
  function EncodeWord(t: int, low: nat): (w: nat)
    requires -0x2000 <= t < 0x2000 && low < FIELD_SHIFT
    ensures w < U32
  {
    Arith.DivBelow(t % FIELD_SPAN * FIELD_SHIFT + low, FIELD_SHIFT, FIELD_SPAN);
    (t % FIELD_SPAN) * FIELD_SHIFT + low
  }

  /** Every temperature the field can carry decodes to itself, whatever the
      fault and internal-temperature bits below it hold. */
  lemma DecodeEncode(t: int, low: nat)
    requires -0x2000 <= t < 0x2000 && low < FIELD_SHIFT
    ensures TempC(EncodeWord(t, low)) == t as real * 0.25
  {
    var f := t % FIELD_SPAN;
    var w := EncodeWord(t, low);
    Arith.DivUnique(w, FIELD_SHIFT, f, low);
    Arith.ModUnique(f, FIELD_SPAN, 0, f);
    assert Field(w) == f;
  }
}
