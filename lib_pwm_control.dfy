/** The parameterised PWM helpers of UserDefinedLib/pwm_control.c: each phase
    is one state machine of a PIO block, set up once and then fed three timing
    words at a time through its transmit FIFO. */
module LibPwmControl {
  import opened CNumeric

  /** State machines in a PIO block. */
  const SM_COUNT: nat := 4

  /** The arguments `phase_pwm_program_init` receives for a state machine. */
  datatype SmSetup = SmSetup(offset: nat, pin: nat, triggerPin: nat)

  /** What a state machine has been set up with, if anything. */
  datatype Setup = NotSetUp | SetUp(setup: SmSetup)

  /** A `float` that `(uint32_t)` converts without undefined behaviour: its
      truncation toward zero lies in [0, 2^32). */
  predicate CastDefined(x: real)
  {
    -1.0 < x < U32 as real
  }

  /** `(uint32_t)x`: the fraction is dropped toward zero. */
  function Trunc(x: real): (n: nat)
    requires CastDefined(x)
    ensures n < U32
    ensures 0.0 <= x ==> n as real <= x < n as real + 1.0
    ensures x < 1.0 ==> n == 0
  {
    if x < 0.0 then 0 else x.Floor
  }

  /** Truncation keeps the order of its arguments. */
  lemma TruncMonotone(x: real, y: real)
    requires CastDefined(x) && CastDefined(y) && x <= y
    ensures Trunc(x) <= Trunc(y)
  {
    if 0.0 <= x {
      assert (Trunc(x) as real) <= y;
    }
  }

  /** The three products `pwm_update_params` converts can all be converted. */
  predicate WordsDefined(phaseOffset: real, clk: real, period: real, duty: real)
  {
    CastDefined(phaseOffset * clk) &&
    CastDefined(period * duty * clk) &&
    CastDefined(period * (1.0 - duty) * clk)
  }

  /** The words `pwm_update_params` pushes, in push order: the phase delay,
      the high time and the low time, all in clock cycles. */
  function UpdateWords(phaseOffset: real, clk: real, period: real, duty: real): (ws: seq<nat>)
    requires WordsDefined(phaseOffset, clk, period, duty)
    ensures |ws| == 3
    ensures forall i :: 0 <= i < 3 ==> ws[i] < U32
  {
    [Trunc(phaseOffset * clk), Trunc(period * duty * clk), Trunc(period * (1.0 - duty) * clk)]
  }

  /** No minimum is enforced: a duty of 0 gives a high time of 0 and a duty of
      1 a low time of 0. */
  lemma NoClamp(phaseOffset: real, clk: real, period: real)
    requires WordsDefined(phaseOffset, clk, period, 0.0) && WordsDefined(phaseOffset, clk, period, 1.0)
    ensures UpdateWords(phaseOffset, clk, period, 0.0)[1] == 0
    ensures UpdateWords(phaseOffset, clk, period, 1.0)[2] == 0
  {
    assert period * 0.0 * clk == 0.0;
    assert period * (1.0 - 1.0) * clk == 0.0;
  }

  /** For a duty in [0,1] the high and low times never add up to more than
      the period in cycles, and truncation loses less than two cycles. */
  lemma HighLowWithinPeriod(phaseOffset: real, clk: real, period: real, duty: real)
    requires WordsDefined(phaseOffset, clk, period, duty)
    requires 0.0 <= duty <= 1.0 && 0.0 <= period && 0.0 <= clk
    ensures var ws := UpdateWords(phaseOffset, clk, period, duty);
      period * clk - 2.0 < (ws[1] + ws[2]) as real <= period * clk
  {
    var pc := period * clk;
    assert 0.0 <= pc;
    var h, l := period * duty * clk, period * (1.0 - duty) * clk;
    assert h == duty * pc && l == (1.0 - duty) * pc;
    MulUnitBounds(duty, pc);
    MulUnitBounds(1.0 - duty, pc);
    assert h + l == pc;
  }

  /** A larger duty never shortens the high time nor lengthens the low time. */
  lemma MonotoneInDuty(phaseOffset: real, clk: real, period: real, a: real, b: real)
    requires WordsDefined(phaseOffset, clk, period, a) && WordsDefined(phaseOffset, clk, period, b)
    requires 0.0 <= period && 0.0 <= clk && a <= b
    ensures UpdateWords(phaseOffset, clk, period, a)[1] <= UpdateWords(phaseOffset, clk, period, b)[1]
    ensures UpdateWords(phaseOffset, clk, period, b)[2] <= UpdateWords(phaseOffset, clk, period, a)[2]
  {
    MulMonotone(a, b, period);
    assert period * a <= period * b;
    MulMonotone(period * a, period * b, clk);
    TruncMonotone(period * a * clk, period * b * clk);
    MulMonotone(1.0 - b, 1.0 - a, period);
    assert period * (1.0 - b) <= period * (1.0 - a);
    MulMonotone(period * (1.0 - b), period * (1.0 - a), clk);
    TruncMonotone(period * (1.0 - b) * clk, period * (1.0 - a) * clk);
  }

  /** A PIO block as these helpers see it: a transmit FIFO, an enable flag
      and the set-up arguments of each state machine. */
  class PioBlock {
    var txFifos: seq<seq<nat>>
    var smEnabled: seq<bool>
    var setups: seq<Setup>

    ghost predicate Valid()
      reads this
    {
      |txFifos| == SM_COUNT && |smEnabled| == SM_COUNT && |setups| == SM_COUNT
    }

    /** A block out of reset: empty FIFOs, no state machine enabled or set up. */
    constructor ()
      ensures Valid()
      ensures txFifos == [[], [], [], []] && smEnabled == [false, false, false, false]
      ensures setups == [NotSetUp, NotSetUp, NotSetUp, NotSetUp]
    {
      txFifos := [[], [], [], []];
      smEnabled := [false, false, false, false];
      setups := [NotSetUp, NotSetUp, NotSetUp, NotSetUp];
    }

    /** `pio_sm_put_blocking`: `word` joins the back of the FIFO of `sm`. */
    method Put(sm: int, word: nat)
      requires Valid() && 0 <= sm < SM_COUNT
      modifies this
      ensures Valid()
      ensures txFifos == old(txFifos)[sm := old(txFifos[sm]) + [word]]
      ensures smEnabled == old(smEnabled) && setups == old(setups)
    {
      txFifos := txFifos[sm := txFifos[sm] + [word]];
    }
  }

  /** `pwm_init_all`: state machine `i` is set up on `pins[i]` for every `i`
      below `numPhases`, all with the same program offset and trigger pin. */
  method PwmInitAll(pio: PioBlock, offset: nat, pins: array<nat>, triggerPin: nat, numPhases: int)
    requires pio.Valid() && numPhases <= SM_COUNT && numPhases <= pins.Length
    modifies pio
    ensures pio.Valid()
    ensures forall i :: 0 <= i < numPhases ==> pio.setups[i] == SetUp(SmSetup(offset, pins[i], triggerPin))
    ensures forall i :: 0 <= i < SM_COUNT && numPhases <= i ==> pio.setups[i] == old(pio.setups[i])
    ensures pio.txFifos == old(pio.txFifos) && pio.smEnabled == old(pio.smEnabled)
  {
    var i := 0;
    while i < numPhases
      invariant 0 <= i && (i == 0 || i <= numPhases) && pio.Valid()
      invariant forall k :: 0 <= k < i ==> pio.setups[k] == SetUp(SmSetup(offset, pins[k], triggerPin))
      invariant forall k :: i <= k < SM_COUNT ==> pio.setups[k] == old(pio.setups[k])
      invariant pio.txFifos == old(pio.txFifos) && pio.smEnabled == old(pio.smEnabled)
    {
      pio.setups := pio.setups[i := SetUp(SmSetup(offset, pins[i], triggerPin))];
      i := i + 1;
    }
  }

  /** `pwm_update_params`: the three words join the back of the FIFO of
      `phase`, in the order delay, high, low; nothing else changes. */
  method PwmUpdateParams(pio: PioBlock, phase: int, phaseOffset: real, clk: real, period: real, duty: real)
    requires pio.Valid() && 0 <= phase < SM_COUNT
    requires WordsDefined(phaseOffset, clk, period, duty)
    modifies pio
    ensures pio.Valid()
    ensures pio.txFifos == old(pio.txFifos)[phase := old(pio.txFifos[phase]) + UpdateWords(phaseOffset, clk, period, duty)]
    ensures pio.smEnabled == old(pio.smEnabled) && pio.setups == old(pio.setups)
  {
    var phaseDelay := Trunc(phaseOffset * clk);
    var highTime := Trunc(period * duty * clk);
    var lowTime := Trunc(period * (1.0 - duty) * clk);
    pio.Put(phase, phaseDelay);
    pio.Put(phase, highTime);
    pio.Put(phase, lowTime);
    assert old(pio.txFifos[phase]) + UpdateWords(phaseOffset, clk, period, duty)
        == old(pio.txFifos[phase]) + [phaseDelay] + [highTime] + [lowTime];
  }

  /** `pwm_enable`: only the enable flag of `phase` changes. */
  method PwmEnable(pio: PioBlock, phase: int, enable: bool)
    requires pio.Valid() && 0 <= phase < SM_COUNT
    modifies pio
    ensures pio.Valid()
    ensures pio.smEnabled == old(pio.smEnabled)[phase := enable]
    ensures pio.txFifos == old(pio.txFifos) && pio.setups == old(pio.setups)
  {
    pio.smEnabled := pio.smEnabled[phase := enable];
  }
}
