/** The four-phase inverter PWM of Helpers/pwm_control.c: the search for a PIO
    cycle count and clock divider, the three words each state machine
    receives, and the manual trigger override used for debugging. */
module PhasePwm {
  import opened CNumeric
  import opened DutyLists

  const SM_COUNT: nat := 4
  const PWM_PINS: seq<nat> := [2, 3, 4, 5]
  const TRIGGER_PIN: nat := 6
  const MAX_CYCLES: nat := 65535
  const MIN_CYCLES: nat := 100
  const MIN_DIV: real := 1.0
  const MAX_DIV: real := 256.0
  /** The starting `best_err`: a candidate must beat it to be taken. */
  const INITIAL_ERR: real := 1000000000000.0
  /** Depth of a state machine's TX FIFO. */
  const FIFO_DEPTH: nat := 4

  /** `round_to_uint`: the conversion `(uint32_t)(x + 0.5)`, defined while the sum fits. */
  function RoundToUint(x: real): (r: nat)
    requires 0.0 <= x && x + 0.5 < U32 as real
    ensures r < U32
    ensures r as real - 0.5 <= x < r as real + 0.5
  {
    (x + 0.5).Floor
  }

  // ----- compute_best_timing -----

  /** The divider that makes `cycles` PIO cycles last one period of `target`. */
  function Divider(target: real, sysHz: nat, cycles: nat): real
    requires 0.0 < target && 0 < cycles
  {
    sysHz as real / (target * cycles as real)
  }

  /** A cycle count whose divider lies in [MIN_DIV, MAX_DIV]. A target of zero or
      below has none: the C division then yields infinity or a negative value. */
  predicate Accepted(target: real, sysHz: nat, cycles: nat)
  {
    0.0 < target && 0 < cycles &&
    MIN_DIV <= Divider(target, sysHz, cycles) && Divider(target, sysHz, cycles) <= MAX_DIV
  }

  /** Distance between the frequency the divider gives back and the target. In exact
      arithmetic the divider gives the target back, so every accepted count has error 0. */
  function TimingError(target: real, sysHz: nat, cycles: nat): (r: real)
    requires Accepted(target, sysHz, cycles)
    ensures r == 0.0
  {
    var div := Divider(target, sysHz, cycles);
    DividerGivesBack(target, sysHz, cycles);
    Abs(sysHz as real / (div * cycles as real) - target)
  }

  lemma DividerGivesBack(target: real, sysHz: nat, cycles: nat)
    requires Accepted(target, sysHz, cycles)
    ensures sysHz as real / (Divider(target, sysHz, cycles) * cycles as real) == target
  {
    var n := target * cycles as real;
    var div := Divider(target, sysHz, cycles);
    assert div * n == sysHz as real;
    var m := div * cycles as real;
    assert m * target == sysHz as real;
    assert m > 0.0;
  }

  /** A count the search may choose: in range, accepted, and below the initial error. */
  predicate Candidate(target: real, sysHz: nat, cycles: nat)
  {
    MIN_CYCLES <= cycles && cycles <= MAX_CYCLES && Accepted(target, sysHz, cycles) &&
    TimingError(target, sysHz, cycles) < INITIAL_ERR
  }

  datatype Timing = Timing(cycles: nat, clkdiv: real)

  /** What `compute_best_timing` promises: the candidate of least error, the
      largest count among equal errors, with its divider; or cycles 0 with
      divider 1.0 when there is no candidate. */
  ghost predicate IsBestTiming(target: real, sysHz: nat, t: Timing)
  {
    (t.cycles == 0 && t.clkdiv == 1.0 && forall c: nat :: !Candidate(target, sysHz, c)) ||
    (Candidate(target, sysHz, t.cycles) && t.clkdiv == Divider(target, sysHz, t.cycles) &&
     forall c: nat :: Candidate(target, sysHz, c) ==>
       TimingError(target, sysHz, t.cycles) <= TimingError(target, sysHz, c) &&
       (TimingError(target, sysHz, c) == TimingError(target, sysHz, t.cycles) ==> c <= t.cycles))
  }

  /** The largest accepted count in [MIN_CYCLES, hi], or 0 when there is none. */
  function LargestAccepted(target: real, sysHz: nat, hi: nat): (c: nat)
    ensures c == 0 || (MIN_CYCLES <= c <= hi && Accepted(target, sysHz, c))
    ensures forall k :: c < k <= hi && MIN_CYCLES <= k ==> !Accepted(target, sysHz, k)
    decreases hi
  {
    if hi < MIN_CYCLES then 0
    else if Accepted(target, sysHz, hi) then hi
    else LargestAccepted(target, sysHz, hi - 1)
  }

  /** A timing the rest of the file can use: a count in range and a divider of at least 1. */
  predicate TimingOk(t: Timing)
  {
    t.cycles <= MAX_CYCLES && MIN_DIV <= t.clkdiv
  }

  /** The shape of any timing the search can return: no count with divider 1.0,
      or a count with the divider that reaches the target: `cycles` PIO cycles at
      that divider last exactly one period of the target. */
  predicate TimingFor(target: real, sysHz: nat, t: Timing)
    ensures TimingFor(target, sysHz, t) && t.cycles != 0 ==>
      t.clkdiv * (target * t.cycles as real) == sysHz as real
  {
    TimingOk(t) &&
    (t.cycles == 0 ==> t.clkdiv == 1.0) &&
    (t.cycles != 0 ==> 0.0 < target && t.clkdiv == Divider(target, sysHz, t.cycles))
  }

  /** The timing `compute_best_timing` settles on, written as a reference definition. */
  function BestTiming(target: real, sysHz: nat): (t: Timing)
    ensures TimingFor(target, sysHz, t)
  {
    var c := LargestAccepted(target, sysHz, MAX_CYCLES);
    if c == 0 then Timing(0, 1.0) else Timing(c, Divider(target, sysHz, c))
  }

  /** The reference definition meets the promise. */
  lemma BestTimingIsBest(target: real, sysHz: nat)
    ensures IsBestTiming(target, sysHz, BestTiming(target, sysHz))
  {
    var c := LargestAccepted(target, sysHz, MAX_CYCLES);
    if c != 0 {
      forall k | Candidate(target, sysHz, k)
        ensures TimingError(target, sysHz, c) <= TimingError(target, sysHz, k) && k <= c
      {
      }
    }
  }

  /** At most one timing meets the promise. */
  lemma BestTimingUnique(target: real, sysHz: nat, t1: Timing, t2: Timing)
    requires IsBestTiming(target, sysHz, t1) && IsBestTiming(target, sysHz, t2)
    ensures t1 == t2
  {
    if t1.cycles != 0 && t2.cycles != 0 {
      assert t2.cycles <= t1.cycles && t1.cycles <= t2.cycles;
    }
  }

  /** The search picks the largest count not above MAX_CYCLES or `sysHz/target`, the
      finest resolution, as long as that count's divider is at most MAX_DIV. */
  lemma BestTimingClosedForm(target: real, sysHz: nat, m: nat)
    requires 0.0 < target && MIN_CYCLES <= m <= MAX_CYCLES
    requires m == MAX_CYCLES || m == (sysHz as real / target).Floor
    requires m as real <= sysHz as real / target
    requires Divider(target, sysHz, m) <= MAX_DIV
    ensures BestTiming(target, sysHz) == Timing(m, Divider(target, sysHz, m))
  {
    DividerAtLeastOne(target, sysHz, m);
    forall k | m < k <= MAX_CYCLES
      ensures !Accepted(target, sysHz, k)
    {
      assert sysHz as real / target < k as real;
      DividerBelowOne(target, sysHz, k);
    }
    LargestAcceptedIs(target, sysHz, m);
  }

  /** The scan stops at the first accepted count from the top. */
  lemma LargestAcceptedIs(target: real, sysHz: nat, m: nat)
    requires MIN_CYCLES <= m <= MAX_CYCLES && Accepted(target, sysHz, m)
    requires forall k :: m < k <= MAX_CYCLES ==> !Accepted(target, sysHz, k)
    ensures LargestAccepted(target, sysHz, MAX_CYCLES) == m
  {
  }

  lemma DividerAtLeastOne(target: real, sysHz: nat, m: nat)
    requires 0.0 < target && 0 < m && m as real <= sysHz as real / target
    ensures MIN_DIV <= Divider(target, sysHz, m)
  {
    var n := target * m as real;
    assert 0.0 < n <= sysHz as real by {
      QuotientCompare(sysHz as real, target, m as real);
    }
    QuotientAtLeastOne(sysHz as real, n);
  }

  lemma DividerBelowOne(target: real, sysHz: nat, k: nat)
    requires 0.0 < target && 0 < k && sysHz as real / target < k as real
    ensures Divider(target, sysHz, k) < MIN_DIV
  {
    var n := target * k as real;
    assert sysHz as real < n by {
      QuotientCompare(sysHz as real, target, k as real);
    }
    QuotientBelowOne(sysHz as real, n);
  }

  /** `FREQ 100000` on a 125 MHz clock: the target 200 kHz is reached with 625 cycles at divider 1. */
  lemma BestTimingAt100kHz()
    ensures BestTiming(2.0 * 100000.0, 125000000) == Timing(625, 1.0)
  {
    assert (125000000 as real / 200000.0).Floor == 625;
    BestTimingClosedForm(200000.0, 125000000, 625);
  }

  /** Below the lowest reachable frequency (divider above MAX_DIV even at MAX_CYCLES)
      there is no candidate and the search gives cycles 0 with divider 1.0. */
  lemma BestTimingTooLow(target: real, sysHz: nat)
    requires 0.0 < target && MAX_DIV < Divider(target, sysHz, MAX_CYCLES)
    ensures BestTiming(target, sysHz) == Timing(0, 1.0)
  {
    var c := LargestAccepted(target, sysHz, MAX_CYCLES);
    if c != 0 {
      DividerAntitone(target, sysHz, c, MAX_CYCLES);
    }
  }

  /** Fewer cycles need a larger divider. */
  lemma DividerAntitone(target: real, sysHz: nat, c: nat, d: nat)
    requires 0.0 < target && 0 < c <= d
    ensures Divider(target, sysHz, d) <= Divider(target, sysHz, c)
  {
    var a, b := target * c as real, target * d as real;
    assert 0.0 < a <= b by {
      MulMonotone(c as real, d as real, target);
    }
    QuotientAntitone(sysHz as real, a, b);
  }

  /** A 1 Hz request on a 125 MHz clock: even 65535 cycles need a divider near 954. */
  lemma BestTimingAt1Hz()
    ensures BestTiming(2.0 * 1.0, 125000000) == Timing(0, 1.0)
  {
    BestTimingTooLow(2.0, 125000000);
  }

  /** `compute_best_timing`: counts from MAX_CYCLES down to MIN_CYCLES, keeping a
      candidate only when its error is strictly smaller than the best so far. */
  method ComputeBestTiming(target: real, sysHz: nat) returns (t: Timing)
    ensures t == BestTiming(target, sysHz)
  {
    var bestErr := INITIAL_ERR;
    var bestCycles := 0;
    var bestDiv := 1.0;
    var cycles := MAX_CYCLES;
    while cycles >= MIN_CYCLES
      invariant MIN_CYCLES - 1 <= cycles <= MAX_CYCLES
      invariant bestCycles == 0 ==>
        bestDiv == 1.0 && bestErr == INITIAL_ERR &&
        forall c :: cycles < c ==> !Candidate(target, sysHz, c)
      invariant bestCycles != 0 ==>
        cycles < bestCycles && Candidate(target, sysHz, bestCycles) &&
        bestDiv == Divider(target, sysHz, bestCycles) && bestErr == TimingError(target, sysHz, bestCycles) &&
        forall c :: cycles < c && Candidate(target, sysHz, c) ==>
          bestErr <= TimingError(target, sysHz, c) && (TimingError(target, sysHz, c) == bestErr ==> c <= bestCycles)
      decreases cycles
    {
      // A target of zero or below makes the C divider infinite or negative: never accepted.
      if 0.0 < target {
        var div := Divider(target, sysHz, cycles);
        if MIN_DIV <= div && div <= MAX_DIV {
          var err := TimingError(target, sysHz, cycles);
          if err < bestErr {
            bestErr, bestCycles, bestDiv := err, cycles, div;
          }
        }
      }
      cycles := cycles - 1;
    }
    t := Timing(bestCycles, bestDiv);
    assert IsBestTiming(target, sysHz, t);
    BestTimingIsBest(target, sysHz);
    BestTimingUnique(target, sysHz, t, BestTiming(target, sysHz));
  }

  // ----- The words of update_pwm_parameters -----

  /** State machines 0 and 2 drive pair 1, state machines 1 and 3 pair 2. */
  function DutyOf(sm: nat, duty1: real, duty2: real): real
  {
    if sm % 2 == 0 then duty1 else duty2
  }

  /** `(float)sm * phase_shift * sys_clk_hz / clkdiv`, with `phase_shift` a quarter
      of the period of the requested (not the doubled) frequency. */
  function PhaseArg(sm: nat, frequency: real, sysHz: nat, clkdiv: real): (r: real)
    requires 0.0 < frequency && 0.0 < clkdiv
    ensures 0.0 <= r && (sm == 0 ==> r == 0.0)
  {
    sm as real * ((1.0 / frequency) / 4.0) * sysHz as real / clkdiv
  }

  /** Frequencies whose largest phase argument still converts into 32 bits. */
  predicate PhaseFits(frequency: real, sysHz: nat)
  {
    0.0 < frequency && PhaseArg(SM_COUNT - 1, frequency, sysHz, MIN_DIV) + 0.5 < U32 as real
  }

  lemma PhaseArgBounds(sm: nat, frequency: real, sysHz: nat, clkdiv: real)
    requires sm < SM_COUNT && PhaseFits(frequency, sysHz) && MIN_DIV <= clkdiv
    ensures 0.0 <= PhaseArg(sm, frequency, sysHz, clkdiv)
    ensures PhaseArg(sm, frequency, sysHz, clkdiv) <= PhaseArg(SM_COUNT - 1, frequency, sysHz, MIN_DIV)
  {
    var k := ((1.0 / frequency) / 4.0) * sysHz as real;
    assert 0.0 <= k;
    var x := sm as real * ((1.0 / frequency) / 4.0) * sysHz as real;
    assert x == sm as real * k;
    MulMonotone(sm as real, (SM_COUNT - 1) as real, k);
    assert 0.0 <= x <= (SM_COUNT - 1) as real * k;
    QuotientAntitone(x, MIN_DIV, clkdiv);
  }

  /** The three words one state machine receives, in the order it pulls them. */
  datatype SmWords = SmWords(phase: nat, high: nat, low: nat)

  function FifoWords(w: SmWords): seq<nat>
  {
    [w.phase, w.high, w.low]
  }

  /** `round_to_uint(duty * total_cycles)`, before the minimum is applied. */
  function RawHigh(duty: real, total: nat): (h: nat)
    requires InUnitRange(duty) && total <= MAX_CYCLES
    ensures h <= total
  {
    RoundedShare(duty, total);
    RoundToUint(duty * total as real)
  }

  function AtLeastOne(n: nat): nat
  {
    if n < 1 then 1 else n
  }

  /** The words of state machine `sm`: `low` is taken from the unclamped `high`
      (which never exceeds the total, so the unsigned subtraction does not wrap);
      then `high` and `low` are raised to 1, and so is the phase of state
      machines 1 to 3. The high and low counts add up to the cycle count, or one
      more when a side was raised to 1 (two with no timing). */
  function WordsFor(sm: nat, frequency: real, duty: real, sysHz: nat, t: Timing): (w: SmWords)
    requires sm < SM_COUNT && PhaseFits(frequency, sysHz) && InUnitRange(duty) && TimingOk(t)
    ensures 1 <= w.high && 1 <= w.low && (0 < sm ==> 1 <= w.phase) && w.phase < U32
    ensures t.cycles <= w.high + w.low <= t.cycles + 1 || (t.cycles == 0 && w.high == 1 && w.low == 1)
  {
    var high := RawHigh(duty, t.cycles);
    var low := t.cycles - high;
    PhaseArgBounds(sm, frequency, sysHz, t.clkdiv);
    var phase := RoundToUint(PhaseArg(sm, frequency, sysHz, t.clkdiv));
    SmWords(if phase == 0 && sm > 0 then 1 else phase, AtLeastOne(high), AtLeastOne(low))
  }

  /** What `update_pwm_parameters(frequency, duty1, duty2)` loads into the four FIFOs. */
  function Programmed(frequency: real, duty1: real, duty2: real, sysHz: nat): (ws: seq<SmWords>)
    requires PhaseFits(frequency, sysHz) && InUnitRange(duty1) && InUnitRange(duty2)
    ensures |ws| == SM_COUNT
  {
    ProgrammedWith(frequency, duty1, duty2, sysHz, BestTiming(2.0 * frequency, sysHz))
  }

  /** The words of all four state machines for a given timing. */
  function ProgrammedWith(frequency: real, duty1: real, duty2: real, sysHz: nat, t: Timing): (ws: seq<SmWords>)
    requires PhaseFits(frequency, sysHz) && InUnitRange(duty1) && InUnitRange(duty2) && TimingOk(t)
    ensures |ws| == SM_COUNT
    ensures forall i :: 0 <= i < SM_COUNT ==> ws[i] == WordsFor(i, frequency, DutyOf(i, duty1, duty2), sysHz, t)
  {
    [WordsFor(0, frequency, duty1, sysHz, t), WordsFor(1, frequency, duty2, sysHz, t),
     WordsFor(2, frequency, duty1, sysHz, t), WordsFor(3, frequency, duty2, sysHz, t)]
  }

  /** Every high and low word is at least 1, and so is every phase but state machine 0's, which is 0. */
  lemma WordsMinimums(sm: nat, frequency: real, duty: real, sysHz: nat, t: Timing)
    requires sm < SM_COUNT && PhaseFits(frequency, sysHz) && InUnitRange(duty) && TimingOk(t)
    ensures var w := WordsFor(sm, frequency, duty, sysHz, t);
      1 <= w.high && 1 <= w.low && (sm == 0 <==> w.phase == 0)
  {
  }

  /** High and low add up to the cycle count exactly when neither minimum was
      applied, and the high word is then `duty * total` rounded to nearest; a
      duty of 0 or 1 costs one extra cycle. */
  lemma HighLowSplit(sm: nat, frequency: real, duty: real, sysHz: nat, t: Timing)
    requires sm < SM_COUNT && PhaseFits(frequency, sysHz) && InUnitRange(duty) && TimingOk(t)
    requires 0 < t.cycles
    ensures var w := WordsFor(sm, frequency, duty, sysHz, t);
      var r := RawHigh(duty, t.cycles);
      (w.high + w.low == t.cycles <==> 0 < r < t.cycles) &&
      w.high + w.low <= t.cycles + 1 &&
      (0 < r ==> w.high as real - 0.5 <= duty * t.cycles as real < w.high as real + 0.5)
  {
  }

  /** With a timing found, state machine `sm` starts `sm` quarter periods late: a
      period of the output is twice the cycle count, so the phase is `sm * cycles / 2`
      rounded. */
  lemma QuarterPeriodPhases(sm: nat, frequency: real, duty: real, sysHz: nat, t: Timing)
    requires sm < SM_COUNT && PhaseFits(frequency, sysHz) && InUnitRange(duty)
    requires TimingFor(2.0 * frequency, sysHz, t) && t.cycles != 0
    ensures WordsFor(sm, frequency, duty, sysHz, t).phase == RoundToUint(sm as real * t.cycles as real / 2.0)
  {
    PhaseArgAt(sm, frequency, sysHz, t.cycles, t.clkdiv);
  }

  lemma PhaseArgAt(sm: nat, frequency: real, sysHz: nat, cycles: nat, div: real)
    requires 0.0 < frequency && 0 < cycles && MIN_DIV <= div
    requires div == Divider(2.0 * frequency, sysHz, cycles)
    ensures PhaseArg(sm, frequency, sysHz, div) == sm as real * cycles as real / 2.0
  {
    var n := 2.0 * frequency * cycles as real;
    assert div * n == sysHz as real by {
      QuotientCompare(sysHz as real, n, 0.0);
    }
    QuarterPhaseArith(sm as real, frequency, sysHz as real, cycles as real, div);
  }

  lemma QuarterPhaseArith(sm: real, f: real, s: real, c: real, div: real)
    requires 0.0 < f && 0.0 < c && 0.0 < div && div * (2.0 * f * c) == s
    ensures sm * ((1.0 / f) / 4.0) * s / div == sm * c / 2.0
  {
    var k := sm * ((1.0 / f) / 4.0) * s;
    assert k == sm * ((1.0 / f) / 4.0) * (div * (2.0 * f * c));
    assert (1.0 / f) * f == 1.0;
    assert k == div * (sm * c / 2.0) * ((1.0 / f) * f);
  }

  /** When no timing is found the words are still loaded: every high and low word is 1. */
  lemma FailedTimingWords(sm: nat, frequency: real, duty: real, sysHz: nat, t: Timing)
    requires sm < SM_COUNT && PhaseFits(frequency, sysHz) && InUnitRange(duty)
    requires TimingFor(2.0 * frequency, sysHz, t) && t.cycles == 0
    ensures var w := WordsFor(sm, frequency, duty, sysHz, t);
      w.high == 1 && w.low == 1
  {
  }

  // ----- The order of the SDK calls -----

  /** A call `update_pwm_parameters` makes on one state machine. */
  datatype PioOp = ClearFifos(sm: nat) | SetClkdiv(sm: nat, clkdiv: real) | Put(sm: nat, word: nat)

  /** The first loop over state machines 0..n-1: FIFOs cleared, divider set. */
  function SetupOps(clkdiv: real, n: nat): (ops: seq<PioOp>)
    ensures |ops| == 2 * n
  {
    if n == 0 then [] else SetupOps(clkdiv, n - 1) + [ClearFifos(n - 1), SetClkdiv(n - 1, clkdiv)]
  }

  /** The second loop over state machines 0..n-1: three words pushed to each. */
  function PushOps(ws: seq<SmWords>, n: nat): (ops: seq<PioOp>)
    requires n <= |ws|
    ensures |ops| == 3 * n
  {
    if n == 0 then []
    else PushOps(ws, n - 1) + [Put(n - 1, ws[n - 1].phase), Put(n - 1, ws[n - 1].high), Put(n - 1, ws[n - 1].low)]
  }

  /** The calls `update_pwm_parameters` makes: every FIFO is cleared before any word is pushed. */
  function UpdateOps(clkdiv: real, ws: seq<SmWords>): (ops: seq<PioOp>)
    requires |ws| == SM_COUNT
    ensures |ops| == 5 * SM_COUNT
    ensures forall i, j :: 0 <= i < j < |ops| && ops[i].Put? ==> !ops[j].ClearFifos?
  {
    SetupOpsNoPut(clkdiv, SM_COUNT);
    PushOpsAllPut(ws, SM_COUNT);
    ClearsBeforePuts(SetupOps(clkdiv, SM_COUNT), PushOps(ws, SM_COUNT));
    SetupOps(clkdiv, SM_COUNT) + PushOps(ws, SM_COUNT)
  }

  /** The TX FIFOs after one call. */
  function ApplyOp(fifos: seq<seq<nat>>, op: PioOp): (r: seq<seq<nat>>)
    ensures |r| == |fifos|
  {
    match op
    case ClearFifos(sm) => if sm < |fifos| then fifos[sm := []] else fifos
    case SetClkdiv(_, _) => fifos
    case Put(sm, w) => if sm < |fifos| then fifos[sm := fifos[sm] + [w]] else fifos
  }

  function ApplyOps(fifos: seq<seq<nat>>, ops: seq<PioOp>): (r: seq<seq<nat>>)
    ensures |r| == |fifos|
    decreases |ops|
  {
    if ops == [] then fifos else ApplyOp(ApplyOps(fifos, ops[..|ops| - 1]), ops[|ops| - 1])
  }

  /** FIFOs holding exactly the words of each state machine. */
  function LoadedFifos(ws: seq<SmWords>): (fifos: seq<seq<nat>>)
    ensures |fifos| == |ws|
  {
    seq(|ws|, i requires 0 <= i < |ws| => FifoWords(ws[i]))
  }

  lemma {:induction false} SetupOpsNoPut(clkdiv: real, n: nat)
    ensures forall i :: 0 <= i < |SetupOps(clkdiv, n)| ==> !SetupOps(clkdiv, n)[i].Put?
  {
    if n > 0 {
      SetupOpsNoPut(clkdiv, n - 1);
    }
  }

  lemma {:induction false} PushOpsAllPut(ws: seq<SmWords>, n: nat)
    requires n <= |ws|
    ensures forall i :: 0 <= i < |PushOps(ws, n)| ==> PushOps(ws, n)[i].Put?
  {
    if n > 0 {
      PushOpsAllPut(ws, n - 1);
    }
  }

  /** Calls without a put followed by puts only: no clear comes after a put. */
  lemma ClearsBeforePuts(a: seq<PioOp>, b: seq<PioOp>)
    requires forall i :: 0 <= i < |a| ==> !a[i].Put?
    requires forall i :: 0 <= i < |b| ==> b[i].Put?
    ensures var ops := a + b;
      forall i, j :: 0 <= i < j < |ops| && ops[i].Put? ==> !ops[j].ClearFifos?
  {
    var ops: seq<PioOp> := a + b;
    forall i, j | 0 <= i < j < |ops| && ops[i].Put?
      ensures !ops[j].ClearFifos?
    {
      assert j >= |a|;
      assert ops[j] == b[j - |a|];
    }
  }

  lemma {:induction false} ApplyOpsAppend(fifos: seq<seq<nat>>, a: seq<PioOp>, b: seq<PioOp>)
    ensures ApplyOps(fifos, a + b) == ApplyOps(ApplyOps(fifos, a), b)
    decreases |b|
  {
    if b != [] {
      var ab := a + b;
      assert ab[..|ab| - 1] == a + b[..|b| - 1];
      ApplyOpsAppend(fifos, a, b[..|b| - 1]);
    } else {
      assert a + b == a;
    }
  }

  lemma ApplyOpsSnoc(fifos: seq<seq<nat>>, ops: seq<PioOp>, op: PioOp)
    ensures ApplyOps(fifos, ops + [op]) == ApplyOp(ApplyOps(fifos, ops), op)
  {
    assert (ops + [op])[..|ops|] == ops;
  }

  /** After the first loop the first `n` FIFOs are empty and the others untouched. */
  lemma {:induction false} SetupClears(fifos: seq<seq<nat>>, clkdiv: real, n: nat)
    requires n <= |fifos|
    ensures forall k :: 0 <= k < |fifos| ==>
      ApplyOps(fifos, SetupOps(clkdiv, n))[k] == if k < n then [] else fifos[k]
  {
    if n > 0 {
      var a := SetupOps(clkdiv, n - 1);
      SetupClears(fifos, clkdiv, n - 1);
      assert SetupOps(clkdiv, n) == a + [ClearFifos(n - 1)] + [SetClkdiv(n - 1, clkdiv)];
      ApplyOpsSnoc(fifos, a + [ClearFifos(n - 1)], SetClkdiv(n - 1, clkdiv));
      ApplyOpsSnoc(fifos, a, ClearFifos(n - 1));
      var r0 := ApplyOps(fifos, a);
      assert ApplyOps(fifos, SetupOps(clkdiv, n)) == r0[n - 1 := []];
    }
  }

  /** After the second loop on empty FIFOs the first `n` hold their three words. */
  lemma {:induction false} PushLoads(fifos: seq<seq<nat>>, ws: seq<SmWords>, n: nat)
    requires n <= |ws| == |fifos|
    requires forall k :: 0 <= k < |fifos| ==> fifos[k] == []
    ensures forall k :: 0 <= k < |fifos| ==>
      ApplyOps(fifos, PushOps(ws, n))[k] == if k < n then FifoWords(ws[k]) else []
  {
    if n > 0 {
      PushLoads(fifos, ws, n - 1);
      PushStep(fifos, ws, n);
      var r0 := ApplyOps(fifos, PushOps(ws, n - 1));
      assert r0[n - 1] + FifoWords(ws[n - 1]) == FifoWords(ws[n - 1]);
    }
  }

  /** The `n`-th turn of the second loop appends the words of state machine `n - 1` to its FIFO. */
  lemma PushStep(fifos: seq<seq<nat>>, ws: seq<SmWords>, n: nat)
    requires 0 < n <= |ws| && n <= |fifos|
    ensures var r := ApplyOps(fifos, PushOps(ws, n - 1));
      ApplyOps(fifos, PushOps(ws, n)) == r[n - 1 := r[n - 1] + FifoWords(ws[n - 1])]
  {
    var w := ws[n - 1];
    var a := PushOps(ws, n - 1);
    assert PushOps(ws, n) == a + [Put(n - 1, w.phase)] + [Put(n - 1, w.high)] + [Put(n - 1, w.low)];
    PushThree(fifos, a, n - 1, w);
  }

  /** The three puts of one state machine append its words to its FIFO. */
  lemma PushThree(fifos: seq<seq<nat>>, a: seq<PioOp>, sm: nat, w: SmWords)
    requires sm < |fifos|
    ensures var r := ApplyOps(fifos, a);
      ApplyOps(fifos, a + [Put(sm, w.phase)] + [Put(sm, w.high)] + [Put(sm, w.low)]) == r[sm := r[sm] + FifoWords(w)]
  {
    ApplyOpsSnoc(fifos, a + [Put(sm, w.phase)] + [Put(sm, w.high)], Put(sm, w.low));
    ApplyOpsSnoc(fifos, a + [Put(sm, w.phase)], Put(sm, w.high));
    ApplyOpsSnoc(fifos, a, Put(sm, w.phase));
    var r := ApplyOps(fifos, a);
    assert r[sm] + [w.phase] + [w.high] + [w.low] == r[sm] + FifoWords(w);
  }

  /** Whatever the FIFOs held before, the calls leave exactly the three words of each state machine. */
  lemma UpdateOpsLoad(fifos: seq<seq<nat>>, clkdiv: real, ws: seq<SmWords>)
    requires |fifos| == SM_COUNT && |ws| == SM_COUNT
    ensures ApplyOps(fifos, UpdateOps(clkdiv, ws)) == LoadedFifos(ws)
  {
    var cleared := ApplyOps(fifos, SetupOps(clkdiv, SM_COUNT));
    ApplyOpsAppend(fifos, SetupOps(clkdiv, SM_COUNT), PushOps(ws, SM_COUNT));
    SetupClears(fifos, clkdiv, SM_COUNT);
    PushLoads(cleared, ws, SM_COUNT);
  }

  // ----- The trigger override -----

  /** How the trigger pin is configured: an input read from outside, or an output at a level. */
  datatype PinMode = Input | Output(level: bool)

  datatype TriggerState = TriggerState(debugMode: bool, manual: bool, pin: PinMode)

  /** Outside debug mode the pin is an input and the manual state is off; in debug
      mode the pin is an output driven at the manual state. */
  predicate TriggerOk(tr: TriggerState)
  {
    if tr.debugMode then tr.pin == Output(tr.manual) else tr.pin == Input && !tr.manual
  }

  /** `gpio_get(TRIGGER_PIN)`: the driven level of an output, `external` for an input. */
  function PinLevel(pin: PinMode, external: bool): bool
  {
    match pin
    case Input => external
    case Output(level) => level
  }

  /** `get_effective_pio_trigger_state`: the manual state in debug mode. The override
      is always visible on the pin itself: in a consistent state the effective
      trigger is the level `gpio_get` reads. */
  function EffectiveTrigger(tr: TriggerState, external: bool): (r: bool)
    ensures tr.debugMode ==> r == tr.manual
    ensures TriggerOk(tr) ==> r == PinLevel(tr.pin, external)
  {
    if tr.debugMode then tr.manual else PinLevel(tr.pin, external)
  }

  const InitialTrigger := TriggerState(false, false, Input)

  /** `set_pio_debug_mode`: the pin becomes an output driven low, or an input again;
      the manual state is cleared either way. */
  function SetDebugMode(enable: bool): (tr: TriggerState)
    ensures TriggerOk(tr)
  {
    TriggerState(enable, false, if enable then Output(false) else Input)
  }

  predicate AnyFifoEmpty(fifos: seq<seq<nat>>)
  {
    exists i :: 0 <= i < |fifos| && fifos[i] == []
  }

  /** `set_manual_pio_trigger`: refused outside debug mode, and refused when
      switching on while some TX FIFO is empty. */
  function ManualTrigger(tr: TriggerState, fifos: seq<seq<nat>>, state: bool): (r: TriggerState)
    ensures TriggerOk(tr) ==> TriggerOk(r)
  {
    if !tr.debugMode then tr
    else if state && AnyFifoEmpty(fifos) then tr
    else TriggerState(true, state, Output(state))
  }

  /** Entering debug mode holds the trigger off; leaving it hands the trigger back to the pin. */
  lemma DebugModeEffect(external: bool)
    ensures !EffectiveTrigger(SetDebugMode(true), external)
    ensures EffectiveTrigger(SetDebugMode(false), external) == external
  {
  }

  /** What a manual request achieves: outside debug mode nothing (the pin rules);
      in debug mode the requested level, except that switching on with an empty
      FIFO keeps the old level. */
  lemma ManualTriggerEffect(tr: TriggerState, fifos: seq<seq<nat>>, state: bool, external: bool)
    requires TriggerOk(tr)
    ensures !tr.debugMode ==> EffectiveTrigger(ManualTrigger(tr, fifos, state), external) == external
    ensures tr.debugMode && (!state || !AnyFifoEmpty(fifos)) ==>
      EffectiveTrigger(ManualTrigger(tr, fifos, state), external) == state
    ensures tr.debugMode && state && AnyFifoEmpty(fifos) ==>
      EffectiveTrigger(ManualTrigger(tr, fifos, state), external) == tr.manual
  {
  }

  /** After an update every FIFO holds three words, so a manual trigger in debug mode is taken. */
  lemma RefilledFifosAcceptTrigger(tr: TriggerState, ws: seq<SmWords>, external: bool)
    requires TriggerOk(tr) && tr.debugMode
    ensures EffectiveTrigger(ManualTrigger(tr, LoadedFifos(ws), true), external)
  {
  }

  // ----- The module state of pwm_control.c -----

  /** The four state machines of pio0 as the file drives them, with the file's own
      statics. `ops` records the FIFO and divider calls in the order they are made. */
  class PwmControl {
    var txFifos: seq<seq<nat>>
    var clkdivs: seq<real>
    var smEnabled: seq<bool>
    var currentFrequency: real
    var currentDutyCycle: real
    var pioDebugMode: bool
    var manualPioTriggerState: bool
    var triggerPin: PinMode
    ghost var ops: seq<PioOp>
    /** `clock_get_hz(clk_sys)`. */
    const sysHz: nat

    ghost function Trigger(): TriggerState
      reads this
    {
      TriggerState(pioDebugMode, manualPioTriggerState, triggerPin)
    }

    ghost predicate Valid()
      reads this
    {
      |txFifos| == SM_COUNT && |clkdivs| == SM_COUNT && |smEnabled| == SM_COUNT &&
      (forall i :: 0 <= i < SM_COUNT ==> |txFifos[i]| <= FIFO_DEPTH) &&
      TriggerOk(Trigger())
    }

    /** `pwm_control_init`: all four state machines enabled, the trigger pin an
        input, and the first parameters loaded. */
    constructor (frequency: real, duty1: real, duty2: real, sysClkHz: nat)
      requires PhaseFits(frequency, sysClkHz) && InUnitRange(duty1) && InUnitRange(duty2)
      ensures Valid() && sysHz == sysClkHz
      ensures smEnabled == [true, true, true, true] && Trigger() == InitialTrigger
      ensures txFifos == LoadedFifos(Programmed(frequency, duty1, duty2, sysHz))
      ensures currentFrequency == frequency && currentDutyCycle == duty1
    {
      sysHz := sysClkHz;
      txFifos := [[], [], [], []];
      clkdivs := [1.0, 1.0, 1.0, 1.0];
      smEnabled := [true, true, true, true];
      currentFrequency, currentDutyCycle := frequency, duty1;
      pioDebugMode, manualPioTriggerState, triggerPin := false, false, Input;
      ops := [];
      new;
      UpdatePwmParameters(frequency, duty1, duty2);
    }

    /** `update_pwm_parameters`: the timing for twice the frequency, then every
        FIFO cleared and divider set, then the three words of each state machine. */
    method UpdatePwmParameters(frequency: real, duty1: real, duty2: real)
      requires Valid() && PhaseFits(frequency, sysHz) && InUnitRange(duty1) && InUnitRange(duty2)
      modifies this
      ensures Valid()
      ensures txFifos == LoadedFifos(Programmed(frequency, duty1, duty2, sysHz))
      ensures var d := BestTiming(2.0 * frequency, sysHz).clkdiv; clkdivs == [d, d, d, d]
      ensures ops == old(ops) + UpdateOps(BestTiming(2.0 * frequency, sysHz).clkdiv, Programmed(frequency, duty1, duty2, sysHz))
      ensures currentFrequency == frequency && currentDutyCycle == duty1
      ensures Trigger() == old(Trigger()) && smEnabled == old(smEnabled)
    {
      var t := ComputeBestTiming(frequency * 2.0, sysHz);
      assert frequency * 2.0 == 2.0 * frequency;
      ghost var ws := ProgrammedWith(frequency, duty1, duty2, sysHz, t);
      assert Programmed(frequency, duty1, duty2, sysHz) == ws;
      ghost var ops0 := ops;
      ClearAll(t.clkdiv);
      LoadAll(frequency, duty1, duty2, t);
      AppendAssoc(ops0, SetupOps(t.clkdiv, SM_COUNT), PushOps(ws, SM_COUNT));
      currentFrequency := frequency;
      currentDutyCycle := duty1;
    }

    /** The first loop of `update_pwm_parameters`. */
    method ClearAll(clkdiv: real)
      requires Valid()
      modifies this
      ensures Valid()
      ensures txFifos == [[], [], [], []] && clkdivs == [clkdiv, clkdiv, clkdiv, clkdiv]
      ensures ops == old(ops) + SetupOps(clkdiv, SM_COUNT)
      ensures Trigger() == old(Trigger()) && smEnabled == old(smEnabled)
      ensures currentFrequency == old(currentFrequency) && currentDutyCycle == old(currentDutyCycle)
    {
      for i := 0 to SM_COUNT
        invariant Valid()
        invariant forall k :: 0 <= k < i ==> txFifos[k] == [] && clkdivs[k] == clkdiv
        invariant ops == old(ops) + SetupOps(clkdiv, i)
        invariant Trigger() == old(Trigger()) && smEnabled == old(smEnabled)
        invariant currentFrequency == old(currentFrequency) && currentDutyCycle == old(currentDutyCycle)
      {
        txFifos := txFifos[i := []];
        clkdivs := clkdivs[i := clkdiv];
        ops := ops + [ClearFifos(i), SetClkdiv(i, clkdiv)];
      }
    }

    /** The second loop of `update_pwm_parameters`, on FIFOs just cleared. */
    method LoadAll(frequency: real, duty1: real, duty2: real, t: Timing)
      requires Valid() && txFifos == [[], [], [], []]
      requires PhaseFits(frequency, sysHz) && InUnitRange(duty1) && InUnitRange(duty2) && TimingOk(t)
      modifies this
      ensures Valid()
      ensures txFifos == LoadedFifos(ProgrammedWith(frequency, duty1, duty2, sysHz, t))
      ensures ops == old(ops) + PushOps(ProgrammedWith(frequency, duty1, duty2, sysHz, t), SM_COUNT)
      ensures clkdivs == old(clkdivs) && Trigger() == old(Trigger()) && smEnabled == old(smEnabled)
    {
      ghost var ws := ProgrammedWith(frequency, duty1, duty2, sysHz, t);
      var phaseShift := (1.0 / frequency) / 4.0;
      for i := 0 to SM_COUNT
        invariant Valid()
        invariant forall k :: 0 <= k < i ==> txFifos[k] == FifoWords(ws[k])
        invariant forall k :: i <= k < SM_COUNT ==> txFifos[k] == []
        invariant ops == old(ops) + PushOps(ws, i)
        invariant clkdivs == old(clkdivs) && Trigger() == old(Trigger()) && smEnabled == old(smEnabled)
      {
        var duty := if i % 2 == 0 then duty1 else duty2;
        var w := StateMachineWords(i, frequency, phaseShift, duty, t);
        txFifos := txFifos[i := [w.phase, w.high, w.low]];
        ops := ops + [Put(i, w.phase), Put(i, w.high), Put(i, w.low)];
        assert w == ws[i];
        assert PushOps(ws, i + 1) == PushOps(ws, i) + [Put(i, w.phase), Put(i, w.high), Put(i, w.low)];
      }
      assert txFifos == LoadedFifos(ws);
    }

    /** The body of the second loop: the three words of state machine `sm`, with
        `phaseShift` the quarter period computed before the loop. */
    method StateMachineWords(sm: nat, frequency: real, phaseShift: real, duty: real, t: Timing) returns (w: SmWords)
      requires sm < SM_COUNT && PhaseFits(frequency, sysHz) && InUnitRange(duty) && TimingOk(t)
      requires phaseShift == (1.0 / frequency) / 4.0
      ensures w == WordsFor(sm, frequency, duty, sysHz, t)
    {
      var high := RawHigh(duty, t.cycles);
      var low := t.cycles - high;
      var x := sm as real * phaseShift * sysHz as real / t.clkdiv;
      assert x == PhaseArg(sm, frequency, sysHz, t.clkdiv);
      PhaseArgBounds(sm, frequency, sysHz, t.clkdiv);
      var phase := RoundToUint(x);
      if high < 1 { high := 1; }
      if low < 1 { low := 1; }
      if phase == 0 && sm > 0 { phase := 1; }
      w := SmWords(phase, high, low);
    }

    /** The FIFO check of `set_manual_pio_trigger`: stops at the first empty TX FIFO. */
    method AnyTxFifoEmpty() returns (anyEmpty: bool)
      requires Valid()
      ensures anyEmpty <==> AnyFifoEmpty(txFifos)
    {
      anyEmpty := false;
      var i := 0;
      while i < SM_COUNT
        invariant 0 <= i <= SM_COUNT
        invariant !anyEmpty ==> forall k :: 0 <= k < i ==> txFifos[k] != []
        invariant anyEmpty ==> AnyFifoEmpty(txFifos)
        decreases SM_COUNT - i, !anyEmpty
      {
        if txFifos[i] == [] {
          anyEmpty := true;
          break;
        }
        i := i + 1;
      }
    }

    /** `set_manual_pio_trigger`. */
    method SetManualPioTrigger(state: bool)
      requires Valid()
      modifies this
      ensures Valid()
      ensures Trigger() == ManualTrigger(old(Trigger()), txFifos, state)
      ensures txFifos == old(txFifos) && clkdivs == old(clkdivs) && smEnabled == old(smEnabled) && ops == old(ops)
      ensures currentFrequency == old(currentFrequency) && currentDutyCycle == old(currentDutyCycle)
    {
      if !pioDebugMode {
        return;
      }
      if state {
        var anyEmpty := AnyTxFifoEmpty();
        if anyEmpty {
          return;
        }
      }
      triggerPin := Output(state);
      manualPioTriggerState := state;
    }

    /** `set_pio_debug_mode`. */
    method SetPioDebugMode(enable: bool)
      requires Valid()
      modifies this
      ensures Valid()
      ensures Trigger() == SetDebugMode(enable)
      ensures txFifos == old(txFifos) && clkdivs == old(clkdivs) && smEnabled == old(smEnabled) && ops == old(ops)
      ensures currentFrequency == old(currentFrequency) && currentDutyCycle == old(currentDutyCycle)
    {
      pioDebugMode := enable;
      if enable {
        triggerPin := Output(false);
        manualPioTriggerState := false;
      } else {
        triggerPin := Input;
        manualPioTriggerState := false;
      }
    }

    /** `get_effective_pio_trigger_state`, with the level outside drives on the pin as `external`. */
    method GetEffectivePioTriggerState(external: bool) returns (active: bool)
      requires Valid()
      ensures active == EffectiveTrigger(Trigger(), external)
      ensures active == PinLevel(triggerPin, external)
    {
      if pioDebugMode {
        active := manualPioTriggerState;
      } else {
        active := match triggerPin
          case Input => external
          case Output(level) => level;
      }
    }
  }
}
