/** Current sensing and over-current protection of Helpers/adc_monitor.c: the
    conversion of a 12-bit ADC code to amperes, the reading of the three
    channels, and the consecutive-reading counters that raise the alarm. */
module AdcMonitor {
  import opened CNumeric

  /** `ADC_DISCONNECT_THRESHOLD`: codes below it read as a disconnected sensor. */
  const ADC_DISCONNECT_THRESHOLD: nat := 10
  const MAX_DC_CURRENT: real := 50.0
  const MAX_RMF_CURRENT: real := 400.0
  const CHANNELS: nat := 3
  /** `overcurrent_counters` are `uint8_t`. */
  const U8: nat := 256

  const R1: real := 2800.0
  const R2: real := 1500.0
  const GAIN: real := 5.0 / 0.512
  const SCALE_FACTOR: real := R1 / (R1 + R2)
  const V_PER_A: seq<real> := [GAIN * 0.0025 * SCALE_FACTOR, GAIN * 0.0025 * SCALE_FACTOR, GAIN * 0.000125 * SCALE_FACTOR]
  const OFFSET_V: seq<real> := [2.5 * SCALE_FACTOR, 2.5 * SCALE_FACTOR, 2.5 * SCALE_FACTOR]

  /** The voltage a code stands for: 12 bits over a 3.3 V reference. */
  function Voltage(raw: nat): real
  {
    raw as real * 3.3 / 4095.0
  }

  /** `adc_raw_to_current`: 0 for a disconnected sensor, otherwise the distance of
      the voltage from the sensor's offset in amperes, whatever its direction. */
  function RawToCurrent(raw: nat, vPerA: real, offsetV: real): (i: real)
    requires 0.0 < vPerA
    ensures 0.0 <= i
    ensures raw < ADC_DISCONNECT_THRESHOLD ==> i == 0.0
    ensures ADC_DISCONNECT_THRESHOLD <= raw ==> i * vPerA == Abs(Voltage(raw) - offsetV)
  {
    if raw < ADC_DISCONNECT_THRESHOLD then 0.0
    else Abs((Voltage(raw) - offsetV) / vPerA)
  }

  /** The calibration of every channel has a positive slope. */
  lemma CalibrationPositive(ch: nat)
    requires ch < CHANNELS
    ensures 0.0 < V_PER_A[ch]
  {
  }

  /** The sign of the current is lost: two codes the same distance above and
      below the offset read the same. */
  lemma CurrentDropsDirection(a: nat, b: nat, vPerA: real, offsetV: real)
    requires 0.0 < vPerA && ADC_DISCONNECT_THRESHOLD <= a && ADC_DISCONNECT_THRESHOLD <= b
    requires Voltage(a) - offsetV == offsetV - Voltage(b)
    ensures RawToCurrent(a, vPerA, offsetV) == RawToCurrent(b, vPerA, offsetV)
  {
    var ia, ib := RawToCurrent(a, vPerA, offsetV), RawToCurrent(b, vPerA, offsetV);
    assert ia * vPerA == ib * vPerA;
  }

  /** The current of each channel, from the code `adc_read` returns on that input. */
  function Currents(raws: seq<nat>): (cs: seq<real>)
    requires |raws| == CHANNELS
    ensures |cs| == CHANNELS
  {
    CalibrationPositive(0);
    CalibrationPositive(1);
    CalibrationPositive(2);
    [RawToCurrent(raws[0], V_PER_A[0], OFFSET_V[0]),
     RawToCurrent(raws[1], V_PER_A[1], OFFSET_V[1]),
     RawToCurrent(raws[2], V_PER_A[2], OFFSET_V[2])]
  }

  /** `read_all_currents`: `raws[ch]` is what `adc_read` returns with input `ch` selected. */
  method ReadAllCurrents(currents: array<real>, raws: seq<nat>)
    requires currents.Length == CHANNELS && |raws| == CHANNELS
    modifies currents
    ensures currents[..] == Currents(raws)
  {
    for ch := 0 to CHANNELS
      invariant forall k :: 0 <= k < ch ==> currents[k] == Currents(raws)[k]
    {
      CalibrationPositive(ch);
      currents[ch] := RawToCurrent(raws[ch], V_PER_A[ch], OFFSET_V[ch]);
    }
  }

  // ----- check_overcurrent -----

  /** The limit of channel `ch`: the two DC channels, then the RMF inverter. */
  function Limit(ch: nat): real
  {
    if ch < 2 then MAX_DC_CURRENT else MAX_RMF_CURRENT
  }

  /** One channel's counter after a reading: one more (as a `uint8_t`) above the
      limit, back to 0 otherwise. */
  function NextCount(count: nat, current: real, limit: real): (c: nat)
    ensures c < U8
  {
    if current > limit then (count + 1) % U8 else 0
  }

  /** All three counters after one call. */
  function StepCounters(counts: seq<nat>, currents: seq<real>): (cs: seq<nat>)
    requires |counts| == CHANNELS && |currents| == CHANNELS
    ensures |cs| == CHANNELS
  {
    [NextCount(counts[0], currents[0], Limit(0)),
     NextCount(counts[1], currents[1], Limit(1)),
     NextCount(counts[2], currents[2], Limit(2))]
  }

  /** The result of a call: a channel that read above its limit has reached
      the threshold (the comparison sits inside the over-limit branch). */
  predicate Tripped(counts: seq<nat>, currents: seq<real>, threshold: nat)
    requires |counts| == CHANNELS && |currents| == CHANNELS
  {
    exists ch :: 0 <= ch < CHANNELS && currents[ch] > Limit(ch) && counts[ch] >= threshold
  }

  /** For any threshold of at least 1 the result is simply whether some counter
      has reached it after the call. */
  lemma TrippedIffCounterReached(counts: seq<nat>, currents: seq<real>, threshold: nat)
    requires |counts| == CHANNELS && |currents| == CHANNELS && 1 <= threshold
    ensures Tripped(StepCounters(counts, currents), currents, threshold)
        <==> exists ch :: 0 <= ch < CHANNELS && StepCounters(counts, currents)[ch] >= threshold
  {
    var cs := StepCounters(counts, currents);
    if exists ch :: 0 <= ch < CHANNELS && cs[ch] >= threshold {
      var ch :| 0 <= ch < CHANNELS && cs[ch] >= threshold;
      assert currents[ch] > Limit(ch);
    }
  }

  /** Number of readings above `limit` at the end of `rs`. */
  function TrailingRun(rs: seq<real>, limit: real): (n: nat)
    ensures n <= |rs|
  {
    if rs == [] || rs[|rs| - 1] <= limit then 0 else TrailingRun(rs[..|rs| - 1], limit) + 1
  }

  /** A counter fed the readings `rs` one call at a time: after any reading it is a
      `uint8_t` value, and a reading at or below the limit leaves it at 0. */
  function CountAfter(count: nat, rs: seq<real>, limit: real): (c: nat)
    ensures rs == [] ==> c == count
    ensures rs != [] ==> c < U8 && (rs[|rs| - 1] <= limit ==> c == 0)
  {
    if rs == [] then count else NextCount(CountAfter(count, rs[..|rs| - 1], limit), rs[|rs| - 1], limit)
  }

  /** A counter starting at 0 holds the length of the unbroken run of over-limit
      readings that ends with the latest one, modulo 256. */
  lemma {:induction false} CountIsTrailingRun(rs: seq<real>, limit: real)
    ensures CountAfter(0, rs, limit) == TrailingRun(rs, limit) % U8
  {
    if rs != [] {
      var init := rs[..|rs| - 1];
      CountIsTrailingRun(init, limit);
      if rs[|rs| - 1] > limit {
        ModSuccU8(TrailingRun(init, limit));
      }
    }
  }

  lemma ModSuccU8(n: nat)
    ensures (n % U8 + 1) % U8 == (n + 1) % U8
  {
  }

  /** With a threshold between 1 and 255, a channel trips exactly on the
      `threshold`-th to 255-th reading of a run above its limit. */
  lemma TripsOnRun(rs: seq<real>, limit: real, threshold: nat)
    requires 1 <= threshold < U8 && TrailingRun(rs, limit) < U8
    ensures CountAfter(0, rs, limit) >= threshold <==> TrailingRun(rs, limit) >= threshold
  {
    CountIsTrailingRun(rs, limit);
  }

  /** The `uint8_t` counter wraps: the 256th consecutive over-limit reading reads as none. */
  lemma CounterWraps(rs: seq<real>, limit: real)
    requires TrailingRun(rs, limit) == U8
    ensures CountAfter(0, rs, limit) == 0
  {
    CountIsTrailingRun(rs, limit);
  }

  /** The counters of `check_overcurrent`, with `OCP_CONSECUTIVE_THRESHOLD` as `threshold`. */
  class OvercurrentMonitor {
    const counters: array<nat>
    const threshold: nat

    ghost predicate Valid()
      reads counters
    {
      counters.Length == CHANNELS && forall ch :: 0 <= ch < CHANNELS ==> counters[ch] < U8
    }

    constructor (ocpThreshold: nat)
      ensures Valid() && threshold == ocpThreshold && counters[..] == [0, 0, 0]
      ensures fresh(counters)
    {
      counters := new nat[CHANNELS](_ => 0);
      threshold := ocpThreshold;
      new;
      assert counters[..] == [0, 0, 0];
    }

    /** `check_overcurrent`: every channel is updated, then the result tells
        whether any counter has reached the threshold. */
    method CheckOvercurrent(currents: array<real>) returns (ocpTriggered: bool)
      requires Valid() && currents.Length == CHANNELS
      modifies counters
      ensures Valid()
      ensures counters[..] == StepCounters(old(counters[..]), currents[..])
      ensures ocpTriggered <==> Tripped(counters[..], currents[..], threshold)
    {
      ocpTriggered := false;
      var t0 := UpdateChannel(0, currents[0]);
      var t1 := UpdateChannel(1, currents[1]);
      var t2 := UpdateChannel(2, currents[2]);
      ocpTriggered := t0 || t1 || t2;
      assert counters[..] == [counters[0], counters[1], counters[2]];
    }

    /** One of the three blocks of `check_overcurrent`. */
    method UpdateChannel(ch: nat, current: real) returns (tripped: bool)
      requires Valid() && ch < CHANNELS
      modifies counters
      ensures Valid()
      ensures counters[..] == old(counters[..])[ch := NextCount(old(counters[ch]), current, Limit(ch))]
      ensures tripped <==> current > Limit(ch) && counters[ch] >= threshold
    {
      tripped := false;
      if current > Limit(ch) {
        counters[ch] := (counters[ch] + 1) % U8;
        if counters[ch] >= threshold {
          tripped := true;
        }
      } else {
        counters[ch] := 0;
      }
    }
  }
}
