/** The parameterised ADC helpers of UserDefinedLib/adc_monitor.c: a signed
    conversion of a code to amperes and the reading of the first channels. */
module LibAdcMonitor {
  import AdcMonitor
  import CNumeric

  /** `adc_raw_to_current` of the library: 0 for a disconnected sensor, otherwise
      the signed distance of the voltage from the offset in amperes. */
  function RawToCurrent(raw: nat, vPerA: real, offsetV: real): (i: real)
    requires vPerA != 0.0
    ensures raw < AdcMonitor.ADC_DISCONNECT_THRESHOLD ==> i == 0.0
    ensures AdcMonitor.ADC_DISCONNECT_THRESHOLD <= raw ==> i * vPerA == AdcMonitor.Voltage(raw) - offsetV
  {
    if raw < AdcMonitor.ADC_DISCONNECT_THRESHOLD then 0.0
    else (AdcMonitor.Voltage(raw) - offsetV) / vPerA
  }

  /** With a positive slope the current is negative exactly when the voltage
      is below the offset. */
  lemma NegativeBelowOffset(raw: nat, vPerA: real, offsetV: real)
    requires 0.0 < vPerA && AdcMonitor.ADC_DISCONNECT_THRESHOLD <= raw
    ensures RawToCurrent(raw, vPerA, offsetV) < 0.0 <==> AdcMonitor.Voltage(raw) < offsetV
  {
    var i := RawToCurrent(raw, vPerA, offsetV);
    if i < 0.0 {
      assert i * vPerA < 0.0;
    } else {
      assert i * vPerA >= 0.0;
    }
  }

  /** With a positive slope the current does not decrease as the code grows. */
  lemma Monotone(a: nat, b: nat, vPerA: real, offsetV: real)
    requires 0.0 < vPerA && AdcMonitor.ADC_DISCONNECT_THRESHOLD <= a <= b
    ensures RawToCurrent(a, vPerA, offsetV) <= RawToCurrent(b, vPerA, offsetV)
  {
    var ia, ib := RawToCurrent(a, vPerA, offsetV), RawToCurrent(b, vPerA, offsetV);
    assert ia * vPerA <= ib * vPerA;
    if ib < ia {
      CNumeric.MulStrict(ib, ia, vPerA);
    }
  }

  /** Where the voltage is at or above the offset the library's current agrees
      with the one of Helpers/adc_monitor.c, which drops the sign. */
  lemma AgreesWithUnsigned(raw: nat, vPerA: real, offsetV: real)
    requires 0.0 < vPerA && offsetV <= AdcMonitor.Voltage(raw)
    ensures RawToCurrent(raw, vPerA, offsetV) == AdcMonitor.RawToCurrent(raw, vPerA, offsetV)
  {
    if AdcMonitor.ADC_DISCONNECT_THRESHOLD <= raw {
      var i, j := RawToCurrent(raw, vPerA, offsetV), AdcMonitor.RawToCurrent(raw, vPerA, offsetV);
      assert i * vPerA == j * vPerA;
    }
  }

  /** `adc_monitor_read_all`: `samples[ch]` is what `adc_read` returns with input
      `ch` selected; entries from `numChannels` on are left alone. */
  method ReadAll(adcRaw: array<nat>, numChannels: int, samples: seq<nat>)
    requires numChannels <= adcRaw.Length && numChannels <= |samples|
    modifies adcRaw
    ensures forall ch :: 0 <= ch < numChannels ==> adcRaw[ch] == samples[ch]
    ensures forall ch :: 0 <= ch < adcRaw.Length && numChannels <= ch ==> adcRaw[ch] == old(adcRaw[ch])
  {
    var ch := 0;
    while ch < numChannels
      invariant 0 <= ch && (ch == 0 || ch <= numChannels)
      invariant forall k :: 0 <= k < ch ==> adcRaw[k] == samples[k]
      invariant forall k :: ch <= k < adcRaw.Length ==> adcRaw[k] == old(adcRaw[k])
    {
      adcRaw[ch] := samples[ch];
      ch := ch + 1;
    }
  }
}
