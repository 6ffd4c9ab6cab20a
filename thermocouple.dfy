/** The thermocouple logger and over-temperature protection of
    Helpers/thermocouple.c: a 600-entry ring of readings and the per-sensor
    counters of consecutive readings above the limit. */
module Thermocouple {
  import opened CNumeric
  import Max31855k
  import opened RingLog

  const NUM_THERMOCOUPLES: nat := 4
  const LOG_SIZE: nat := 600
  const OTP_LIMIT: real := 90.0
  const OTP_CONSECUTIVE_THRESHOLD: nat := 2
  const CS_PINS: seq<nat> := [9, 13, 14, 15]

  /** An entry of the zero-initialised static `tc_log`. */
  const EMPTY_ENTRY: LogEntry := LogEntry(0, [0.0, 0.0, 0.0, 0.0])

  /** The temperatures of the sensors whose SPI frames are `frames`, in order. */
  function Temperatures(frames: seq<seq<nat>>): (ts: seq<real>)
    requires forall i :: 0 <= i < |frames| ==> Max31855k.IsFrame(frames[i])
    ensures |ts| == |frames|
  {
    seq(|frames|, i requires 0 <= i < |frames| => Max31855k.TempC(Max31855k.Pack(frames[i])))
  }

  /** `tc_log` and `log_head`. */
  class TemperatureLog {
    const tcLog: array<LogEntry>
    var logHead: int

    ghost predicate Valid()
      reads this, tcLog
    {
      tcLog.Length == LOG_SIZE && 0 <= logHead < LOG_SIZE &&
      forall k :: 0 <= k < LOG_SIZE ==> |tcLog[k].temps| == NUM_THERMOCOUPLES
    }

    constructor ()
      ensures Valid() && logHead == 0 && fresh(tcLog)
      ensures forall k :: 0 <= k < LOG_SIZE ==> tcLog[k] == EMPTY_ENTRY
    {
      tcLog := new LogEntry[LOG_SIZE](_ => EMPTY_ENTRY);
      logHead := 0;
    }

    /** `log_thermocouples`: `nowMs` is the time since boot and `frames[i]` the
        four bytes the sensor on `CS_PINS[i]` returns. Only the entry at the
        head is written, and the head moves on by one around the ring. */
    method LogThermocouples(nowMs: nat, frames: seq<seq<nat>>)
      requires Valid() && |frames| == NUM_THERMOCOUPLES
      requires forall i :: 0 <= i < |frames| ==> Max31855k.IsFrame(frames[i])
      modifies this, tcLog
      ensures Valid()
      ensures logHead == (old(logHead) + 1) % LOG_SIZE
      ensures tcLog[..] == old(tcLog[..])[old(logHead) := LogEntry(nowMs % U32, Temperatures(frames))]
    {
      var entry := logHead;
      tcLog[entry] := tcLog[entry].(timestampMs := nowMs % U32);
      for i := 0 to NUM_THERMOCOUPLES
        modifies tcLog
        invariant tcLog[entry].timestampMs == nowMs % U32
        invariant |tcLog[entry].temps| == NUM_THERMOCOUPLES
        invariant tcLog[entry].temps[..i] == Temperatures(frames)[..i]
        invariant forall k :: 0 <= k < LOG_SIZE && k != entry ==> tcLog[k] == old(tcLog[k])
      {
        var raw := Max31855k.Pack(frames[i]);
        var temp := Max31855k.TempC(raw);
        tcLog[entry] := tcLog[entry].(temps := tcLog[entry].temps[i := temp]);
        assert tcLog[entry].temps[..i + 1] == tcLog[entry].temps[..i] + [temp];
      }
      assert tcLog[entry].temps == tcLog[entry].temps[..NUM_THERMOCOUPLES];
      assert tcLog[entry] == LogEntry(nowMs % U32, Temperatures(frames));
      logHead := (logHead + 1) % LOG_SIZE;
    }

    /** `print_tc_log_csv`: the rows printed, oldest first. */
    method PrintTcLogCsv() returns (rows: seq<LogEntry>)
      requires Valid()
      ensures |rows| == LOG_SIZE
      ensures forall i :: 0 <= i < LOG_SIZE ==> rows[i] == tcLog[Slot(logHead, i, LOG_SIZE)]
    {
      rows := [];
      for i := 0 to LOG_SIZE
        invariant |rows| == i
        invariant forall j :: 0 <= j < i ==> rows[j] == tcLog[Slot(logHead, j, LOG_SIZE)]
      {
        var idx := (logHead + i) % LOG_SIZE;
        rows := rows + [tcLog[idx]];
      }
    }
  }

  // ----- check_overtemperature -----

  /** One sensor's count after a reading: one more above the limit, 0 otherwise. */
  function NextOtpCount(count: nat, temp: real): (c: nat)
    ensures c > 0 <==> temp > OTP_LIMIT
  {
    if temp > OTP_LIMIT then count + 1 else 0
  }

  /** Whether a reading ends the call with a shutdown request. */
  predicate Trips(count: nat, temp: real)
  {
    temp > OTP_LIMIT && count + 1 >= OTP_CONSECUTIVE_THRESHOLD
  }

  /** The counts and result of `check_overtemperature` from sensor `i` on: the
      loop returns at the first sensor whose count reaches the threshold, so the
      call requests shutdown exactly when some sensor from `i` on trips. */
  function OtpScan(counts: seq<nat>, temps: seq<real>, i: nat): (r: (seq<nat>, bool))
    requires |counts| == NUM_THERMOCOUPLES && |temps| == NUM_THERMOCOUPLES && i <= NUM_THERMOCOUPLES
    ensures |r.0| == NUM_THERMOCOUPLES
    ensures r.1 <==> FirstTrip(counts, temps, i) < NUM_THERMOCOUPLES
    decreases NUM_THERMOCOUPLES - i
  {
    if i == NUM_THERMOCOUPLES then (counts, false)
    else if temps[i] > OTP_LIMIT then
      var c := counts[i := counts[i] + 1];
      if c[i] >= OTP_CONSECUTIVE_THRESHOLD then (c, true)
      else
        FirstTripIgnoresEarlier(counts, c, temps, i + 1);
        OtpScan(c, temps, i + 1)
    else
      FirstTripIgnoresEarlier(counts, counts[i := 0], temps, i + 1);
      OtpScan(counts[i := 0], temps, i + 1)
  }

  /** The first sensor from `i` on whose reading trips, or `NUM_THERMOCOUPLES`. */
  function FirstTrip(counts: seq<nat>, temps: seq<real>, i: nat): (f: nat)
    requires |counts| == NUM_THERMOCOUPLES && |temps| == NUM_THERMOCOUPLES && i <= NUM_THERMOCOUPLES
    ensures i <= f <= NUM_THERMOCOUPLES
    ensures forall j :: i <= j < f ==> !Trips(counts[j], temps[j])
    ensures f < NUM_THERMOCOUPLES ==> Trips(counts[f], temps[f])
    decreases NUM_THERMOCOUPLES - i
  {
    if i == NUM_THERMOCOUPLES || Trips(counts[i], temps[i]) then i else FirstTrip(counts, temps, i + 1)
  }

  /** From sensor `i` on, the call updates every sensor up to and including the
      first that trips and leaves the later ones alone. */
  lemma {:induction false} OtpScanShape(counts: seq<nat>, temps: seq<real>, i: nat)
    requires |counts| == NUM_THERMOCOUPLES && |temps| == NUM_THERMOCOUPLES && i <= NUM_THERMOCOUPLES
    ensures forall j :: 0 <= j < NUM_THERMOCOUPLES ==>
      OtpScan(counts, temps, i).0[j] ==
        if i <= j && j <= FirstTrip(counts, temps, i) then NextOtpCount(counts[j], temps[j]) else counts[j]
    decreases NUM_THERMOCOUPLES - i
  {
    if i < NUM_THERMOCOUPLES && !Trips(counts[i], temps[i]) {
      var c := counts[i := NextOtpCount(counts[i], temps[i])];
      OtpScanShape(c, temps, i + 1);
      assert FirstTrip(c, temps, i + 1) == FirstTrip(counts, temps, i + 1) by {
        FirstTripIgnoresEarlier(counts, c, temps, i + 1);
      }
    }
  }

  /** `FirstTrip` from `i` on looks only at the counts from `i` on. */
  lemma {:induction false} FirstTripIgnoresEarlier(a: seq<nat>, b: seq<nat>, temps: seq<real>, i: nat)
    requires |a| == NUM_THERMOCOUPLES && |b| == NUM_THERMOCOUPLES && |temps| == NUM_THERMOCOUPLES
    requires i <= NUM_THERMOCOUPLES && a[i..] == b[i..]
    ensures FirstTrip(a, temps, i) == FirstTrip(b, temps, i)
    decreases NUM_THERMOCOUPLES - i
  {
    if i < NUM_THERMOCOUPLES {
      assert a[i] == a[i..][0] == b[i..][0] == b[i];
      assert a[i + 1..] == a[i..][1..];
      assert b[i + 1..] == b[i..][1..];
      FirstTripIgnoresEarlier(a, b, temps, i + 1);
    }
  }

  /** Shutdown is requested exactly when some sensor reads above the limit and
      was already above it on the call before. */
  lemma OvertemperatureIff(counts: seq<nat>, temps: seq<real>)
    requires |counts| == NUM_THERMOCOUPLES && |temps| == NUM_THERMOCOUPLES
    ensures OtpScan(counts, temps, 0).1 <==>
      exists j :: 0 <= j < NUM_THERMOCOUPLES && temps[j] > OTP_LIMIT && counts[j] >= 1
  {
    var f := FirstTrip(counts, temps, 0);
    if exists j :: 0 <= j < NUM_THERMOCOUPLES && temps[j] > OTP_LIMIT && counts[j] >= 1 {
      var j :| 0 <= j < NUM_THERMOCOUPLES && temps[j] > OTP_LIMIT && counts[j] >= 1;
      assert Trips(counts[j], temps[j]);
    }
  }

  /** From all counts at 0, a single over-limit reading only warns. */
  lemma SingleReadingOnlyWarns(temps: seq<real>)
    requires |temps| == NUM_THERMOCOUPLES
    ensures !OtpScan([0, 0, 0, 0], temps, 0).1
  {
    OvertemperatureIff([0, 0, 0, 0], temps);
  }

  /** Two calls in a row in which a sensor reads above the limit request
      shutdown on the second at the latest. */
  lemma TwoReadingsTrip(counts: seq<nat>, first: seq<real>, second: seq<real>, j: nat)
    requires |counts| == NUM_THERMOCOUPLES && |first| == NUM_THERMOCOUPLES && |second| == NUM_THERMOCOUPLES
    requires j < NUM_THERMOCOUPLES && first[j] > OTP_LIMIT && second[j] > OTP_LIMIT
    requires !OtpScan(counts, first, 0).1
    ensures OtpScan(OtpScan(counts, first, 0).0, second, 0).1
  {
    OtpScanShape(counts, first, 0);
    var after := OtpScan(counts, first, 0).0;
    assert after[j] == counts[j] + 1;
    OvertemperatureIff(after, second);
  }

  /** `otp_consecutive_count`. */
  class OvertemperatureMonitor {
    const otpCount: array<nat>

    ghost predicate Valid()
    {
      otpCount.Length == NUM_THERMOCOUPLES
    }

    constructor ()
      ensures Valid() && fresh(otpCount) && otpCount[..] == [0, 0, 0, 0]
    {
      otpCount := new nat[NUM_THERMOCOUPLES](_ => 0);
      new;
      assert otpCount[..] == [0, 0, 0, 0];
    }

    /** `check_overtemperature`: whether to shut down, as `OtpScan` says. */
    method CheckOvertemperature(temps: array<real>) returns (shutdown: bool)
      requires Valid() && temps.Length == NUM_THERMOCOUPLES
      modifies otpCount
      ensures Valid()
      ensures (otpCount[..], shutdown) == OtpScan(old(otpCount[..]), temps[..], 0)
    {
      var i := 0;
      while i < NUM_THERMOCOUPLES
        invariant 0 <= i <= NUM_THERMOCOUPLES && otpCount.Length == NUM_THERMOCOUPLES
        invariant OtpScan(otpCount[..], temps[..], i) == OtpScan(old(otpCount[..]), temps[..], 0)
      {
        if temps[i] > OTP_LIMIT {
          otpCount[i] := otpCount[i] + 1;
          if otpCount[i] >= OTP_CONSECUTIVE_THRESHOLD {
            return true;
          }
        } else {
          otpCount[i] := 0;
        }
        i := i + 1;
      }
      return false;
    }
  }
}
