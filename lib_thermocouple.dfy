/** The parameterised logger of UserDefinedLib/thermocouple.c: the log, its
    head, its size and the number of sensors are the caller's. */
module LibThermocouple {
  import opened CNumeric
  import Max31855k
  import opened RingLog
  import Thermocouple

  /** Slots in the `temps` array of an entry. */
  const TEMP_SLOTS: nat := 4

  /** The temperatures of an entry after the first `num` are overwritten from `frames`. */
  function LoggedTemps(temps: seq<real>, frames: seq<seq<nat>>, num: int): (ts: seq<real>)
    requires |temps| == TEMP_SLOTS && num <= TEMP_SLOTS && num <= |frames|
    requires forall i :: 0 <= i < |frames| ==> Max31855k.IsFrame(frames[i])
    ensures |ts| == TEMP_SLOTS
  {
    if num <= 0 then temps else Thermocouple.Temperatures(frames[..num]) + temps[num..]
  }

  /** `log_thermocouples`: the head is passed by pointer; its new value is `newHead`.
      Only the entry at the head is written. */
  method LogThermocouples(tcLog: array<LogEntry>, logHead: int, logSize: int, nowMs: nat,
                          frames: seq<seq<nat>>, numThermocouples: int) returns (newHead: int)
    requires 0 <= logHead < tcLog.Length && logSize != 0
    requires |tcLog[logHead].temps| == TEMP_SLOTS
    requires numThermocouples <= TEMP_SLOTS && numThermocouples <= |frames|
    requires forall i :: 0 <= i < |frames| ==> Max31855k.IsFrame(frames[i])
    modifies tcLog
    ensures newHead == (logHead + 1) % logSize
    ensures tcLog[..] == old(tcLog[..])[logHead :=
      LogEntry(nowMs % U32, LoggedTemps(old(tcLog[logHead].temps), frames, numThermocouples))]
  {
    tcLog[logHead] := tcLog[logHead].(timestampMs := nowMs % U32);
    ghost var temps0 := tcLog[logHead].temps;
    var i := 0;
    while i < numThermocouples
      invariant 0 <= i && (i == 0 || i <= numThermocouples)
      invariant tcLog[logHead].timestampMs == nowMs % U32 && |tcLog[logHead].temps| == TEMP_SLOTS
      invariant tcLog[logHead].temps[..i] == Thermocouple.Temperatures(frames[..i])
      invariant tcLog[logHead].temps[i..] == temps0[i..]
      invariant forall k :: 0 <= k < tcLog.Length && k != logHead ==> tcLog[k] == old(tcLog[k])
    {
      var raw := Max31855k.Pack(frames[i]);
      var temp := Max31855k.TempC(raw);
      ghost var before := tcLog[logHead].temps;
      tcLog[logHead] := tcLog[logHead].(temps := tcLog[logHead].temps[i := temp]);
      assert tcLog[logHead].temps[..i + 1] == tcLog[logHead].temps[..i] + [temp];
      assert Thermocouple.Temperatures(frames[..i + 1]) == Thermocouple.Temperatures(frames[..i]) + [temp];
      assert tcLog[logHead].temps[i + 1..] == before[i + 1..] == before[i..][1..];
      i := i + 1;
    }
    assert tcLog[logHead].temps == tcLog[logHead].temps[..i] + tcLog[logHead].temps[i..];
    newHead := (logHead + 1) % logSize;
  }

  /** A head inside the log stays inside it. */
  lemma HeadStaysInRange(logHead: int, logSize: int)
    requires 0 <= logHead < logSize
    ensures 0 <= (logHead + 1) % logSize < logSize
  {
  }

  /** `print_tc_log_csv`: the rows printed, oldest first, each with the first
      `numThermocouples` temperatures of its entry. */
  method PrintTcLogCsv(tcLog: array<LogEntry>, logHead: int, logSize: int, numThermocouples: int)
    returns (rows: seq<LogEntry>)
    requires 0 <= logHead && logSize <= tcLog.Length && numThermocouples <= TEMP_SLOTS
    requires forall k :: 0 <= k < tcLog.Length ==> |tcLog[k].temps| == TEMP_SLOTS
    ensures |rows| == if logSize < 0 then 0 else logSize
    ensures forall i :: 0 <= i < |rows| ==>
      var e := tcLog[Slot(logHead, i, logSize)];
      rows[i] == LogEntry(e.timestampMs, e.temps[..if numThermocouples < 0 then 0 else numThermocouples])
  {
    var shown := if numThermocouples < 0 then 0 else numThermocouples;
    rows := [];
    var i := 0;
    while i < logSize
      invariant 0 <= i && (i == 0 || i <= logSize) && |rows| == i
      invariant forall j :: 0 <= j < i ==>
        var e := tcLog[Slot(logHead, j, logSize)];
        rows[j] == LogEntry(e.timestampMs, e.temps[..shown])
    {
      var idx := (logHead + i) % logSize;
      var temps: seq<real> := [];
      var j := 0;
      while j < numThermocouples
        invariant 0 <= j && (j == 0 || j <= numThermocouples) && temps == tcLog[idx].temps[..j]
      {
        temps := temps + [tcLog[idx].temps[j]];
        j := j + 1;
      }
      rows := rows + [LogEntry(tcLog[idx].timestampMs, temps)];
      i := i + 1;
    }
  }
}
