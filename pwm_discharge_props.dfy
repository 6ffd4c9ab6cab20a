/** Properties of the time-based discharge sequencer model: what a rejected
    command leaves behind, how the shared command copy hides the second list,
    when the cycle length overflows, how CSV lines accumulate, and what one
    iteration of the core-1 loop plays. */
module PwmDischargeProps {
  import opened CText
  import opened CNumeric
  import opened DutyLists
  import opened PwmDischarge
  import opened Arith

  // ----- DISCHARGE_STEP -----

  /** `DISCHARGE_STEP 0` is rejected, yet the 0 has been stored: the duration
      becomes 0 while the lists, the cycle length and `enabled` stay. */
  lemma ZeroDurationStored(q: Sequence)
    ensures StepCommand(q, "DISCHARGE_STEP 0") == q.(stepDurationMs := 0)
  {
    var cmd: CString := "DISCHARGE_STEP 0";
    StrNCopyCStr(cmd, COPY_SIZE);
    assert CStr(StrNCopy(cmd, COPY_SIZE)) == cmd;
    assert StartsWith(cmd, "DISCHARGE_STEP");
    assert SpacesEnd(cmd, 15) == 15;
    assert SpacesEnd(cmd, 14) == 15;
    assert SignEnd(cmd, 15) == 15;
    assert DigitsEnd(cmd, 16) == 16;
    assert DigitsEnd(cmd, 15) == 16;
    assert DigitsValue(cmd, 15, 16) == 0;
    assert ScanLiteralULong(cmd, "DISCHARGE_STEP") == Some(0);
  }

  /** A running, enabled sequence that receives `DISCHARGE_STEP 0` makes the next
      loop iteration divide by the stored zero duration. */
  lemma ZeroDurationDividesByZero(q: Sequence, s: Core1, now: nat)
    requires SequenceOk(q) && Core1Ok(s) && now < U32
    requires q.enabled && s.running
    ensures Tick(StepCommand(q, "DISCHARGE_STEP 0"), s, now) == DivisionByZero
  {
    ZeroDurationStored(q);
  }

  /** After CH1's pass the copy's C string is a prefix of the command that ends
      at or before the space closing CH1's list. */
  lemma Ch1PassCutsAtSpace(buf: seq<char>, p: nat, e: nat)
    requires ListStart(CStr(buf), "CH1") == Some(p)
    requires Find(CStr(buf)[p..], " ") == Some(e)
    ensures var rest := CStr(ChannelPassOn(buf, "CH1").buf);
      |rest| <= p + e <= |CStr(buf)| && rest == CStr(buf)[..p + e][..|rest|]
  {
    var s := CStr(buf);
    var cut := CutAtSpace(buf, p);
    assert cut == buf[p + e := NUL];
    CStrFromCut(buf, 0, p + e);
    assert CStr(cut) == s[..p + e];
    var rest := StrTok(cut, p, LIST_DELIMS).buf;
    assert ChannelPassOn(buf, "CH1").buf == rest;
    StrTokWrites(cut, p, LIST_DELIMS);
    CStrShortenedByNulWrites(cut, rest);
  }

  /** CH2 is searched in the copy CH1's pass has cut: when CH1's list ends at a space
      at or before the CH2 tag, the CH2 list is never found. */
  lemma Ch2HiddenBehindCh1(buf: seq<char>, p: nat, e: nat, j: nat)
    requires ListStart(CStr(buf), "CH1") == Some(p)
    requires Find(CStr(buf)[p..], " ") == Some(e)
    requires Find(CStr(buf), "CH2") == Some(j) && p + e <= j
    ensures ChannelPassOn(ChannelPassOn(buf, "CH1").buf, "CH2").duties == []
  {
    Ch1PassCutsAtSpace(buf, p, e);
    NoCh2AfterCut(ChannelPassOn(buf, "CH1").buf, CStr(buf), p + e, j);
  }

  /** A copy whose C string is cut before the first `CH2` of the command gives CH2 no duties. */
  lemma NoCh2AfterCut(b: seq<char>, s: string, m: nat, j: nat)
    requires Find(s, "CH2") == Some(j) && m <= j
    requires |CStr(b)| <= m <= |s| && CStr(b) == s[..m][..|CStr(b)|]
    ensures ChannelPassOn(b, "CH2").duties == []
  {
    NoTagBeforeFirst(s, CStr(b), "CH2", m, j);
    NoTagNoDuties(b, "CH2");
  }

  /** A prefix of the text before the first occurrence of a tag holds no occurrence of it. */
  lemma NoTagBeforeFirst(s: string, rest: string, tag: string, m: nat, j: nat)
    requires tag != [] && Find(s, tag) == Some(j) && m <= j
    requires |rest| <= m && rest == s[..m][..|rest|]
    ensures Find(rest, tag).None?
  {
    FindCutHasNone(s, tag);
    assert s[..m] == s[..j][..m];
    FindNoneInPrefix(s[..j], s[..m], tag);
    FindNoneInPrefix(s[..m], rest, tag);
  }

  /** A channel pass that does not find its tag stores no duties. */
  lemma NoTagNoDuties(buf: seq<char>, tag: string)
    requires Find(CStr(buf), tag).None?
    ensures ChannelPassOn(buf, tag).duties == []
  {
  }

  /** The same for a whole accepted command: its CH2 list is lost and CH2 gets no steps. */
  lemma Ch2LostInStepCommand(q: Sequence, command: CString, p: nat, e: nat, j: nat)
    requires var s := CStr(StrNCopy(command, COPY_SIZE));
      match ScanLiteralULong(s, "DISCHARGE_STEP") case None => false case Some(ms) => ms > 0
    requires var s := CStr(StrNCopy(command, COPY_SIZE));
      ListStart(s, "CH1") == Some(p) && Find(s[p..], " ") == Some(e) && Find(s, "CH2") == Some(j) && p + e <= j
    ensures StepCommand(q, command).ch2 == []
  {
    Ch2HiddenBehindCh1(StrNCopy(command, COPY_SIZE), p, e, j);
  }

  // ----- Cycle length and `enabled` -----

  lemma MulMonotoneNat(x: nat, y: nat, d: nat)
    requires x <= y
    ensures x * d <= y * d
  {
    MulSub(y, x, d);
  }

  /** Without 32-bit overflow the cycle is the longest channel's step count times the
      step duration, and the sequence is enabled exactly when some channel has a step. */
  lemma CycleWithoutOverflow(q: Sequence)
    requires 0 < q.stepDurationMs
    requires |q.ch1| * q.stepDurationMs < U32 && |q.ch2| * q.stepDurationMs < U32
    ensures var n := if |q.ch1| < |q.ch2| then |q.ch2| else |q.ch1|;
      Finalize(q).maxCycleMs == n * q.stepDurationMs
    ensures Finalize(q).enabled <==> q.ch1 != [] || q.ch2 != []
  {
    var d := q.stepDurationMs;
    var n1, n2 := |q.ch1|, |q.ch2|;
    assert ChannelDuration(n1, d) == n1 * d;
    assert ChannelDuration(n2, d) == n2 * d;
    if n1 <= n2 {
      MulMonotoneNat(n1, n2, d);
    } else {
      MulMonotoneNat(n2, n1, d);
    }
    if n1 > 0 {
      MulAtLeast(n1, d);
    }
    if n2 > 0 {
      MulAtLeast(n2, d);
    }
    assert LongestDuration(Counts(q), d) == if n1 * d < n2 * d then n2 * d else n1 * d by {
      var c := Counts(q);
      assert c[..1] == [n1] && [n1][..0] == [];
    }
  }

  /** Eight steps of 536870912 ms make a cycle of exactly 2^32 ms, which wraps to 0:
      the programmed sequence comes out disabled. */
  lemma CycleOverflowDisables(q: Sequence)
    requires |q.ch1| == 8 && q.ch2 == [] && q.stepDurationMs == 536870912
    ensures Finalize(q).maxCycleMs == 0 && !Finalize(q).enabled
  {
    assert ChannelDuration(8, 536870912) == 0;
    var c := Counts(q);
    assert c[..1] == [8] && [8][..0] == [];
  }

  // ----- The command as evidently intended -----

  /** Parsed from its own copy, each list is found wherever its tag is: both lists are stored. */
  lemma IntendedStoresBothLists(q: Sequence, command: CString, ms: nat, p1: nat, p2: nat)
    requires var s := CStr(StrNCopy(command, COPY_SIZE));
      ScanLiteralULong(s, "DISCHARGE_STEP") == Some(ms) && ms > 0 &&
      ListStart(s, "CH1") == Some(p1) && ListStart(s, "CH2") == Some(p2) &&
      MaxCount(ListDutiesAt(s, p1), ListDutiesAt(s, p2)) * ms < U32
    ensures var s := CStr(StrNCopy(command, COPY_SIZE)); var r := StepCommandIntended(q, command);
      r.stepDurationMs == ms && r.ch1 == ListDutiesAt(s, p1) && r.ch2 == ListDutiesAt(s, p2)
  {
    var buf := StrNCopy(command, COPY_SIZE);
    assert ChannelPassOn(buf, "CH1").duties == ListDutiesAt(CStr(buf), p1);
    assert ChannelPassOn(buf, "CH2").duties == ListDutiesAt(CStr(buf), p2);
    assert IntendedSetting(command) == Some(StepSetting(ms, ListDutiesAt(CStr(buf), p1), ListDutiesAt(CStr(buf), p2)));
  }

  /** `DISCHARGE_STEP 0` is refused and leaves nothing behind. */
  lemma IntendedZeroRejected(q: Sequence)
    ensures StepCommandIntended(q, "DISCHARGE_STEP 0") == q
  {
    ZeroDurationStored(q);
  }

  /** Every operation on the sequence keeps an enabled sequence's step duration non-zero,
      once the step command is the corrected one. */
  lemma IntendedKeepsStepDefined(q: Sequence, command: CString, stepDuration: nat, line: CString)
    requires SequenceOk(q) && StepDefined(q) && stepDuration < U32
    ensures StepDefined(StepCommandIntended(q, command))
    ensures StepDefined(StartCsv(q, stepDuration))
    ensures StepDefined(CsvLine(q, line))
    ensures StepDefined(EndCsv(q))
  {
  }

  /** Hence the loop never divides by zero after a corrected step command. */
  lemma IntendedNeverDividesByZero(q: Sequence, command: CString, s: Core1, now: nat)
    requires SequenceOk(q) && StepDefined(q) && Core1Ok(s) && now < U32
    ensures Tick(StepCommandIntended(q, command), s, now).Ticked?
  {
  }

  /** An accepted corrected command gives the exact cycle length, and the sequence is
      enabled exactly when a list has a step. */
  lemma IntendedCycleExact(q: Sequence, command: CString)
    requires IntendedSetting(command).Some?
    ensures var r := StepCommandIntended(q, command);
      r.maxCycleMs == MaxCount(r.ch1, r.ch2) * r.stepDurationMs && (r.enabled <==> r.ch1 != [] || r.ch2 != [])
  {
    var st := IntendedSetting(command).value;
    var q' := q.(stepDurationMs := st.stepMs, ch1 := st.ch1, ch2 := st.ch2);
    MulMonotoneNat(|st.ch1|, MaxCount(st.ch1, st.ch2), st.stepMs);
    MulMonotoneNat(|st.ch2|, MaxCount(st.ch1, st.ch2), st.stepMs);
    CycleWithoutOverflow(q');
  }

  // ----- CSV input -----

  /** The sequences successive `process_csv_line` calls lead to. */
  function RunCsvLines(q: Sequence, lines: seq<CString>): Sequence
  {
    if lines == [] then q else CsvLine(RunCsvLines(q, lines[..|lines| - 1]), lines[|lines| - 1])
  }

  /** Lines fed in CSV mode append their columns' admitted values to the lists, up to the cap of 1000. */
  lemma {:induction false} CsvFeed(q: Sequence, lines: seq<CString>)
    requires q.csvInputMode && |q.ch1| <= MAX_DISCHARGE_STEPS && |q.ch2| <= MAX_DISCHARGE_STEPS
    ensures RunCsvLines(q, lines) ==
      q.(ch1 := Take(q.ch1 + CsvColumn(lines, 0), MAX_DISCHARGE_STEPS),
         ch2 := Take(q.ch2 + CsvColumn(lines, 1), MAX_DISCHARGE_STEPS))
    decreases |lines|
  {
    if lines == [] {
      assert q.ch1 + [] == q.ch1 && q.ch2 + [] == q.ch2;
    } else {
      var init := lines[..|lines| - 1];
      var vs := ScanCsvPair(lines[|lines| - 1]);
      CsvFeed(q, init);
      var r := RunCsvLines(q, init);
      assert r.ch1 + [] == r.ch1 && r.ch2 + [] == r.ch2;
      TakeSnoc(q.ch1 + CsvColumn(init, 0), Column(vs, 0), MAX_DISCHARGE_STEPS);
      TakeSnoc(q.ch2 + CsvColumn(init, 1), Column(vs, 1), MAX_DISCHARGE_STEPS);
      AppendAssoc(q.ch1, CsvColumn(init, 0), Column(vs, 0));
      AppendAssoc(q.ch2, CsvColumn(init, 1), Column(vs, 1));
    }
  }

  /** A whole CSV session: the lists are the lines' columns, capped at 1000, and the
      cycle length and `enabled` are computed from them with the new duration. */
  lemma CsvSession(q: Sequence, stepDuration: nat, lines: seq<CString>)
    requires 0 < stepDuration < U32
    ensures EndCsv(RunCsvLines(StartCsv(q, stepDuration), lines)) ==
      Finalize(q.(ch1 := Take(CsvColumn(lines, 0), MAX_DISCHARGE_STEPS),
                  ch2 := Take(CsvColumn(lines, 1), MAX_DISCHARGE_STEPS),
                  stepDurationMs := stepDuration, csvInputMode := false))
  {
    CsvFeed(StartCsv(q, stepDuration), lines);
    assert [] + CsvColumn(lines, 0) == CsvColumn(lines, 0);
    assert [] + CsvColumn(lines, 1) == CsvColumn(lines, 1);
  }

  /** What CSV handling refuses: a zero start duration, a line outside CSV mode or
      one that scans no number, and an end outside CSV mode all change nothing. */
  lemma CsvRejections(q: Sequence, line: CString)
    ensures StartCsv(q, 0) == q
    ensures !q.csvInputMode ==> CsvLine(q, line) == q && EndCsv(q) == q
    ensures ScanCsvPair(line) == [] ==> CsvLine(q, line) == q
  {
  }

  /** Starting CSV input keeps the old cycle length and `enabled`, so a running
      sequence goes on running, now over empty lists: both outputs drop to 0. */
  lemma CsvStartSilencesRunning(q: Sequence, s: Core1, stepDuration: nat, now: nat)
    requires SequenceOk(q) && Core1Ok(s) && now < U32 && 0 < stepDuration < U32
    requires q.enabled && s.running
    ensures Tick(StartCsv(q, stepDuration), s, now) == Ticked(s.(level1 := 0, level2 := 0, wasRunning := true))
  {
  }

  // ----- One iteration of the core-1 loop -----

  /** Without overflow of the cycle length, the step never passes the longest
      channel, so that channel reads its step directly and only shorter ones hold. */
  lemma StepWithinLongestChannel(q: Sequence, start: nat, now: nat)
    requires SequenceOk(q) && q.enabled && q.stepDurationMs > 0 && start < U32 && now < U32
    requires q.maxCycleMs == (if |q.ch1| < |q.ch2| then |q.ch2| else |q.ch1|) * q.stepDurationMs
    ensures CycleStep(q, start, now) < if |q.ch1| < |q.ch2| then |q.ch2| else |q.ch1|
  {
    var n := if |q.ch1| < |q.ch2| then |q.ch2| else |q.ch1|;
    DivBelow(Elapsed(now, start) % q.maxCycleMs, q.stepDurationMs, n);
  }

  /** Triggered at `now`, an idle enabled sequence plays step 0 in the same millisecond. */
  lemma TriggerPlaysStepZero(q: Sequence, s: Core1, now: nat)
    requires SequenceOk(q) && Core1Ok(s) && now < U32
    requires q.enabled && !s.running && q.stepDurationMs > 0
    ensures var t := Tick(q, Trigger(q, s, true, now), now);
      t.Ticked? && t.s.running && t.s.cycleStartTime == now &&
      t.s.level1 == ChannelLevel(q.ch1, 0) && t.s.level2 == ChannelLevel(q.ch2, 0)
  {
    var s1 := Trigger(q, s, true, now);
    assert s1 == s.(running := true, cycleStartTime := now);
    assert CycleStep(q, now, now) == 0 by {
      assert Elapsed(now, now) == 0;
      assert 0 % q.maxCycleMs == 0;
      assert 0 / q.stepDurationMs == 0;
    }
  }

  /** A released trigger stops the sequence; the next iteration writes 0 to both
      outputs once, and later iterations change nothing. */
  lemma StopZeroesOnce(q: Sequence, s: Core1, now: nat, later: nat)
    requires SequenceOk(q) && Core1Ok(s) && now < U32 && later < U32
    requires s.running && s.wasRunning
    ensures var s1 := Trigger(q, s, false, now);
      var t := Tick(q, s1, now);
      !s1.running && t == Ticked(s1.(level1 := 0, level2 := 0, wasRunning := false)) &&
      Tick(q, t.s, later) == t
  {
  }

  /** A sequence disabled while running (re-programmed with no steps) has its outputs
      zeroed but stays marked running, so a high trigger cannot restart it until it
      is released first. */
  lemma DisabledStaysRunning(q: Sequence, s: Core1, now: nat)
    requires SequenceOk(q) && Core1Ok(s) && now < U32
    requires s.running && !q.enabled
    ensures Trigger(q, s, true, now) == s
    ensures Tick(q, s, now).Ticked? && Tick(q, s, now).s.running
  {
  }

  /** A larger duty never gives a lower level, and duties 0 and 1 give the two ends. */
  lemma LevelMonotone(ds: seq<real>, step: nat, d: real)
    requires DutyList(ds) && |ds| > 0 && InUnitRange(d)
    requires ds[HoldIndex(step, |ds|)] <= d
    ensures ChannelLevel(ds, step) <= Scale(d, WRAP_VALUE)
    ensures Scale(0.0, WRAP_VALUE) == 0 && Scale(1.0, WRAP_VALUE) == WRAP_VALUE
  {
    ScaleMonotone(ds[HoldIndex(step, |ds|)], d, WRAP_VALUE);
  }
}
