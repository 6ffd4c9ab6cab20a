/** Properties of the two-channel discharge sequencer model: what the command
    dispatch keeps and changes, how CSV lines accumulate, and how one iteration
    of the core-1 loop starts, stops and steps a sequence. */
module DischargeV2Props {
  import opened CText
  import opened DutyLists
  import opened DischargeV2
  import opened Arith
  import opened CNumeric

  // ----- Invariants of the configuration -----

  /** Outside CSV input, `enabled` says exactly whether some channel holds a step. */
  predicate EnabledAgrees(c: Config)
  {
    !c.csvInputMode ==> (c.enabled <==> (c.ch1 != [] || c.ch2 != []))
  }

  /** The configurations a sequence of commands leads to, one `process_discharge_command` call each. */
  function RunCommands(c: Config, cmds: seq<CString>): Config
  {
    if cmds == [] then c else ProcessCommand(RunCommands(c, cmds[..|cmds| - 1]), cmds[|cmds| - 1]).cfg
  }

  /** A CSV line appends at most one in-range duty to each channel, within the cap. */
  lemma CsvLineKeepsConfigOk(c: Config, line: CString)
    requires ConfigOk(c)
    ensures ConfigOk(CsvLine(c, line))
  {
    if c.csvInputMode {
      var vs := ScanCsvPair(line);
      AppendKeepsDutyList(c.ch1, Column(vs, 0));
      AppendKeepsDutyList(c.ch2, Column(vs, 1));
    }
  }

  lemma AppendKeepsDutyList(ds: seq<real>, d: seq<real>)
    requires DutyList(ds) && |d| <= 1 && forall k :: 0 <= k < |d| ==> InUnitRange(d[k])
    ensures DutyList(AppendIfRoom(ds, d, MAX_STEPS))
  {
    if |ds| < MAX_STEPS {
      var r := ds + d;
      forall k | 0 <= k < |r|
        ensures InUnitRange(r[k])
      {
        if k >= |ds| {
          assert r[k] == d[k - |ds|];
        }
      }
    }
  }

  /** Every command keeps the lists valid and, outside CSV input, `enabled` in step with them. */
  lemma CommandKeepsInvariants(c: Config, command: CString)
    requires ConfigOk(c) && EnabledAgrees(c)
    ensures var r := ProcessCommand(c, command).cfg; ConfigOk(r) && EnabledAgrees(r)
  {
    var r := ProcessCommand(c, command).cfg;
    if c.csvInputMode && command != "DC_CSV_END" {
      assert r == CsvLine(c, command);
      CsvLineKeepsConfigOk(c, command);
    } else if StartsWith(command, "DC_STEP") {
      assert r == match StepCommand(command) case None => c case Some(st) => ApplyStep(c, st);
      StepKeepsInvariants(c, command);
    } else if StartsWith(command, "DC_CSV ") {
      assert r == StartCsv(c, AtoiU32(command[7..]));
    } else if command == "DC_CSV_END" {
      assert r == EndCsv(c);
    } else {
      assert r == SettingCommand(c, command).cfg;
    }
  }

  /** An accepted `DC_STEP` sets `enabled` from its lists; a rejected one changes nothing. */
  lemma StepKeepsInvariants(c: Config, command: CString)
    requires ConfigOk(c) && EnabledAgrees(c)
    ensures var r := match StepCommand(command) case None => c case Some(st) => ApplyStep(c, st);
      ConfigOk(r) && EnabledAgrees(r)
  {
  }

  /** From the initial configuration, any sequence of commands keeps both invariants. */
  lemma {:induction false} SessionKeepsInvariants(cmds: seq<CString>)
    ensures var r := RunCommands(InitialConfig, cmds); ConfigOk(r) && EnabledAgrees(r)
  {
    if cmds != [] {
      SessionKeepsInvariants(cmds[..|cmds| - 1]);
      CommandKeepsInvariants(RunCommands(InitialConfig, cmds[..|cmds| - 1]), cmds[|cmds| - 1]);
    }
  }

  // ----- The dispatch -----

  /** Only `DC_TRIGGER <n>` in debug mode, outside CSV input, changes the manual trigger. */
  lemma ManualTriggerOnlyInDebug(c: Config, command: CString)
    ensures ProcessCommand(c, command).cfg.manualTrigger != c.manualTrigger ==>
              c.debugMode && !c.csvInputMode && StartsWith(command, "DC_TRIGGER ")
  {
    var r := ProcessCommand(c, command).cfg;
    if c.csvInputMode && command != "DC_CSV_END" {
      assert r == CsvLine(c, command);
    } else if StartsWith(command, "DC_STEP") {
      assert r == match StepCommand(command) case None => c case Some(st) => ApplyStep(c, st);
    } else if StartsWith(command, "DC_CSV ") {
      assert r == StartCsv(c, AtoiU32(command[7..]));
    } else if command == "DC_CSV_END" {
      assert r == EndCsv(c);
    } else {
      assert r == SettingCommand(c, command).cfg;
    }
  }

  /** `DC_DEBUG <n>` switches the override on or off and leaves the manual trigger alone. */
  lemma DebugKeepsManualTrigger(c: Config, command: CString)
    requires !c.csvInputMode && StartsWith(command, "DC_DEBUG ")
    ensures var r := ProcessCommand(c, command);
      r.handled && r.cfg == c.(debugMode := Atoi(command[9..]) != 0)
  {
    assert !StartsWith(command, "DC_STEP") by {
      assert command[5] == 'B';
    }
    assert !StartsWith(command, "DC_CSV ") by {
      assert command[3] == 'D';
    }
  }

  /** During CSV input every command but `DC_CSV_END` is a data line: one that starts
      with a letter, `DC_STEP ...` included, is swallowed without effect. */
  lemma CsvModeSwallowsCommands(c: Config, command: CString)
    requires c.csvInputMode && command != "DC_CSV_END"
    requires var t := SpacesEnd(command, 0); t < |command| && !IsDigit(command[t]) && command[t] !in "+-."
    ensures ProcessCommand(c, command) == Outcome(c, true)
  {
    NoNumberAtLetter(command);
    assert CsvLine(c, command).ch1 == c.ch1;
  }

  /** A command that does not start with "DC_" is not recognised outside CSV input, and changes nothing. */
  lemma ForeignCommandIgnored(c: Config, command: CString)
    requires !c.csvInputMode && !StartsWith(command, "DC_")
    ensures ProcessCommand(c, command) == Outcome(c, false)
  {
    var tags := ["DC_STEP", "DC_CSV ", "DC_DEBUG ", "DC_TRIGGER ", "DC_VERBOSE ", "DC_INVERT "];
    forall i | 0 <= i < |tags|
      ensures !StartsWith(command, tags[i])
    {
      assert tags[i][..3] == "DC_";
      StartsWithShorter(command, tags[i], 3);
    }
    assert !StartsWith(command, tags[0]) && !StartsWith(command, tags[1]) && !StartsWith(command, tags[2]);
    assert !StartsWith(command, tags[3]) && !StartsWith(command, tags[4]) && !StartsWith(command, tags[5]);
  }

  lemma StartsWithShorter(s: string, p: string, n: nat)
    requires n <= |p|
    ensures StartsWith(s, p) ==> StartsWith(s, p[..n])
  {
    if StartsWith(s, p) {
      assert s[..n] == s[..|p|][..n];
    }
  }

  // ----- DC_STEP lists -----

  /** The CH1 list is read from text that holds no "CH2": its parse stops where CH2's list begins. */
  lemma Ch1StopsAtCh2(s: string)
    requires ListText(s, "CH1", Some("CH2")).Some?
    ensures Find(ListText(s, "CH1", Some("CH2")).value, "CH2").None?
  {
    var p := ListStart(s, "CH1").value;
    var q := s[p..];
    if Find(q, "CH2").Some? {
      FindCutHasNone(q, "CH2");
    }
  }

  /** A list token that starts with a letter (a stray tag such as "CH1" inside the CH2
      list) is read by `atof` as 0.0, which is a valid duty and is kept. */
  lemma WordInListIsZeroDuty(ts: seq<string>, w: string)
    requires var t := SpacesEnd(w, 0); t < |w| && !IsDigit(w[t]) && w[t] !in "+-."
    ensures Duties(ts + [w]) == Duties(ts) + [0.0]
  {
    NoNumberAtLetter(w);
    DutiesSnoc(ts, w);
  }

  // ----- CSV input -----

  /** Lines streamed in CSV mode append their columns' admitted values to the lists, up to the cap of 100. */
  lemma {:induction false} CsvFeed(c: Config, lines: seq<CString>)
    requires c.csvInputMode && DutyList(c.ch1) && DutyList(c.ch2)
    requires forall k :: 0 <= k < |lines| ==> lines[k] != "DC_CSV_END"
    ensures RunCommands(c, lines) ==
      c.(ch1 := Take(c.ch1 + CsvColumn(lines, 0), MAX_STEPS), ch2 := Take(c.ch2 + CsvColumn(lines, 1), MAX_STEPS))
  {
    if lines == [] {
      assert c.ch1 + [] == c.ch1 && c.ch2 + [] == c.ch2;
    } else {
      var init := lines[..|lines| - 1];
      var line := lines[|lines| - 1];
      CsvFeed(c, init);
      var vs := ScanCsvPair(line);
      TakeSnoc(c.ch1 + CsvColumn(init, 0), Column(vs, 0), MAX_STEPS);
      TakeSnoc(c.ch2 + CsvColumn(init, 1), Column(vs, 1), MAX_STEPS);
      AppendAssoc(c.ch1, CsvColumn(init, 0), Column(vs, 0));
      AppendAssoc(c.ch2, CsvColumn(init, 1), Column(vs, 1));
    }
  }

  // ----- The core-1 loop -----

  /** A triggered, enabled, idle sequencer starts at step 0 and outputs step 0's duties at once. */
  lemma TriggerStartsAtStepZero(c: Config, s: Core1, pin: bool, now: nat, wrap: nat)
    requires ConfigOk(c) && Core1Ok(s, wrap) && now < U32
    requires EffectiveTrigger(c, pin) && c.enabled && !s.running && c.stepDurationMs > 0
    ensures Tick(c, s, pin, now, wrap) ==
      Core1(true, now, 0, now, ChannelLevel(c.ch1, 0, c.invertOutput, wrap), ChannelLevel(c.ch2, 0, c.invertOutput, wrap))
  {
  }

  /** Releasing the trigger stops a running sequence and drives both outputs to 0, inverted or not. */
  lemma ReleaseStops(c: Config, s: Core1, pin: bool, now: nat, wrap: nat)
    requires ConfigOk(c) && Core1Ok(s, wrap) && now < U32
    requires !EffectiveTrigger(c, pin) && s.running
    ensures Tick(c, s, pin, now, wrap) == s.(running := false, currentStep := 0, level1 := 0, level2 := 0)
  {
  }

  /** An idle sequencer that is not both triggered and enabled changes nothing. */
  lemma IdleHolds(c: Config, s: Core1, pin: bool, now: nat, wrap: nat)
    requires ConfigOk(c) && Core1Ok(s, wrap) && now < U32
    requires !s.running && !(EffectiveTrigger(c, pin) && c.enabled)
    ensures Tick(c, s, pin, now, wrap) == s
  {
  }

  /** Clearing `enabled` does not stop a running sequence: only the trigger does. */
  lemma DisabledKeepsRunning(c: Config, s: Core1, pin: bool, now: nat, wrap: nat)
    requires ConfigOk(c) && Core1Ok(s, wrap) && now < U32
    requires s.running && EffectiveTrigger(c, pin)
    ensures Tick(c.(enabled := false), s, pin, now, wrap).running
  {
  }

  /** While some channel has steps, the step index stays below the longer channel's length. */
  lemma TickKeepsStepInRange(c: Config, s: Core1, pin: bool, now: nat, wrap: nat)
    requires ConfigOk(c) && Core1Ok(s, wrap) && now < U32
    requires 0 < MaxSteps(c) && s.currentStep < MaxSteps(c)
    ensures Tick(c, s, pin, now, wrap).currentStep < MaxSteps(c)
  {
  }

  /** The step index after `k` advances from step 0. */
  function StepAfter(k: nat, maxSteps: nat): (n: nat)
    requires maxSteps <= MAX_STEPS
    ensures n < U32
  {
    if k == 0 then 0 else NextStep(StepAfter(k - 1, maxSteps), maxSteps)
  }

  /** With `m` steps in the longer channel, the sequence cycles: after `k` advances it is at step `k % m`. */
  lemma {:induction false} StepsCycle(k: nat, m: nat)
    requires 0 < m <= MAX_STEPS
    ensures StepAfter(k, m) == k % m
  {
    if k > 0 {
      StepsCycle(k - 1, m);
      ModSucc(k - 1, m);
      var j := StepAfter(k - 1, m);
      assert (j + 1) % U32 == j + 1;
      assert StepAfter(k, m) == NextStep(j, m);
    }
  }

  /** Starting CSV input while a sequence runs keeps it running with both lists
      empty: `enabled` stays set and both outputs drop to 0 on the next iteration. */
  lemma CsvStartBlanksRunningOutput(c: Config, s: Core1, pin: bool, now: nat, wrap: nat, stepMs: nat)
    requires ConfigOk(c) && Core1Ok(s, wrap) && now < U32 && 0 < stepMs < U32
    requires c.enabled && s.running && EffectiveTrigger(c, pin)
    ensures var c' := StartCsv(c, stepMs); var r := Tick(c', s, pin, now, wrap);
      c'.enabled && r.running && r.level1 == 0 && r.level2 == 0
  {
  }

  // ----- Output levels -----

  /** A larger duty never gives a lower level; with inversion, never a higher one. */
  lemma LevelMonotone(d1: real, d2: real, wrap: nat)
    requires InUnitRange(d1) && InUnitRange(d2) && d1 <= d2
    ensures Level(d1, false, wrap) <= Level(d2, false, wrap)
    ensures Level(d1, true, wrap) >= Level(d2, true, wrap)
  {
    ScaleMonotone(d1, d2, wrap);
    ScaleMonotone(1.0 - d2, 1.0 - d1, wrap);
  }

  /** Duty 0 and duty 1 give the two ends of the range, swapped by inversion. */
  lemma LevelEnds(wrap: nat)
    ensures Level(0.0, false, wrap) == 0 && Level(1.0, false, wrap) == wrap
    ensures Level(0.0, true, wrap) == wrap && Level(1.0, true, wrap) == 0
  {
  }

  /** The inverted and the plain level of one duty add up to `wrap`, or `wrap - 1`
      when both products are cut down. */
  lemma InvertedComplement(d: real, wrap: nat)
    requires InUnitRange(d)
    ensures wrap <= Level(d, true, wrap) + Level(d, false, wrap) + 1
    ensures Level(d, true, wrap) + Level(d, false, wrap) <= wrap
  {
    var w := wrap as real;
    assert (1.0 - d) * w == w - d * w;
  }

  // ----- Worked examples -----

  /** The 125 MHz system clock gives a wrap of 2499, i.e. 50 kHz. */
  lemma WrapAt125MHz()
    ensures WrapValue(125000000) == 2499
  {
  }

  /** `DC_STEP 0 ...` is rejected. */
  lemma ZeroStepRejected()
    ensures StepCommand("DC_STEP 0 CH1 0.5").None?
  {
    var cmd: CString := "DC_STEP 0 CH1 0.5";
    assert CommandCopy(cmd) == cmd;
    assert StartsWith(cmd, "DC_STEP");
    assert SpacesEnd(cmd, 8) == 8;
    assert SpacesEnd(cmd, 7) == 8;
    assert SignEnd(cmd, 8) == 8;
    assert DigitsEnd(cmd, 9) == 9;
    assert DigitsEnd(cmd, 8) == 9;
    assert DigitsValue(cmd, 8, 9) == 0;
    assert ScanLiteralULong(cmd, "DC_STEP") == Some(0);
  }

  /** `DC_CSV -5` sets a step duration of 2^32 - 5 ms, through the cast of `atoi`'s result. */
  lemma NegativeCsvDuration(c: Config)
    requires !c.csvInputMode
    ensures ProcessCommand(c, "DC_CSV -5").cfg.stepDurationMs == U32 - 5
  {
    var cmd: CString := "DC_CSV -5";
    assert !StartsWith(cmd, "DC_STEP") by {
      assert cmd[4] == 'S';
    }
    assert StartsWith(cmd, "DC_CSV ");
    var arg := cmd[7..];
    assert arg == "-5";
    assert SpacesEnd(arg, 0) == 0 && SignEnd(arg, 0) == 1;
    assert DigitsEnd(arg, 2) == 2;
    assert DigitsEnd(arg, 1) == 2;
    assert DigitsValue(arg, 1, 2) == 5;
    assert Atoi(arg) == -5;
    assert ProcessCommand(c, cmd).cfg == StartCsv(c, U32 - 5);
  }
  /** `DC_CSV 4294967296` sets a step duration of 2^31 - 1 ms: `atoi` saturates
      the value at the largest `int` before the cast to 32 bits. */
  lemma HugeCsvDurationSaturates(c: Config)
    requires !c.csvInputMode
    ensures ProcessCommand(c, "DC_CSV 4294967296").cfg.stepDurationMs == LONG_MAX
  {
    var cmd: CString := "DC_CSV 4294967296";
    assert !StartsWith(cmd, "DC_STEP") by {
      assert cmd[4] == 'S';
    }
    assert StartsWith(cmd, "DC_CSV ");
    var arg := cmd[7..];
    assert arg == "4294967296";
    assert SpacesEnd(arg, 0) == 0 && SignEnd(arg, 0) == 0;
    TwoToThe32Scans(arg);
    assert Atoi(arg) == LONG_MAX;
    assert ProcessCommand(c, cmd).cfg == StartCsv(c, LONG_MAX);
  }
  /** `strtol` reads all ten digits of "4294967296". */
  lemma TwoToThe32Scans(arg: string)
    requires arg == "4294967296"
    ensures ScanLongAt(arg, 0) == Some(Scanned(0x1_0000_0000, 10))
  {
    assert DigitsEnd(arg, 10) == 10;
    assert DigitsEnd(arg, 9) == 10;
    assert DigitsEnd(arg, 8) == 10;
    assert DigitsEnd(arg, 7) == 10;
    assert DigitsEnd(arg, 6) == 10;
    assert DigitsEnd(arg, 5) == 10;
    assert DigitsEnd(arg, 4) == 10;
    assert DigitsEnd(arg, 3) == 10;
    assert DigitsEnd(arg, 2) == 10;
    assert DigitsEnd(arg, 1) == 10;
    assert DigitsEnd(arg, 0) == 10;
    assert DigitsValue(arg, 0, 1) == 4;
    assert DigitsValue(arg, 0, 2) == 42;
    assert DigitsValue(arg, 0, 3) == 429;
    assert DigitsValue(arg, 0, 4) == 4294;
    assert DigitsValue(arg, 0, 5) == 42949;
    assert DigitsValue(arg, 0, 6) == 429496;
    assert DigitsValue(arg, 0, 7) == 4294967;
    assert DigitsValue(arg, 0, 8) == 42949672;
    assert DigitsValue(arg, 0, 9) == 429496729;
    assert DigitsValue(arg, 0, 10) == 4294967296;
  }
}
