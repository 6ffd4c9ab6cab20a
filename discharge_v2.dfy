/** The two-channel discharge sequencer of Helpers/GPIO_control_V2.c: duty lists
    programmed by a one-line `DC_STEP` command or by streamed CSV lines, the
    `DC_*` command dispatch, and one iteration of the core-1 loop, which steps
    through the lists and sets the two PWM levels. */
module DischargeV2 {
  import opened CText
  import opened DutyLists
  import opened CNumeric

  const MAX_STEPS: nat := 100
  /** Size of each command copy the step parser works on. */
  const COPY_SIZE: nat := 256
  /** PWM frequency of both discharge outputs. */
  const TARGET_FREQ: nat := 50000
  const LIST_DELIMS: string := " ,"

  // ----- Configuration (`discharge_config` and `csv_input_mode`) -----

  datatype Config = Config(
    ch1: seq<real>,
    ch2: seq<real>,
    stepDurationMs: nat,
    enabled: bool,
    verbose: bool,
    debugMode: bool,
    manualTrigger: bool,
    invertOutput: bool,
    csvInputMode: bool)

  /** A channel list that fits its array and holds only valid duties. */
  predicate DutyList(ds: seq<real>)
  {
    |ds| <= MAX_STEPS && forall k :: 0 <= k < |ds| ==> InUnitRange(ds[k])
  }

  predicate ConfigOk(c: Config)
  {
    DutyList(c.ch1) && DutyList(c.ch2) && c.stepDurationMs < U32
  }

  /** The static initialisers: nothing programmed, output inversion on. */
  const InitialConfig := Config([], [], 0, false, false, false, false, true, false)

  // ----- DC_STEP <ms> CH1 <list> CH2 <list> -----

  /** What a 256-character copy of the command holds. */
  function CommandCopy(command: CString): CString
  {
    Truncate(command, COPY_SIZE - 1)
  }

  /** The text a channel list is read from: from the list start on, cut at the
      first `endTag` after it when one is given. */
  function ListText(s: string, tag: string, endTag: Option<string>): Option<string>
  {
    match ListStart(s, tag)
    case None => None
    case Some(p) =>
      var q := s[p..];
      if endTag.Some? && Find(q, endTag.value).Some? then Some(q[..Find(q, endTag.value).value]) else Some(q)
  }

  /** The duties a list text yields: tokens split at spaces and commas, through
      `atof`, values outside [0,1] skipped, at most MAX_STEPS kept. */
  function ListDuties(text: Option<string>): (ds: seq<real>)
    ensures DutyList(ds)
  {
    match text
    case None => []
    case Some(t) =>
      DutiesInRange(Tokens(t, LIST_DELIMS));
      Take(Duties(Tokens(t, LIST_DELIMS)), MAX_STEPS)
  }

  /** The duties one channel of a `DC_STEP` command sets. */
  function ChannelList(command: CString, tag: string, endTag: Option<string>): (ds: seq<real>)
    ensures DutyList(ds)
  {
    ListDuties(ListText(CommandCopy(command), tag, endTag))
  }

  datatype StepSetting = StepSetting(stepMs: nat, ch1: seq<real>, ch2: seq<real>)

  /** An accepted `DC_STEP` command: a non-zero duration and the two lists; None
      when the duration is missing or zero. */
  function StepCommand(command: CString): (r: Option<StepSetting>)
    ensures r.Some? ==> 0 < r.value.stepMs < U32 && DutyList(r.value.ch1) && DutyList(r.value.ch2)
    ensures r.Some? <==> match ScanLiteralULong(CommandCopy(command), "DC_STEP")
                         case None => false
                         case Some(ms) => ms != 0
  {
    var s := CommandCopy(command);
    match ScanLiteralULong(s, "DC_STEP")
    case None => None
    case Some(ms) =>
      if ms == 0 then None
      else Some(StepSetting(ms, ChannelList(command, "CH1", Some("CH2")), ChannelList(command, "CH2", None)))
  }

  function ApplyStep(c: Config, st: StepSetting): Config
  {
    c.(stepDurationMs := st.stepMs, ch1 := st.ch1, ch2 := st.ch2, enabled := st.ch1 != [] || st.ch2 != [])
  }

  // ----- CSV input -----

  /** `DC_CSV <ms>`: a zero duration is ignored; otherwise the lists are emptied
      and CSV input starts. `enabled` keeps its old value until `DC_CSV_END`. */
  function StartCsv(c: Config, stepMs: nat): (r: Config)
    ensures stepMs == 0 ==> r == c
    ensures stepMs != 0 ==> r.csvInputMode && r.ch1 == [] && r.ch2 == [] && r.stepDurationMs == stepMs
    ensures r == c.(stepDurationMs := r.stepDurationMs, ch1 := r.ch1, ch2 := r.ch2, csvInputMode := r.csvInputMode)
  {
    if stepMs == 0 then c else c.(stepDurationMs := stepMs, ch1 := [], ch2 := [], csvInputMode := true)
  }

  /** A data line during CSV input: each channel keeps what it had and gains at
      most one entry, none once it is full; outside CSV input nothing changes. */
  function CsvLine(c: Config, line: CString): (r: Config)
    ensures !c.csvInputMode ==> r == c
    ensures r == c.(ch1 := r.ch1, ch2 := r.ch2)
    ensures c.ch1 <= r.ch1 && |r.ch1| <= |c.ch1| + 1 && (|c.ch1| >= MAX_STEPS ==> r.ch1 == c.ch1)
    ensures c.ch2 <= r.ch2 && |r.ch2| <= |c.ch2| + 1 && (|c.ch2| >= MAX_STEPS ==> r.ch2 == c.ch2)
  {
    if !c.csvInputMode then c
    else
      var vs := ScanCsvPair(line);
      c.(ch1 := AppendIfRoom(c.ch1, Column(vs, 0), MAX_STEPS), ch2 := AppendIfRoom(c.ch2, Column(vs, 1), MAX_STEPS))
  }

  /** `DC_CSV_END`: CSV input ends and the sequence is enabled exactly when a list is non-empty. */
  function EndCsv(c: Config): (r: Config)
    ensures !r.csvInputMode && (r.enabled <==> r.ch1 != [] || r.ch2 != [])
    ensures r == c.(csvInputMode := false, enabled := r.enabled)
  {
    c.(csvInputMode := false, enabled := c.ch1 != [] || c.ch2 != [])
  }

  // ----- Command dispatch -----

  datatype Outcome = Outcome(cfg: Config, handled: bool)

  /** `atoi(arg) != 0`, how the on/off commands read their argument. */
  predicate Flag(arg: string)
  {
    Atoi(arg) != 0
  }

  /** `(uint32_t)atoi(arg)`. */
  function AtoiU32(arg: string): (v: nat)
    ensures v < U32
  {
    Atoi(arg) % U32
  }

  /** `process_discharge_command`: the new configuration and whether the command was recognised. */
  function ProcessCommand(c: Config, command: CString): (r: Outcome)
    ensures c.csvInputMode ==> r.handled
    ensures !r.handled ==> r.cfg == c
    ensures c.csvInputMode && !r.cfg.csvInputMode ==> command == "DC_CSV_END"
    ensures !c.csvInputMode && r.cfg.csvInputMode ==> StartsWith(command, "DC_CSV ")
  {
    if c.csvInputMode && command != "DC_CSV_END" then Outcome(CsvLine(c, command), true)
    else if StartsWith(command, "DC_STEP") then
      Outcome(match StepCommand(command) case None => c case Some(st) => ApplyStep(c, st), true)
    else if StartsWith(command, "DC_CSV ") then Outcome(StartCsv(c, AtoiU32(command[7..])), true)
    else if command == "DC_CSV_END" then Outcome(EndCsv(c), true)
    else SettingCommand(c, command)
  }

  /** The commands after the sequence-programming ones: flags, status and help.
      They change only the four flags, the manual trigger only in debug mode, and
      an unrecognised command changes nothing. */
  function SettingCommand(c: Config, command: CString): (r: Outcome)
    ensures r.cfg == c.(debugMode := r.cfg.debugMode, manualTrigger := r.cfg.manualTrigger,
                        verbose := r.cfg.verbose, invertOutput := r.cfg.invertOutput)
    ensures r.cfg.manualTrigger != c.manualTrigger ==> c.debugMode && StartsWith(command, "DC_TRIGGER ")
    ensures !r.handled ==> r.cfg == c
  {
    if StartsWith(command, "DC_DEBUG ") then Outcome(c.(debugMode := Flag(command[9..])), true)
    else if StartsWith(command, "DC_TRIGGER ") then
      Outcome(if c.debugMode then c.(manualTrigger := Flag(command[11..])) else c, true)
    else if command == "DC_TRIGGER_STATUS" then Outcome(c, true)
    else if StartsWith(command, "DC_VERBOSE ") then Outcome(c.(verbose := Flag(command[11..])), true)
    else if command == "DC_STATUS" || command == "DC_HELP" then Outcome(c, true)
    else if StartsWith(command, "DC_INVERT ") then Outcome(c.(invertOutput := Flag(command[10..])), true)
    else Outcome(c, false)
  }

  // ----- One iteration of the core-1 loop -----

  /** The loop's persistent locals, `sequence_running` and the two channel levels. */
  datatype Core1 = Core1(
    running: bool,
    cycleStartTime: nat,
    currentStep: nat,
    stepStartTime: nat,
    level1: nat,
    level2: nat)

  predicate Core1Ok(s: Core1, wrap: nat)
  {
    s.cycleStartTime < U32 && s.currentStep < U32 && s.stepStartTime < U32 &&
    s.level1 <= wrap && s.level2 <= wrap
  }

  /** `WRAP_VALUE`: `(uint16_t)((sys_clk_hz / 50000) - 1)` in 32-bit unsigned arithmetic. */
  function WrapValue(sysClkHz: nat): (w: nat)
    requires sysClkHz < U32
    ensures w < U16
    ensures TARGET_FREQ <= sysClkHz <= U16 * TARGET_FREQ ==> w == sysClkHz / TARGET_FREQ - 1
    ensures sysClkHz < TARGET_FREQ ==> w == U16 - 1
  {
    ((sysClkHz / TARGET_FREQ + U32 - 1) % U32) % U16
  }

  /** The level a duty drives, after the optional inversion. */
  function Level(duty: real, invert: bool, wrap: nat): (l: nat)
    requires InUnitRange(duty)
    ensures l <= wrap
  {
    Scale(if invert then 1.0 - duty else duty, wrap)
  }

  /** The level a channel is set to at `step`: its own list indexed by `step % length`, 0 for an empty list. */
  function ChannelLevel(ds: seq<real>, step: nat, invert: bool, wrap: nat): (l: nat)
    requires DutyList(ds)
    ensures l <= wrap
    ensures ds == [] ==> l == 0
  {
    if |ds| > 0 then Level(ds[step % |ds|], invert, wrap) else 0
  }

  /** `discharge_pwm_init`'s first level: fully high when inverted, 0 otherwise. */
  function InitialLevel(invert: bool, wrap: nat): nat
  {
    if invert then wrap else 0
  }

  function EffectiveTrigger(c: Config, pin: bool): bool
  {
    if c.debugMode then c.manualTrigger else pin
  }

  function MaxSteps(c: Config): nat
  {
    if |c.ch1| < |c.ch2| then |c.ch2| else |c.ch1|
  }

  /** `current_step++` and the wrap to 0 once it reaches the longest channel. */
  function NextStep(step: nat, maxSteps: nat): (n: nat)
    requires step < U32 && maxSteps <= MAX_STEPS
    ensures n < U32
    ensures maxSteps > 0 ==> n < maxSteps
    ensures maxSteps == 0 ==> n == (step + 1) % U32
    ensures n == 0 || n == step + 1
  {
    var next := (step + 1) % U32;
    if maxSteps > 0 && next >= maxSteps then 0 else next
  }

  /** The start/stop decision at the top of the loop body: an enabled sequence
      starts at step 0 on the trigger, a running one stops with both levels at 0
      when the trigger drops, and otherwise nothing changes. */
  function StartStop(c: Config, s: Core1, trigger: bool, now: nat): (r: Core1)
    ensures r.running <==> if s.running then trigger else trigger && c.enabled
    ensures r.running && !s.running ==> r.currentStep == 0 && r.cycleStartTime == now && r.stepStartTime == now
    ensures s.running && !r.running ==> r.currentStep == 0 && r.level1 == 0 && r.level2 == 0
    ensures r.running == s.running ==> r == s
  {
    if trigger && c.enabled && !s.running then
      s.(running := true, cycleStartTime := now, stepStartTime := now, currentStep := 0)
    else if !trigger && s.running then
      s.(running := false, level1 := 0, level2 := 0, currentStep := 0)
    else s
  }

  /** The step advance of a running sequence: before the step duration has elapsed
      nothing changes; after it the step moves on by one, back to 0 past the
      longest list, and the step timer restarts. */
  function Advance(c: Config, s: Core1, now: nat): (r: Core1)
    requires ConfigOk(c) && s.currentStep < U32 && s.stepStartTime < U32 && now < U32
    ensures Elapsed(now, s.stepStartTime) < c.stepDurationMs ==> r == s
    ensures Elapsed(now, s.stepStartTime) >= c.stepDurationMs ==>
      r == s.(currentStep := r.currentStep, stepStartTime := now) &&
      (r.currentStep == 0 || r.currentStep == s.currentStep + 1) &&
      (MaxSteps(c) > 0 ==> r.currentStep < MaxSteps(c))
  {
    if Elapsed(now, s.stepStartTime) >= c.stepDurationMs then
      s.(currentStep := NextStep(s.currentStep, MaxSteps(c)), stepStartTime := now)
    else s
  }

  /** Both channel levels for the current step. */
  function WithLevels(c: Config, s: Core1, wrap: nat): (r: Core1)
    requires ConfigOk(c)
  {
    s.(level1 := ChannelLevel(c.ch1, s.currentStep, c.invertOutput, wrap),
       level2 := ChannelLevel(c.ch2, s.currentStep, c.invertOutput, wrap))
  }

  /** One iteration of `core1_discharge_loop` at time `now` (ms since boot, 32 bits). */
  function Tick(c: Config, s: Core1, pin: bool, now: nat, wrap: nat): (r: Core1)
    requires ConfigOk(c) && Core1Ok(s, wrap) && now < U32
    ensures Core1Ok(r, wrap)
  {
    var s1 := StartStop(c, s, EffectiveTrigger(c, pin), now);
    if s1.running && c.stepDurationMs > 0 then WithLevels(c, Advance(c, s1, now), wrap) else s1
  }

  // ----- The sequencer state, updated in place -----

  /** One channel's parse in `process_discharge_step_command`: a fresh copy of the
      command, the tag searched, the spaces after it skipped, the text cut at
      `endTag` when given, then the `strtok` loop into `a`. */
  method ParseChannel(command: CString, tag: string, endTag: Option<string>, a: array<real>) returns (n: nat)
    requires a.Length == MAX_STEPS
    modifies a
    ensures n <= MAX_STEPS && DutyList(a[..n])
    ensures a[..n] == ChannelList(command, tag, endTag)
  {
    var copy := StrNCopy(command, COPY_SIZE);
    ghost var s := CommandCopy(command);
    StrNCopyCStr(command, COPY_SIZE);
    var start := SkipToList(copy, tag);
    if start.None? {
      return 0;
    }
    var pos := start.value;
    CStrAt(copy, pos);
    ghost var text := s[pos..];
    if endTag.Some? {
      var cut := Find(CStrFrom(copy, pos), endTag.value);
      if cut.Some? {
        CStrFromCut(copy, pos, pos + cut.value);
        copy := copy[pos + cut.value := NUL];
        text := text[..cut.value];
      }
    }
    assert ListText(s, tag, endTag) == Some(text);
    assert CStrFrom(copy, pos) == text;
    n, copy := FillDuties(copy, pos, LIST_DELIMS, a, MAX_STEPS);
    assert a[..n] == ListDuties(Some(text));
  }

  /** `sscanf(cmd_copy, "DC_STEP %lu", &step_ms)` on a 256-character copy of the command. */
  method ScanStepDuration(command: CString) returns (stepMs: Option<nat>)
    ensures stepMs == ScanLiteralULong(CommandCopy(command), "DC_STEP")
  {
    var cmdCopy := StrNCopy(command, COPY_SIZE);
    StrNCopyCStr(command, COPY_SIZE);
    stepMs := ScanLiteralULong(CStr(cmdCopy), "DC_STEP");
  }

  /** A channel's level update in the loop body: its duty at `step % n`, inverted when
      asked, scaled to the wrap value; 0 for an empty channel. */
  method ChannelLevelOf(a: array<real>, n: nat, step: nat, invert: bool, wrap: nat) returns (level: nat)
    requires n <= a.Length && DutyList(a[..n])
    ensures level == ChannelLevel(a[..n], step, invert, wrap)
  {
    if n > 0 {
      var duty := a[step % n];
      assert duty == a[..n][step % n];
      var finalDuty := if invert then 1.0 - duty else duty;
      level := Scale(finalDuty, wrap);
    } else {
      level := 0;
    }
  }

  class Discharge {
    const ch1Duties: array<real>
    const ch2Duties: array<real>
    var ch1Steps: nat
    var ch2Steps: nat
    var stepDurationMs: nat
    var enabled: bool
    var verbose: bool
    var debugMode: bool
    var manualTrigger: bool
    var invertOutput: bool
    var csvInputMode: bool
    var sequenceRunning: bool
    // Locals of the core-1 loop that persist across iterations, and the two output levels.
    var cycleStartTime: nat
    var currentStep: nat
    var stepStartTime: nat
    var level1: nat
    var level2: nat
    /** `WRAP_VALUE`, fixed by the system clock. */
    const wrap: nat

    ghost function Cfg(): Config
      reads this, ch1Duties, ch2Duties
      requires ch1Steps <= ch1Duties.Length && ch2Steps <= ch2Duties.Length
    {
      Config(ch1Duties[..ch1Steps], ch2Duties[..ch2Steps], stepDurationMs,
             enabled, verbose, debugMode, manualTrigger, invertOutput, csvInputMode)
    }

    ghost function Run(): Core1
      reads this
    {
      Core1(sequenceRunning, cycleStartTime, currentStep, stepStartTime, level1, level2)
    }

    ghost predicate Valid()
      reads this, ch1Duties, ch2Duties
    {
      ch1Duties.Length == MAX_STEPS && ch2Duties.Length == MAX_STEPS && ch1Duties != ch2Duties &&
      ch1Steps <= MAX_STEPS && ch2Steps <= MAX_STEPS &&
      DutyList(ch1Duties[..ch1Steps]) && DutyList(ch2Duties[..ch2Steps]) && stepDurationMs < U32 &&
      wrap < U16 && Core1Ok(Run(), wrap)
    }

    /** The state after the static initialisers and `discharge_pwm_init` on a clock of `sysClkHz`. */
    constructor (sysClkHz: nat)
      requires sysClkHz < U32
      ensures Valid() && wrap == WrapValue(sysClkHz)
      ensures Cfg() == InitialConfig
      ensures Run() == Core1(false, 0, 0, 0, InitialLevel(true, wrap), InitialLevel(true, wrap))
    {
      ch1Duties := new real[MAX_STEPS](_ => 0.0);
      ch2Duties := new real[MAX_STEPS](_ => 0.0);
      ch1Steps, ch2Steps := 0, 0;
      stepDurationMs := 0;
      enabled, verbose, debugMode, manualTrigger := false, false, false, false;
      invertOutput := true;
      csvInputMode, sequenceRunning := false, false;
      cycleStartTime, currentStep, stepStartTime := 0, 0, 0;
      var w := WrapValue(sysClkHz);
      wrap := w;
      level1 := InitialLevel(true, w);
      level2 := InitialLevel(true, w);
    }

    /** `process_discharge_step_command`: a command whose duration is missing or zero
        changes nothing; otherwise the duration and both lists are replaced. */
    method ProcessDischargeStepCommand(command: CString)
      requires Valid()
      modifies this, ch1Duties, ch2Duties
      ensures Valid() && Run() == old(Run())
      ensures Cfg() == match StepCommand(command)
                       case None => old(Cfg())
                       case Some(st) => ApplyStep(old(Cfg()), st)
    {
      var stepMs := ScanStepDuration(command);
      if stepMs.None? || stepMs.value == 0 {
        return;
      }
      StoreStep(command, stepMs.value);
    }

    /** The accepting branch: duration stored, both channels re-parsed, `enabled` recomputed. */
    method StoreStep(command: CString, stepMs: nat)
      requires Valid() && stepMs < U32
      modifies this, ch1Duties, ch2Duties
      ensures Valid() && Run() == old(Run())
      ensures Cfg() == ApplyStep(old(Cfg()), StepSetting(stepMs, ChannelList(command, "CH1", Some("CH2")),
                                                          ChannelList(command, "CH2", None)))
    {
      stepDurationMs := stepMs;
      ParseCh1(command);
      ParseCh2(command);
      enabled := ch1Steps > 0 || ch2Steps > 0;
    }

    /** The CH1 parse, which stops at "CH2"; `ch1_steps` restarts from 0, so its new value is the parsed count. */
    method ParseCh1(command: CString)
      requires Valid()
      modifies this, ch1Duties
      ensures Valid() && Run() == old(Run())
      ensures Cfg() == old(Cfg()).(ch1 := ChannelList(command, "CH1", Some("CH2")))
    {
      var n := ParseChannel(command, "CH1", Some("CH2"), ch1Duties);
      ch1Steps := n;
    }

    /** The CH2 parse, from a fresh copy of the command; `ch2_steps` likewise becomes the parsed count. */
    method ParseCh2(command: CString)
      requires Valid()
      modifies this, ch2Duties
      ensures Valid() && Run() == old(Run())
      ensures Cfg() == old(Cfg()).(ch2 := ChannelList(command, "CH2", None))
    {
      var n := ParseChannel(command, "CH2", None, ch2Duties);
      ch2Steps := n;
    }

    method StartCsvInput(stepDuration: nat)
      requires Valid() && stepDuration < U32
      modifies this
      ensures Valid() && Run() == old(Run())
      ensures Cfg() == StartCsv(old(Cfg()), stepDuration)
    {
      if stepDuration == 0 {
        return;
      }
      stepDurationMs := stepDuration;
      ch1Steps := 0;
      ch2Steps := 0;
      csvInputMode := true;
    }

    method ProcessCsvLine(line: CString)
      requires Valid()
      modifies this, ch1Duties, ch2Duties
      ensures Valid() && Run() == old(Run())
      ensures Cfg() == CsvLine(old(Cfg()), line)
    {
      if !csvInputMode {
        return;
      }
      var parsed := ScanCsvPair(line);
      ch1Steps := AppendDuty(ch1Duties, ch1Steps, Column(parsed, 0), MAX_STEPS);
      ch2Steps := AppendDuty(ch2Duties, ch2Steps, Column(parsed, 1), MAX_STEPS);
    }

    method EndCsvInput()
      requires Valid()
      modifies this
      ensures Valid() && Run() == old(Run())
      ensures Cfg() == EndCsv(old(Cfg()))
    {
      csvInputMode := false;
      enabled := ch1Steps > 0 || ch2Steps > 0;
    }

    method ProcessDischargeCommand(command: CString) returns (handled: bool)
      requires Valid()
      modifies this, ch1Duties, ch2Duties
      ensures Valid() && Run() == old(Run())
      ensures Outcome(Cfg(), handled) == ProcessCommand(old(Cfg()), command)
    {
      if csvInputMode && command != "DC_CSV_END" {
        ProcessCsvLine(command);
        return true;
      }
      handled := true;
      if StartsWith(command, "DC_STEP") {
        ProcessDischargeStepCommand(command);
      } else if StartsWith(command, "DC_CSV ") {
        var stepMs := AtoiU32(command[7..]);
        StartCsvInput(stepMs);
      } else if command == "DC_CSV_END" {
        EndCsvInput();
      } else {
        handled := ProcessSettingCommand(command);
      }
    }

    /** The remaining branches of `process_discharge_command`. */
    method ProcessSettingCommand(command: CString) returns (handled: bool)
      requires Valid()
      modifies this
      ensures Valid() && Run() == old(Run())
      ensures Outcome(Cfg(), handled) == SettingCommand(old(Cfg()), command)
    {
      handled := true;
      if StartsWith(command, "DC_DEBUG ") {
        debugMode := Flag(command[9..]);
      } else if StartsWith(command, "DC_TRIGGER ") {
        if debugMode {
          manualTrigger := Flag(command[11..]);
        }
      } else if command == "DC_TRIGGER_STATUS" {
      } else if StartsWith(command, "DC_VERBOSE ") {
        verbose := Flag(command[11..]);
      } else if command == "DC_STATUS" || command == "DC_HELP" {
      } else if StartsWith(command, "DC_INVERT ") {
        invertOutput := Flag(command[10..]);
      } else {
        handled := false;
      }
    }

    /** One iteration of `core1_discharge_loop`, with the trigger pin's level and the time as inputs. */
    method Core1Tick(triggerPin: bool, now: nat)
      requires Valid() && now < U32
      modifies this
      ensures Valid() && Cfg() == old(Cfg())
      ensures Run() == Tick(old(Cfg()), old(Run()), triggerPin, now, wrap)
    {
      var triggerActive := if debugMode then manualTrigger else triggerPin;
      StartOrStop(triggerActive, now);
      if sequenceRunning && stepDurationMs > 0 {
        AdvanceStep(now);
        level1 := ChannelLevelOf(ch1Duties, ch1Steps, currentStep, invertOutput, wrap);
        level2 := ChannelLevelOf(ch2Duties, ch2Steps, currentStep, invertOutput, wrap);
      }
    }

    method StartOrStop(triggerActive: bool, now: nat)
      requires Valid() && now < U32
      modifies this
      ensures Valid() && Cfg() == old(Cfg())
      ensures Run() == StartStop(old(Cfg()), old(Run()), triggerActive, now)
    {
      if triggerActive && enabled && !sequenceRunning {
        sequenceRunning := true;
        cycleStartTime := now;
        stepStartTime := cycleStartTime;
        currentStep := 0;
      } else if !triggerActive && sequenceRunning {
        sequenceRunning := false;
        level1 := 0;
        level2 := 0;
        currentStep := 0;
      }
    }

    method AdvanceStep(now: nat)
      requires Valid() && now < U32
      modifies this
      ensures Valid() && Cfg() == old(Cfg())
      ensures Run() == Advance(old(Cfg()), old(Run()), now)
    {
      if Elapsed(now, stepStartTime) >= stepDurationMs {
        currentStep := (currentStep + 1) % U32;
        stepStartTime := now;
        var maxSteps := 0;
        if ch1Steps > maxSteps {
          maxSteps := ch1Steps;
        }
        if ch2Steps > maxSteps {
          maxSteps := ch2Steps;
        }
        if maxSteps > 0 && currentStep >= maxSteps {
          currentStep := 0;
        }
      }
    }
  }
}
