/** The command interpreter of Helpers/serial_cmd.c: a line is gathered from
    the USB serial input into a static buffer, then routed by its leading word
    to the PWM control, the discharge controller, the thermocouple printers or
    the relay. */
module SerialCmd {
  import opened CText
  import opened CNumeric
  import opened DutyLists
  import PhasePwm
  import DischargeV2
  import Shutdown

  /** `sizeof(cmd)`. */
  const CMD_SIZE: nat := 1024
  /** At most this many characters are kept: one cell is left for the terminator. */
  const MAX_LINE: nat := CMD_SIZE - 1
  /** `FREQ` accepts frequencies strictly below 1 MHz. */
  const MAX_FREQUENCY: real := 1000000.0
  /** `getchar_timeout_us` returns bytes. */
  const BYTE_LIMIT: nat := 256

  // ----- Reading a line -----

  /** What `getchar_timeout_us(0)` will return, one byte per call, until the
      input is exhausted and it returns `PICO_ERROR_TIMEOUT`. */
  predicate IsInput(input: seq<nat>)
  {
    forall i :: 0 <= i < |input| ==> input[i] < BYTE_LIMIT
  }

  predicate IsLineEnd(c: nat)
  {
    c == '\n' as nat || c == '\r' as nat
  }

  /** The number of bytes stored from index `i` on: the loop stops at a line end,
      at the end of the input, or when the buffer is full. */
  function LineLengthFrom(input: seq<nat>, i: nat): (n: nat)
    requires i <= MAX_LINE && i <= |input|
    ensures i <= n <= MAX_LINE && n <= |input|
    decreases MAX_LINE - i
  {
    if i == MAX_LINE || i == |input| || IsLineEnd(input[i]) then i
    else LineLengthFrom(input, i + 1)
  }

  /** The number of bytes a call stores in the buffer. */
  function LineLength(input: seq<nat>): nat
  {
    LineLengthFrom(input, 0)
  }

  /** The stored bytes, as the characters of the line. */
  function Line(input: seq<nat>): (line: seq<char>)
    requires IsInput(input)
    ensures |line| == LineLength(input)
  {
    seq(LineLength(input), k requires 0 <= k < LineLength(input) => input[k] as char)
  }

  /** The bytes a call takes from the input: the line end is taken too, and so is
      the byte read when the buffer is full, which is lost. */
  function Consumed(input: seq<nat>): nat
  {
    if LineLength(input) < |input| then LineLength(input) + 1 else LineLength(input)
  }

  /** What `process_serial_commands` sees as the command: the line up to its first NUL. */
  function Command(input: seq<nat>): CString
    requires IsInput(input)
  {
    CStr(Line(input))
  }

  /** The next `getchar_timeout_us(0)`, with -1 for the timeout. */
  function Getchar(input: seq<nat>, k: nat): int
  {
    if k < |input| then input[k] else -1
  }

  /** Codes of a text typed on the console. */
  function Codes(text: string): (codes: seq<nat>)
    ensures |codes| == |text|
  {
    seq(|text|, k requires 0 <= k < |text| => text[k] as nat)
  }

  predicate IsTypedLine(text: string)
  {
    forall k :: 0 <= k < |text| ==> text[k] as nat < BYTE_LIMIT && !IsLineEnd(text[k] as nat)
  }

  /** A line shorter than the buffer, ended by a newline, is read whole, and the
      newline is taken with it; what follows is left for the next call. */
  lemma TypedLineRead(text: string, rest: seq<nat>)
    requires IsTypedLine(text) && |text| < MAX_LINE && IsInput(rest)
    ensures var input := Codes(text) + ['\n' as nat] + rest;
      IsInput(input) && Line(input) == text && Consumed(input) == |text| + 1
  {
    var input := Codes(text) + ['\n' as nat] + rest;
    assert input[|text|] == '\n' as nat;
    LineStopsAt(input, |text|);
    assert Line(input) == text;
  }

  /** A line still being typed when the input runs dry is dispatched as it is. */
  lemma PartialLineRead(text: string)
    requires IsTypedLine(text) && |text| <= MAX_LINE
    ensures IsInput(Codes(text)) && Line(Codes(text)) == text && Consumed(Codes(text)) == |text|
  {
    LineStopsAt(Codes(text), |text|);
    assert Line(Codes(text)) == text;
  }

  /** A line longer than the buffer is cut to 1023 characters, and the 1024th is
      taken from the input and lost. */
  lemma LongLineTruncated(text: string)
    requires IsTypedLine(text) && MAX_LINE < |text|
    ensures IsInput(Codes(text)) && Line(Codes(text)) == text[..MAX_LINE]
    ensures Consumed(Codes(text)) == CMD_SIZE
  {
    LineStopsAt(Codes(text), MAX_LINE);
    assert Line(Codes(text)) == text[..MAX_LINE];
  }

  /** The stored bytes hold no line end, and the loop stopped at a line end unless
      the buffer was full or the input ran dry. */
  lemma {:induction false} LineEndsAtFirstStop(input: seq<nat>, i: nat)
    requires i <= MAX_LINE && i <= |input|
    ensures forall k :: i <= k < LineLengthFrom(input, i) ==> !IsLineEnd(input[k])
    ensures var n := LineLengthFrom(input, i); n < MAX_LINE && n < |input| ==> IsLineEnd(input[n])
    decreases MAX_LINE - i
  {
    if !(i == MAX_LINE || i == |input| || IsLineEnd(input[i])) {
      LineEndsAtFirstStop(input, i + 1);
    }
  }

  /** Conversely, the stored length is the first stop. */
  lemma LineStopsAt(input: seq<nat>, n: nat)
    requires n <= MAX_LINE && n <= |input|
    requires forall k :: 0 <= k < n ==> !IsLineEnd(input[k])
    requires n < MAX_LINE && n < |input| ==> IsLineEnd(input[n])
    ensures LineLength(input) == n
  {
    LineFromStopsAt(input, n, 0);
  }

  lemma {:induction false} LineFromStopsAt(input: seq<nat>, n: nat, i: nat)
    requires i <= n <= MAX_LINE && n <= |input|
    requires forall k :: i <= k < n ==> !IsLineEnd(input[k])
    requires n < MAX_LINE && n < |input| ==> IsLineEnd(input[n])
    ensures LineLengthFrom(input, i) == n
    decreases n - i
  {
    if i < n {
      LineFromStopsAt(input, n, i + 1);
    }
  }

  /** The C string of a buffer with a terminator at `n` lies in its first `n` cells. */
  lemma {:induction false} CStrOfTerminated(buf: seq<char>, n: nat, i: nat)
    requires i <= n < |buf| && buf[n] == NUL
    ensures CStrFrom(buf, i) == CStrFrom(buf[..n], i)
    decreases n - i
  {
    if i < n && buf[i] != NUL {
      CStrOfTerminated(buf, n, i + 1);
    }
  }

  /** A buffer holding the line in its first cells and older text after it. */
  lemma LineStored(buf: seq<char>, before: seq<char>, input: seq<nat>)
    requires IsInput(input) && |buf| == |before| && LineLength(input) <= |buf|
    requires forall k :: 0 <= k < LineLength(input) ==> buf[k] == input[k] as char
    requires forall k :: LineLength(input) <= k < |buf| ==> buf[k] == before[k]
    ensures buf == Line(input) + before[LineLength(input)..]
  {
    var n := LineLength(input);
    assert buf[..n] == Line(input);
    assert buf == buf[..n] + buf[n..];
  }

  /** Terminating the stored line: the buffer is `Stored`, and its C string is the command. */
  lemma Terminated(buf: seq<char>, before: seq<char>, input: seq<nat>)
    requires IsInput(input) && |buf| == |before| == CMD_SIZE && 0 < LineLength(input)
    requires buf == (Line(input) + before[LineLength(input)..])[LineLength(input) := NUL]
    ensures buf == Stored(before, Line(input), false)
    ensures CStr(buf) == Command(input)
  {
    var n := LineLength(input);
    var line := Line(input);
    assert |line| == n;
    var stored := line + [NUL] + before[n + 1..];
    assert |stored| == |buf|;
    forall k | 0 <= k < |buf|
      ensures buf[k] == stored[k]
    {
    }
    assert buf == Stored(before, line, false);
    assert buf[..n] == line;
    CStrOfTerminated(buf, n, 0);
    assert CStr(buf) == CStr(buf[..n]);
  }

  // ----- Routing a command -----

  /** Where a command goes: one alternative per branch of `process_serial_commands`,
      with what the branch scans from the command. */
  datatype Route =
    | NoCommand
    | CsvData
    | DischargeHelp
    | Frequency(args: seq<real>)
    | ThermocoupleAutoPrint(arg: Option<int>)
    | ThermocoupleCsv
    | ThermocoupleNow
    | Help
    | DischargeCommand
    | PioDebug(arg: Option<int>)
    | PioTrigger(arg: Option<int>)
    | PioTriggerStatus
    | Relay(arg: Option<int>)
    | OnboardTemperature
    | Unrecognized

  /** The chain of tests of `process_serial_commands` for a non-empty line. In CSV
      input mode every line goes to the discharge controller, which accepts them
      all (`CsvModeAlwaysHandled`), so the second CSV test is never reached.
      `PIO_TRIGGER_STATUS` begins with `PIO_TRIGGER` and `TC_ONBOARD` with `TC_ON`,
      so their branches are never reached either. */
  function RouteOf(command: CString, csvMode: bool): (r: Route)
    ensures r.CsvData? <==> csvMode
    ensures r != NoCommand && r != PioTriggerStatus && r != OnboardTemperature
    ensures r.DischargeCommand? ==> StartsWith(command, "DC_")
  {
    assert StartsWith("PIO_TRIGGER_STATUS", "PIO_TRIGGER");
    assert StartsWith("TC_ONBOARD", "TC_ON");
    if csvMode then CsvData
    else if command == "DC_HELP" then DischargeHelp
    else if StartsWith(command, "FREQ") || StartsWith(command, "FREQUENCY") then Frequency(ScanReals(command[4..], 3))
    else if StartsWith(command, "TC_ON") then ThermocoupleAutoPrint(ScanInt(command[5..]))
    else if command == "TC_CSV" then ThermocoupleCsv
    else if command == "TC_NOW" then ThermocoupleNow
    else if command == "HELP" then Help
    else if StartsWith(command, "DC_") then DischargeCommand
    else if StartsWith(command, "PIO_DEBUG") then PioDebug(ScanInt(command[9..]))
    else if StartsWith(command, "PIO_TRIGGER") then PioTrigger(ScanInt(command[11..]))
    else if command == "PIO_TRIGGER_STATUS" then PioTriggerStatus
    else if StartsWith(command, "RELAY") then Relay(ScanInt(command[5..]))
    else if command == "TC_ONBOARD" then OnboardTemperature
    else Unrecognized
  }

  /** The route of a call: nothing exactly for an empty line. */
  function RouteOfInput(input: seq<nat>, csvMode: bool): (r: Route)
    requires IsInput(input)
    ensures r.NoCommand? <==> LineLength(input) == 0
  {
    if LineLength(input) == 0 then NoCommand else RouteOf(Command(input), csvMode)
  }

  /** In CSV input mode the discharge controller accepts every line: data lines
      and `DC_CSV_END` alike. */
  lemma CsvModeAlwaysHandled(c: DischargeV2.Config, command: CString)
    requires c.csvInputMode
    ensures DischargeV2.ProcessCommand(c, command).handled
  {
  }

  /** `PIO_TRIGGER_STATUS` is read as a trigger command with no value, and rejected. */
  lemma PioTriggerStatusRoute()
    ensures RouteOf("PIO_TRIGGER_STATUS", false) == PioTrigger(None)
  {
    var command := "PIO_TRIGGER_STATUS";
    NotPrefix(command, "FREQ", 0);
    NotPrefix(command, "FREQUENCY", 0);
    NotPrefix(command, "TC_ON", 0);
    NotPrefix(command, "DC_", 0);
    NotPrefix(command, "PIO_DEBUG", 4);
    assert StartsWith(command, "PIO_TRIGGER");
    assert command[11..] == "_STATUS";
    NoNumberAtLetter("_STATUS");
    assert ScanInt(command[11..]) == None;
  }

  /** `TC_ONBOARD` is read as an auto-print command with no value, and rejected. */
  lemma TcOnboardRoute()
    ensures RouteOf("TC_ONBOARD", false) == ThermocoupleAutoPrint(None)
  {
    var command := "TC_ONBOARD";
    NotPrefix(command, "FREQ", 0);
    NotPrefix(command, "FREQUENCY", 0);
    assert StartsWith(command, "TC_ON");
    assert command[5..] == "BOARD";
    NoNumberAtLetter("BOARD");
  }

  /** A text that differs from `prefix` at index `k` does not start with it. */
  lemma NotPrefix(s: string, prefix: string, k: nat)
    requires k < |prefix| && (k < |s| ==> s[k] != prefix[k])
    ensures !StartsWith(s, prefix)
  {
    if |prefix| <= |s| {
      assert s[..|prefix|][k] != prefix[k];
    }
  }

  // ----- FREQ -----

  /** A frequency change: the frequency and the duties of the two pairs. */
  datatype FreqRequest = FreqRequest(frequency: real, duty1: real, duty2: real)

  /** The validation of `FREQ` as the source writes it: three values, or two with
      the one duty used for both pairs; frequency in (0, 1 MHz), duties in [0, 1].
      The last value scanned is the duty of pair 2. */
  function FreqRequestAsWritten(args: seq<real>): (r: Option<FreqRequest>)
    ensures r.Some? <==>
      (|args| == 2 || |args| == 3) && 0.0 < args[0] < MAX_FREQUENCY &&
      InUnitRange(args[1]) && InUnitRange(args[|args| - 1])
    ensures r.Some? ==> r.value == FreqRequest(args[0], args[1], args[|args| - 1])
  {
    if |args| == 3 && 0.0 < args[0] < MAX_FREQUENCY && InUnitRange(args[1]) && InUnitRange(args[2]) then
      Some(FreqRequest(args[0], args[1], args[2]))
    else if |args| == 2 && 0.0 < args[0] < MAX_FREQUENCY && InUnitRange(args[1]) then
      Some(FreqRequest(args[0], args[1], args[1]))
    else None
  }

  /** The validation the rest of the model uses: as written, and also rejecting a
      frequency so low that the phase word of state machine 3 does not fit the
      `uint32_t` it is converted to. */
  function FreqRequestOf(args: seq<real>, sysHz: nat): (r: Option<FreqRequest>)
    ensures r.Some? ==> PhasePwm.PhaseFits(r.value.frequency, sysHz)
    ensures r.Some? ==> InUnitRange(r.value.duty1) && InUnitRange(r.value.duty2)
  {
    match FreqRequestAsWritten(args)
    case Some(p) => if PhasePwm.PhaseFits(p.frequency, sysHz) then Some(p) else None
    case None => None
  }

  /** A request is accepted exactly when two or three values were scanned, all in
      range; the last value scanned is the duty of pair 2. */
  lemma FreqRequestAccepted(args: seq<real>, sysHz: nat)
    ensures FreqRequestOf(args, sysHz).Some? <==>
      (|args| == 2 || |args| == 3) && 0.0 < args[0] < MAX_FREQUENCY && PhasePwm.PhaseFits(args[0], sysHz) &&
      InUnitRange(args[1]) && InUnitRange(args[|args| - 1])
    ensures FreqRequestOf(args, sysHz).Some? ==>
      FreqRequestOf(args, sysHz).value == FreqRequest(args[0], args[1], args[|args| - 1])
  {
  }

  /** `FREQ f d` is `FREQ f d d`. */
  lemma OneDutyForBothPairs(f: real, d: real, sysHz: nat)
    ensures FreqRequestOf([f, d], sysHz) == FreqRequestOf([f, d, d], sysHz)
  {
  }

  /** The correction only rejects requests below 1 Hz: from 1 Hz on the phase
      words fit for any system clock up to 2^32 Hz. */
  lemma CorrectionBelowOneHz(args: seq<real>, sysHz: nat)
    requires args != [] && 1.0 <= args[0] && sysHz <= U32
    ensures FreqRequestOf(args, sysHz) == FreqRequestAsWritten(args)
  {
    var f := args[0];
    var q := (1.0 / f) / 4.0;
    QuotientAntitone(1.0, 1.0, f);
    assert q <= 0.25;
    MulMonotone(q, 0.25, sysHz as real);
    assert PhasePwm.PhaseArg(PhasePwm.SM_COUNT - 1, f, sysHz, PhasePwm.MIN_DIV) == 3.0 * (q * sysHz as real);
  }

  /** `FREQUENCY ...` passes the prefix test, but the values are scanned from index
      4, inside the word, so none is found and the command is always rejected. */
  lemma FrequencyWordRejected(rest: CString, sysHz: nat)
    ensures var command: CString := "FREQUENCY" + rest;
      RouteOf(command, false) == Frequency([]) && FreqRequestOf([], sysHz).None?
  {
    var command: CString := "FREQUENCY" + rest;
    assert command[4..] == "UENCY" + rest;
    NoNumberAtLetter(command[4..]);
  }

  /** At 0.01 Hz the validation as written lets the request through, but the phase
      argument of state machine 3 at 125 MHz is 9.375e9, beyond `uint32_t`. */
  lemma TinyFrequencyOverflows()
    ensures FreqRequestAsWritten([0.01, 0.5]).Some?
    ensures PhasePwm.PhaseArg(PhasePwm.SM_COUNT - 1, 0.01, 125000000, PhasePwm.MIN_DIV) == 9375000000.0
    ensures !PhasePwm.PhaseFits(0.01, 125000000) && FreqRequestOf([0.01, 0.5], 125000000).None?
  {
  }

  // ----- TC_ON, PIO_DEBUG, PIO_TRIGGER and RELAY -----

  /** The on/off commands act only on a scanned 0 or 1. */
  function FlagArg(arg: Option<int>): (r: Option<bool>)
    ensures r.Some? <==> arg == Some(0) || arg == Some(1)
    ensures r.Some? ==> (r.value <==> arg.value == 1)
  {
    if arg == Some(0) then Some(false) else if arg == Some(1) then Some(true) else None
  }

  /** The value `RELAY` scans as the source writes it: from index 6 of the static
      buffer, which for a bare `RELAY` is past the terminator. A value is found
      only when index 6 holds text, whatever the command before it. */
  function RelayArgAsWritten(buf: seq<char>): (r: Option<int>)
    ensures At(buf, 6) == NUL ==> r.None?
    ensures r.Some? ==> LONG_MIN <= r.value <= LONG_MAX
  {
    ScanInt(CStrFrom(buf, 6))
  }

  /** A buffer after `RELAY 1` and then a bare `RELAY`: the command is `RELAY`, whose
      value should be missing, but index 6 still holds the `1` of the earlier line. */
  lemma StaleRelayArgument(before: seq<char>)
    requires |before| == CMD_SIZE
    ensures var first := Stored(before, "RELAY 1", true);
      var second := Stored(first, "RELAY", false);
      CStr(second) == "RELAY" && RelayArgAsWritten(second) == Some(1)
  {
    var first := Stored(before, "RELAY 1", true);
    var second := Stored(first, "RELAY", false);
    assert second[..5] == "RELAY" && second[5] == NUL;
    CStrFromRun(second, 0, 5);
    assert second[6] == '1' && second[7] == NUL;
    assert CStrFrom(second, 6) == "1";
  }

  /** Scanning right after the word, a bare `RELAY` has no value and is rejected. */
  lemma BareRelayRejected()
    ensures RouteOf("RELAY", false) == Relay(None) && FlagArg(None).None?
  {
    var command := "RELAY";
    NotPrefix(command, "FREQ", 0);
    NotPrefix(command, "FREQUENCY", 0);
    NotPrefix(command, "TC_ON", 0);
    NotPrefix(command, "DC_", 0);
    NotPrefix(command, "PIO_DEBUG", 0);
    NotPrefix(command, "PIO_TRIGGER", 0);
    assert StartsWith(command, "RELAY") && command[5..] == "";
  }

  // ----- What a command changes -----

  /** The settings behind the three pointers of `process_serial_commands`. */
  datatype Settings = Settings(frequency: real, dutyCycle: real, autoTcPrint: int)

  /** What a route does to the settings: only an accepted `FREQ` changes the
      frequency and duty, and only `TC_ON` with 0 or 1 the auto-print flag. */
  function SettingsAfter(s: Settings, route: Route, sysHz: nat): (r: Settings)
    ensures (r.frequency, r.dutyCycle) != (s.frequency, s.dutyCycle) ==>
      route.Frequency? && FreqRequestOf(route.args, sysHz).Some?
    ensures r.autoTcPrint != s.autoTcPrint ==>
      route.ThermocoupleAutoPrint? && (r.autoTcPrint == 0 || r.autoTcPrint == 1)
    ensures !route.Frequency? && !route.ThermocoupleAutoPrint? ==> r == s
  {
    match route
    case Frequency(args) =>
      (match FreqRequestOf(args, sysHz)
       case Some(p) => s.(frequency := p.frequency, dutyCycle := p.duty1)
       case None => s)
    case ThermocoupleAutoPrint(arg) => if FlagArg(arg).Some? then s.(autoTcPrint := arg.value) else s
    case _ => s
  }

  /** Only an accepted `FREQ` changes the frequency and duty the caller keeps,
      and it does not touch the auto-print flag. */
  lemma UpdateReported(s: Settings, route: Route, sysHz: nat)
    requires route.Frequency? && FreqRequestOf(route.args, sysHz).Some?
    ensures SettingsAfter(s, route, sysHz) == s.(frequency := route.args[0], dutyCycle := route.args[1])
  {
    FreqRequestAccepted(route.args, sysHz);
  }

  /** The part of the PWM control a command can change: the words in the
      transmit FIFOs, the trigger, and the remembered frequency and duty. */
  datatype PwmView = PwmView(fifos: seq<seq<nat>>, trigger: PhasePwm.TriggerState, frequency: real, duty: real)

  ghost function ViewOf(pwm: PhasePwm.PwmControl): PwmView
    reads pwm
  {
    PwmView(pwm.txFifos, pwm.Trigger(), pwm.currentFrequency, pwm.currentDutyCycle)
  }

  /** What a route does to the PWM control: an accepted `FREQ` reprograms it, and
      `PIO_DEBUG`/`PIO_TRIGGER` with 0 or 1 act on the trigger, keeping it
      consistent with the pin. Nothing else touches the PWM control. */
  function PwmAfter(v: PwmView, route: Route, sysHz: nat): (r: PwmView)
    ensures r.fifos != v.fifos || r.frequency != v.frequency || r.duty != v.duty ==> route.Frequency?
    ensures r.trigger != v.trigger ==> route.PioDebug? || route.PioTrigger?
    ensures PhasePwm.TriggerOk(v.trigger) ==> PhasePwm.TriggerOk(r.trigger)
    ensures !route.Frequency? && !route.PioDebug? && !route.PioTrigger? ==> r == v
  {
    match route
    case Frequency(args) =>
      (match FreqRequestOf(args, sysHz)
       case Some(p) =>
         v.(fifos := PhasePwm.LoadedFifos(PhasePwm.Programmed(p.frequency, p.duty1, p.duty2, sysHz)),
            frequency := p.frequency, duty := p.duty1)
       case None => v)
    case PioDebug(arg) =>
      if FlagArg(arg).Some? then v.(trigger := PhasePwm.SetDebugMode(FlagArg(arg).value)) else v
    case PioTrigger(arg) =>
      if FlagArg(arg).Some? then v.(trigger := PhasePwm.ManualTrigger(v.trigger, v.fifos, FlagArg(arg).value)) else v
    case _ => v
  }

  /** What a route does to the discharge configuration: the CSV lines and the
      `DC_` commands go to `process_discharge_command`; no other route touches it,
      and only `DC_CSV_END` ends CSV input. */
  function DischargeAfter(c: DischargeV2.Config, route: Route, command: CString): (r: DischargeV2.Config)
    ensures !route.CsvData? && !route.DischargeCommand? ==> r == c
    ensures c.csvInputMode && !r.csvInputMode ==> command == "DC_CSV_END"
  {
    if route.CsvData? || route.DischargeCommand? then DischargeV2.ProcessCommand(c, command).cfg else c
  }

  /** What a route does to the pins: `RELAY` with 0 or 1 sets the relay level, and
      nothing else changes: no other pin, no other route, and not the relay's mode. */
  function GpioAfter(gpio: seq<Shutdown.Gpio>, relayPin: nat, route: Route): (r: seq<Shutdown.Gpio>)
    requires relayPin < |gpio|
    ensures |r| == |gpio| && forall k :: 0 <= k < |gpio| && k != relayPin ==> r[k] == gpio[k]
    ensures r[relayPin] == gpio[relayPin].(level := r[relayPin].level)
    ensures r != gpio ==> route.Relay? && FlagArg(route.arg).Some?
  {
    if route.Relay? && FlagArg(route.arg).Some? then gpio[relayPin := gpio[relayPin].(level := route.arg.value == 1)]
    else gpio
  }

  /** `RELAY 1` closes the relay and `RELAY 0` opens it, whatever its level was. */
  lemma RelaySetsLevel(gpio: seq<Shutdown.Gpio>, relayPin: nat, v: int)
    requires relayPin < |gpio| && (v == 0 || v == 1)
    ensures GpioAfter(gpio, relayPin, Relay(Some(v)))[relayPin].level <==> v == 1
    ensures GpioAfter(GpioAfter(gpio, relayPin, Relay(Some(v))), relayPin, Relay(Some(v))) == GpioAfter(gpio, relayPin, Relay(Some(v)))
  {
  }

  /** The buffer after a line is stored and terminated; a dispatched line has its
      first cell cleared again (`cmd[0] = '\0'`), but a line taken by the CSV or
      `DC_HELP` branches does not. */
  function Stored(buf: seq<char>, line: seq<char>, cleared: bool): (b: seq<char>)
    requires |line| < |buf|
    ensures |b| == |buf|
  {
    var filled := line + [NUL] + buf[|line| + 1..];
    if cleared && line != [] then filled[0 := NUL] else filled
  }

  /** `static char cmd[1024]` and `static int chars` of `process_serial_commands`. */
  class SerialCommands {
    const cmd: array<char>
    var chars: int

    ghost predicate Valid()
      reads this
    {
      cmd.Length == CMD_SIZE && chars == 0
    }

    constructor ()
      ensures Valid() && cmd[..] == seq(CMD_SIZE, _ => NUL)
      ensures fresh(cmd)
    {
      cmd := new char[CMD_SIZE](_ => NUL);
      chars := 0;
    }

    /** The reading loop: bytes are stored until a line end, the timeout or a full
        buffer; the rest of the buffer keeps what earlier commands left there. */
    method ReadLine(input: seq<nat>) returns (consumed: nat)
      requires Valid() && IsInput(input)
      modifies this, cmd
      ensures cmd.Length == CMD_SIZE && chars == LineLength(input)
      ensures consumed == Consumed(input)
      ensures cmd[..] == Line(input) + old(cmd[..])[LineLength(input)..]
    {
      var n := 0;  // `chars`, which every call finds at 0
      var c := Getchar(input, 0);
      while c != -1 && n < MAX_LINE
        invariant 0 <= n <= MAX_LINE && n <= |input|
        invariant LineLengthFrom(input, n) == LineLength(input)
        invariant c == Getchar(input, n)
        invariant forall k :: 0 <= k < n ==> cmd[k] == input[k] as char
        invariant forall k :: n <= k < CMD_SIZE ==> cmd[k] == old(cmd[k])
        decreases MAX_LINE - n
      {
        if IsLineEnd(c) {
          break;
        }
        cmd[n] := c as char;
        n := n + 1;
        c := Getchar(input, n);
      }
      // Every `getchar` call but a timeout took a byte.
      consumed := if n < |input| then n + 1 else n;
      LineStored(cmd[..], old(cmd[..]), input);
      chars := n;
    }

    /** `process_serial_commands`: one line is taken from the input and acted on.
        `updated` is the result, `settingsAfter` what the pointers hold afterwards. */
    method ProcessSerialCommands(input: seq<nat>, settings: Settings, pwm: PhasePwm.PwmControl,
                                 discharge: DischargeV2.Discharge, board: Shutdown.Board)
      returns (updated: bool, settingsAfter: Settings, consumed: nat, ghost route: Route)
      requires Valid() && IsInput(input) && pwm.Valid() && discharge.Valid() && board.Valid()
      modifies this, cmd, pwm, discharge, discharge.ch1Duties, discharge.ch2Duties, board
      ensures Valid() && pwm.Valid() && discharge.Valid() && board.Valid()
      ensures consumed == Consumed(input)
      ensures route == RouteOfInput(input, old(discharge.csvInputMode))
      ensures cmd[..] == if LineLength(input) == 0 then old(cmd[..])
                         else Stored(old(cmd[..]), Line(input), !route.CsvData? && !route.DischargeHelp?)
      ensures updated <==> route.Frequency? && FreqRequestOf(route.args, pwm.sysHz).Some?
      ensures settingsAfter == SettingsAfter(settings, route, pwm.sysHz)
      ensures ViewOf(pwm) == PwmAfter(old(ViewOf(pwm)), route, pwm.sysHz) && pwm.smEnabled == old(pwm.smEnabled)
      ensures discharge.Cfg() == DischargeAfter(old(discharge.Cfg()), route, Command(input))
      ensures discharge.Run() == old(discharge.Run())
      ensures board.gpio == GpioAfter(old(board.gpio), board.relayPin, route) && board.halted == old(board.halted)
    {
      updated, settingsAfter, route := false, settings, NoCommand;
      consumed := ReadLine(input);
      if chars >= MAX_LINE {
        // "Command too long, truncated" is printed.
      }
      if chars > 0 {
        updated, settingsAfter, route := HandleLine(input, old(cmd[..]), settings, pwm, discharge, board);
      }
    }

    /** A line of `chars > 0` bytes read over the buffer `before`: it is terminated,
        handed to the command chain and, once dispatched, cleared. */
    method HandleLine(input: seq<nat>, ghost before: seq<char>, settings: Settings, pwm: PhasePwm.PwmControl,
                      discharge: DischargeV2.Discharge, board: Shutdown.Board)
      returns (updated: bool, settingsAfter: Settings, ghost route: Route)
      requires cmd.Length == CMD_SIZE == |before| && IsInput(input) && 0 < chars == LineLength(input)
      requires cmd[..] == Line(input) + before[LineLength(input)..]
      requires pwm.Valid() && discharge.Valid() && board.Valid()
      modifies this, cmd, pwm, discharge, discharge.ch1Duties, discharge.ch2Duties, board
      ensures Valid() && pwm.Valid() && discharge.Valid() && board.Valid()
      ensures route == RouteOf(Command(input), old(discharge.csvInputMode))
      ensures cmd[..] == Stored(before, Line(input), !route.CsvData? && !route.DischargeHelp?)
      ensures updated <==> route.Frequency? && FreqRequestOf(route.args, pwm.sysHz).Some?
      ensures settingsAfter == SettingsAfter(settings, route, pwm.sysHz)
      ensures ViewOf(pwm) == PwmAfter(old(ViewOf(pwm)), route, pwm.sysHz) && pwm.smEnabled == old(pwm.smEnabled)
      ensures discharge.Cfg() == DischargeAfter(old(discharge.Cfg()), route, Command(input))
      ensures discharge.Run() == old(discharge.Run())
      ensures board.gpio == GpioAfter(old(board.gpio), board.relayPin, route) && board.halted == old(board.halted)
    {
      ghost var read := cmd[..];
      cmd[chars] := NUL;
      assert cmd[..] == read[chars := NUL];
      var command := CStr(cmd[..]);
      Terminated(cmd[..], before, input);
      var dispatched;
      updated, settingsAfter, dispatched, route := HandleCommand(command, settings, pwm, discharge, board);
      chars := 0;
      ghost var filled := cmd[..];
      if dispatched {
        cmd[0] := NUL;
        assert cmd[..] == filled[0 := NUL];
      }
    }

    /** The command chain once the line is terminated. A line taken by the CSV test
        or by `DC_HELP` returns at once; any other is dispatched and `dispatched`
        is set, after which the caller clears the buffer. */
    method HandleCommand(command: CString, settings: Settings, pwm: PhasePwm.PwmControl,
                         discharge: DischargeV2.Discharge, board: Shutdown.Board)
      returns (updated: bool, settingsAfter: Settings, dispatched: bool, ghost route: Route)
      requires pwm.Valid() && discharge.Valid() && board.Valid()
      modifies pwm, discharge, discharge.ch1Duties, discharge.ch2Duties, board
      ensures pwm.Valid() && discharge.Valid() && board.Valid()
      ensures route == RouteOf(command, old(discharge.csvInputMode))
      ensures dispatched <==> !route.CsvData? && !route.DischargeHelp?
      ensures updated <==> route.Frequency? && FreqRequestOf(route.args, pwm.sysHz).Some?
      ensures settingsAfter == SettingsAfter(settings, route, pwm.sysHz)
      ensures ViewOf(pwm) == PwmAfter(old(ViewOf(pwm)), route, pwm.sysHz) && pwm.smEnabled == old(pwm.smEnabled)
      ensures discharge.Cfg() == DischargeAfter(old(discharge.Cfg()), route, command)
      ensures discharge.Run() == old(discharge.Run())
      ensures board.gpio == GpioAfter(old(board.gpio), board.relayPin, route) && board.halted == old(board.halted)
    {
      updated, settingsAfter, dispatched := false, settings, false;
      if discharge.csvInputMode {
        var handled := CsvCommand(command, discharge);
        if handled {
          route := CsvData;
          return;
        }
      }
      if command == "DC_HELP" {
        route := DischargeHelp;
        return;
      }
      if discharge.csvInputMode {
        // Every line is taken by the first CSV test.
        assert false;
      }
      updated, settingsAfter, route := Dispatch(command, settings, pwm, discharge, board);
      dispatched := true;
    }

    /** The first CSV test: in CSV input mode the line goes to the discharge
        controller, which takes it. */
    method CsvCommand(command: CString, discharge: DischargeV2.Discharge) returns (handled: bool)
      requires discharge.Valid() && discharge.csvInputMode
      modifies discharge, discharge.ch1Duties, discharge.ch2Duties
      ensures discharge.Valid() && discharge.Run() == old(discharge.Run()) && handled
      ensures discharge.Cfg() == DischargeAfter(old(discharge.Cfg()), CsvData, command)
    {
      CsvModeAlwaysHandled(discharge.Cfg(), command);
      handled := discharge.ProcessDischargeCommand(command);
    }

    /** The branches from `FREQ` on, outside CSV mode. */
    method Dispatch(command: CString, settings: Settings, pwm: PhasePwm.PwmControl,
                    discharge: DischargeV2.Discharge, board: Shutdown.Board)
      returns (updated: bool, settingsAfter: Settings, ghost route: Route)
      requires pwm.Valid() && discharge.Valid() && board.Valid()
      requires !discharge.csvInputMode && command != "DC_HELP"
      modifies pwm, discharge, discharge.ch1Duties, discharge.ch2Duties, board
      ensures pwm.Valid() && discharge.Valid() && board.Valid()
      ensures route == RouteOf(command, false)
      ensures updated <==> route.Frequency? && FreqRequestOf(route.args, pwm.sysHz).Some?
      ensures settingsAfter == SettingsAfter(settings, route, pwm.sysHz)
      ensures ViewOf(pwm) == PwmAfter(old(ViewOf(pwm)), route, pwm.sysHz) && pwm.smEnabled == old(pwm.smEnabled)
      ensures discharge.Cfg() == DischargeAfter(old(discharge.Cfg()), route, command)
      ensures discharge.Run() == old(discharge.Run())
      ensures board.gpio == GpioAfter(old(board.gpio), board.relayPin, route) && board.halted == old(board.halted)
    {
      updated, settingsAfter := false, settings;
      route := RouteOf(command, false);
      if StartsWith(command, "FREQ") || StartsWith(command, "FREQUENCY") {
        updated, settingsAfter := FreqCommand(command, settings, pwm);
      } else if StartsWith(command, "TC_ON") {
        var tconVal := ScanInt(command[5..]);
        if tconVal == Some(0) || tconVal == Some(1) {
          settingsAfter := settings.(autoTcPrint := tconVal.value);
        }
      } else if command == "TC_CSV" || command == "TC_NOW" || command == "HELP" {
        // Printing only.
      } else if StartsWith(command, "DC_") {
        DcCommand(command, discharge);
      } else {
        route := DispatchPioRelay(command, pwm, board);
      }
    }

    /** The `DC_` branch: an unknown discharge command only prints an error. */
    method DcCommand(command: CString, discharge: DischargeV2.Discharge)
      requires discharge.Valid()
      modifies discharge, discharge.ch1Duties, discharge.ch2Duties
      ensures discharge.Valid() && discharge.Run() == old(discharge.Run())
      ensures discharge.Cfg() == DischargeAfter(old(discharge.Cfg()), DischargeCommand, command)
    {
      var handled := discharge.ProcessDischargeCommand(command);
      if !handled {
        // "Unknown discharge command" is printed.
      }
    }

    /** The branches from `PIO_DEBUG` on. */
    method DispatchPioRelay(command: CString, pwm: PhasePwm.PwmControl, board: Shutdown.Board)
      returns (ghost route: Route)
      requires pwm.Valid() && board.Valid()
      requires !StartsWith(command, "FREQ") && !StartsWith(command, "FREQUENCY") && !StartsWith(command, "TC_ON")
      requires command !in ["DC_HELP", "TC_CSV", "TC_NOW", "HELP"] && !StartsWith(command, "DC_")
      modifies pwm, board
      ensures pwm.Valid() && board.Valid()
      ensures route == RouteOf(command, false)
      ensures !route.Frequency? && !route.ThermocoupleAutoPrint? && !route.DischargeCommand?
      ensures ViewOf(pwm) == PwmAfter(old(ViewOf(pwm)), route, pwm.sysHz) && pwm.smEnabled == old(pwm.smEnabled)
      ensures board.gpio == GpioAfter(old(board.gpio), board.relayPin, route) && board.halted == old(board.halted)
    {
      route := RouteOf(command, false);
      if StartsWith(command, "PIO_DEBUG") {
        PioDebugCommand(command, pwm);
      } else if StartsWith(command, "PIO_TRIGGER") {
        PioTriggerCommand(command, pwm);
      } else if command == "PIO_TRIGGER_STATUS" {
        // Printing only.
      } else if StartsWith(command, "RELAY") {
        RelayCommand(command, board);
      } else if command == "TC_ONBOARD" {
        // Printing only.
      } else {
        // "Unrecognized command" is printed.
      }
    }

    /** The `FREQ` branch: the request is validated and, when accepted, stored in the
        caller's settings and programmed into the state machines. */
    method FreqCommand(command: CString, settings: Settings, pwm: PhasePwm.PwmControl)
      returns (updated: bool, settingsAfter: Settings)
      requires pwm.Valid() && 4 <= |command|
      modifies pwm
      ensures pwm.Valid()
      ensures updated <==> FreqRequestOf(ScanReals(command[4..], 3), pwm.sysHz).Some?
      ensures settingsAfter == SettingsAfter(settings, Frequency(ScanReals(command[4..], 3)), pwm.sysHz)
      ensures ViewOf(pwm) == PwmAfter(old(ViewOf(pwm)), Frequency(ScanReals(command[4..], 3)), pwm.sysHz)
      ensures pwm.smEnabled == old(pwm.smEnabled)
    {
      updated, settingsAfter := false, settings;
      var parsed := ScanReals(command[4..], 3);
      FreqRequestAccepted(parsed, pwm.sysHz);
      if |parsed| == 3 {
        var newFreq, newDuty1, newDuty2 := parsed[0], parsed[1], parsed[2];
        if newFreq <= 0.0 || newFreq >= MAX_FREQUENCY || !PhasePwm.PhaseFits(newFreq, pwm.sysHz) ||
           newDuty1 < 0.0 || newDuty1 > 1.0 || newDuty2 < 0.0 || newDuty2 > 1.0 {
          // "Invalid parameters."
          assert FreqRequestOf(parsed, pwm.sysHz) == None;
        } else {
          assert FreqRequestOf(parsed, pwm.sysHz) == Some(FreqRequest(newFreq, newDuty1, newDuty2));
          settingsAfter := settings.(frequency := newFreq, dutyCycle := newDuty1);
          pwm.UpdatePwmParameters(newFreq, newDuty1, newDuty2);
          updated := true;
        }
      } else if |parsed| == 2 {
        var newFreq, newDuty1 := parsed[0], parsed[1];
        if newFreq <= 0.0 || newFreq >= MAX_FREQUENCY || !PhasePwm.PhaseFits(newFreq, pwm.sysHz) ||
           newDuty1 < 0.0 || newDuty1 > 1.0 {
          // "Invalid parameters."
          assert FreqRequestOf(parsed, pwm.sysHz) == None;
        } else {
          assert FreqRequestOf(parsed, pwm.sysHz) == Some(FreqRequest(newFreq, newDuty1, newDuty1));
          settingsAfter := settings.(frequency := newFreq, dutyCycle := newDuty1);
          pwm.UpdatePwmParameters(newFreq, newDuty1, newDuty1);
          updated := true;
        }
      } else {
        // "Invalid FREQ command." and the usage are printed.
        assert FreqRequestOf(parsed, pwm.sysHz) == None;
      }
    }

    /** The `PIO_DEBUG` branch. */
    method PioDebugCommand(command: CString, pwm: PhasePwm.PwmControl)
      requires pwm.Valid() && 9 <= |command|
      modifies pwm
      ensures pwm.Valid()
      ensures ViewOf(pwm) == PwmAfter(old(ViewOf(pwm)), PioDebug(ScanInt(command[9..])), pwm.sysHz)
      ensures pwm.smEnabled == old(pwm.smEnabled)
    {
      var debugEnable := ScanInt(command[9..]);
      if debugEnable == Some(0) || debugEnable == Some(1) {
        pwm.SetPioDebugMode(debugEnable.value == 1);
      }
    }

    /** The `PIO_TRIGGER` branch. */
    method PioTriggerCommand(command: CString, pwm: PhasePwm.PwmControl)
      requires pwm.Valid() && 11 <= |command|
      modifies pwm
      ensures pwm.Valid()
      ensures ViewOf(pwm) == PwmAfter(old(ViewOf(pwm)), PioTrigger(ScanInt(command[11..])), pwm.sysHz)
      ensures pwm.smEnabled == old(pwm.smEnabled)
    {
      var triggerState := ScanInt(command[11..]);
      if triggerState == Some(0) || triggerState == Some(1) {
        pwm.SetManualPioTrigger(triggerState.value == 1);
      }
    }

    /** The `RELAY` branch, scanning the value right after the word. */
    method RelayCommand(command: CString, board: Shutdown.Board)
      requires board.Valid() && 5 <= |command|
      modifies board
      ensures board.Valid() && board.halted == old(board.halted)
      ensures board.gpio == GpioAfter(old(board.gpio), board.relayPin, Relay(ScanInt(command[5..])))
    {
      var relayState := ScanInt(command[5..]);
      if relayState == Some(0) || relayState == Some(1) {
        board.SetRelay(relayState.value);
      }
    }
  }
}
