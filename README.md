# SESL inverter controller firmware, modelled in Dafny

This project models the control logic of the Raspberry Pi Pico firmware of the
SESL inverter controller. The hardware access is left aside and the logic is
modelled together with the properties it promises:

- **the two-channel discharge sequencer, in both of its revisions.**
  - `Helpers/GPIO_control_V2.c` is step based (modules `DischargeV2` and `DischargeV2Props`).
  - `Helpers/GPIO_pwm_discharge.c` is time based (modules `PwmDischarge` and `PwmDischargeProps`).
  - Both cover the `DC_STEP`/`DISCHARGE_STEP` one-line programming, the streamed CSV input, command dispatch and one iteration of the core-1 loop.
- **the four-phase inverter PWM of `Helpers/pwm_control.c`** (module `PhasePwm`).
  - The descending search for a PIO cycle count and clock divider.
  - The phase, high and low words each state machine receives.
  - The order in which the FIFOs are cleared and loaded.
  - The manual trigger override.
- **the protection monitors.**
  - Current calibration and the `uint8_t` over-current debounce (`AdcMonitor`).
  - The MAX31855K word decoding (`Max31855k`).
  - The 600-entry ring log, with the order it is printed in (`Thermocouple`, `RingLog`).
  - The over-temperature debounce with its early return (`Thermocouple`).
- **the shutdown latch and the relay of `Helpers/shutdown.c`** (`Shutdown`), over an abstract pin state.
- **the serial command interpreter of `Helpers/serial_cmd.c`** (`SerialCmd`).
  - The bounded line buffer and the prefix routing.
  - The `FREQ`, `TC_ON`, `PIO_*` and `RELAY` argument checks.
  - The effect of each command on the PWM control, the discharge configuration and the relay.
- **the parameterised library copies in `UserDefinedLib/` and the helpers of `InverterController.c`** (`LibThermocouple`, `LibAdcMonitor`, `LibPwmControl`, `InverterController`).

Helper modules:

- `CText` models what the parsers need from the C library:
  - NUL-terminated buffers, `strncpy`, `strstr`/`strchr` and `strtok`, which writes terminators into the buffer it tokenises;
  - `atoi`/`atof`/`sscanf` on plain decimals.
- `DutyLists` holds the duty-list token loop both discharge revisions share.
- `CNumeric` holds C's 32-bit unsigned arithmetic and its float-to-integer casts.
- `Arith` holds division and modulo facts.

State that the firmware updates in place is modelled as follows:

- a static struct becomes a class with fields (`Discharge`, `DischargeSequencer`, `PwmControl`, `OvercurrentMonitor`, `TemperatureLog`, `Board`, `SerialCommands`, `PioBlock`);
- a fixed array becomes a Dafny `array`;
- a FIFO becomes a field of type `seq`.

Every method is proved against a pure function of the old state, and the properties are proved about those functions.

Floating-point values are real numbers:

- a `(uint16_t)`/`(uint32_t)` cast is the floor of a non-negative value;
- `round_to_uint` is the floor of `x + 0.5`;
- 32-bit unsigned wrap-around is written out with `% 2^32`.

## Model

| member | source | states |
|---|---|---|
| CNumeric.Elapsed | Helpers/GPIO_control_V2.c:132 | `now - step_start_time` in `uint32_t`: below 2^32, and adding it to the start time gives `now` again modulo 2^32 |
| CNumeric.Scale | Helpers/GPIO_control_V2.c:169 | `(uint16_t)(x * WRAP_VALUE)` for x in [0,1] is at most the wrap and is the largest whole level not above the product |
| CNumeric.ScaleMonotone | Helpers/GPIO_control_V2.c:169 | a larger duty never gives a lower level |
| CText.StrNCopyCStr | Helpers/GPIO_control_V2.c:197-199 | a `strncpy` into 256 cells with the last cell set to NUL holds the command cut to 255 characters |
| CText.StrNCopy | Helpers/GPIO_control_V2.c:197-199 | the copy fills the whole buffer of `size` cells |
| CText.CStr | Helpers/serial_cmd.c:55 | the C string of a buffer is no longer than the buffer and is followed by a NUL (or the end) |
| CText.ScanLongAt | Helpers/serial_cmd.c:116 | a successful `strtol` conversion consumes at least one character past where it starts and stays within the text |
| CText.ScanULongAt | Helpers/GPIO_control_V2.c:203 | a `%lu` conversion gives a value that fits an `unsigned long` |
| CText.ClampLong | Helpers/GPIO_control_V2.c:310 | `strtol`'s range clamp: a value inside `long` is kept, one above or below saturates at `LONG_MAX` or `LONG_MIN` |
| CText.Atoi | Helpers/GPIO_control_V2.c:310 | `atoi` gives 0 when no number starts the text, the number itself when it fits an `int`, `INT_MAX` or `INT_MIN` when it lies beyond them, and always a value in the `int` range |
| CText.Atof | Helpers/GPIO_control_V2.c:231 | `atof` gives 0.0 when no number starts the text, and a text starting with a digit reads as a non-negative value |
| CText.ScanInt | Helpers/serial_cmd.c:116 | `sscanf("%d")` converts exactly when the text starts with a number, and the value lies in the `int` range |
| CText.Find | Helpers/GPIO_control_V2.c:218 | `strstr` returns the first index at which the pattern occurs, with no occurrence before it |
| CText.FindFrom | Helpers/GPIO_control_V2.c:224 | a search from an offset finds the first occurrence at or after it, or reports that there is none |
| CText.FindCutHasNone | Helpers/GPIO_control_V2.c:224-227 | the text before the first `CH2` holds no `CH2` |
| CText.RunOf | Helpers/GPIO_control_V2.c:221 | `while (*p == ' ') p++` stops at the first character that is not a space |
| CText.StrTok | Helpers/GPIO_control_V2.c:229 | one `strtok` call keeps the buffer length, and resumes at or after where it started |
| CText.StrTokWrites | Helpers/GPIO_control_V2.c:229-235 | `strtok` writes only terminators, and only at or after where it starts |
| CText.StrTokDelivers | Helpers/GPIO_control_V2.c:229-235 | successive `strtok` calls deliver exactly the maximal runs of non-delimiters of the C string, in order |
| CText.DeliveredStep | Helpers/GPIO_control_V2.c:235 | a further `strtok(NULL, ...)` call moves the next token from the pending tokens to the delivered ones |
| CText.StrTokCutBeforeSave | Helpers/GPIO_pwm_discharge.c:86 | after a `strtok` call the C string of its buffer ends at or before where the next call resumes |
| CText.StrTokKeepsCStr | Helpers/GPIO_pwm_discharge.c:93 | a `strtok` call that resumes past the end of the C string leaves that C string unchanged |
| CText.CStrShortenedByNulWrites | Helpers/GPIO_pwm_discharge.c:84 | writing terminators into a buffer can only cut its C string short |
| CText.CStrFromCut | Helpers/GPIO_control_V2.c:226 | a terminator written inside a C string cuts it at that index |
| CText.ScanLiteralULong | Helpers/GPIO_control_V2.c:203 | `sscanf(.., "DC_STEP %lu", ..) == 1` only when the text starts with the literal, and the value fits an `unsigned long` |
| CText.ScanCsvPair | Helpers/GPIO_control_V2.c:282 | `sscanf(line, "%f,%f", ..)` converts at most two values |
| CText.ScanReals | Helpers/serial_cmd.c:81 | `sscanf(.., "%f %f %f", ..)` converts at most three values |
| CText.NoNumberAtLetter | Helpers/GPIO_control_V2.c:231 | a text whose first non-blank character cannot start a number scans nothing, and `atof` reads it as 0.0 |
| DutyLists.Admit | Helpers/GPIO_control_V2.c:232-234 | a parsed value is stored exactly when it lies in [0,1] |
| DutyLists.Take | Helpers/GPIO_control_V2.c:230 | the cap keeps the first `max` duties, all of them when there are fewer |
| DutyLists.DutiesAppend | Helpers/GPIO_control_V2.c:230-236 | a skipped token does not end the list: parsing two pieces is parsing the whole |
| DutyLists.DutiesMembership | Helpers/GPIO_control_V2.c:231-234 | a value is in the list exactly when it lies in [0,1] and some token scans to it |
| DutyLists.DutiesInRange | Helpers/GPIO_control_V2.c:232 | every stored duty lies in [0,1] |
| DutyLists.TakeSnoc | Helpers/GPIO_control_V2.c:283-284 | appending at most one value, only while there is room, keeps the first `max` values |
| DutyLists.StoreDuty | Helpers/GPIO_control_V2.c:231-234 | one loop body stores the token's `atof` value at `n` when it lies in [0,1], and extends the stored prefix to the duties of the tokens so far |
| DutyLists.FillDuties | Helpers/GPIO_control_V2.c:229-236 | the `strtok` loop fills the array with the first `max` admitted duties of the list's tokens, in order. The buffer changes only by terminators at or after the list start. Its C string ends as the first `strtok` call leaves it |
| DutyLists.LoopExit | Helpers/GPIO_control_V2.c:230 | when the loop stops, for want of tokens or of room, the stored duties are the first `max` duties of the whole list |
| DutyLists.ListStart | Helpers/GPIO_control_V2.c:218-221 | the list starts at a valid index past the tag and the spaces after it |
| DutyLists.SkipToList | Helpers/GPIO_control_V2.c:218-221 | the tag search and the space skip on the buffer give the list start of its C string |
| DutyLists.AppendDuty | Helpers/GPIO_control_V2.c:283-288 | the CSV store appends a converted in-range value only while the list has fewer than `max` entries, and touches no other cell |
| DutyLists.Column | Helpers/GPIO_control_V2.c:283-288 | a CSV column contributes at most one value, and only a value in [0,1] |
| DutyLists.CsvColumn | Helpers/GPIO_control_V2.c:282 | successive CSV lines contribute at most one value each to a column |
| DischargeV2.ListDuties | Helpers/GPIO_control_V2.c:229-236 | a channel list holds at most 100 duties, all in [0,1] |
| DischargeV2.ChannelList | Helpers/GPIO_control_V2.c:212-237 | the duties one channel of `DC_STEP` sets form a valid list |
| DischargeV2.StepCommand | Helpers/GPIO_control_V2.c:203-206 | a `DC_STEP` command is accepted exactly when the duration scans and is non-zero. An accepted one has a 32-bit duration and two valid lists |
| DischargeV2.AtoiU32 | Helpers/GPIO_control_V2.c:310 | `(uint32_t)atoi(...)`: the saturated `atoi` value taken modulo 2^32, so below 2^32 |
| DischargeV2.WrapValue | Helpers/GPIO_control_V2.c:96 | `WRAP_VALUE` is `sys_clk / 50000 - 1` for clocks from 50 kHz to 3.2768 GHz; below 50 kHz the subtraction wraps to 65535 |
| DischargeV2.Level | Helpers/GPIO_control_V2.c:168-169 | the level after the optional inversion never exceeds `WRAP_VALUE` |
| DischargeV2.ChannelLevel | Helpers/GPIO_control_V2.c:162-188 | a channel's level never exceeds `WRAP_VALUE`, and an empty channel gets level 0 |
| DischargeV2.NextStep | Helpers/GPIO_control_V2.c:133-148 | the step either increases by one or wraps to 0, and stays below the longer channel's length whenever some channel has steps |
| DischargeV2.Tick | Helpers/GPIO_control_V2.c:104-189 | one loop iteration keeps the 32-bit counters 32-bit and both levels within `WRAP_VALUE` |
| DischargeV2.ParseChannel | Helpers/GPIO_control_V2.c:212-237 | the channel parse fills the array with that channel's duty list |
| DischargeV2.ScanStepDuration | Helpers/GPIO_control_V2.c:197-203 | the duration is scanned from the 256-character copy |
| DischargeV2.ChannelLevelOf | Helpers/GPIO_control_V2.c:163-174 | the level written reads index `step % num_steps` of the channel's own list |
| DischargeV2.StartCsv | Helpers/GPIO_control_V2.c:265-277 | a zero duration changes nothing; otherwise CSV mode is entered with both lists empty and the new duration, and nothing else changes |
| DischargeV2.CsvLine | Helpers/GPIO_control_V2.c:279-289 | outside CSV mode nothing changes; a line only appends, at most one value per channel, and nothing to a full channel |
| DischargeV2.EndCsv | Helpers/GPIO_control_V2.c:291-297 | CSV mode ends and `enabled` becomes "some channel has a step"; nothing else changes |
| DischargeV2.ProcessCommand | Helpers/GPIO_control_V2.c:300-377 | in CSV mode every command is handled; an unhandled command changes nothing; only `DC_CSV_END` leaves CSV mode and only `DC_CSV ` enters it |
| DischargeV2.StartStop | Helpers/GPIO_control_V2.c:105-126 | the sequence runs after the call exactly when the trigger is active and it was running or is enabled; a start resets the step and both timestamps to now, a stop resets the step and zeroes both outputs, and otherwise nothing changes |
| DischargeV2.Advance | Helpers/GPIO_control_V2.c:128-148 | before the step duration has elapsed nothing changes; afterwards the step becomes the next one or 0, stays below the longer channel's length, and the step start becomes now |
| DischargeV2.Discharge.constructor | Helpers/GPIO_control_V2.c:35-42 | the initial state: nothing programmed, inversion on, idle, both outputs at the initial level `invert ? wrap : 0` |
| DischargeV2.Discharge.ProcessDischargeStepCommand | Helpers/GPIO_control_V2.c:196-263 | a command with a missing or zero duration changes nothing. An accepted one sets the duration and both lists, and sets `enabled` from them |
| DischargeV2.Discharge.StoreStep | Helpers/GPIO_control_V2.c:208-260 | the accepting branch stores the duration, both re-parsed lists and the recomputed `enabled` |
| DischargeV2.Discharge.ParseCh1 | Helpers/GPIO_control_V2.c:212-237 | CH1's list is read from a fresh copy, up to the first `CH2` |
| DischargeV2.Discharge.ParseCh2 | Helpers/GPIO_control_V2.c:239-258 | CH2's list is read from its own fresh copy |
| DischargeV2.Discharge.StartCsvInput | Helpers/GPIO_control_V2.c:265-277 | a zero duration changes nothing. Otherwise the duration is set, both lists are emptied and CSV mode is entered |
| DischargeV2.Discharge.ProcessCsvLine | Helpers/GPIO_control_V2.c:279-289 | outside CSV mode nothing changes. In CSV mode each converted in-range column is appended to its channel while there is room |
| DischargeV2.Discharge.EndCsvInput | Helpers/GPIO_control_V2.c:291-297 | CSV mode ends and `enabled` becomes "some channel has a step" |
| DischargeV2.Discharge.ProcessDischargeCommand | Helpers/GPIO_control_V2.c:300-377 | the new configuration and the "recognised" result are those of the dispatch, and the loop state is untouched |
| DischargeV2.Discharge.ProcessSettingCommand | Helpers/GPIO_control_V2.c:316-376 | the flag, status and help branches, and `false` for an unrecognised command |
| DischargeV2.Discharge.Core1Tick | Helpers/GPIO_control_V2.c:104-189 | one loop iteration changes only the loop state, as `Tick` says |
| DischargeV2.Discharge.StartOrStop | Helpers/GPIO_control_V2.c:105-126 | the start/stop decision on the effective trigger |
| DischargeV2.Discharge.AdvanceStep | Helpers/GPIO_control_V2.c:128-160 | the step advances once the modular elapsed time reaches the step duration |
| DischargeV2Props.CsvLineKeepsConfigOk | Helpers/GPIO_control_V2.c:279-289 | a CSV line keeps both lists valid and within the cap |
| DischargeV2Props.CommandKeepsInvariants | Helpers/GPIO_control_V2.c:300-377 | every command keeps the lists valid. Outside CSV mode `enabled` stays equal to "some channel has a step" |
| DischargeV2Props.StepKeepsInvariants | Helpers/GPIO_control_V2.c:203-260 | an accepted `DC_STEP` sets `enabled` from its lists. A rejected one changes nothing |
| DischargeV2.SettingCommand | Helpers/GPIO_control_V2.c:316-374 | the flag, status and help commands change at most the debug, manual-trigger, verbose and inversion flags; the manual trigger changes only on `DC_TRIGGER <n>` in debug mode; an unrecognised command changes nothing |
| DischargeV2Props.SessionKeepsInvariants | Helpers/GPIO_control_V2.c:26-37 | from the static initial configuration, any sequence of commands keeps both invariants |
| DischargeV2Props.ManualTriggerOnlyInDebug | Helpers/GPIO_control_V2.c:324-335 | only `DC_TRIGGER <n>`, in debug mode and outside CSV input, changes the manual trigger |
| DischargeV2Props.DebugKeepsManualTrigger | Helpers/GPIO_control_V2.c:316-323 | `DC_DEBUG <n>` switches the override and never touches the manual trigger |
| DischargeV2Props.CsvModeSwallowsCommands | Helpers/GPIO_control_V2.c:301-304 | in CSV mode every command other than exactly `DC_CSV_END` is a data line, and a command starting with a letter that does not begin `nan` or `inf` changes nothing |
| DischargeV2Props.ForeignCommandIgnored | Helpers/GPIO_control_V2.c:376 | outside CSV mode a command not starting with `DC_` is not recognised and changes nothing |
| DischargeV2Props.Ch1StopsAtCh2 | Helpers/GPIO_control_V2.c:224-227 | the CH1 list is read from text holding no `CH2` |
| DischargeV2Props.WordInListIsZeroDuty | Helpers/GPIO_control_V2.c:231-234 | a token starting with a letter that does not begin `nan` or `inf` reads as duty 0.0 and is kept |
| DischargeV2Props.CsvFeed | Helpers/GPIO_control_V2.c:279-289 | lines streamed in CSV mode append each column's admitted values to its list, up to the cap of 100 |
| DischargeV2Props.TriggerStartsAtStepZero | Helpers/GPIO_control_V2.c:109-117 | a triggered, enabled, idle sequencer starts at step 0 and outputs step 0's levels in the same iteration |
| DischargeV2Props.ReleaseStops | Helpers/GPIO_control_V2.c:118-126 | releasing the trigger stops a running sequence, resets the step and writes 0 to both outputs, whatever the inversion |
| DischargeV2Props.IdleHolds | Helpers/GPIO_control_V2.c:109 | an idle sequencer that is not both triggered and enabled does not change |
| DischargeV2Props.DisabledKeepsRunning | Helpers/GPIO_control_V2.c:118 | clearing `enabled` does not stop a running sequence: only the trigger does |
| DischargeV2Props.TickKeepsStepInRange | Helpers/GPIO_control_V2.c:128-148 | while some channel has steps, the step stays below the longer channel's length |
| DischargeV2Props.StepsCycle | Helpers/GPIO_control_V2.c:142-148 | after k advances from step 0 the sequence is at step `k % m` |
| DischargeV2Props.HugeCsvDurationSaturates | Helpers/GPIO_control_V2.c:310 | `DC_CSV 4294967296` stores 2147483647 ms, because `atoi` saturates before the cast |
| DischargeV2Props.CsvStartBlanksRunningOutput | Helpers/GPIO_control_V2.c:271-274 | starting CSV input during a run keeps `enabled` and the run, and both outputs drop to 0 |
| DischargeV2Props.LevelMonotone | Helpers/GPIO_control_V2.c:168-169 | a larger duty never gives a lower level, and never a higher one under inversion |
| DischargeV2Props.LevelEnds | Helpers/GPIO_control_V2.c:168 | duties 0 and 1 give levels 0 and `WRAP_VALUE`, swapped by inversion |
| DischargeV2Props.InvertedComplement | Helpers/GPIO_control_V2.c:168-169 | the inverted and plain levels of one duty add up to `WRAP_VALUE`, or one less when both products are cut down |
| DischargeV2Props.WrapAt125MHz | Helpers/GPIO_control_V2.c:94-96 | at 125 MHz the wrap is 2499, i.e. 50 kHz |
| DischargeV2Props.ZeroStepRejected | Helpers/GPIO_control_V2.c:203 | `DC_STEP 0 ...` is rejected |
| DischargeV2Props.NegativeCsvDuration | Helpers/GPIO_control_V2.c:310-311 | `DC_CSV -5` sets a step duration of 2^32 - 5 ms through the cast |
| PwmDischarge.ChannelDuration | Helpers/GPIO_pwm_discharge.c:102 | `num_steps * step_duration_ms` in `uint32_t` is below 2^32 |
| PwmDischarge.LongestDuration | Helpers/GPIO_pwm_discharge.c:100-106 | the cycle length is at least every channel's duration and equals one of them, or is 0 |
| PwmDischarge.CutAtSpace | Helpers/GPIO_pwm_discharge.c:83-84 | the terminator at the first space keeps the buffer length |
| PwmDischarge.CutAtSpaceText | Helpers/GPIO_pwm_discharge.c:83-84 | after the cut, the C string at the list start is the list text up to the first space |
| PwmDischarge.ListDutiesAt | Helpers/GPIO_pwm_discharge.c:86-94 | a list holds at most 1000 duties, all in [0,1] |
| PwmDischarge.ChannelPassOn | Helpers/GPIO_pwm_discharge.c:74-96 | one channel pass keeps the buffer length and stores a valid list |
| PwmDischarge.StepCommand | Helpers/GPIO_pwm_discharge.c:57-119 | the sequence invariant (valid lists, 32-bit values, `enabled` exactly when the cycle is non-zero) is kept, and the CSV flag is untouched |
| PwmDischarge.StartCsv | Helpers/GPIO_pwm_discharge.c:128-142 | starting CSV input keeps the sequence invariant |
| PwmDischarge.CsvLine | Helpers/GPIO_pwm_discharge.c:144-164 | a CSV line keeps the sequence invariant |
| PwmDischarge.EndCsv | Helpers/GPIO_pwm_discharge.c:166-188 | ending CSV input keeps the invariant and leaves CSV mode |
| PwmDischarge.Finalize | Helpers/GPIO_pwm_discharge.c:99-109 | the cycle length covers every channel's 32-bit duration, `enabled` holds exactly when it is non-zero, an enabled sequence has a step and a non-zero duration, and nothing else changes |
| PwmDischarge.SpaceCut | Helpers/GPIO_pwm_discharge.c:83-84 | the list text starts where the list starts, holds no space and is followed by a space unless it runs to the end |
| PwmDischarge.MaxCount | Helpers/GPIO_pwm_discharge.c:101-106 | the step count of the longer list |
| PwmDischarge.IntendedSetting | Helpers/GPIO_pwm_discharge.c:62-96 | as evidently intended, an accepted command has a non-zero duration, a cycle that fits 32 bits and two valid lists |
| PwmDischarge.StepCommandIntended | Helpers/GPIO_pwm_discharge.c:57-119 | the corrected command keeps the sequence invariant and a non-zero duration while enabled; a refused command changes nothing, and an accepted one stores its duration and both lists |
| PwmDischarge.Trigger | Helpers/GPIO_pwm_discharge.c:237-248 | the sequence runs after the call exactly when the trigger is active and it was running or is enabled; a start records now as the cycle start, and nothing else changes |
| PwmDischarge.CycleStep | Helpers/GPIO_pwm_discharge.c:199-200 | the step is the one whose time slot holds the position in the cycle |
| PwmDischarge.HoldIndex | Helpers/GPIO_pwm_discharge.c:210 | the index is always in bounds: the step itself inside the list, the last entry past its end |
| PwmDischarge.ChannelLevel | Helpers/GPIO_pwm_discharge.c:205-214 | the level never exceeds 12499, and an empty channel gets 0 |
| PwmDischarge.Tick | Helpers/GPIO_pwm_discharge.c:195-229 | an iteration keeps the levels in range and the running flag and start time unchanged. It divides by zero exactly when a running, enabled sequence has a zero step duration |
| PwmDischarge.ParseChannelInto | Helpers/GPIO_pwm_discharge.c:74-96 | the pass fills the array with the channel's duties and leaves the copy's C string as the pass function says |
| PwmDischarge.LongestDurationOf | Helpers/GPIO_pwm_discharge.c:100-106 | the channel loop computes the longest duration |
| PwmDischarge.ParseSetting | Helpers/GPIO_pwm_discharge.c:57-107 | the checks of the corrected command accept exactly the commands `IntendedSetting` accepts, and deliver its duration and both lists |
| PwmDischarge.CopyPrefix | Helpers/GPIO_pwm_discharge.c:91 | the first `n` duties are copied into the channel's array |
| PwmDischarge.ChannelLevelAt | Helpers/GPIO_pwm_discharge.c:203-214 | the level written is the channel's duty at the held index, scaled |
| PwmDischarge.DischargeSequencer.constructor | Helpers/GPIO_pwm_discharge.c:13-16 | the zero-initialised sequence, CSV mode off, idle, outputs at 0 |
| PwmDischarge.DischargeSequencer.SetDischargeSequenceStep | Helpers/GPIO_pwm_discharge.c:57-119 | the new sequence is `StepCommand` of the old one |
| PwmDischarge.DischargeSequencer.SetDischargeSequenceStepIntended | Helpers/GPIO_pwm_discharge.c:57-119 | the corrected command: the new sequence is `StepCommandIntended` of the old one, so a refused command changes nothing, and the loop state is untouched |
| PwmDischarge.DischargeSequencer.CommitSetting | Helpers/GPIO_pwm_discharge.c:63-109 | an accepted duration and both lists are stored and the cycle is recomputed, as `Finalize` says |
| PwmDischarge.DischargeSequencer.ProgramChannels | Helpers/GPIO_pwm_discharge.c:68-109 | the counts are reset, CH1 and then CH2 are parsed from the shared copy, and the cycle is finalised |
| PwmDischarge.DischargeSequencer.ParseCh1 | Helpers/GPIO_pwm_discharge.c:74-96 | CH1's pass stores its list and hands on the cut copy |
| PwmDischarge.DischargeSequencer.ParseCh2 | Helpers/GPIO_pwm_discharge.c:74-96 | CH2's pass reads the copy as CH1's pass left it |
| PwmDischarge.DischargeSequencer.FinalizeCycle | Helpers/GPIO_pwm_discharge.c:99-109 | the cycle length is the longest channel duration, and `enabled` holds exactly when it is non-zero |
| PwmDischarge.DischargeSequencer.StartCsvInput | Helpers/GPIO_pwm_discharge.c:128-142 | the new sequence is `StartCsv` of the old one |
| PwmDischarge.DischargeSequencer.ProcessCsvLine | Helpers/GPIO_pwm_discharge.c:144-164 | the new sequence is `CsvLine` of the old one |
| PwmDischarge.DischargeSequencer.EndCsvInput | Helpers/GPIO_pwm_discharge.c:166-188 | the new sequence is `EndCsv` of the old one |
| PwmDischarge.DischargeSequencer.HandleDischargeTrigger | Helpers/GPIO_pwm_discharge.c:237-248 | starts only on a high trigger when idle and enabled, recording the start time. Stops only on a low trigger when running |
| PwmDischarge.DischargeSequencer.Core1Tick | Helpers/GPIO_pwm_discharge.c:195-229 | one loop iteration as `Tick` says, reporting the division by zero without a state change |
| PwmDischargeProps.ZeroDurationStored | Helpers/GPIO_pwm_discharge.c:63-66 | a rejected `DISCHARGE_STEP 0` still stores duration 0, and lists, cycle and `enabled` keep their old values |
| PwmDischargeProps.ZeroDurationDividesByZero | Helpers/GPIO_pwm_discharge.c:199-200 | after that rejected command, a running enabled sequence divides by zero on the next iteration |
| PwmDischargeProps.Ch1PassCutsAtSpace | Helpers/GPIO_pwm_discharge.c:83-86 | after CH1's pass the copy's C string is a prefix of the command ending at or before CH1's space |
| PwmDischargeProps.Ch2HiddenBehindCh1 | Helpers/GPIO_pwm_discharge.c:74-84 | when `CH2` follows the space that ends CH1's list, CH2's pass finds no tag and stores nothing |
| PwmDischargeProps.Ch2LostInStepCommand | Helpers/GPIO_pwm_discharge.c:74-96 | for such a command CH2 ends with 0 steps |
| PwmDischargeProps.CycleWithoutOverflow | Helpers/GPIO_pwm_discharge.c:100-109 | without 32-bit overflow the cycle is the longer channel's count times the step, and `enabled` holds exactly when some channel has steps |
| PwmDischargeProps.CycleOverflowDisables | Helpers/GPIO_pwm_discharge.c:102-109 | 8 steps of 536870912 ms wrap the cycle length to 0, so the sequence is disabled |
| PwmDischargeProps.IntendedStoresBothLists | Helpers/GPIO_pwm_discharge.c:74-96 | with the corrected command, both channels' lists are stored wherever their tags are |
| PwmDischargeProps.IntendedZeroRejected | Helpers/GPIO_pwm_discharge.c:63-66 | with the corrected command, `DISCHARGE_STEP 0` leaves the sequence unchanged |
| PwmDischargeProps.IntendedKeepsStepDefined | Helpers/GPIO_pwm_discharge.c:57-188 | with the corrected command, every operation keeps an enabled sequence's step duration non-zero |
| PwmDischargeProps.IntendedNeverDividesByZero | Helpers/GPIO_pwm_discharge.c:199-200 | with the corrected command, the loop's modulo and division are always defined |
| PwmDischargeProps.IntendedCycleExact | Helpers/GPIO_pwm_discharge.c:99-109 | with the corrected command, the cycle length is exactly the longer channel's step count times the duration |
| PwmDischargeProps.CsvRejections | Helpers/GPIO_pwm_discharge.c:128-167 | a zero start duration, a line outside CSV mode or with no number, and an end outside CSV mode change nothing |
| PwmDischargeProps.CsvFeed | Helpers/GPIO_pwm_discharge.c:144-164 | lines fed in CSV mode append each column's admitted values, up to 1000 |
| PwmDischargeProps.CsvSession | Helpers/GPIO_pwm_discharge.c:128-188 | a whole CSV session yields the lines' capped columns, and the cycle and `enabled` computed from them |
| PwmDischargeProps.CsvStartSilencesRunning | Helpers/GPIO_pwm_discharge.c:136-141 | starting CSV input keeps `enabled` and the old cycle, so a running sequence outputs 0 on both channels |
| PwmDischargeProps.StepWithinLongestChannel | Helpers/GPIO_pwm_discharge.c:199-210 | without overflow the cycle step stays below the longest channel's length |
| PwmDischargeProps.TriggerPlaysStepZero | Helpers/GPIO_pwm_discharge.c:240-242 | a trigger at `now` starts an idle enabled sequence, and it plays step 0 in the same millisecond |
| PwmDischargeProps.StopZeroesOnce | Helpers/GPIO_pwm_discharge.c:223-228 | after a stop, the next iteration writes 0 to both outputs once, and later iterations change nothing |
| PwmDischargeProps.DisabledStaysRunning | Helpers/GPIO_pwm_discharge.c:240-247 | a sequence disabled while running keeps running, and its outputs hold |
| PwmDischargeProps.LevelMonotone | Helpers/GPIO_pwm_discharge.c:214 | a larger duty never gives a lower level. Duties 0 and 1 give 0 and 12499 |
| PhasePwm.RoundToUint | Helpers/pwm_control.c:26-28 | `round_to_uint` gives the whole number within half a unit of x, and it fits 32 bits |
| PhasePwm.LargestAccepted | Helpers/pwm_control.c:44-48 | the largest count in [100, hi] whose divider lies in [1, 256], with no accepted count above it, or 0 when there is none |
| PhasePwm.BestTiming | Helpers/pwm_control.c:31-63 | the chosen timing is one the search can return: an accepted count with its divider, or the failure value (0, 1.0) |
| PhasePwm.TimingError | Helpers/pwm_control.c:46-51 | in exact arithmetic every accepted count has error 0 |
| PhasePwm.BestTimingIsBest | Helpers/pwm_control.c:43-58 | the result has the least error among accepted candidates, and among ties the largest count, as the strict-improvement rule promises |
| PhasePwm.BestTimingUnique | Helpers/pwm_control.c:53-57 | at most one timing meets that promise |
| PhasePwm.BestTimingClosedForm | Helpers/pwm_control.c:44-59 | the search picks the largest count not above 65535 and `sys_hz / target` |
| PhasePwm.LargestAcceptedIs | Helpers/pwm_control.c:44-48 | a count whose divider is accepted, with none accepted above it, is the one the scan stops at |
| PhasePwm.DividerAtLeastOne | Helpers/pwm_control.c:46-48 | the divider of a count not above `sys_hz / target` is at least 1 |
| PhasePwm.DividerBelowOne | Helpers/pwm_control.c:46-48 | the divider of a count above `sys_hz / target` is below 1, so that count is refused |
| PhasePwm.DividerAntitone | Helpers/pwm_control.c:46 | fewer cycles need a larger divider |
| PhasePwm.BestTimingAt100kHz | Helpers/pwm_control.c:100 | `FREQ 100000` at 125 MHz chooses 625 cycles at divider 1 |
| PhasePwm.BestTimingTooLow | Helpers/pwm_control.c:39-62 | below the lowest reachable frequency the failure value (0, 1.0) is returned |
| PhasePwm.BestTimingAt1Hz | Helpers/pwm_control.c:98-103 | a 1 Hz request finds no timing, and the failure value is used unchecked |
| PhasePwm.ComputeBestTiming | Helpers/pwm_control.c:31-63 | the descending loop returns exactly the specified best timing |
| PhasePwm.PhaseArgBounds | Helpers/pwm_control.c:119-130 | the phase argument is non-negative, and at most that of state machine 3 at divider 1 |
| PhasePwm.RawHigh | Helpers/pwm_control.c:127 | `round_to_uint(duty * total)` never exceeds the cycle count |
| PhasePwm.TimingFor | Helpers/pwm_control.c:44-48 | an accepted timing with cycles divides the clock exactly: `clkdiv * target * cycles == sys_hz` |
| PhasePwm.PhaseArg | Helpers/pwm_control.c:129-130 | the phase argument is non-negative, and 0 for state machine 0 |
| PhasePwm.WordsFor | Helpers/pwm_control.c:124-135 | the high and low words are at least 1, every phase but state machine 0's is at least 1 and fits 32 bits, and high + low is the cycle count or one more (both 1 when no timing was found) |
| PhasePwm.SetupOps | Helpers/pwm_control.c:113-116 | the first loop makes two calls per state machine |
| PhasePwm.PushOps | Helpers/pwm_control.c:123-145 | the second loop makes three calls per state machine |
| PhasePwm.Programmed | Helpers/pwm_control.c:97-145 | an update produces the words of four state machines |
| PhasePwm.ProgrammedWith | Helpers/pwm_control.c:123-124 | state machines 0 and 2 take pair 1's duty, and 1 and 3 take pair 2's |
| PhasePwm.WordsMinimums | Helpers/pwm_control.c:132-135 | every high and low word is at least 1, and every phase is at least 1 except state machine 0's, which is 0 |
| PhasePwm.HighLowSplit | Helpers/pwm_control.c:127-134 | high + low equals the cycle count exactly when no minimum was applied |
| PhasePwm.QuarterPeriodPhases | Helpers/pwm_control.c:119-130 | with a timing found, state machine i is delayed by i quarter periods: `round(i * cycles / 2)` |
| PhasePwm.PhaseArgAt | Helpers/pwm_control.c:129-130 | at the chosen divider, the phase argument of state machine i is `i * cycles / 2` |
| PhasePwm.FailedTimingWords | Helpers/pwm_control.c:127-135 | with no timing found the words are still loaded, and every high and low word is 1 |
| PhasePwm.UpdateOps | Helpers/pwm_control.c:113-145 | the update makes 20 calls, and no FIFO clear follows a word pushed |
| PhasePwm.SetupClears | Helpers/pwm_control.c:113-116 | after the first loop the four FIFOs are empty |
| PhasePwm.PushLoads | Helpers/pwm_control.c:123-145 | after the second loop each FIFO holds its state machine's three words |
| PhasePwm.PushStep | Helpers/pwm_control.c:142-144 | one turn of the second loop appends its state machine's three words to that FIFO |
| PhasePwm.PushThree | Helpers/pwm_control.c:142-144 | the three puts append phase, high and low, in that order, to one FIFO |
| PhasePwm.UpdateOpsLoad | Helpers/pwm_control.c:112-145 | whatever the FIFOs held, the update leaves exactly the three words of each state machine |
| PhasePwm.SetDebugMode | Helpers/pwm_control.c:203-234 | switching debug mode on or off always clears the manual state |
| PhasePwm.ManualTrigger | Helpers/pwm_control.c:154-201 | a manual trigger request keeps the override consistent with the mode |
| PhasePwm.EffectiveTrigger | Helpers/pwm_control.c:236-242 | in debug mode the effective trigger is the manual state; while the override is consistent it is always the level on the pin itself |
| PhasePwm.DebugModeEffect | Helpers/pwm_control.c:206-232 | entering debug mode holds the trigger off, and leaving it hands the trigger back to the pin |
| PhasePwm.ManualTriggerEffect | Helpers/pwm_control.c:154-176 | outside debug mode a request does nothing. With an empty FIFO, switching on is refused. Otherwise the trigger becomes the requested state |
| PhasePwm.RefilledFifosAcceptTrigger | Helpers/pwm_control.c:160-176 | after an update every FIFO holds words, so a manual trigger in debug mode is taken |
| PhasePwm.PwmControl.constructor | Helpers/pwm_control.c:65-95 | all four state machines enabled, the trigger an input, the FIFOs loaded with the initial words, and the current frequency and duty stored |
| PhasePwm.PwmControl.UpdatePwmParameters | Helpers/pwm_control.c:97-152 | every divider is set to the timing chosen for twice the frequency. The FIFOs hold exactly the computed words, after the clear/set/push calls in order |
| PhasePwm.PwmControl.ClearAll | Helpers/pwm_control.c:113-116 | the first loop empties all four FIFOs and sets all four dividers |
| PhasePwm.PwmControl.LoadAll | Helpers/pwm_control.c:123-145 | the second loop loads every FIFO with its three words |
| PhasePwm.PwmControl.StateMachineWords | Helpers/pwm_control.c:124-135 | the loop body computes the words of state machine i |
| PhasePwm.PwmControl.AnyTxFifoEmpty | Helpers/pwm_control.c:161-168 | the early-exit scan reports true exactly when some TX FIFO is empty |
| PhasePwm.PwmControl.SetManualPioTrigger | Helpers/pwm_control.c:154-201 | the override changes as `ManualTrigger` says, and nothing else changes |
| PhasePwm.PwmControl.SetPioDebugMode | Helpers/pwm_control.c:203-234 | the override changes as `SetDebugMode` says, and nothing else changes |
| PhasePwm.PwmControl.GetEffectivePioTriggerState | Helpers/pwm_control.c:236-242 | the result is the manual state in debug mode and the pin otherwise |
| AdcMonitor.RawToCurrent | Helpers/adc_monitor.c:25-29 | below the disconnect threshold the current is 0. Above it, the current times `v_per_a` is the distance between the voltage and the offset, never negative |
| AdcMonitor.CalibrationPositive | Helpers/adc_monitor.c:10-14 | every channel's V/A slope is positive |
| AdcMonitor.CurrentDropsDirection | Helpers/adc_monitor.c:28 | two codes equally far above and below the offset read the same current: the sign is lost |
| AdcMonitor.Currents | Helpers/adc_monitor.c:33-37 | one current per channel, three in all |
| AdcMonitor.ReadAllCurrents | Helpers/adc_monitor.c:31-38 | the array holds exactly each channel's current, with its own calibration |
| AdcMonitor.NextCount | Helpers/adc_monitor.c:44-52 | a counter stays a `uint8_t` |
| AdcMonitor.CountAfter | Helpers/adc_monitor.c:44-52 | a counter after readings stays a `uint8_t`, is unchanged by no reading, and is 0 after a reading at or below the limit |
| AdcMonitor.StepCounters | Helpers/adc_monitor.c:40-74 | all three counters are updated on every call |
| AdcMonitor.TrippedIffCounterReached | Helpers/adc_monitor.c:40-76 | for a threshold of at least 1, the result is whether some counter has reached it after the call |
| AdcMonitor.TrailingRun | Helpers/adc_monitor.c:44-45 | the length of the final run of over-limit readings is at most the number of readings |
| AdcMonitor.CountIsTrailingRun | Helpers/adc_monitor.c:44-52 | a counter from 0 holds the final run of over-limit readings, modulo 256 |
| AdcMonitor.TripsOnRun | Helpers/adc_monitor.c:44-49 | for a threshold from 1 to 255, a channel trips exactly on a final run of at least that many readings |
| AdcMonitor.CounterWraps | Helpers/adc_monitor.c:16 | 256 consecutive over-limit readings wrap the counter back to 0 |
| AdcMonitor.OvercurrentMonitor.constructor | Helpers/adc_monitor.c:16 | the counters start at 0 |
| AdcMonitor.OvercurrentMonitor.CheckOvercurrent | Helpers/adc_monitor.c:40-77 | the counters advance as `StepCounters` says, and the result says whether some channel over its limit has reached the threshold |
| AdcMonitor.OvercurrentMonitor.UpdateChannel | Helpers/adc_monitor.c:44-52 | one channel's block updates only that channel's counter |
| LibAdcMonitor.RawToCurrent | UserDefinedLib/adc_monitor.c:26-31 | below 10 the current is 0. Above it, the current times `v_per_a` is the voltage minus the offset, with its sign |
| LibAdcMonitor.NegativeBelowOffset | UserDefinedLib/adc_monitor.c:29-30 | with a positive slope the current is negative exactly when the voltage is below the offset |
| LibAdcMonitor.Monotone | UserDefinedLib/adc_monitor.c:29-30 | with a positive slope the current does not decrease as the code grows (codes of 10 and more) |
| LibAdcMonitor.AgreesWithUnsigned | UserDefinedLib/adc_monitor.c:30 | at or above the offset the library agrees with the absolute-value version |
| LibAdcMonitor.ReadAll | UserDefinedLib/adc_monitor.c:18-23 | exactly entries `0..num_channels-1` are written, entry ch from input ch |
| Max31855k.Pack | Helpers/thermocouple.c:33 | the packed word fits 32 bits |
| Max31855k.UnpackPack | Helpers/thermocouple.c:33 | packing is big-endian and loses nothing: each received byte sits in its own place |
| Max31855k.Field | Helpers/thermocouple.c:38 | the field is 14 bits wide |
| Max31855k.SignExtend | Helpers/thermocouple.c:38-39 | the sign-extended field lies in [-8192, 8192) and agrees with the field modulo 2^14 |
| Max31855k.TempC | Helpers/thermocouple.c:37-41 | the temperature lies in [-2048, 2047.75], and it is negative exactly when bit 31 is set |
| Max31855k.DecodeEncode | Helpers/thermocouple.c:38-40 | a word whose bits 31..18 encode t decodes to t * 0.25, whatever its low 18 bits |
| RingLog.Slot | Helpers/thermocouple.c:58 | `(head + i) % n` lies in the log |
| RingLog.SlotsDistinct | Helpers/thermocouple.c:57-58 | printing from the head reaches no entry twice |
| RingLog.SlotReaches | Helpers/thermocouple.c:57-58 | printing from the head reaches every entry, at its position |
| RingLog.VisitsEachOnce | Helpers/thermocouple.c:57-63 | the printout visits each of the n entries exactly once |
| RingLog.NewestPrintedLast | Helpers/thermocouple.c:50-58 | the entry just written is printed last, so the printout starts with the oldest |
| Thermocouple.Temperatures | Helpers/thermocouple.c:46-49 | one temperature per sensor, in order |
| Thermocouple.TemperatureLog.constructor | Helpers/thermocouple.c:12-13 | a zeroed log with the head at 0 |
| Thermocouple.TemperatureLog.LogThermocouples | Helpers/thermocouple.c:43-51 | only the entry at the head is written, with timestamp and four temperatures, and the head moves to `(head + 1) % 600` |
| Thermocouple.TemperatureLog.PrintTcLogCsv | Helpers/thermocouple.c:53-64 | 600 rows are printed, row i being the entry at `(head + i) % 600` |
| Thermocouple.FirstTrip | Helpers/thermocouple.c:67-84 | the first sensor whose reading reaches the threshold, with none before it, or 4 |
| Thermocouple.NextOtpCount | Helpers/thermocouple.c:69-81 | a count is non-zero after a reading exactly when the reading is above 90 |
| Thermocouple.OtpScan | Helpers/thermocouple.c:67-84 | the scan keeps four counts and returns true exactly when some sensor trips |
| Thermocouple.OtpScanShape | Helpers/thermocouple.c:67-84 | the call updates every sensor up to the first that trips and leaves later counts untouched, and it returns true exactly when one trips |
| Thermocouple.OvertemperatureIff | Helpers/thermocouple.c:67-84 | shutdown is requested exactly when some sensor reads above 90 and its count reaches 2 |
| Thermocouple.SingleReadingOnlyWarns | Helpers/thermocouple.c:69-78 | from all counts at 0 a single over-limit reading only warns |
| Thermocouple.TwoReadingsTrip | Helpers/thermocouple.c:69-74 | two consecutive over-limit readings of a sensor request shutdown |
| Thermocouple.OvertemperatureMonitor.constructor | Helpers/thermocouple.c:16 | the counts start at 0 |
| Thermocouple.OvertemperatureMonitor.CheckOvertemperature | Helpers/thermocouple.c:67-84 | the counts and the result are those of the scan with its early return |
| LibThermocouple.LoggedTemps | UserDefinedLib/thermocouple.c:40-43 | the entry keeps its four temperature slots |
| LibThermocouple.LogThermocouples | UserDefinedLib/thermocouple.c:37-45 | only the entry at the head changes: its timestamp and first `num` temperatures. The head becomes `(head + 1) % log_size` |
| LibThermocouple.HeadStaysInRange | UserDefinedLib/thermocouple.c:44 | a head inside the log stays inside it |
| LibThermocouple.PrintTcLogCsv | UserDefinedLib/thermocouple.c:47-58 | `log_size` rows are printed, row i from entry `(head + i) % log_size` |
| Shutdown.SafeGpio | Helpers/shutdown.c:27-42 | the pin table keeps all 30 pins |
| Shutdown.ShutdownIsSafe | Helpers/shutdown.c:23-42 | the four PWM pins and the relay pin end as outputs driven low, no other pin changes, and shutting down twice is shutting down once |
| Shutdown.Board.InitRelay | Helpers/shutdown.c:12-16 | the relay pin becomes a software output at 1 |
| Shutdown.Board.SetRelay | Helpers/shutdown.c:18-21 | only the relay pin's level changes, to `hilo != 0` |
| Shutdown.Board.Shutdown | Helpers/shutdown.c:23-47 | the pins become safe, pio0's four state machines are disabled, the FIFOs, dividers and trigger are untouched, and the board is halted |
| Shutdown.Board.HaltedStep | Helpers/shutdown.c:48-54 | in the endless loop only the word `TC_CSV` prints the log, all 600 rows oldest first, and any other word prints nothing |
| Shutdown.Board.constructor | Helpers/shutdown.c:12 | the board before `init_relay`: every pin at its reset state, the relay pin fixed, not halted |
| SerialCmd.LineLengthFrom | Helpers/serial_cmd.c:43-48 | at most 1023 bytes are stored, so `cmd[chars] = '\0'` stays in bounds |
| SerialCmd.Line | Helpers/serial_cmd.c:43-55 | the stored characters are as many as the loop counted |
| SerialCmd.TypedLineRead | Helpers/serial_cmd.c:43-48 | a line shorter than the buffer and ended by a newline is read whole, and the newline is consumed |
| SerialCmd.PartialLineRead | Helpers/serial_cmd.c:43-55 | a line still being typed when the input runs dry is dispatched as it is |
| SerialCmd.LongLineTruncated | Helpers/serial_cmd.c:44-52 | a longer line is cut to 1023 characters, and the 1024th is consumed |
| SerialCmd.LineEndsAtFirstStop | Helpers/serial_cmd.c:44-46 | the stored bytes hold no line end, and the loop stopped at a line end unless the buffer was full or the input ran out |
| SerialCmd.LineStopsAt | Helpers/serial_cmd.c:44-46 | conversely, the stored length is the first stop |
| SerialCmd.LineStored | Helpers/serial_cmd.c:46 | the buffer holds the line in its first cells and older text after it |
| SerialCmd.Terminated | Helpers/serial_cmd.c:55 | after the terminator, the buffer's C string is the command |
| SerialCmd.RouteOfInput | Helpers/serial_cmd.c:54 | no command exactly when the line is empty; otherwise the route of the line, with the corrected `RELAY` scan |
| SerialCmd.CsvModeAlwaysHandled | Helpers/serial_cmd.c:58-63 | in CSV mode the discharge controller accepts every line, so the first CSV test always returns |
| SerialCmd.RouteOf | Helpers/serial_cmd.c:56-172 | exactly the lines read in CSV mode go to the CSV branch; no line reaches the `PIO_TRIGGER_STATUS` or `TC_ONBOARD` branch, nor is lost; only a line starting with `DC_` reaches the discharge dispatch; the `RELAY` branch carries the corrected scan |
| SerialCmd.PioTriggerStatusRoute | Helpers/serial_cmd.c:149-155 | `PIO_TRIGGER_STATUS` is read as a trigger command with no value, and rejected |
| SerialCmd.TcOnboardRoute | Helpers/serial_cmd.c:114-121 | `TC_ONBOARD` is read as an auto-print command with no value, and rejected |
| SerialCmd.FreqRequestOf | Helpers/serial_cmd.c:83-106 | an accepted request has both duties in [0,1] and a frequency whose phase words fit 32 bits |
| SerialCmd.FreqRequestAsWritten | Helpers/serial_cmd.c:83-106 | as written, a request is accepted exactly when two or three values were scanned, 0 < f < 1e6 and the duties lie in [0,1]; the last value scanned is pair 2's duty |
| SerialCmd.FreqRequestAccepted | Helpers/serial_cmd.c:83-106 | a request is accepted exactly when two or three values were scanned, 0 < f < 1e6, the duties lie in [0,1] and the phase words fit |
| SerialCmd.OneDutyForBothPairs | Helpers/serial_cmd.c:96-103 | `FREQ f d` is `FREQ f d d` |
| SerialCmd.CorrectionBelowOneHz | Helpers/serial_cmd.c:85 | from 1 Hz on, the corrected validation agrees with the validation as written |
| SerialCmd.FrequencyWordRejected | Helpers/serial_cmd.c:79-81 | `FREQUENCY ...` takes the `FREQ` branch but scans from "UENCY", so it is always rejected and changes nothing |
| SerialCmd.TinyFrequencyOverflows | Helpers/serial_cmd.c:85 | at 0.01 Hz the validation as written accepts, but state machine 3's phase argument is 9375000000, beyond the `uint32_t` cast |
| SerialCmd.FlagArg | Helpers/serial_cmd.c:143 | the on/off commands act exactly on a scanned 0 or 1, and 1 means on |
| SerialCmd.StaleRelayArgument | Helpers/serial_cmd.c:160-163 | as written, a bare `RELAY` after `RELAY 1` scans the stale "1" left in the static buffer |
| SerialCmd.RelayArgAsWritten | Helpers/serial_cmd.c:160-162 | as written, the scan from `cmd + 6` finds nothing when that cell is a terminator, and any value lies in the `int` range |
| SerialCmd.BareRelayRejected | Helpers/serial_cmd.c:160-166 | scanning right after the word, a bare `RELAY` has no value and is rejected |
| SerialCmd.UpdateReported | Helpers/serial_cmd.c:89-105 | only an accepted `FREQ` changes the frequency and duty the caller keeps |
| SerialCmd.RelaySetsLevel | Helpers/serial_cmd.c:160-163 | `RELAY 1` closes the relay and `RELAY 0` opens it, whatever its level, and repeating it changes nothing |
| SerialCmd.Stored | Helpers/serial_cmd.c:174-175 | the buffer keeps its 1024 cells |
| SerialCmd.SettingsAfter | Helpers/serial_cmd.c:79-121 | the caller's frequency and duty change only on an accepted `FREQ`, the auto-print flag only on `TC_ON`, to 0 or 1, and no other command changes them |
| SerialCmd.PwmAfter | Helpers/serial_cmd.c:79-156 | the FIFOs, frequency and duty change only on `FREQ`, the trigger only on `PIO_DEBUG` or `PIO_TRIGGER`, a consistent override stays consistent, and other commands change nothing |
| SerialCmd.DischargeAfter | Helpers/serial_cmd.c:58-139 | only CSV lines and `DC_` commands change the discharge configuration, and only `DC_CSV_END` leaves CSV mode |
| SerialCmd.GpioAfter | Helpers/serial_cmd.c:160-166 | only the relay pin's level may change, and only on `RELAY` with 0 or 1 |
| SerialCmd.SerialCommands.constructor | Helpers/serial_cmd.c:38-39 | the zero-filled buffer |
| SerialCmd.SerialCommands.ReadLine | Helpers/serial_cmd.c:42-48 | the loop stores the line over the old buffer, counts it and consumes exactly the bytes `Line` says |
| SerialCmd.SerialCommands.ProcessSerialCommands | Helpers/serial_cmd.c:37-180 | one line is consumed and routed. The result is true exactly when a `FREQ` update was applied. The PWM control, discharge configuration, relay and caller's settings change as the route says |
| SerialCmd.SerialCommands.HandleLine | Helpers/serial_cmd.c:54-177 | a non-empty line is terminated and handled, with the promises of `ProcessSerialCommands`, and the buffer is cleared once dispatched |
| SerialCmd.SerialCommands.HandleCommand | Helpers/serial_cmd.c:57-176 | the command chain after termination, with the same promises for one command |
| SerialCmd.SerialCommands.CsvCommand | Helpers/serial_cmd.c:58-63 | in CSV mode the line goes to the discharge controller and is handled |
| SerialCmd.SerialCommands.Dispatch | Helpers/serial_cmd.c:79-172 | the branches from `FREQ` on, outside CSV mode |
| SerialCmd.SerialCommands.DcCommand | Helpers/serial_cmd.c:135-139 | a `DC_` command goes to the discharge controller |
| SerialCmd.SerialCommands.DispatchPioRelay | Helpers/serial_cmd.c:141-172 | the branches from `PIO_DEBUG` on never change the frequency or the discharge configuration |
| SerialCmd.SerialCommands.FreqCommand | Helpers/serial_cmd.c:79-113 | the request is validated and, when accepted, stored and programmed into the PWM control |
| SerialCmd.SerialCommands.PioDebugCommand | Helpers/serial_cmd.c:141-148 | `PIO_DEBUG` with 0 or 1 sets debug mode, and anything else is rejected |
| SerialCmd.SerialCommands.PioTriggerCommand | Helpers/serial_cmd.c:149-156 | `PIO_TRIGGER` with 0 or 1 requests the manual trigger, and anything else is rejected |
| SerialCmd.SerialCommands.RelayCommand | Helpers/serial_cmd.c:160-166 | `RELAY` with 0 or 1, scanned right after the word, sets the relay, and anything else is rejected |
| LibPwmControl.Trunc | UserDefinedLib/pwm_control.c:16-18 | `(uint32_t)x` is the whole part of a non-negative x, and 0 below 1 |
| LibPwmControl.TruncMonotone | UserDefinedLib/pwm_control.c:17-18 | truncation keeps the order of its arguments |
| LibPwmControl.UpdateWords | UserDefinedLib/pwm_control.c:16-18 | three 32-bit words: phase delay, high time and low time |
| LibPwmControl.NoClamp | UserDefinedLib/pwm_control.c:17-18 | no minimum is enforced: duty 0 gives a high time of 0 and duty 1 a low time of 0 |
| LibPwmControl.HighLowWithinPeriod | UserDefinedLib/pwm_control.c:17-18 | for a duty in [0,1], high + low never exceeds period * clock, and falls short by less than two cycles |
| LibPwmControl.MonotoneInDuty | UserDefinedLib/pwm_control.c:17-18 | a larger duty never shortens the high time nor lengthens the low time |
| LibPwmControl.PioBlock.Put | UserDefinedLib/pwm_control.c:19 | `pio_sm_put_blocking` appends one word to one FIFO |
| LibPwmControl.PioBlock.constructor | UserDefinedLib/pwm_control.c:8-12 | the PIO block before `pwm_init_all`: empty FIFOs, state machines disabled and not set up |
| LibPwmControl.PwmInitAll | UserDefinedLib/pwm_control.c:8-12 | state machines `0..num_phases-1` are set up, i on `pins[i]`, all with the shared offset and trigger pin. Nothing else changes |
| LibPwmControl.PwmUpdateParams | UserDefinedLib/pwm_control.c:15-22 | exactly three words join the FIFO of `phase`, in the order delay, high, low, and nothing else changes |
| LibPwmControl.PwmEnable | UserDefinedLib/pwm_control.c:25-27 | only the enable flag of `phase` changes |
| InverterController.BlinkDelay | InverterController.c:25 | the delay word is undefined exactly when `2 * freq` wraps to 0, and otherwise fits 32 bits |
| InverterController.MainBlinkDelay | InverterController.c:75-77 | the 3 Hz blink of `main` writes 20833330 |
| InverterController.HalfPeriodCycles | InverterController.c:23-25 | up to 20833333 Hz, the word plus the 3-cycle loop overhead is the number of whole cycles in half a period |
| InverterController.DelayWrapsAboveMax | InverterController.c:25 | above that rate the subtraction wraps, and the word lands in the last three values of `uint` |
| InverterController.SignFromFirstByte | InverterController.c:46-54 | read and decoded, the temperature is negative exactly when the first byte received has its top bit set |

## Left out

- Printing, help screens and status dumps are output only and are not modelled. This covers `print_adc_readings`, `print_current_temperatures`, `print_pio_trigger_status` and `debug_pio_state_machines`.
- Hardware setup is left out: `discharge_pwm_init`, `pwm_discharge_init`, `adc_monitor_init`, `max31855k_init_cs_pins`, SPI and GPIO setup, and `main` of `InverterController.c`. These are Pico SDK calls whose code is not shown. Only their computed values are kept: the initial discharge level and `WRAP_VALUE`.
- The endless loops, `sleep_ms`/`sleep_us` and the clock are not modelled. Each loop is one iteration, and the time since boot is a parameter.
- Concurrency between the two cores is left out. The command handlers and the core-1 iteration are sequential operations on one state.
- Floating-point rounding is not modelled: values are exact reals. The error values of `compute_best_timing` are therefore all 0 for accepted counts, where IEEE arithmetic gives small non-zero errors that can reorder candidates.
- The C library is modelled only as far as the parsers need. `atof`/`sscanf` read plain decimals: no exponents, `inf`, `nan` or hexadecimal. A token such as `inf` or `nan` therefore scans as no number in the model, where newlib reads a value.
- `adc_read`, `spi_read_blocking` and `getchar_timeout_us` are parameters: a sequence of samples, frames or bytes.
- `phase_pwm.pio` and `blink.pio` are not part of this model. A state machine's set-up records only its arguments, and what the PIO program does with the words is not modelled.
- LibPwmControl.PioBlock.Put: the FIFO is unbounded. Blocking on a full FIFO is not modelled.
- The relay pin is a parameter of `Shutdown.Board`, because `shutdown.h` (`SHUTDOWN_RELAY_PIN`) is not part of this model.
- The threshold is a parameter of `AdcMonitor.OvercurrentMonitor`, because `OCP_CONSECUTIVE_THRESHOLD` is defined nowhere in the sources.
- `print_onboard_temperature` is not modelled, and its branch is unreachable anyway.
- `get_effective_discharge_trigger_state` and the rest of `Helpers/GPIO_pwm_discharge.h` that has no definition are not modelled. The effective trigger is a parameter of `HandleDischargeTrigger`.
- The `DISCHARGE_*` command dispatch of the time-based revision is not modelled: its dispatcher is not in the sources.
- Undefined behaviour is excluded by preconditions rather than modelled:
  - `LibPwmControl.CastDefined` and `PhasePwm.PhaseFits` require the float-to-`uint32_t` casts to be in range;
  - the left shift of a byte of 128 or more into bit 31 is read as the intended unsigned packing;
  - overflow of the `int` counters `otp_consecutive_count` and `num_steps` is not modelled; they stay far below `INT_MAX`.
- The 256-cell `cmd_copy` buffers and the 16-byte `shutdown` buffer are modelled through the text they hold. `scanf("%7s")` is a whole word.
- SerialCmd.SerialCommands.RelayCommand: scans the value right after `RELAY` rather than one character later. This is the corrected behaviour listed under Findings. It therefore differs from the code as written on more than a bare `RELAY`: it accepts `RELAY1`, which the code rejects because it scans from the terminator after the "1", and it rejects `RELAYX1` and `RELAYS 1`, which the code accepts because it skips the character after the word.
- SerialCmd.RouteOf: its `Relay` branch scans the value right after `RELAY`, the corrected behaviour listed under Findings, not from `cmd + 6` as the code does. It therefore accepts `RELAY1`, which the code rejects, rejects `RELAYX1` and `RELAYS 1`, which the code accepts, and rejects a bare `RELAY` that the code resolves from what an earlier, longer command left at `cmd + 6`. The code as written is `SerialCmd.RelayArgAsWritten`.
- SerialCmd.RouteOfInput: routes through `SerialCmd.RouteOf`, so it carries the same corrected `RELAY` scan and differs from the code as written on `RELAY1`, `RELAYX1`, `RELAYS 1` and a bare `RELAY` after a longer command.
- SerialCmd.SerialCommands.ProcessSerialCommands: inherits the corrected `RELAY` scan of `RelayCommand` and the corrected `FREQ` check of `FreqRequestOf`, so it differs from the code as written on the inputs listed for those two.
- SerialCmd.SerialCommands.HandleLine: inherits the corrected `RELAY` scan of `RelayCommand` and the corrected `FREQ` check of `FreqRequestOf`, so it differs from the code as written on the inputs listed for those two.
- SerialCmd.SerialCommands.HandleCommand: inherits the corrected `RELAY` scan of `RelayCommand` and the corrected `FREQ` check of `FreqRequestOf`, so it differs from the code as written on the inputs listed for those two.
- SerialCmd.SerialCommands.Dispatch: inherits the corrected `RELAY` scan of `RelayCommand` and the corrected `FREQ` check of `FreqRequestOf`, so it differs from the code as written on the inputs listed for those two.
- SerialCmd.SerialCommands.DispatchPioRelay: inherits the corrected `RELAY` scan of `RelayCommand`.
- SerialCmd.FreqRequestOf: also rejects requests whose phase words would overflow. This is the corrected behaviour listed under Findings.
- SerialCmd.SerialCommands.FreqCommand: applies the corrected check of `FreqRequestOf`, so it also rejects frequencies whose phase words would overflow.
- PwmDischarge.DischargeSequencer.SetDischargeSequenceStep: models the code as written, with the three defects listed under Findings. `SetDischargeSequenceStepIntended` is the corrected command beside it. No dispatcher of the time-based revision is in the sources, so neither is called from elsewhere.

## Findings

| source | as written | input that shows it | evidently intended | confidence | as-written member | corrected member |
|---|---|---|---|---|---|---|
| Helpers/serial_cmd.c:160-163 | `RELAY` scans its value from `cmd + 6`, one past the terminator of a bare `RELAY`, so it reads what an earlier, longer command left in the static buffer | `RELAY 1` then `RELAY`: the second command sets the relay to 1 instead of being rejected | scan the value from just after the word, so that a bare `RELAY` has no value and is rejected | not executed | SerialCmd.RelayArgAsWritten | SerialCmd.SerialCommands.RelayCommand |
| Helpers/serial_cmd.c:85 | `FREQ` accepts any frequency in (0, 1e6), but `update_pwm_parameters` converts `3 * (1/f)/4 * sys_clk / clkdiv` to `uint32_t`, which is out of range below about 0.0218 Hz | `FREQ 0.01 0.5`: state machine 3's phase argument is 9375000000 at 125 MHz | reject frequencies whose phase words do not fit 32 bits | not executed | SerialCmd.FreqRequestAsWritten | SerialCmd.FreqRequestOf |
| Helpers/GPIO_pwm_discharge.c:77-84 | both channels search the one `cmd_copy`. CH1's pass writes a NUL at the space after its list and `strtok` writes more, so the `strstr` for "CH2" only sees text up to CH1's list | `DISCHARGE_STEP 100 CH1 0.5,1 CH2 0.2`, the form the help text at line 253 shows: CH2 gets 0 steps | each channel's list is found wherever its tag is, by parsing each from its own copy | not executed | PwmDischargeProps.Ch2LostInStepCommand | PwmDischargeProps.IntendedStoresBothLists |
| Helpers/GPIO_pwm_discharge.c:63 | `sscanf` stores the duration straight into `discharge_seq.step_duration_ms` before the zero check, so a rejected `DISCHARGE_STEP 0` leaves duration 0 behind an enabled sequence, and the loop divides by it at line 200 | a programmed, running sequence, then `DISCHARGE_STEP 0` | scan into a local and store only a non-zero duration | not executed | PwmDischargeProps.ZeroDurationDividesByZero | PwmDischargeProps.IntendedZeroRejected |
| Helpers/GPIO_pwm_discharge.c:102 | `num_steps * step_duration_ms` is computed in 32 bits and wraps | `DISCHARGE_STEP 536870912 CH1 0,0,0,0,0,0,0,0`: the cycle of 2^32 ms wraps to 0 and the programmed sequence comes out disabled | refuse a cycle that does not fit 32 bits | not executed | PwmDischargeProps.CycleOverflowDisables | PwmDischargeProps.IntendedCycleExact |
