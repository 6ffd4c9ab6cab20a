/** The two-channel discharge sequencer of Helpers/GPIO_pwm_discharge.c: duty lists
    programmed by a one-line `DISCHARGE_STEP` command or by CSV lines, the cycle
    length and `enabled` derived from them, the trigger handler, and one iteration
    of the `core1_entry` loop, which plays the lists against the time elapsed
    since the cycle started. */
module PwmDischarge {
  import opened CText
  import opened CNumeric
  import opened DutyLists

  const MAX_DISCHARGE_STEPS: nat := 1000
  /** Size of the command copy the step parser works on. */
  const COPY_SIZE: nat := 256
  /** The PWM counter's wrap value: 125 MHz / 10 kHz - 1. */
  const WRAP_VALUE: nat := 12499
  const LIST_DELIMS: string := ","

  // ----- `discharge_seq` and `csv_input_mode` -----

  datatype Sequence = Sequence(
    ch1: seq<real>,
    ch2: seq<real>,
    stepDurationMs: nat,
    maxCycleMs: nat,
    enabled: bool,
    csvInputMode: bool)

  /** A channel list that fits its array and holds only valid duties. */
  predicate DutyList(ds: seq<real>)
  {
    |ds| <= MAX_DISCHARGE_STEPS && forall k :: 0 <= k < |ds| ==> InUnitRange(ds[k])
  }

  /** What every operation keeps: lists that fit, 32-bit durations, and `enabled`
      exactly when the cycle has a length. */
  predicate SequenceOk(q: Sequence)
  {
    DutyList(q.ch1) && DutyList(q.ch2) && q.stepDurationMs < U32 && q.maxCycleMs < U32 &&
    (q.enabled <==> q.maxCycleMs > 0)
  }

  /** `DischargeSequence discharge_seq = {0}` and CSV input off. */
  const InitialSequence := Sequence([], [], 0, 0, false, false)

  // ----- Cycle length -----

  /** `num_steps * step_duration_ms` in 32-bit unsigned arithmetic. */
  function ChannelDuration(steps: nat, stepMs: nat): (d: nat)
    ensures d < U32
  {
    (steps * stepMs) % U32
  }

  /** The longest channel duration over the channels' step counts; 0 when there is none. */
  function LongestDuration(counts: seq<nat>, stepMs: nat): (m: nat)
    ensures m < U32
    ensures forall k :: 0 <= k < |counts| ==> ChannelDuration(counts[k], stepMs) <= m
    ensures m == 0 || exists k :: 0 <= k < |counts| && m == ChannelDuration(counts[k], stepMs)
  {
    if counts == [] then 0
    else
      var init := counts[..|counts| - 1];
      var m := LongestDuration(init, stepMs);
      var d := ChannelDuration(counts[|counts| - 1], stepMs);
      assert forall k :: 0 <= k < |init| ==> init[k] == counts[k];
      if d > m then d else m
  }

  /** The step counts of the two channels, in channel order. */
  function Counts(q: Sequence): seq<nat>
  {
    [|q.ch1|, |q.ch2|]
  }

  /** The cycle length and `enabled` computed from the lists: the cycle covers every
      channel's duration, and an enabled sequence has a step and a non-zero step
      duration. Nothing else changes. */
  function Finalize(q: Sequence): (r: Sequence)
    ensures r == q.(maxCycleMs := r.maxCycleMs, enabled := r.enabled)
    ensures r.maxCycleMs < U32 && (r.enabled <==> r.maxCycleMs > 0)
    ensures ChannelDuration(|q.ch1|, q.stepDurationMs) <= r.maxCycleMs
    ensures ChannelDuration(|q.ch2|, q.stepDurationMs) <= r.maxCycleMs
    ensures r.enabled ==> q.stepDurationMs > 0 && (q.ch1 != [] || q.ch2 != [])
  {
    var counts := Counts(q);
    assert counts[0] == |q.ch1| && counts[1] == |q.ch2|;
    var m := LongestDuration(counts, q.stepDurationMs);
    q.(maxCycleMs := m, enabled := m > 0)
  }

  // ----- DISCHARGE_STEP <ms> CH1 <list> [CH2 <list>] -----

  /** The text a list is read from: from `p` up to the first space after it. It
      starts the text at `p`, holds no space, and is followed by a space unless it
      runs to the end. */
  function SpaceCut(s: string, p: nat): (t: string)
    requires p <= |s|
    ensures t <= s[p..] && forall k :: 0 <= k < |t| ==> t[k] != ' '
    ensures |t| < |s| - p ==> s[p + |t|] == ' '
  {
    var q := s[p..];
    match Find(q, " ")
    case None => NoSpaceBefore(q, |q|); q
    case Some(e) => NoSpaceBefore(q, e); assert q[e..e + 1][0] == q[e]; q[..e]
  }

  /** No occurrence of " " before `n` means no space character there. */
  lemma NoSpaceBefore(q: string, n: nat)
    requires n <= |q| && forall k :: 0 <= k < n ==> !OccursAt(q, " ", k)
    ensures forall k :: 0 <= k < n ==> q[k] != ' '
  {
    forall k | 0 <= k < n
      ensures q[k] != ' '
    {
      assert !OccursAt(q, " ", k);
      assert q[k..k + 1] == [q[k]];
    }
  }

  /** `strchr(p, ' ')` and the terminator written there. */
  function CutAtSpace(buf: seq<char>, p: nat): (r: seq<char>)
    requires p <= |CStr(buf)|
    ensures |r| == |buf|
  {
    match Find(CStr(buf)[p..], " ")
    case None => buf
    case Some(e) => buf[p + e := NUL]
  }

  /** The duties of the list at `p`: its comma-separated tokens through `atof`,
      values outside [0,1] skipped, at most MAX_DISCHARGE_STEPS kept. */
  function ListDutiesAt(s: string, p: nat): (ds: seq<real>)
    requires p <= |s|
    ensures DutyList(ds)
  {
    var ts := Tokens(SpaceCut(s, p), LIST_DELIMS);
    DutiesInRange(ts);
    Take(Duties(ts), MAX_DISCHARGE_STEPS)
  }

  /** One pass of the channel loop over the shared copy: the duties stored, and the
      copy as the next tag search reads it. */
  datatype ChannelPass = ChannelPass(duties: seq<real>, buf: seq<char>)

  /** The pass for `tag`: no list when the tag is not in the copy's C string,
      otherwise the list after it. The copy comes out with the space terminator
      and the first `strtok` terminator in it; the later `strtok` calls write only
      past the end of the C string that leaves. */
  function ChannelPassOn(buf: seq<char>, tag: string): (r: ChannelPass)
    ensures |r.buf| == |buf| && DutyList(r.duties)
  {
    var s := CStr(buf);
    match ListStart(s, tag)
    case None => ChannelPass([], buf)
    case Some(p) => ChannelPass(ListDutiesAt(s, p), StrTok(CutAtSpace(buf, p), p, LIST_DELIMS).buf)
  }

  /** What `set_discharge_sequence_step` does: a missing duration changes nothing,
      a zero duration is stored and nothing else changes, and a non-zero one
      replaces both lists, parsed one after the other from one shared copy, and
      recomputes the cycle length and `enabled`. */
  function StepCommand(q: Sequence, command: CString): (r: Sequence)
    ensures SequenceOk(q) ==> SequenceOk(r)
    ensures r.csvInputMode == q.csvInputMode
  {
    var buf := StrNCopy(command, COPY_SIZE);
    match ScanLiteralULong(CStr(buf), "DISCHARGE_STEP")
    case None => q
    case Some(ms) =>
      if ms == 0 then q.(stepDurationMs := 0)
      else
        var c1 := ChannelPassOn(buf, "CH1");
        var c2 := ChannelPassOn(c1.buf, "CH2");
        Finalize(q.(stepDurationMs := ms, ch1 := c1.duties, ch2 := c2.duties))
  }

  /** The step count of the longer list. */
  function MaxCount(ch1: seq<real>, ch2: seq<real>): (n: nat)
    ensures |ch1| <= n && |ch2| <= n && (n == |ch1| || n == |ch2|)
  {
    if |ch1| < |ch2| then |ch2| else |ch1|
  }

  /** An enabled sequence has a non-zero step duration, so the loop's division is defined. */
  predicate StepDefined(q: Sequence)
  {
    q.enabled ==> q.stepDurationMs > 0
  }

  /** The duration and the two lists an acceptable command sets. */
  datatype StepSetting = StepSetting(stepMs: nat, ch1: seq<real>, ch2: seq<real>)

  /** What `DISCHARGE_STEP` evidently intends: the duration is scanned into a local
      and accepted only when non-zero, each channel's list is parsed from its own
      copy of the command, and a cycle that does not fit in 32 bits is refused. */
  function IntendedSetting(command: CString): (r: Option<StepSetting>)
    ensures r.Some? ==> 0 < r.value.stepMs && MaxCount(r.value.ch1, r.value.ch2) * r.value.stepMs < U32
    ensures r.Some? ==> DutyList(r.value.ch1) && DutyList(r.value.ch2)
  {
    var buf := StrNCopy(command, COPY_SIZE);
    match ScanLiteralULong(CStr(buf), "DISCHARGE_STEP")
    case None => None
    case Some(ms) =>
      var ch1 := ChannelPassOn(buf, "CH1").duties;
      var ch2 := ChannelPassOn(buf, "CH2").duties;
      if ms == 0 || MaxCount(ch1, ch2) * ms >= U32 then None else Some(StepSetting(ms, ch1, ch2))
  }

  /** `set_discharge_sequence_step` corrected: a refused command changes nothing; an
      accepted one stores its duration and both lists and recomputes the cycle. */
  function StepCommandIntended(q: Sequence, command: CString): (r: Sequence)
    ensures SequenceOk(q) ==> SequenceOk(r)
    ensures StepDefined(q) ==> StepDefined(r)
    ensures IntendedSetting(command).None? ==> r == q
    ensures IntendedSetting(command).Some? ==> var st := IntendedSetting(command).value;
      r.stepDurationMs == st.stepMs && r.ch1 == st.ch1 && r.ch2 == st.ch2 && r.csvInputMode == q.csvInputMode
  {
    match IntendedSetting(command)
    case None => q
    case Some(st) => Finalize(q.(stepDurationMs := st.stepMs, ch1 := st.ch1, ch2 := st.ch2))
  }

  // ----- CSV input -----

  /** `start_csv_input`: both lists emptied and the duration set; the cycle length
      and `enabled` stay as they were. */
  function StartCsv(q: Sequence, stepDuration: nat): (r: Sequence)
    requires stepDuration < U32
    ensures SequenceOk(q) ==> SequenceOk(r)
  {
    if stepDuration == 0 then q
    else q.(ch1 := [], ch2 := [], stepDurationMs := stepDuration, csvInputMode := true)
  }

  /** `process_csv_line`: in CSV mode, a line that scans at least one number appends
      each scanned in-range column to its channel while there is room. */
  function CsvLine(q: Sequence, line: CString): (r: Sequence)
    ensures SequenceOk(q) ==> SequenceOk(r)
  {
    if !q.csvInputMode then q
    else
      var vs := ScanCsvPair(line);
      if |vs| < 1 then q
      else
        q.(ch1 := AppendIfRoom(q.ch1, Column(vs, 0), MAX_DISCHARGE_STEPS),
           ch2 := AppendIfRoom(q.ch2, Column(vs, 1), MAX_DISCHARGE_STEPS))
  }

  /** `end_csv_input`: in CSV mode, leaves it and computes the cycle length and `enabled`. */
  function EndCsv(q: Sequence): (r: Sequence)
    ensures SequenceOk(q) ==> SequenceOk(r)
    ensures !r.csvInputMode
  {
    if !q.csvInputMode then q else Finalize(q.(csvInputMode := false))
  }

  // ----- The trigger handler and one iteration of the core-1 loop -----

  /** `sequence_running`, `cycle_start_time`, the loop's `was_running` and the two output levels. */
  datatype Core1 = Core1(
    running: bool,
    cycleStartTime: nat,
    wasRunning: bool,
    level1: nat,
    level2: nat)

  predicate Core1Ok(s: Core1)
  {
    s.cycleStartTime < U32 && s.level1 <= WRAP_VALUE && s.level2 <= WRAP_VALUE
  }

  /** Nothing running, both outputs at 0, as `pwm_discharge_init` leaves them. */
  const InitialCore1 := Core1(false, 0, false, 0, 0)

  /** `handle_discharge_trigger` with the effective trigger state and the time (ms since
      boot): an idle enabled sequence starts its cycle now, a running one stops when
      the trigger drops (its outputs are zeroed by the loop), and nothing else changes. */
  function Trigger(q: Sequence, s: Core1, trigger: bool, now: nat): (r: Core1)
    ensures r.running <==> if s.running then trigger else trigger && q.enabled
    ensures r.running && !s.running ==> r.cycleStartTime == now
    ensures r == s.(running := r.running, cycleStartTime := r.cycleStartTime)
    ensures r.running == s.running ==> r == s
  {
    if trigger && !s.running && q.enabled then s.(running := true, cycleStartTime := now)
    else if !trigger && s.running then s.(running := false)
    else s
  }

  /** The step of the cycle at `now`: the time since the cycle start, modulo the cycle
      length, in whole steps: the step whose time slot holds that position. */
  function CycleStep(q: Sequence, start: nat, now: nat): (step: nat)
    requires SequenceOk(q) && q.enabled && q.stepDurationMs > 0 && start < U32 && now < U32
    ensures var pos := Elapsed(now, start) % q.maxCycleMs;
      step * q.stepDurationMs <= pos < step * q.stepDurationMs + q.stepDurationMs
  {
    (Elapsed(now, start) % q.maxCycleMs) / q.stepDurationMs
  }

  /** The index a channel of `n` steps reads at `step`: the step itself, or its last
      entry once the step is past its end. */
  function HoldIndex(step: nat, n: nat): (i: nat)
    requires n > 0
    ensures i < n
    ensures step < n ==> i == step
    ensures n <= step ==> i == n - 1
  {
    if step < n then step else n - 1
  }

  /** The level a channel is set to at `step`: `(uint16_t)(duty * WRAP_VALUE)`, 0 for an empty channel. */
  function ChannelLevel(ds: seq<real>, step: nat): (l: nat)
    requires DutyList(ds)
    ensures l <= WRAP_VALUE
    ensures ds == [] ==> l == 0
  {
    if |ds| > 0 then Scale(ds[HoldIndex(step, |ds|)], WRAP_VALUE) else 0
  }

  /** A loop iteration either completes or divides by a zero step duration. */
  datatype TickOutcome = Ticked(s: Core1) | DivisionByZero

  /** One iteration of `core1_entry` at `now` (ms since boot, 32 bits). */
  function Tick(q: Sequence, s: Core1, now: nat): (r: TickOutcome)
    requires SequenceOk(q) && Core1Ok(s) && now < U32
    ensures r.Ticked? ==> Core1Ok(r.s) && r.s.running == s.running && r.s.cycleStartTime == s.cycleStartTime
    ensures r.DivisionByZero? <==> s.running && q.enabled && q.stepDurationMs == 0
  {
    if s.running && q.enabled then
      if q.stepDurationMs == 0 then DivisionByZero
      else
        var step := CycleStep(q, s.cycleStartTime, now);
        Ticked(s.(level1 := ChannelLevel(q.ch1, step), level2 := ChannelLevel(q.ch2, step), wasRunning := true))
    else if s.wasRunning then Ticked(s.(level1 := 0, level2 := 0, wasRunning := false))
    else Ticked(s)
  }

  // ----- Imperative pieces -----

  /** The C string of a cut copy, read from `p`, is the list text there. */
  lemma CutAtSpaceText(buf: seq<char>, p: nat)
    requires p <= |CStr(buf)|
    ensures CStrFrom(CutAtSpace(buf, p), p) == SpaceCut(CStr(buf), p)
  {
    CStrAt(buf, p);
    match Find(CStr(buf)[p..], " ")
    case None =>
    case Some(e) => CStrFromCut(buf, p, p + e);
  }

  /** One pass of the channel loop in `set_discharge_sequence_step`: the tag search,
      the spaces skipped, the list cut at the next space, and the `strtok` loop into
      `a`. Returns the step count and the copy as the loop left it. */
  method ParseChannelInto(buf: seq<char>, tag: string, a: array<real>) returns (n: nat, buf': seq<char>)
    requires a.Length == MAX_DISCHARGE_STEPS
    modifies a
    ensures n <= MAX_DISCHARGE_STEPS && DutyList(a[..n])
    ensures a[..n] == ChannelPassOn(buf, tag).duties
    ensures |buf'| == |buf| && CStr(buf') == CStr(ChannelPassOn(buf, tag).buf)
  {
    var start := SkipToList(buf, tag);
    if start.None? {
      return 0, buf;
    }
    var p := start.value;
    var cut := CutAtSpace(buf, p);
    CutAtSpaceText(buf, p);
    assert ChannelPassOn(buf, tag) == ChannelPass(ListDutiesAt(CStr(buf), p), StrTok(cut, p, LIST_DELIMS).buf);
    n, buf' := FillDuties(cut, p, LIST_DELIMS, a, MAX_DISCHARGE_STEPS);
  }

  /** The checks of the corrected step command: the duration scanned into a local and
      each list parsed from the copy into fresh scratch storage. `accepted` is false for
      a missing or zero duration and for a cycle that does not fit 32 bits. */
  method ParseSetting(command: CString)
    returns (accepted: bool, ms: nat, a1: array<real>, n1: nat, a2: array<real>, n2: nat)
    ensures fresh(a1) && fresh(a2) && a1 != a2
    ensures n1 <= a1.Length && n2 <= a2.Length
    ensures accepted <==> IntendedSetting(command).Some?
    ensures accepted ==> IntendedSetting(command).value == StepSetting(ms, a1[..n1], a2[..n2])
  {
    a1 := new real[MAX_DISCHARGE_STEPS];
    a2 := new real[MAX_DISCHARGE_STEPS];
    n1, n2 := 0, 0;
    var cmdCopy := StrNCopy(command, COPY_SIZE);
    var scanned := ScanLiteralULong(CStr(cmdCopy), "DISCHARGE_STEP");
    if scanned.None? || scanned.value == 0 {
      return false, 0, a1, n1, a2, n2;
    }
    ms := scanned.value;
    var rest;
    n1, rest := ParseChannelInto(cmdCopy, "CH1", a1);
    n2, rest := ParseChannelInto(cmdCopy, "CH2", a2);
    var longest := if n1 < n2 then n2 else n1;
    assert longest == MaxCount(a1[..n1], a2[..n2]);
    accepted := longest * ms < U32;
  }

  /** Copies the first `n` values of `src` into `dst`, leaving the rest of `dst` alone. */
  method CopyPrefix(src: array<real>, dst: array<real>, n: nat)
    requires src != dst && n <= src.Length && n <= dst.Length
    modifies dst
    ensures dst[..n] == src[..n]
  {
    for i := 0 to n
      invariant dst[..i] == src[..i]
    {
      dst[i] := src[i];
    }
  }

  /** The loop computing `max_cycle_duration_ms`: the longest channel duration. */
  method LongestDurationOf(counts: seq<nat>, stepMs: nat) returns (m: nat)
    ensures m == LongestDuration(counts, stepMs)
  {
    m := 0;
    for ch := 0 to |counts|
      invariant m == LongestDuration(counts[..ch], stepMs)
    {
      var d := (counts[ch] * stepMs) % U32;
      if d > m {
        m := d;
      }
      assert counts[..ch + 1][..ch] == counts[..ch];
    }
    assert counts[..|counts|] == counts;
  }

  /** A channel's level in the loop body: its duty at the held index, scaled; 0 for an empty channel. */
  method ChannelLevelAt(a: array<real>, n: nat, step: nat) returns (level: nat)
    requires n <= a.Length && DutyList(a[..n])
    ensures level == ChannelLevel(a[..n], step)
  {
    var duty := 0.0;
    if n > 0 {
      var stepIndex := if step < n then step else n - 1;
      duty := a[stepIndex];
      assert duty == a[..n][stepIndex];
    }
    level := Scale(duty, WRAP_VALUE);
  }

  // ----- The sequencer state, updated in place -----

  class DischargeSequencer {
    const ch1Duties: array<real>
    const ch2Duties: array<real>
    var ch1Steps: nat
    var ch2Steps: nat
    var stepDurationMs: nat
    var maxCycleMs: nat
    var enabled: bool
    var csvInputMode: bool
    var sequenceRunning: bool
    var cycleStartTime: nat
    /** The `static bool was_running` of the core-1 loop. */
    var wasRunning: bool
    var level1: nat
    var level2: nat

    ghost function Seq(): Sequence
      reads this, ch1Duties, ch2Duties
      requires ch1Steps <= ch1Duties.Length && ch2Steps <= ch2Duties.Length
    {
      Sequence(ch1Duties[..ch1Steps], ch2Duties[..ch2Steps], stepDurationMs, maxCycleMs, enabled, csvInputMode)
    }

    ghost function Run(): Core1
      reads this
    {
      Core1(sequenceRunning, cycleStartTime, wasRunning, level1, level2)
    }

    ghost predicate Valid()
      reads this, ch1Duties, ch2Duties
    {
      ch1Duties.Length == MAX_DISCHARGE_STEPS && ch2Duties.Length == MAX_DISCHARGE_STEPS &&
      ch1Duties != ch2Duties && ch1Steps <= MAX_DISCHARGE_STEPS && ch2Steps <= MAX_DISCHARGE_STEPS &&
      DutyList(ch1Duties[..ch1Steps]) && DutyList(ch2Duties[..ch2Steps]) &&
      stepDurationMs < U32 && maxCycleMs < U32 && (enabled <==> maxCycleMs > 0) &&
      Core1Ok(Run())
    }

    constructor ()
      ensures Valid() && Seq() == InitialSequence && Run() == InitialCore1
    {
      ch1Duties := new real[MAX_DISCHARGE_STEPS](_ => 0.0);
      ch2Duties := new real[MAX_DISCHARGE_STEPS](_ => 0.0);
      ch1Steps, ch2Steps := 0, 0;
      stepDurationMs, maxCycleMs := 0, 0;
      enabled, csvInputMode := false, false;
      sequenceRunning, cycleStartTime, wasRunning := false, 0, false;
      level1, level2 := 0, 0;
    }

    /** `set_discharge_sequence_step`: the duration is scanned straight into the
        sequence, so a zero duration is rejected only after it was stored. */
    method SetDischargeSequenceStep(command: CString)
      requires Valid()
      modifies this, ch1Duties, ch2Duties
      ensures Valid() && Run() == old(Run())
      ensures Seq() == StepCommand(old(Seq()), command)
    {
      var cmdCopy := StrNCopy(command, COPY_SIZE);
      var scanned := ScanLiteralULong(CStr(cmdCopy), "DISCHARGE_STEP");
      if scanned.None? {
        return;
      }
      stepDurationMs := scanned.value;
      if stepDurationMs == 0 {
        return;
      }
      ProgramChannels(cmdCopy);
    }

    /** `set_discharge_sequence_step` as evidently intended: the duration is scanned
        into a local, each list is parsed from the copy into scratch storage, and only
        a command with a non-zero duration and a cycle that fits 32 bits is stored. */
    method SetDischargeSequenceStepIntended(command: CString)
      requires Valid()
      modifies this, ch1Duties, ch2Duties
      ensures Valid() && Run() == old(Run())
      ensures Seq() == StepCommandIntended(old(Seq()), command)
    {
      ghost var q := Seq();
      var accepted, ms, scratch1, n1, scratch2, n2 := ParseSetting(command);
      if accepted {
        assert StepCommandIntended(q, command) == Finalize(q.(stepDurationMs := ms, ch1 := scratch1[..n1], ch2 := scratch2[..n2]));
        CommitSetting(ms, scratch1, n1, scratch2, n2);
      }
    }

    /** Stores an accepted duration and the two parsed lists, then recomputes the cycle. */
    method CommitSetting(ms: nat, a1: array<real>, n1: nat, a2: array<real>, n2: nat)
      requires Valid() && ms < U32
      requires n1 <= a1.Length && n1 <= MAX_DISCHARGE_STEPS && DutyList(a1[..n1])
      requires n2 <= a2.Length && n2 <= MAX_DISCHARGE_STEPS && DutyList(a2[..n2])
      requires a1 != ch1Duties && a1 != ch2Duties && a2 != ch1Duties && a2 != ch2Duties
      modifies this, ch1Duties, ch2Duties
      ensures Valid() && Run() == old(Run())
      ensures Seq() == Finalize(old(Seq()).(stepDurationMs := ms, ch1 := a1[..n1], ch2 := a2[..n2]))
    {
      CopyPrefix(a1, ch1Duties, n1);
      ch1Steps := n1;
      CopyPrefix(a2, ch2Duties, n2);
      ch2Steps := n2;
      stepDurationMs := ms;
      FinalizeCycle();
    }

    /** Steps 2 to 5 of `set_discharge_sequence_step`: counts reset, CH1 then CH2
        parsed from the shared copy, cycle length and `enabled` computed. */
    method ProgramChannels(cmdCopy: seq<char>)
      requires Valid()
      modifies this, ch1Duties, ch2Duties
      ensures Valid() && Run() == old(Run())
      ensures var c1 := ChannelPassOn(cmdCopy, "CH1");
        Seq() == Finalize(old(Seq()).(ch1 := c1.duties, ch2 := ChannelPassOn(c1.buf, "CH2").duties))
    {
      ch1Steps, ch2Steps := 0, 0;
      var rest := ParseCh1(cmdCopy);
      ParseCh2(rest);
      FinalizeCycle();
    }

    method ParseCh1(cmdCopy: seq<char>) returns (rest: seq<char>)
      requires Valid() && ch1Steps == 0
      modifies this, ch1Duties
      ensures Valid() && Run() == old(Run())
      ensures Seq() == old(Seq()).(ch1 := ChannelPassOn(cmdCopy, "CH1").duties)
      ensures CStr(rest) == CStr(ChannelPassOn(cmdCopy, "CH1").buf)
    {
      var n;
      n, rest := ParseChannelInto(cmdCopy, "CH1", ch1Duties);
      ch1Steps := n;
    }

    /** The CH2 pass reads the copy as CH1's pass left it. */
    method ParseCh2(rest: seq<char>)
      requires Valid() && ch2Steps == 0
      modifies this, ch2Duties
      ensures Valid() && Run() == old(Run())
      ensures Seq() == old(Seq()).(ch2 := ChannelPassOn(rest, "CH2").duties)
    {
      var n, _ := ParseChannelInto(rest, "CH2", ch2Duties);
      ch2Steps := n;
    }

    /** The cycle-length loop and `enabled = (max_cycle_duration_ms > 0)`. */
    method FinalizeCycle()
      requires Valid()
      modifies this
      ensures Valid() && Run() == old(Run())
      ensures Seq() == Finalize(old(Seq()))
    {
      maxCycleMs := LongestDurationOf([ch1Steps, ch2Steps], stepDurationMs);
      enabled := maxCycleMs > 0;
    }

    method StartCsvInput(stepDuration: nat)
      requires Valid() && stepDuration < U32
      modifies this
      ensures Valid() && Run() == old(Run())
      ensures Seq() == StartCsv(old(Seq()), stepDuration)
    {
      if stepDuration == 0 {
        return;
      }
      ch1Steps, ch2Steps := 0, 0;
      stepDurationMs := stepDuration;
      csvInputMode := true;
    }

    method ProcessCsvLine(line: CString)
      requires Valid()
      modifies this, ch1Duties, ch2Duties
      ensures Valid() && Run() == old(Run())
      ensures Seq() == CsvLine(old(Seq()), line)
    {
      if !csvInputMode {
        return;
      }
      var items := ScanCsvPair(line);
      if |items| < 1 {
        return;
      }
      ch1Steps := AppendDuty(ch1Duties, ch1Steps, Column(items, 0), MAX_DISCHARGE_STEPS);
      ch2Steps := AppendDuty(ch2Duties, ch2Steps, Column(items, 1), MAX_DISCHARGE_STEPS);
    }

    method EndCsvInput()
      requires Valid()
      modifies this
      ensures Valid() && Run() == old(Run())
      ensures Seq() == EndCsv(old(Seq()))
    {
      if !csvInputMode {
        return;
      }
      csvInputMode := false;
      FinalizeCycle();
    }

    /** `handle_discharge_trigger`, with `get_effective_discharge_trigger_state()` as `trigger`. */
    method HandleDischargeTrigger(trigger: bool, now: nat)
      requires Valid() && now < U32
      modifies this
      ensures Valid() && Seq() == old(Seq())
      ensures Run() == Trigger(old(Seq()), old(Run()), trigger, now)
    {
      if trigger && !sequenceRunning && enabled {
        sequenceRunning := true;
        cycleStartTime := now;
      } else if !trigger && sequenceRunning {
        sequenceRunning := false;
      }
    }

    /** One iteration of `core1_entry` at `now`; reports the division by a zero step
        duration instead of performing it. */
    method Core1Tick(now: nat) returns (divisionByZero: bool)
      requires Valid() && now < U32
      modifies this
      ensures Valid() && Seq() == old(Seq())
      ensures Tick(old(Seq()), old(Run()), now) == if divisionByZero then DivisionByZero else Ticked(Run())
      ensures divisionByZero ==> Run() == old(Run())
    {
      divisionByZero := false;
      if sequenceRunning && enabled {
        if stepDurationMs == 0 {
          return true;
        }
        var elapsed := Elapsed(now, cycleStartTime) % maxCycleMs;
        var currentStep := elapsed / stepDurationMs;
        level1 := ChannelLevelAt(ch1Duties, ch1Steps, currentStep);
        level2 := ChannelLevelAt(ch2Duties, ch2Steps, currentStep);
        wasRunning := true;
      } else if wasRunning {
        level1, level2 := 0, 0;
        wasRunning := false;
      }
    }
  }
}
