/** The duty-list parsing both discharge revisions share: tokens of a list go
    through `atof`, values outside [0,1] are skipped without ending the list,
    and accepted values are stored in order into a fixed array until it is full. */
module DutyLists {
  import opened CText

  predicate InUnitRange(x: real)
  {
    0.0 <= x <= 1.0
  }

  /** What one parsed value contributes to a list: itself when it is a valid duty, nothing otherwise. */
  function Admit(x: real): (ds: seq<real>)
    ensures ds == [] || ds == [x]
    ensures InUnitRange(x) <==> ds == [x]
  {
    if InUnitRange(x) then [x] else []
  }

  /** The valid duties among parsed values, in input order. */
  function Kept(vs: seq<real>): (ds: seq<real>)
    ensures |ds| <= |vs|
  {
    if vs == [] then [] else Kept(vs[..|vs| - 1]) + Admit(vs[|vs| - 1])
  }

  /** `atof` applied to every token. */
  function AtofAll(ts: seq<string>): seq<real>
  {
    if ts == [] then [] else AtofAll(ts[..|ts| - 1]) + [Atof(ts[|ts| - 1])]
  }

  /** The duties a list of tokens yields, in input order. */
  function Duties(ts: seq<string>): seq<real>
  {
    Kept(AtofAll(ts))
  }

  /** The first `n` elements (all of them when there are fewer). */
  function Take(s: seq<real>, n: nat): (r: seq<real>)
    ensures |r| <= n && |r| <= |s| && r == s[..|r|]
    ensures |s| <= n ==> r == s
    ensures n <= |s| ==> |r| == n
  {
    if |s| <= n then s else s[..n]
  }

  lemma {:induction false} AtofAllAppend(xs: seq<string>, ys: seq<string>)
    ensures AtofAll(xs + ys) == AtofAll(xs) + AtofAll(ys)
    decreases |ys|
  {
    if ys != [] {
      var ys' := ys[..|ys| - 1];
      assert (xs + ys)[..|xs + ys| - 1] == xs + ys';
      assert (xs + ys)[|xs + ys| - 1] == ys[|ys| - 1];
      AtofAllAppend(xs, ys');
      assert AtofAll(xs + ys) == AtofAll(xs + ys') + [Atof(ys[|ys| - 1])];
      assert AtofAll(ys) == AtofAll(ys') + [Atof(ys[|ys| - 1])];
    } else {
      assert xs + ys == xs;
    }
  }

  lemma {:induction false} AtofAllAt(ts: seq<string>, i: nat)
    requires i < |ts|
    ensures |AtofAll(ts)| == |ts| && AtofAll(ts)[i] == Atof(ts[i])
    decreases |ts|
  {
    if i < |ts| - 1 {
      AtofAllAt(ts[..|ts| - 1], i);
    } else if |ts| > 1 {
      AtofAllAt(ts[..|ts| - 1], 0);
    }
  }

  lemma {:induction false} KeptAppend(xs: seq<real>, ys: seq<real>)
    ensures Kept(xs + ys) == Kept(xs) + Kept(ys)
    decreases |ys|
  {
    if ys != [] {
      var ys' := ys[..|ys| - 1];
      assert (xs + ys)[..|xs + ys| - 1] == xs + ys';
      assert (xs + ys)[|xs + ys| - 1] == ys[|ys| - 1];
      KeptAppend(xs, ys');
      assert Kept(xs + ys) == Kept(xs + ys') + Admit(ys[|ys| - 1]);
      assert Kept(ys) == Kept(ys') + Admit(ys[|ys| - 1]);
    } else {
      assert xs + ys == xs;
    }
  }

  /** Parsing a list in two pieces is parsing it whole: a skipped token does not end the list. */
  lemma DutiesAppend(xs: seq<string>, ys: seq<string>)
    ensures Duties(xs + ys) == Duties(xs) + Duties(ys)
  {
    AtofAllAppend(xs, ys);
    KeptAppend(AtofAll(xs), AtofAll(ys));
  }

  /** A value is kept exactly when it occurs among the parsed values and lies in [0,1]. */
  lemma {:induction false} KeptMembership(vs: seq<real>, x: real)
    ensures x in Kept(vs) <==> InUnitRange(x) && x in vs
    decreases |vs|
  {
    if vs != [] {
      var init := vs[..|vs| - 1];
      KeptMembership(init, x);
      assert vs == init + [vs[|vs| - 1]];
    }
  }

  /** A value is in the list exactly when some token scans to it and it lies in [0,1]. */
  lemma DutiesMembership(ts: seq<string>, x: real)
    ensures x in Duties(ts) <==> InUnitRange(x) && exists i :: 0 <= i < |ts| && Atof(ts[i]) == x
  {
    KeptMembership(AtofAll(ts), x);
    if x in AtofAll(ts) {
      var i :| 0 <= i < |AtofAll(ts)| && AtofAll(ts)[i] == x;
      if ts != [] {
        AtofAllAt(ts, 0);
      }
      AtofAllAt(ts, i);
    }
    if exists i :: 0 <= i < |ts| && Atof(ts[i]) == x {
      var i :| 0 <= i < |ts| && Atof(ts[i]) == x;
      AtofAllAt(ts, i);
    }
  }

  /** Every stored duty lies in [0,1]. */
  lemma DutiesInRange(ts: seq<string>)
    ensures forall k :: 0 <= k < |Duties(ts)| ==> InUnitRange(Duties(ts)[k])
  {
    forall k | 0 <= k < |Duties(ts)|
      ensures InUnitRange(Duties(ts)[k])
    {
      KeptMembership(AtofAll(ts), Duties(ts)[k]);
    }
  }

  /** Appending at most one value only while there is room keeps the first `max` values. */
  lemma TakeSnoc(a: seq<real>, d: seq<real>, max: nat)
    requires |d| <= 1
    ensures (var t := Take(a, max); if |t| < max then t + d else t) == Take(a + d, max)
  {
    var t := Take(a, max);
    if |t| < max {
      assert t == a;
    } else {
      assert (a + d)[..max] == a[..max];
    }
  }

  lemma AppendAssoc<T>(x: seq<T>, y: seq<T>, z: seq<T>)
    ensures x + (y + z) == (x + y) + z
  {
  }

  /** One turn of a `strtok` loop: the token moves from pending to done, the
      buffer still differs from the original only by terminators at or after `p`,
      and its C string stays as it was. */
  lemma TokenLoopStep(all: seq<string>, done: seq<string>, r: TokStep, delims: string, buf0: seq<char>, p: nat)
    requires NUL !in delims && r.token.Some?
    requires all == done + Delivered(r, delims)
    requires p <= r.save && |r.buf| == |buf0|
    requires forall k :: 0 <= k < |buf0| ==> r.buf[k] == buf0[k] || (r.buf[k] == NUL && p <= k)
    requires |CStr(r.buf)| <= r.save
    ensures var r' := StrTok(r.buf, r.save, delims);
      all == (done + [r.token.value]) + Delivered(r', delims) &&
      p <= r'.save && |r'.buf| == |buf0| &&
      (forall k :: 0 <= k < |buf0| ==> r'.buf[k] == buf0[k] || (r'.buf[k] == NUL && p <= k)) &&
      CStr(r'.buf) == CStr(r.buf) && r.save <= r'.save
  {
    var r' := StrTok(r.buf, r.save, delims);
    DeliveredStep(r, delims);
    StrTokWrites(r.buf, r.save, delims);
    StrTokKeepsCStr(r.buf, r.save, delims);
    AppendAssoc(done, [r.token.value], Delivered(r', delims));
  }

  /** One more token appends what its value contributes. */
  lemma DutiesSnoc(done: seq<string>, t: string)
    ensures Duties(done + [t]) == Duties(done) + Admit(Atof(t))
  {
    var ts := done + [t];
    assert ts[..|ts| - 1] == done && ts[|ts| - 1] == t;
    var vs := AtofAll(done) + [Atof(t)];
    assert vs[..|vs| - 1] == AtofAll(done) && vs[|vs| - 1] == Atof(t);
  }

  /** Filling an array from a token list capped at `max` keeps the first `max` duties of the whole list. */
  lemma TakeDutiesCapped(done: seq<string>, rest: seq<string>, max: nat)
    requires |Duties(done)| == max
    ensures Take(Duties(done + rest), max) == Duties(done)
  {
    DutiesAppend(done, rest);
  }

  /** One pass of the loop body: the token's `atof` value is stored at `n` when in [0,1]. */
  method StoreDuty(token: string, a: array<real>, n: nat, ghost done: seq<string>) returns (n': nat)
    requires n < a.Length && a[..n] == Duties(done)
    modifies a
    ensures n <= n' <= n + 1 && a[..n'] == Duties(done + [token])
    ensures forall k :: n' <= k < a.Length ==> a[k] == old(a[k])
  {
    var duty := Atof(token);
    DutiesSnoc(done, token);
    n' := n;
    if 0.0 <= duty <= 1.0 {
      a[n] := duty;
      n' := n + 1;
      assert a[..n'] == a[..n] + [duty];
    } else {
      assert Duties(done + [token]) == Duties(done);
    }
  }

  /** The `strtok` loop that stores a duty list: tokens of the C string at `p`, split at
      `delims`, each through `atof`, kept when in [0,1], until `max` values are stored.
      Returns the count and the buffer as `strtok` left it, whose C string is the
      one the first call left: later calls cut only past its end. */
  method FillDuties(buf0: seq<char>, p: nat, delims: string, a: array<real>, max: nat)
    returns (n: nat, buf: seq<char>)
    requires NUL !in delims
    requires max <= a.Length
    modifies a
    ensures n <= max
    ensures a[..n] == Take(Duties(Tokens(CStrFrom(buf0, p), delims)), max)
    ensures forall k :: n <= k < a.Length ==> a[k] == old(a[k])
    ensures |buf| == |buf0|
    ensures forall k :: 0 <= k < |buf0| ==> buf[k] == buf0[k] || (buf[k] == NUL && p <= k)
    ensures CStr(buf) == CStr(StrTok(buf0, p, delims).buf)
  {
    ghost var all := Tokens(CStrFrom(buf0, p), delims);
    StrTokDelivers(buf0, p, delims);
    StrTokWrites(buf0, p, delims);
    var r := StrTok(buf0, p, delims);
    ghost var firstCut := CStr(r.buf);
    StrTokCutBeforeSave(buf0, p, delims);
    ghost var done: seq<string> := [];
    n := 0;
    while r.token.Some? && n < max
      invariant n <= max
      invariant all == done + Delivered(r, delims)
      invariant a[..n] == Duties(done)
      invariant forall k :: n <= k < a.Length ==> a[k] == old(a[k])
      invariant p <= r.save && |r.buf| == |buf0|
      invariant forall k :: 0 <= k < |buf0| ==> r.buf[k] == buf0[k] || (r.buf[k] == NUL && p <= k)
      invariant CStr(r.buf) == firstCut && |firstCut| <= r.save
      decreases |all| - |done|
    {
      var token := r.token.value;
      n := StoreDuty(token, a, n, done);
      TokenLoopStep(all, done, r, delims, buf0, p);
      r := StrTok(r.buf, r.save, delims);
      done := done + [token];
    }
    buf := r.buf;
    LoopExit(all, done, r, delims, max);
  }

  /** When the loop stops, for want of tokens or of room, it has stored the
      first `max` duties of the whole token list. */
  lemma LoopExit(all: seq<string>, done: seq<string>, r: TokStep, delims: string, max: nat)
    requires all == done + Delivered(r, delims) && |Duties(done)| <= max
    requires r.token.None? || |Duties(done)| == max
    ensures Duties(done) == Take(Duties(all), max)
  {
    if r.token.Some? {
      TakeDutiesCapped(done, Delivered(r, delims), max);
    } else {
      assert Delivered(r, delims) == [];
      assert all == done;
    }
  }

  // ----- Pieces shared by the command parsers of both revisions -----

  /** Index just past the first occurrence of `tag` and the spaces that follow it. */
  function ListStart(s: string, tag: string): (p: Option<nat>)
    ensures p.Some? ==> p.value <= |s|
  {
    match Find(s, tag)
    case None => None
    case Some(i) =>
      var q := i + |tag|;
      Some(q + RunOf(s[q..], ' '))
  }

  /** The tag search in a channel parse and the `while (*p == ' ') p++;` after it. */
  method SkipToList(copy: seq<char>, tag: string) returns (pos: Option<nat>)
    ensures pos == ListStart(CStr(copy), tag)
  {
    ghost var s := CStr(copy);
    var found := Find(CStr(copy), tag);
    if found.None? {
      return None;
    }
    var p := found.value + |tag|;
    ghost var q := p;
    ghost var rest := s[q..];
    while At(copy, p) == ' '
      invariant q <= p <= |s|
      invariant forall k :: 0 <= k < p - q ==> rest[k] == ' '
      decreases |s| - p
    {
      CStrAt(copy, p);
      assert p < |s| && rest[p - q] == ' ';
      p := p + 1;
    }
    CStrAt(copy, p);
    RunOfUnique(rest, ' ', p - q);
    return Some(p);
  }

  /** `if (<converted and in [0,1]> && n < max) a[n++] = duty;` with the
      converted, in-range value as `d` (empty when there is none). */
  method AppendDuty(a: array<real>, n: nat, d: seq<real>, max: nat) returns (n': nat)
    requires n <= max <= a.Length && |d| <= 1
    modifies a
    ensures n' <= max
    ensures a[..n'] == AppendIfRoom(old(a[..n]), d, max)
    ensures forall k :: n' <= k < a.Length ==> a[k] == old(a[k])
  {
    n' := n;
    if |d| == 1 && n < max {
      a[n] := d[0];
      n' := n + 1;
      assert a[..n'] == old(a[..n]) + d;
    }
  }

  /** What column `i` of a scanned CSV line contributes: its value when it was converted and lies in [0,1]. */
  function Column(vs: seq<real>, i: nat): (d: seq<real>)
    ensures |d| <= 1 && forall k :: 0 <= k < |d| ==> InUnitRange(d[k])
  {
    if i < |vs| then Admit(vs[i]) else []
  }

  /** `d` appended to a list capped at `max` entries, when there is room. */
  function AppendIfRoom(ds: seq<real>, d: seq<real>, max: nat): seq<real>
  {
    if |ds| < max then ds + d else ds
  }

  /** The values column `i` of successive CSV lines contributes. */
  function CsvColumn(lines: seq<CString>, i: nat): (vs: seq<real>)
    ensures |vs| <= |lines|
  {
    if lines == [] then [] else CsvColumn(lines[..|lines| - 1], i) + Column(ScanCsvPair(lines[|lines| - 1]), i)
  }

}
