/** C text handling the firmware's command parsers rely on: NUL-terminated
    buffers, `strncmp`/`strstr`/`strchr`, `strtok` over a buffer it writes
    terminators into, and the number scanners behind `atof`, `atoi`,
    `strtoul` and `sscanf`.  Characters stand for the bytes of the C text. */
module CText {

  datatype Option<T> = None | Some(value: T)

  const NUL: char := '\0'

  /** What a C function sees of a `const char*` argument: the characters before the terminator. */
  type CString = s: string | NUL !in s witness ""

  /** Character at index `i` of a buffer; reading past the end yields the terminator. */
  function At(buf: seq<char>, i: nat): char
  {
    if i < |buf| then buf[i] else NUL
  }

  /** The C string starting at index `i` of a buffer: the characters up to the first NUL. */
  function CStrFrom(buf: seq<char>, i: nat): (s: CString)
    ensures s == [] || i + |s| <= |buf|
    ensures At(buf, i + |s|) == NUL
    decreases |buf| - i
  {
    if i >= |buf| || buf[i] == NUL then [] else [buf[i]] + CStrFrom(buf, i + 1)
  }

  /** The C string at `i` is the buffer's characters from `i` on. */
  lemma {:induction false} CStrFromChars(buf: seq<char>, i: nat)
    ensures forall k :: 0 <= k < |CStrFrom(buf, i)| ==> CStrFrom(buf, i)[k] == buf[i + k]
    decreases |buf| - i
  {
    if i < |buf| && buf[i] != NUL {
      CStrFromChars(buf, i + 1);
      var s, s' := CStrFrom(buf, i), CStrFrom(buf, i + 1);
      assert s == [buf[i]] + s';
      forall k | 0 <= k < |s|
        ensures s[k] == buf[i + k]
      {
        if k > 0 {
          assert s[k] == s'[k - 1] == buf[i + 1 + (k - 1)];
        } else {
          assert s[0] == buf[i];
        }
      }
    }
  }

  /** The C string a buffer holds: it fits in the buffer and a terminator (or the end) follows it. */
  function CStr(buf: seq<char>): (s: CString)
    ensures |s| <= |buf| && At(buf, |s|) == NUL
  {
    CStrFrom(buf, 0)
  }

  /** A run of non-NUL characters ended by a NUL (or the end of the buffer) is the C string there. */
  lemma {:induction false} CStrFromRun(buf: seq<char>, i: nat, j: nat)
    requires i <= j <= |buf|
    requires forall k :: i <= k < j ==> buf[k] != NUL
    ensures CStrFrom(buf, i) == buf[i..j] + CStrFrom(buf, j)
    decreases j - i
  {
    if i < j {
      CStrFromRun(buf, i + 1, j);
    }
  }

  /** The C string at `i` depends only on the buffer from `i` on. */
  lemma {:induction false} CStrFromSameTail(a: seq<char>, b: seq<char>, i: nat)
    requires |a| == |b|
    requires forall k :: i <= k < |a| ==> a[k] == b[k]
    ensures CStrFrom(a, i) == CStrFrom(b, i)
    decreases |a| - i
  {
    if i < |a| && a[i] != NUL {
      CStrFromSameTail(a, b, i + 1);
    }
  }

  /** Inside a C string, the C string at an offset is the suffix from that offset. */
  lemma CStrFromSuffix(buf: seq<char>, i: nat, k: nat)
    requires k <= |CStrFrom(buf, i)|
    ensures CStrFrom(buf, i + k) == CStrFrom(buf, i)[k..]
  {
    var s := CStrFrom(buf, i);
    if k < |s| {
      CStrFromChars(buf, i);
      forall m | i <= m < i + k
        ensures buf[m] != NUL
      {
        assert s[m - i] == buf[i + (m - i)];
      }
      CStrFromRun(buf, i, i + k);
      assert buf[i..i + k] == s[..k];
      assert s == s[..k] + s[k..];
    } else {
      assert At(buf, i + k) == NUL;
    }
  }

  /** The first `n` characters of `s` (all of them when it is shorter). */
  function Truncate(s: CString, n: nat): (t: CString)
    ensures |t| <= n && |t| <= |s| && t == s[..|t|]
    ensures |s| <= n ==> t == s
  {
    if |s| <= n then s else s[..n]
  }

  /** `strncpy(dst, src, size - 1); dst[size - 1] = '\0';` into a buffer of `size` characters. */
  function StrNCopy(src: CString, size: nat): (buf: seq<char>)
    requires size > 0
    ensures |buf| == size
  {
    var t := Truncate(src, size - 1);
    t + seq(size - |t|, _ => NUL)
  }

  /** The copy holds the source cut to `size - 1` characters. */
  lemma StrNCopyCStr(src: CString, size: nat)
    requires size > 0
    ensures CStr(StrNCopy(src, size)) == Truncate(src, size - 1)
  {
    var buf := StrNCopy(src, size);
    var t := Truncate(src, size - 1);
    assert buf[..|t|] == t;
    forall k | 0 <= k < |t|
      ensures buf[k] != NUL
    {
      assert buf[k] == t[k];
    }
    CStrFromRun(buf, 0, |t|);
    assert buf[|t|] == NUL;
  }

  /** Writing a terminator inside the C string at `i` cuts that string there. */
  lemma CStrFromCut(buf: seq<char>, i: nat, j: nat)
    requires i <= j < |buf| && j - i <= |CStrFrom(buf, i)|
    ensures CStrFrom(buf[j := NUL], i) == CStrFrom(buf, i)[..j - i]
  {
    var s := CStrFrom(buf, i);
    var b := buf[j := NUL];
    CStrFromChars(buf, i);
    forall k | i <= k < j
      ensures b[k] != NUL
    {
      assert b[k] == s[k - i];
    }
    CStrFromRun(b, i, j);
    assert b[i..j] == s[..j - i];
  }

  /** Inside the C string of a buffer, the C string at `k` is its suffix from `k`. */
  lemma CStrAt(buf: seq<char>, k: nat)
    requires k <= |CStr(buf)|
    ensures CStrFrom(buf, k) == CStr(buf)[k..]
    ensures k < |CStr(buf)| ==> At(buf, k) == CStr(buf)[k]
  {
    CStrFromSuffix(buf, 0, k);
    CStrFromChars(buf, 0);
  }

  /** `strncmp(s, prefix, strlen(prefix)) == 0` for C strings. */
  predicate StartsWith(s: string, prefix: string)
  {
    |prefix| <= |s| && s[..|prefix|] == prefix
  }

  predicate OccursAt(s: string, pat: string, k: nat)
  {
    k + |pat| <= |s| && s[k..k + |pat|] == pat
  }

  /** First occurrence of `pat` in `s` at or after `from`. */
  function FindFrom(s: string, pat: string, from: nat): (r: Option<nat>)
    requires from <= |s|
    ensures r.Some? ==> from <= r.value && OccursAt(s, pat, r.value)
    ensures r.Some? ==> forall k :: from <= k < r.value ==> !OccursAt(s, pat, k)
    ensures r.None? ==> forall k :: from <= k <= |s| ==> !OccursAt(s, pat, k)
    decreases |s| - from
  {
    if OccursAt(s, pat, from) then Some(from)
    else if from == |s| then None
    else FindFrom(s, pat, from + 1)
  }

  /** `strstr` (and `strchr` with a one-character pattern): index of the first occurrence. */
  function Find(s: string, pat: string): (r: Option<nat>)
    ensures r.Some? ==> OccursAt(s, pat, r.value)
    ensures r.Some? ==> forall k :: 0 <= k < r.value ==> !OccursAt(s, pat, k)
  {
    FindFrom(s, pat, 0)
  }

  /** The text before the first occurrence of `pat` holds no occurrence of it. */
  lemma FindCutHasNone(s: string, pat: string)
    requires pat != [] && Find(s, pat).Some?
    ensures Find(s[..Find(s, pat).value], pat).None?
  {
    var j := Find(s, pat).value;
    var t := s[..j];
    forall k | 0 <= k <= |t|
      ensures !OccursAt(t, pat, k)
    {
      if k + |pat| <= |t| {
        assert t[k..k + |pat|] == s[k..k + |pat|];
        assert !OccursAt(s, pat, k);
      }
    }
  }

  /** The first occurrence in `s` is at offset 0 of the suffix starting there. */
  lemma FindAtOccurrence(s: string, pat: string, i: nat)
    requires OccursAt(s, pat, i)
    ensures Find(s[i..], pat) == Some(0)
  {
    assert s[i..][0..|pat|] == s[i..i + |pat|];
  }

  /** A prefix of a string without `pat` has no `pat` either. */
  lemma FindNoneInPrefix(s: string, t: string, pat: string)
    requires Find(s, pat).None?
    requires |t| <= |s| && t == s[..|t|]
    ensures Find(t, pat).None?
  {
    forall k | 0 <= k <= |t|
      ensures !OccursAt(t, pat, k)
    {
      if k + |pat| <= |t| {
        assert t[k..k + |pat|] == s[k..k + |pat|];
        assert !OccursAt(s, pat, k);
      }
    }
  }

  /** Number of leading copies of `c` (what `while (*p == c) p++;` steps over). */
  function RunOf(s: string, c: char): (n: nat)
    ensures n <= |s|
    ensures forall k :: 0 <= k < n ==> s[k] == c
    ensures n == |s| || s[n] != c
  {
    if s != [] && s[0] == c then 1 + RunOf(s[1..], c) else 0
  }

  /** A count of leading `c`s that ends at a non-`c` (or the end) is the run. */
  lemma RunOfUnique(s: string, c: char, m: nat)
    requires m <= |s|
    requires forall k :: 0 <= k < m ==> s[k] == c
    requires m == |s| || s[m] != c
    ensures RunOf(s, c) == m
  {
  }

  // ----- Tokens as strtok delivers them -----

  function DelimRun(s: string, delims: string): (n: nat)
    ensures n <= |s|
    ensures forall k :: 0 <= k < n ==> s[k] in delims
    ensures n == |s| || s[n] !in delims
  {
    if s != [] && s[0] in delims then 1 + DelimRun(s[1..], delims) else 0
  }

  function TokenLen(s: string, delims: string): (n: nat)
    ensures n <= |s|
    ensures forall k :: 0 <= k < n ==> s[k] !in delims
    ensures n == |s| || s[n] in delims
  {
    if s == [] || s[0] in delims then 0 else 1 + TokenLen(s[1..], delims)
  }

  /** The maximal non-empty runs of non-delimiter characters of `s`, in order. */
  function Tokens(s: string, delims: string): seq<string>
    decreases |s|
  {
    var r := s[DelimRun(s, delims)..];
    if r == [] then []
    else
      var n := TokenLen(r, delims);
      [r[..n]] + Tokens(r[n..], delims)
  }

  lemma TokensSkipDelim(c: char, rest: string, delims: string)
    requires c in delims
    ensures Tokens([c] + rest, delims) == Tokens(rest, delims)
  {
    var s := [c] + rest;
    assert s[1..] == rest;
    assert DelimRun(s, delims) == 1 + DelimRun(rest, delims);
    assert s[DelimRun(s, delims)..] == rest[DelimRun(rest, delims)..];
  }

  /** Index of the first character at or after `i` that is NUL or not a delimiter. */
  function SkipDelimsAt(buf: seq<char>, i: nat, delims: string): (j: nat)
    ensures i <= j
    ensures j == i || j <= |buf|
    ensures forall k :: i <= k < j ==> k < |buf| && buf[k] != NUL && buf[k] in delims
    ensures At(buf, j) == NUL || At(buf, j) !in delims
    decreases |buf| - i
  {
    if i < |buf| && buf[i] != NUL && buf[i] in delims then SkipDelimsAt(buf, i + 1, delims) else i
  }

  /** Index of the first character at or after `i` that is NUL or a delimiter. */
  function TokenEndAt(buf: seq<char>, i: nat, delims: string): (j: nat)
    ensures i <= j
    ensures j == i || j <= |buf|
    ensures forall k :: i <= k < j ==> k < |buf| && buf[k] != NUL && buf[k] !in delims
    ensures At(buf, j) == NUL || At(buf, j) in delims
    decreases |buf| - i
  {
    if i < |buf| && buf[i] != NUL && buf[i] !in delims then TokenEndAt(buf, i + 1, delims) else i
  }

  /** One `strtok` call: the token (if any), the buffer with the token's delimiter
      overwritten by NUL, and the position the next `strtok(NULL, ...)` continues at. */
  datatype TokStep = TokStep(token: Option<string>, buf: seq<char>, save: nat)

  function StrTok(buf: seq<char>, start: nat, delims: string): (r: TokStep)
    requires NUL !in delims
    ensures |r.buf| == |buf| && start <= r.save
  {
    var t := SkipDelimsAt(buf, start, delims);
    if At(buf, t) == NUL then TokStep(None, buf, t)
    else
      var e := TokenEndAt(buf, t, delims);
      if At(buf, e) == NUL then TokStep(Some(buf[t..e]), buf, e)
      else TokStep(Some(buf[t..e]), buf[e := NUL], e + 1)
  }

  lemma {:induction false} DelimRunAt(buf: seq<char>, i: nat, delims: string)
    requires NUL !in delims
    ensures DelimRun(CStrFrom(buf, i), delims) == SkipDelimsAt(buf, i, delims) - i
    decreases |buf| - i
  {
    var s := CStrFrom(buf, i);
    if i < |buf| && buf[i] != NUL {
      assert s == [buf[i]] + CStrFrom(buf, i + 1);
      assert s[1..] == CStrFrom(buf, i + 1);
      if buf[i] in delims {
        DelimRunAt(buf, i + 1, delims);
        assert DelimRun(s, delims) == 1 + DelimRun(s[1..], delims);
        assert SkipDelimsAt(buf, i, delims) == SkipDelimsAt(buf, i + 1, delims);
      } else {
        assert DelimRun(s, delims) == 0 && SkipDelimsAt(buf, i, delims) == i;
      }
    } else {
      assert s == [] && SkipDelimsAt(buf, i, delims) == i;
    }
  }

  /** Skipping leading delimiters in the C string at `i` gives the C string where `strtok` resumes. */
  lemma DropDelimsAt(buf: seq<char>, i: nat, delims: string)
    requires NUL !in delims
    ensures var s := CStrFrom(buf, i);
      s[DelimRun(s, delims)..] == CStrFrom(buf, SkipDelimsAt(buf, i, delims))
  {
    var s := CStrFrom(buf, i);
    DelimRunAt(buf, i, delims);
    CStrFromSuffix(buf, i, DelimRun(s, delims));
  }

  /** After a delimiter is overwritten by NUL, the tokens after it are those that followed it. */
  lemma CutAtDelimiter(buf: seq<char>, e: nat, delims: string)
    requires e < |buf| && buf[e] != NUL && buf[e] in delims
    ensures Tokens(CStrFrom(buf, e), delims) == Tokens(CStrFrom(buf[e := NUL], e + 1), delims)
  {
    var nb := buf[e := NUL];
    CStrFromSameTail(buf, nb, e + 1);
    assert CStrFrom(buf, e) == [buf[e]] + CStrFrom(buf, e + 1);
    TokensSkipDelim(buf[e], CStrFrom(buf, e + 1), delims);
  }

  lemma {:induction false} TokenLenOfRun(x: string, y: string, delims: string)
    requires forall k :: 0 <= k < |x| ==> x[k] !in delims
    requires y == [] || y[0] in delims
    ensures TokenLen(x + y, delims) == |x|
    decreases |x|
  {
    if x != [] {
      assert (x + y)[1..] == x[1..] + y;
      TokenLenOfRun(x[1..], y, delims);
    }
  }

  /** A run of non-delimiters followed by a delimiter (or nothing) is one token. */
  lemma TokensOfRun(x: string, y: string, delims: string)
    requires x != [] && forall k :: 0 <= k < |x| ==> x[k] !in delims
    requires y == [] || y[0] in delims
    ensures Tokens(x + y, delims) == [x] + Tokens(y, delims)
  {
    var s := x + y;
    assert s[0] == x[0];
    assert DelimRun(s, delims) == 0;
    assert s[0..] == s;
    TokenLenOfRun(x, y, delims);
    assert s[..|x|] == x && s[|x|..] == y;
  }

  /** At a token start, the tokens are the token up to `TokenEndAt` followed by those after it. */
  lemma TokensAtTokenStart(buf: seq<char>, t: nat, delims: string)
    requires NUL !in delims
    requires At(buf, t) != NUL && At(buf, t) !in delims
    ensures var e := TokenEndAt(buf, t, delims);
      t < e <= |buf| &&
      Tokens(CStrFrom(buf, t), delims) == [buf[t..e]] + Tokens(CStrFrom(buf, e), delims)
  {
    var e := TokenEndAt(buf, t, delims);
    CStrFromRun(buf, t, e);
    TokensOfRun(buf[t..e], CStrFrom(buf, e), delims);
  }

  /** `strtok` writes nothing but terminators, and only at or after where it starts. */
  lemma StrTokWrites(buf: seq<char>, start: nat, delims: string)
    requires NUL !in delims
    ensures var r := StrTok(buf, start, delims);
      forall k :: 0 <= k < |buf| ==> r.buf[k] == buf[k] || (r.buf[k] == NUL && start <= k)
  {
  }

  /** No C string runs past a terminator. */
  lemma {:induction false} CStrFromBeforeNul(buf: seq<char>, i: nat, t: nat)
    requires i <= t && At(buf, t) == NUL
    ensures |CStrFrom(buf, i)| <= t - i
    decreases t - i
  {
    if i < t {
      CStrFromBeforeNul(buf, i + 1, t);
    }
  }

  /** Terminators written at or after the end of the C string leave it as it was. */
  lemma CStrKeptByLaterWrites(a: seq<char>, b: seq<char>)
    requires |a| == |b|
    requires forall k :: 0 <= k < |a| ==> b[k] == a[k] || (b[k] == NUL && |CStr(a)| <= k)
    ensures CStr(b) == CStr(a)
  {
    var m := |CStr(a)|;
    CStrFromChars(a, 0);
    forall k | 0 <= k < m
      ensures a[k] != NUL && b[k] == a[k]
    {
      assert a[k] == CStr(a)[k];
    }
    CStrFromRun(a, 0, m);
    CStrFromRun(b, 0, m);
    assert a[0..m] == b[0..m];
  }

  /** Terminators written anywhere can only cut a C string short. */
  lemma CStrShortenedByNulWrites(a: seq<char>, b: seq<char>)
    requires |a| == |b|
    requires forall k :: 0 <= k < |a| ==> b[k] == a[k] || b[k] == NUL
    ensures |CStr(b)| <= |CStr(a)| && CStr(b) == CStr(a)[..|CStr(b)|]
  {
    CStrFromBeforeNul(b, 0, |CStr(a)|);
    CStrFromChars(a, 0);
    CStrFromChars(b, 0);
  }

  /** After a `strtok` call, the C string of its buffer ends at or before where the next call starts. */
  lemma StrTokCutBeforeSave(buf: seq<char>, start: nat, delims: string)
    requires NUL !in delims
    ensures |CStr(StrTok(buf, start, delims).buf)| <= StrTok(buf, start, delims).save
  {
    var t := SkipDelimsAt(buf, start, delims);
    if At(buf, t) == NUL {
      CStrFromBeforeNul(buf, 0, t);
    } else {
      var e := TokenEndAt(buf, t, delims);
      if At(buf, e) == NUL {
        CStrFromBeforeNul(buf, 0, e);
      } else {
        CStrFromBeforeNul(buf[e := NUL], 0, e);
      }
    }
  }

  /** A `strtok` call that starts at or after the end of the C string leaves that string as it was. */
  lemma StrTokKeepsCStr(buf: seq<char>, start: nat, delims: string)
    requires NUL !in delims && |CStr(buf)| <= start
    ensures CStr(StrTok(buf, start, delims).buf) == CStr(buf)
  {
    StrTokWrites(buf, start, delims);
    CStrKeptByLaterWrites(buf, StrTok(buf, start, delims).buf);
  }

  /** Leading delimiters do not change the tokens. */
  lemma TokensDropDelims(s: string, delims: string)
    ensures Tokens(s, delims) == Tokens(s[DelimRun(s, delims)..], delims)
  {
    var r := s[DelimRun(s, delims)..];
    assert DelimRun(r, delims) == 0;
    assert r[0..] == r;
  }

  /** The tokens still to come after a `strtok` call: its token, then those of the rest. */
  function Delivered(r: TokStep, delims: string): seq<string>
  {
    if r.token.None? then [] else [r.token.value] + Tokens(CStrFrom(r.buf, r.save), delims)
  }

  /** Where `strtok` skips the leading delimiters, the tokens are unchanged. */
  lemma SkipDelimsKeepsTokens(buf: seq<char>, start: nat, delims: string)
    requires NUL !in delims
    ensures Tokens(CStrFrom(buf, start), delims) == Tokens(CStrFrom(buf, SkipDelimsAt(buf, start, delims)), delims)
  {
    DropDelimsAt(buf, start, delims);
    TokensDropDelims(CStrFrom(buf, start), delims);
  }

  /** From a token start (or the terminator), one `strtok` call and the calls after it deliver the tokens. */
  lemma StrTokAtStart(buf: seq<char>, t: nat, delims: string)
    requires NUL !in delims
    requires At(buf, t) == NUL || At(buf, t) !in delims
    ensures Tokens(CStrFrom(buf, t), delims) == Delivered(StrTok(buf, t, delims), delims)
  {
    if At(buf, t) != NUL {
      StrTokAtTokenDelivers(buf, t, delims);
    } else {
      assert SkipDelimsAt(buf, t, delims) == t;
      assert CStrFrom(buf, t) == [];
    }
  }

  /** The token case of `StrTokAtStart`. */
  lemma StrTokAtTokenDelivers(buf: seq<char>, t: nat, delims: string)
    requires NUL !in delims && At(buf, t) != NUL && At(buf, t) !in delims
    ensures Tokens(CStrFrom(buf, t), delims) == Delivered(StrTok(buf, t, delims), delims)
  {
    var e := TokenEndAt(buf, t, delims);
    var r := StrTok(buf, t, delims);
    StrTokAtToken(buf, t, delims);
    assert r.token == Some(buf[t..e]);
    var rest := Tokens(CStrFrom(r.buf, r.save), delims);
    assert Delivered(r, delims) == [buf[t..e]] + rest;
    if At(buf, e) != NUL {
      assert r.buf == buf[e := NUL] && r.save == e + 1;
      CutAtDelimiter(buf, e, delims);
    } else {
      assert r.buf == buf && r.save == e;
    }
    assert rest == Tokens(CStrFrom(buf, e), delims);
    TokensAtTokenStart(buf, t, delims);
  }

  /** At a token start, `strtok` returns the run up to the next delimiter or terminator. */
  lemma StrTokAtToken(buf: seq<char>, t: nat, delims: string)
    requires NUL !in delims && At(buf, t) != NUL && At(buf, t) !in delims
    ensures var e := TokenEndAt(buf, t, delims);
      StrTok(buf, t, delims) ==
        if At(buf, e) != NUL then TokStep(Some(buf[t..e]), buf[e := NUL], e + 1)
        else TokStep(Some(buf[t..e]), buf, e)
  {
    assert SkipDelimsAt(buf, t, delims) == t;
  }

  /** Successive `strtok` calls deliver exactly `Tokens` of the C string they start on. */
  lemma StrTokDelivers(buf: seq<char>, start: nat, delims: string)
    requires NUL !in delims
    ensures Tokens(CStrFrom(buf, start), delims) == Delivered(StrTok(buf, start, delims), delims)
  {
    var t := SkipDelimsAt(buf, start, delims);
    SkipDelimsKeepsTokens(buf, start, delims);
    StrTokAtStart(buf, t, delims);
    assert SkipDelimsAt(buf, t, delims) == t;
    assert StrTok(buf, start, delims) == StrTok(buf, t, delims);
  }

  /** Calling `strtok` again after a token moves that token from the pending tokens to the delivered ones. */
  lemma DeliveredStep(r: TokStep, delims: string)
    requires NUL !in delims && r.token.Some?
    ensures Delivered(r, delims) == [r.token.value] + Delivered(StrTok(r.buf, r.save, delims), delims)
  {
    StrTokDelivers(r.buf, r.save, delims);
  }

  // ----- Number scanning (the subset of C's conversions the commands use) -----
  // The scanners walk the text by index, so that each unfolding looks at one character.

  predicate IsSpace(c: char)
  {
    c == ' ' || '\t' <= c <= '\r'
  }

  predicate IsDigit(c: char)
  {
    '0' <= c <= '9'
  }

  /** Index of the first character at or after `i` that is not white space, as `isspace` decides. */
  function SpacesEnd(s: string, i: nat): (j: nat)
    requires i <= |s|
    ensures i <= j <= |s|
    decreases |s| - i
  {
    if i < |s| && IsSpace(s[i]) then SpacesEnd(s, i + 1) else i
  }

  /** Index of the first non-digit at or after `i`. */
  function DigitsEnd(s: string, i: nat): (j: nat)
    requires i <= |s|
    ensures i <= j <= |s|
    decreases |s| - i
  {
    if i < |s| && IsDigit(s[i]) then DigitsEnd(s, i + 1) else i
  }

  function DigitValue(c: char): nat
  {
    if IsDigit(c) then c as int - '0' as int else 0
  }

  /** Decimal value of the digits `s[i..j]`, most significant first. */
  function DigitsValue(s: string, i: nat, j: nat): nat
    requires i <= j <= |s|
    decreases j - i
  {
    if i == j then 0 else DigitsValue(s, i, j - 1) * 10 + DigitValue(s[j - 1])
  }

  /** Value of the digits `s[i..j]` read as the digits after a decimal point. */
  function FractionValue(s: string, i: nat, j: nat): (v: real)
    requires i <= j <= |s|
    ensures 0.0 <= v <= 1.0
    decreases j - i
  {
    if i == j then 0.0 else (DigitValue(s[i]) as real + FractionValue(s, i + 1, j)) / 10.0
  }

  /** A successful conversion: the value and the index just past the text it consumed. */
  datatype Scanned<T> = Scanned(value: T, end: nat)

  /** Index past an optional sign at `i`. */
  function SignEnd(s: string, i: nat): (j: nat)
    requires i <= |s|
    ensures i <= j <= |s|
  {
    if i < |s| && (s[i] == '+' || s[i] == '-') then i + 1 else i
  }

  predicate Negative(s: string, i: nat)
  {
    i < |s| && s[i] == '-'
  }

  /** `strtol` base 10 from index `i`, without the range clamp: white space, optional sign, at least one digit. */
  function ScanLongAt(s: string, i: nat): (r: Option<Scanned<int>>)
    requires i <= |s|
    ensures r.Some? ==> i < r.value.end <= |s|
  {
    var t := SpacesEnd(s, i);
    var d := SignEnd(s, t);
    var e := DigitsEnd(s, d);
    if e == d then None
    else
      var mag := DigitsValue(s, d, e);
      Some(Scanned(if Negative(s, t) then -(mag as int) else mag as int, e))
  }

  const ULONG_MAX: nat := 0xFFFF_FFFF

  /** `strtoul` from index `i` as `%lu` uses it on a 32-bit target: a minus sign
      negates modulo 2^32, a magnitude above ULONG_MAX saturates. */
  function ScanULongAt(s: string, i: nat): (r: Option<nat>)
    requires i <= |s|
    ensures r.Some? ==> r.value <= ULONG_MAX
  {
    var t := SpacesEnd(s, i);
    var d := SignEnd(s, t);
    var e := DigitsEnd(s, d);
    if e == d then None
    else
      var mag := DigitsValue(s, d, e);
      if mag > ULONG_MAX then Some(ULONG_MAX)
      else if Negative(s, t) then Some((ULONG_MAX + 1 - mag) % (ULONG_MAX + 1))
      else Some(mag)
  }

  /** An unsigned decimal at `i`: digits, an optional fraction, at least one digit in all. */
  function ScanUnsignedDecimalAt(s: string, i: nat): (r: Option<Scanned<real>>)
    requires i <= |s|
    ensures r.Some? ==> i < r.value.end <= |s| && r.value.value >= 0.0
  {
    var a := DigitsEnd(s, i);
    if a < |s| && s[a] == '.' then
      var b := DigitsEnd(s, a + 1);
      if a == i && b == a + 1 then None
      else Some(Scanned(DigitsValue(s, i, a) as real + FractionValue(s, a + 1, b), b))
    else if a == i then None
    else Some(Scanned(DigitsValue(s, i, a) as real, a))
  }

  /** `strtod` on plain decimals from index `i`: white space, optional sign, an unsigned decimal. */
  function ScanDoubleAt(s: string, i: nat): (r: Option<Scanned<real>>)
    requires i <= |s|
    ensures r.Some? ==> i < r.value.end <= |s|
  {
    var t := SpacesEnd(s, i);
    var d := SignEnd(s, t);
    match ScanUnsignedDecimalAt(s, d)
    case None => None
    case Some(m) => Some(Scanned(if Negative(s, t) then -m.value else m.value, m.end))
  }

  /** The range of `long` (and `int`) on the 32-bit target. */
  const LONG_MIN: int := -0x8000_0000
  const LONG_MAX: int := 0x7FFF_FFFF

  /** The range clamp of `strtol`: a value outside `long` saturates at the nearer bound. */
  function ClampLong(v: int): (r: int)
    ensures LONG_MIN <= r <= LONG_MAX
    ensures LONG_MIN <= v <= LONG_MAX ==> r == v
    ensures v > LONG_MAX ==> r == LONG_MAX
    ensures v < LONG_MIN ==> r == LONG_MIN
  {
    if v > LONG_MAX then LONG_MAX else if v < LONG_MIN then LONG_MIN else v
  }

  /** `atoi` as newlib implements it, through `strtol`: the leading number saturated
      to the range of `int`, 0 when the text does not start with one. */
  function Atoi(s: string): (v: int)
    ensures LONG_MIN <= v <= LONG_MAX
    ensures ScanLongAt(s, 0).None? ==> v == 0
    ensures ScanLongAt(s, 0).Some? && LONG_MIN <= ScanLongAt(s, 0).value.value <= LONG_MAX ==>
      v == ScanLongAt(s, 0).value.value
    ensures ScanLongAt(s, 0).Some? && ScanLongAt(s, 0).value.value > LONG_MAX ==> v == LONG_MAX
    ensures ScanLongAt(s, 0).Some? && ScanLongAt(s, 0).value.value < LONG_MIN ==> v == LONG_MIN
  {
    match ScanLongAt(s, 0)
    case None => 0
    case Some(sc) => ClampLong(sc.value)
  }

  /** `atof`: the scanned value, 0.0 when there is none; a text that starts with a
      digit reads as a non-negative value. */
  function Atof(s: string): (v: real)
    ensures ScanDoubleAt(s, 0).None? ==> v == 0.0
    ensures 0 < |s| && IsDigit(s[0]) ==> 0.0 <= v
  {
    match ScanDoubleAt(s, 0)
    case None => 0.0
    case Some(sc) => sc.value
  }

  /** `sscanf(s, "%d", &v) == 1`, with the value: a conversion happens exactly when
      the text starts with a number, and its value is saturated as `strtol` does. */
  function ScanInt(s: string): (r: Option<int>)
    ensures r.Some? <==> ScanLongAt(s, 0).Some?
    ensures r.Some? ==> LONG_MIN <= r.value <= LONG_MAX
  {
    match ScanLongAt(s, 0)
    case None => None
    case Some(sc) => Some(ClampLong(sc.value))
  }

  /** `sscanf` with `n` white-space separated `%f` conversions from index `i`: the
      values converted before the first failure. */
  function ScanRealsAt(s: string, i: nat, n: nat): (vs: seq<real>)
    requires i <= |s|
    ensures |vs| <= n
    decreases n
  {
    if n == 0 then []
    else
      match ScanDoubleAt(s, i)
      case None => []
      case Some(sc) => [sc.value] + ScanRealsAt(s, sc.end, n - 1)
  }

  function ScanReals(s: string, n: nat): (vs: seq<real>)
    ensures |vs| <= n
  {
    ScanRealsAt(s, 0, n)
  }

  /** `sscanf(s, "%f,%f", &a, &b)`: the values converted; the comma must follow the first number at once. */
  function ScanCsvPair(s: string): (vs: seq<real>)
    ensures |vs| <= 2
  {
    match ScanDoubleAt(s, 0)
    case None => []
    case Some(a) =>
      if a.end < |s| && s[a.end] == ',' then
        match ScanDoubleAt(s, a.end + 1)
        case None => [a.value]
        case Some(b) => [a.value, b.value]
      else [a.value]
  }

  /** `sscanf(s, "<lit> %lu", &v) == 1`, with the value. */
  function ScanLiteralULong(s: string, lit: string): (r: Option<nat>)
    ensures r.Some? ==> StartsWith(s, lit) && r.value <= ULONG_MAX
  {
    if StartsWith(s, lit) then ScanULongAt(s, |lit|) else None
  }

  /** A text whose first non-blank character cannot start a number scans nothing. */
  lemma NoNumberAtLetter(s: string)
    requires var t := SpacesEnd(s, 0); t < |s| && !IsDigit(s[t]) && s[t] !in "+-."
    ensures ScanDoubleAt(s, 0).None? && ScanLongAt(s, 0).None? && ScanULongAt(s, 0).None?
    ensures ScanReals(s, 3) == [] && ScanCsvPair(s) == [] && Atof(s) == 0.0 && ScanInt(s).None?
  {
  }
}
