/** The Python string primitives the pipeline relies on, with their Python
    semantics written out: `str.strip()`, `str.find`, slicing with negative
    and out-of-range bounds, `str.split(sep)`, `sep.join(parts)`,
    `str.replace` on one character, and `int(str)`.
 */
module Text {
  import opened Results

  // ---------------------------------------------------------------------
  // Whitespace and strip
  // ---------------------------------------------------------------------

  /** The characters Python's `str.isspace` accepts, and hence the ones
      `str.strip()` with no argument removes. */
  predicate IsSpace(c: char) {
    || c == ' '
    || '\t' <= c <= '\r'
    || '\U{1C}' <= c <= '\U{1F}'
    || c == '\U{85}' || c == '\U{A0}' || c == '\U{1680}'
    || '\U{2000}' <= c <= '\U{200A}'
    || c == '\U{2028}' || c == '\U{2029}' || c == '\U{202F}' || c == '\U{205F}'
    || c == '\U{3000}'
  }

  /** `str.lstrip()`: the suffix left after dropping leading whitespace. */
  function LStrip(s: string): (r: string)
    ensures |r| <= |s| && r == s[|s| - |r|..]
    ensures |r| > 0 ==> !IsSpace(r[0])
    ensures forall k :: 0 <= k < |s| - |r| ==> IsSpace(s[k])
  {
    if |s| > 0 && IsSpace(s[0]) then LStrip(s[1..]) else s
  }

  /** `str.rstrip()`: the prefix left after dropping trailing whitespace. */
  function RStrip(s: string): (r: string)
    ensures |r| <= |s| && r == s[..|r|]
    ensures |r| > 0 ==> !IsSpace(r[|r| - 1])
    ensures forall k :: |r| <= k < |s| ==> IsSpace(s[k])
  {
    if |s| > 0 && IsSpace(s[|s| - 1]) then RStrip(s[..|s| - 1]) else s
  }

  /** `str.strip()`. */
  function Strip(s: string): (r: string)
    ensures |r| <= |s|
    ensures |r| > 0 ==> !IsSpace(r[0]) && !IsSpace(r[|r| - 1])
  {
    RStrip(LStrip(s))
  }

  /** Number of leading whitespace characters `strip` removes. */
  function Lead(s: string): nat {
    |s| - |LStrip(s)|
  }

  /** A slice of a slice is a slice of the original. */
  lemma SliceOfSlice<T>(s: seq<T>, a: nat, b: nat, i: nat, j: nat)
    requires a <= b <= |s| && i <= j <= b - a
    ensures s[a..b][i..j] == s[a + i .. a + j]
  {
    forall t | 0 <= t < j - i
      ensures s[a..b][i..j][t] == s[a + i .. a + j][t]
    {
      assert s[a..b][i..j][t] == s[a..b][i + t] == s[a + i + t];
    }
  }

  /** `strip` keeps the block of its input after the leading whitespace. */
  lemma StripBlock(s: string)
    ensures Lead(s) + |Strip(s)| <= |s|
    ensures Strip(s) == s[Lead(s) .. Lead(s) + |Strip(s)|]
  {
    var l := LStrip(s);
    assert l == s[Lead(s)..];
    assert RStrip(l) == l[..|RStrip(l)|];
  }

  /** `strip` keeps a contiguous block of its input and removes only
      whitespace on either side of it. */
  lemma StripIsCore(s: string)
    ensures Lead(s) + |Strip(s)| <= |s|
    ensures Strip(s) == s[Lead(s) .. Lead(s) + |Strip(s)|]
    ensures forall k :: 0 <= k < Lead(s) ==> IsSpace(s[k])
    ensures forall k :: Lead(s) + |Strip(s)| <= k < |s| ==> IsSpace(s[k])
  {
    StripBlock(s);
    var l := LStrip(s);
    var lead := Lead(s);
    var r := RStrip(l);
    forall k | lead + |r| <= k < |s|
      ensures IsSpace(s[k])
    {
      assert s[k] == l[k - lead];
      assert IsSpace(l[k - lead]);
    }
  }

  /** A non-whitespace character lies inside the block `strip` keeps. */
  lemma NonSpaceKept(s: string, k: nat)
    requires k < |s| && !IsSpace(s[k])
    ensures Lead(s) <= k < Lead(s) + |Strip(s)|
  {
    StripIsCore(s);
  }

  /** A marker that starts and ends with non-whitespace characters occurs
      in the stripped string at the position shifted by the leading
      whitespace. */
  lemma StripKeepsMarker(s: string, m: string, k: nat)
    requires |m| > 0 && !IsSpace(m[0]) && !IsSpace(m[|m| - 1])
    requires OccursAt(s, m, k)
    ensures OccursAt(Strip(s), m, k - Lead(s))
  {
    MarkerWithinStrip(s, m, k);
    StripBlock(s);
    MarkerInBlock(s, m, k, Lead(s), Strip(s));
  }

  /** Such a marker lies wholly inside the block `strip` keeps. */
  lemma MarkerWithinStrip(s: string, m: string, k: nat)
    requires |m| > 0 && !IsSpace(m[0]) && !IsSpace(m[|m| - 1])
    requires OccursAt(s, m, k)
    ensures Lead(s) <= k && k + |m| <= Lead(s) + |Strip(s)|
  {
    var last := k + |m| - 1;
    assert s[k] == m[0] && s[last] == m[|m| - 1] by {
      assert s[k .. k + |m|] == m;
    }
    NonSpaceKept(s, k);
    NonSpaceKept(s, last);
  }

  /** A marker inside a block of `s` occurs in that block, shifted. */
  lemma MarkerInBlock(s: string, m: string, k: nat, lead: nat, block: string)
    requires lead + |block| <= |s| && block == s[lead .. lead + |block|]
    requires lead <= k && k + |m| <= lead + |block|
    requires OccursAt(s, m, k)
    ensures OccursAt(block, m, k - lead)
  {
    SliceOfSlice(s, lead, lead + |block|, k - lead, k - lead + |m|);
  }

  /** A string without leading or trailing whitespace is its own strip. */
  lemma StripOfStripped(s: string)
    requires |s| > 0 ==> !IsSpace(s[0]) && !IsSpace(s[|s| - 1])
    ensures Strip(s) == s
  {
  }

  /** One space on each side of a stripped string is removed again. */
  lemma StripPadded(core: string)
    requires |core| > 0 && !IsSpace(core[0]) && !IsSpace(core[|core| - 1])
    ensures Strip(" " + core + " ") == core
  {
    var padded := " " + core + " ";
    assert padded[1..] == core + " ";
    assert LStrip(core + " ") == core + " ";
    assert (core + " ")[..|core|] == core;
    assert RStrip(core + " ") == RStrip(core);
  }

  /** `strip` is idempotent. */
  lemma StripIdempotent(s: string)
    ensures Strip(Strip(s)) == Strip(s)
  {
    StripOfStripped(Strip(s));
  }

  /** The result of `strip` has no outer whitespace, is the block of its
      input after the leading whitespace, and is its own strip. */
  lemma StripShape(s: string)
    ensures var r := Strip(s);
      && (|r| > 0 ==> !IsSpace(r[0]) && !IsSpace(r[|r| - 1]))
      && Lead(s) + |r| <= |s| && r == s[Lead(s) .. Lead(s) + |r|]
      && Strip(r) == r
  {
    StripBlock(s);
    StripIdempotent(s);
  }

  // ---------------------------------------------------------------------
  // find and slicing
  // ---------------------------------------------------------------------

  /** `p` occurs in `s` starting at index `k`. */
  predicate OccursAt(s: string, p: string, k: int) {
    0 <= k && k + |p| <= |s| && s[k..k + |p|] == p
  }

  /** `s.find(p, start)` for a non-negative `start`: the least index at or
      after `start` where `p` occurs, or -1. */
  function Find(s: string, p: string, start: nat): (r: int)
    ensures r == -1 || (start <= r && OccursAt(s, p, r))
    ensures r == -1 ==> forall k :: start <= k ==> !OccursAt(s, p, k)
    ensures r != -1 ==> forall k :: start <= k < r ==> !OccursAt(s, p, k)
    decreases |s| - start
  {
    if start + |p| > |s| then -1
    else if s[start..start + |p|] == p then start
    else Find(s, p, start + 1)
  }

  /** How Python normalises a slice bound against a length `n`: a negative
      bound counts from the end, and both ends are clamped into `0..n`. */
  function SliceBound(i: int, n: nat): (r: nat)
    ensures r <= n
    ensures 0 <= i <= n ==> r == i
    ensures -(n as int) <= i < 0 ==> r == n + i
    ensures i < -(n as int) ==> r == 0
    ensures i > n ==> r == n
  {
    if i < 0 then (if i + n < 0 then 0 else i + n)
    else if i > n then n
    else i
  }

  /** `s[a:b]` with Python's slice semantics. */
  function PySlice<T>(s: seq<T>, a: int, b: int): (r: seq<T>)
    ensures SliceBound(a, |s|) < SliceBound(b, |s|) ==> r == s[SliceBound(a, |s|)..SliceBound(b, |s|)]
    ensures SliceBound(b, |s|) <= SliceBound(a, |s|) ==> r == []
  {
    var lo := SliceBound(a, |s|);
    var hi := SliceBound(b, |s|);
    if lo < hi then s[lo..hi] else []
  }

  // ---------------------------------------------------------------------
  // split and join
  // ---------------------------------------------------------------------

  /** Number of occurrences of `c` in `s`. */
  function Count(s: string, c: char): nat {
    if |s| == 0 then 0 else (if s[0] == c then 1 else 0) + Count(s[1..], c)
  }

  /** `s.split(sep)` for a one-character separator: every separator cuts,
      so adjacent separators give empty parts and `""` gives `[""]`. */
  function Split(s: string, sep: char): (parts: seq<string>)
    ensures |parts| >= 1
  {
    if |s| == 0 then [""]
    else
      var rest := Split(s[1..], sep);
      if s[0] == sep then [""] + rest
      else [[s[0]] + rest[0]] + rest[1..]
  }

  /** `sep.join(parts)`. */
  function Join(sep: string, parts: seq<string>): string {
    if |parts| == 0 then ""
    else if |parts| == 1 then parts[0]
    else parts[0] + sep + Join(sep, parts[1..])
  }

  /** `split` cuts at every separator: it yields one more part than there
      are separators. */
  lemma {:induction false} SplitCount(s: string, sep: char)
    ensures |Split(s, sep)| == Count(s, sep) + 1
  {
    if |s| > 0 {
      SplitCount(s[1..], sep);
    }
  }

  /** No part of a split contains the separator. */
  lemma {:induction false} SplitPartsFree(s: string, sep: char)
    ensures forall i :: 0 <= i < |Split(s, sep)| ==> sep !in Split(s, sep)[i]
  {
    if |s| > 0 {
      SplitPartsFree(s[1..], sep);
      var rest := Split(s[1..], sep);
      if s[0] != sep {
        assert sep !in rest[0];
        assert Split(s, sep)[0] == [s[0]] + rest[0];
      }
    }
  }

  /** Joining the parts of a split with the separator gives back the
      original string. */
  lemma {:induction false} SplitJoin(s: string, sep: char)
    ensures Join([sep], Split(s, sep)) == s
  {
    if |s| > 0 {
      SplitJoin(s[1..], sep);
      var rest := Split(s[1..], sep);
      if s[0] == sep {
        assert Split(s, sep) == [""] + rest;
        assert ([""] + rest)[1..] == rest;
      } else {
        var parts := [[s[0]] + rest[0]] + rest[1..];
        if |rest| == 1 {
          assert Join([sep], parts) == [s[0]] + rest[0];
        } else {
          assert parts[1..] == rest[1..];
          assert Join([sep], rest) == rest[0] + [sep] + Join([sep], rest[1..]);
        }
      }
    }
  }

  /** Joining the concatenation of two non-empty part lists is joining each
      and gluing the results with one more separator. */
  lemma {:induction false} JoinAppend(sep: string, a: seq<string>, b: seq<string>)
    requires |a| > 0 && |b| > 0
    ensures Join(sep, a + b) == Join(sep, a) + sep + Join(sep, b)
  {
    if |a| == 1 {
      assert (a + b)[1..] == b;
    } else {
      assert (a + b)[1..] == a[1..] + b;
      JoinAppend(sep, a[1..], b);
    }
  }

  /** Total length of a list of strings. */
  function TotalLength(parts: seq<string>): nat {
    if |parts| == 0 then 0 else |parts[0]| + TotalLength(parts[1..])
  }

  /** The joined string is the parts plus one separator between each
      adjacent pair. */
  lemma {:induction false} JoinLength(sep: string, parts: seq<string>)
    requires |parts| > 0
    ensures |Join(sep, parts)| == TotalLength(parts) + |sep| * (|parts| - 1)
  {
    if |parts| > 1 {
      JoinLength(sep, parts[1..]);
    }
  }

  // ---------------------------------------------------------------------
  // replace
  // ---------------------------------------------------------------------

  /** `s.replace(a, b)` for one-character `a` and `b`. */
  function ReplaceChar(s: string, a: char, b: char): (r: string)
    ensures |r| == |s|
    ensures forall i :: 0 <= i < |s| ==> r[i] == (if s[i] == a then b else s[i])
  {
    if |s| == 0 then ""
    else [if s[0] == a then b else s[0]] + ReplaceChar(s[1..], a, b)
  }

  /** Replacing distributes over concatenation. */
  lemma ReplaceCharAppend(s: string, t: string, a: char, b: char)
    ensures ReplaceChar(s + t, a, b) == ReplaceChar(s, a, b) + ReplaceChar(t, a, b)
  {
    var st := s + t;
    var l := ReplaceChar(st, a, b);
    var rs := ReplaceChar(s, a, b);
    var rt := ReplaceChar(t, a, b);
    forall i | 0 <= i < |st|
      ensures l[i] == (rs + rt)[i]
    {
      if i < |s| {
        assert st[i] == s[i] && (rs + rt)[i] == rs[i];
      } else {
        assert st[i] == t[i - |s|] && (rs + rt)[i] == rt[i - |s|];
      }
    }
  }

  /** Replacing a character that does not occur changes nothing. */
  lemma ReplaceCharAbsent(s: string, a: char, b: char)
    requires a !in s
    ensures ReplaceChar(s, a, b) == s
  {
  }

  // ---------------------------------------------------------------------
  // int()
  // ---------------------------------------------------------------------

  predicate IsDigit(c: char) {
    '0' <= c <= '9'
  }

  function DigitValue(c: char): nat
    requires IsDigit(c)
  {
    c as int - '0' as int
  }

  /** A non-empty run of decimal digits. */
  predicate IsDecimal(d: string) {
    |d| > 0 && forall i :: 0 <= i < |d| ==> IsDigit(d[i])
  }

  /** The value of a run of decimal digits, most significant first. */
  function DigitsValue(d: string): nat
    requires forall i :: 0 <= i < |d| ==> IsDigit(d[i])
  {
    if |d| == 0 then 0
    else DigitsValue(d[..|d| - 1]) * 10 + DigitValue(d[|d| - 1])
  }

  /** An optionally signed run of decimal digits. */
  predicate IsIntLiteral(t: string) {
    IsDecimal(t) || (|t| > 0 && (t[0] == '+' || t[0] == '-') && IsDecimal(t[1..]))
  }

  /** `int(t)` for base 10 on text without surrounding whitespace: one
      optional sign, then decimal digits. */
  function ParseLiteral(t: string): (r: Result<int>)
    ensures r.Ok? <==> IsIntLiteral(t)
    ensures r.Err? ==> r.error.ValueError?
    ensures IsDecimal(t) ==> r == Ok(DigitsValue(t))
    ensures |t| > 0 && t[0] == '-' && IsDecimal(t[1..]) ==> r == Ok(-(DigitsValue(t[1..]) as int))
    ensures |t| > 0 && t[0] == '+' && IsDecimal(t[1..]) ==> r == Ok(DigitsValue(t[1..]))
    ensures |t| == 0 ==> r.Err?
  {
    if |t| > 0 && (t[0] == '+' || t[0] == '-') then
      if IsDecimal(t[1..]) then
        Ok(if t[0] == '-' then -(DigitsValue(t[1..]) as int) else DigitsValue(t[1..]))
      else Err(ValueError("invalid literal for int() with base 10"))
    else if IsDecimal(t) then Ok(DigitsValue(t))
    else Err(ValueError("invalid literal for int() with base 10"))
  }

  /** `int(s)` for base 10: surrounding whitespace is ignored, one optional
      sign is accepted, and the rest must be decimal digits. */
  function ParseInt(s: string): (r: Result<int>)
    ensures r.Ok? <==> IsIntLiteral(Strip(s))
    ensures r.Err? ==> r.error.ValueError?
    ensures IsDecimal(Strip(s)) ==> r == Ok(DigitsValue(Strip(s)))
    ensures |Strip(s)| > 0 && Strip(s)[0] == '-' && IsDecimal(Strip(s)[1..]) ==> r == Ok(-(DigitsValue(Strip(s)[1..]) as int))
    ensures |Strip(s)| > 0 && Strip(s)[0] == '+' && IsDecimal(Strip(s)[1..]) ==> r == Ok(DigitsValue(Strip(s)[1..]))
    ensures |Strip(s)| == 0 ==> r.Err?
  {
    ParseLiteral(Strip(s))
  }

  /** Decimal rendering of a natural number, as `str(n)`. */
  function ShowNat(n: nat): (r: string)
    ensures IsDecimal(r)
  {
    if n < 10 then ['0' + n as char]
    else ShowNat(n / 10) + ['0' + (n % 10) as char]
  }

  /** `int(str(n)) == n`. */
  lemma {:induction false} ParseShowNat(n: nat)
    ensures ParseInt(ShowNat(n)) == Ok(n)
  {
    ShowValue(n);
    StripOfStripped(ShowNat(n));
  }

  lemma {:induction false} ShowValue(n: nat)
    ensures DigitsValue(ShowNat(n)) == n
  {
    if n >= 10 {
      ShowValue(n / 10);
      var s := ShowNat(n);
      assert s[..|s| - 1] == ShowNat(n / 10);
    }
  }

  /** A bare run of decimal digits reads as its value. */
  lemma ParseDigits(d: string)
    requires IsDecimal(d)
    ensures ParseInt(d) == Ok(DigitsValue(d))
  {
    StripOfStripped(d);
  }

  /** A character that is neither a digit, a sign nor whitespace anywhere in
      the text makes `int()` fail. */
  lemma ParseIntRejects(s: string, k: int)
    requires 0 <= k < |s|
    requires !IsDigit(s[k]) && s[k] != '+' && s[k] != '-' && !IsSpace(s[k])
    ensures ParseInt(s).Err?
  {
    StripIsCore(s);
    var t := Strip(s);
    var lead := Lead(s);
    assert lead <= k < lead + |t|;
    assert t[k - lead] == s[k];
    if k - lead > 0 {
      assert t[1..][k - lead - 1] == s[k];
    }
  }
}
