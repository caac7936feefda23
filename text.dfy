/**
 * The Python string operations the tool relies on, written out over
 * `seq<char>`: whitespace stripping (`str.strip`, `str.rstrip`), prefix
 * tests, single-character replacement, splitting at a separator
 * (`str.split(sep, 1)`, `str.split(sep)[-1]`), `str.splitlines` and the
 * decimal conversions `str(int)` and `int(str)`.
 */
module PyText {

  /** Python's `str.isspace` for one character. */
  predicate IsSpace(c: char) {
    || c == ' ' || c == '\t' || c == '\n' || c == '\r'
    || c == '\U{000B}' || c == '\U{000C}'
    || ('\U{001C}' <= c <= '\U{001F}')
    || c == '\U{0085}' || c == '\U{00A0}' || c == '\U{1680}'
    || ('\U{2000}' <= c <= '\U{200A}')
    || c == '\U{2028}' || c == '\U{2029}' || c == '\U{202F}' || c == '\U{205F}' || c == '\U{3000}'
  }

  /** `str.lstrip()`: drop leading whitespace. */
  function LStrip(s: string): (r: string)
    ensures r == [] || !IsSpace(r[0])
    ensures |r| <= |s| && r == s[|s| - |r|..]
    ensures forall i :: 0 <= i < |s| - |r| ==> IsSpace(s[i])
  {
    if s != [] && IsSpace(s[0]) then LStrip(s[1..]) else s
  }

  /** `str.rstrip()`: drop trailing whitespace. */
  function RStrip(s: string): (r: string)
    ensures r == [] || !IsSpace(r[|r| - 1])
    ensures |r| <= |s| && r == s[..|r|]
    ensures forall i :: |r| <= i < |s| ==> IsSpace(s[i])
  {
    if s != [] && IsSpace(s[|s| - 1]) then RStrip(s[..|s| - 1]) else s
  }

  /** `str.strip()`: drop whitespace at both ends. */
  function Strip(s: string): (r: string)
    ensures r == [] || (!IsSpace(r[0]) && !IsSpace(r[|r| - 1]))
    ensures |r| <= |s|
    ensures s != [] && !IsSpace(s[0]) && !IsSpace(s[|s| - 1]) ==> r == s
  {
    RStrip(LStrip(s))
  }

  /** `s.startswith(p)`. */
  predicate StartsWith(s: string, p: string) {
    |p| <= |s| && s[..|p|] == p
  }

  /** Python's `p in s` for two strings: `p` occurs contiguously in `s`. */
  predicate IsSubstring(p: string, s: string)
    decreases |s|
  {
    StartsWith(s, p) || (s != [] && IsSubstring(p, s[1..]))
  }

  /** `s.replace(a, b)` for one-character strings `a` and `b`. */
  function ReplaceChar(s: string, a: char, b: char): (r: string)
    ensures |r| == |s|
    ensures forall i :: 0 <= i < |s| ==> r[i] == (if s[i] == a then b else s[i])
    ensures a != b ==> a !in r
  {
    seq(|s|, i requires 0 <= i < |s| => if s[i] == a then b else s[i])
  }

  /** `s.split(c, 1)` when `c` occurs in `s`: the parts before and after the first `c`. */
  function SplitFirst(s: string, c: char): (parts: (string, string))
    requires c in s
    ensures parts.0 + [c] + parts.1 == s
    ensures c !in parts.0
  {
    if s[0] == c then ([], s[1..])
    else
      var rest := SplitFirst(s[1..], c);
      assert s == [s[0]] + s[1..];
      ([s[0]] + rest.0, rest.1)
  }

  /** `s.split(c)[-1]`: what follows the last `c`, or all of `s` when there is none. */
  function LastSegment(s: string, c: char): (r: string)
    ensures c !in r
    ensures |r| <= |s| && r == s[|s| - |r|..]
    ensures |r| < |s| ==> s[|s| - |r| - 1] == c
  {
    if s == [] then []
    else if s[|s| - 1] == c then []
    else LastSegment(s[..|s| - 1], c) + [s[|s| - 1]]
  }

  // ---------------------------------------------------------------- lines

  /** The characters at which `str.splitlines` breaks a line. */
  predicate IsLineBoundary(c: char) {
    || c == '\n' || c == '\r' || c == '\U{000B}' || c == '\U{000C}'
    || c == '\U{001C}' || c == '\U{001D}' || c == '\U{001E}'
    || c == '\U{0085}' || c == '\U{2028}' || c == '\U{2029}'
  }

  /** Index of the first line boundary in `s`, or `|s|` when there is none. */
  function FirstBoundary(s: string): (i: nat)
    ensures i <= |s|
    ensures i < |s| ==> IsLineBoundary(s[i])
    ensures forall k :: 0 <= k < i ==> !IsLineBoundary(s[k])
  {
    if s == [] || IsLineBoundary(s[0]) then 0 else 1 + FirstBoundary(s[1..])
  }

  /** Python's `str.splitlines()`: lines without their terminators; `"\r\n"` is one terminator. */
  function SplitLines(s: string): (lines: seq<string>)
    decreases |s|
  {
    if s == [] then []
    else
      var i := FirstBoundary(s);
      var rest :=
        if i == |s| then []
        else if s[i] == '\r' && i + 1 < |s| && s[i + 1] == '\n' then s[i + 2..]
        else s[i + 1..];
      [s[..i]] + SplitLines(rest)
  }

  /** No line that `splitlines` returns contains a line boundary, and only the empty string has no lines. */
  lemma {:induction false} SplitLinesHasNoBoundary(s: string)
    ensures (SplitLines(s) == []) == (s == [])
    ensures forall k, j :: 0 <= k < |SplitLines(s)| && 0 <= j < |SplitLines(s)[k]| ==> !IsLineBoundary(SplitLines(s)[k][j])
    decreases |s|
  {
    if s != [] {
      var i := FirstBoundary(s);
      var rest :=
        if i == |s| then []
        else if s[i] == '\r' && i + 1 < |s| && s[i + 1] == '\n' then s[i + 2..]
        else s[i + 1..];
      SplitLinesHasNoBoundary(rest);
      assert SplitLines(s) == [s[..i]] + SplitLines(rest);
    }
  }

  // ------------------------------------------------------------- integers

  function DigitChar(d: nat): (c: char)
    requires d < 10
    ensures '0' <= c <= '9'
  {
    "0123456789"[d]
  }

  predicate IsDigit(c: char) { '0' <= c <= '9' }

  /** `str(n)` for a natural number. */
  function NatToDecimal(n: nat): (s: string)
    ensures s != [] && (forall k :: 0 <= k < |s| ==> IsDigit(s[k]))
  {
    if n < 10 then [DigitChar(n)] else NatToDecimal(n / 10) + [DigitChar(n % 10)]
  }

  /** `str(n)` for any integer. */
  function IntToDecimal(n: int): (s: string)
    ensures s != []
  {
    if n < 0 then "-" + NatToDecimal(-n) else NatToDecimal(n)
  }

  /**
   * The digit part of a Python integer literal as `int()` accepts it:
   * ASCII digits, with single underscores allowed between two digits.
   */
  predicate IsDigitRun(s: string) {
    && s != [] && IsDigit(s[0]) && IsDigit(s[|s| - 1])
    && (forall k :: 0 <= k < |s| ==> IsDigit(s[k]) || s[k] == '_')
    && (forall k :: 0 <= k < |s| - 1 ==> !(s[k] == '_' && s[k + 1] == '_'))
  }

  /** The value of a run of digits and underscores, underscores ignored. */
  function DigitRunValue(s: string): nat
    requires forall k :: 0 <= k < |s| ==> IsDigit(s[k]) || s[k] == '_'
  {
    if s == [] then 0
    else
      var last := s[|s| - 1];
      if last == '_' then DigitRunValue(s[..|s| - 1])
      else
        assert IsDigit(s[|s| - 1]);
        10 * DigitRunValue(s[..|s| - 1]) + (last as int - '0' as int)
  }

  /** Python's `int(s)` on an already stripped string: `None` where Python raises `ValueError`. */
  function ParseInt(s: string): (r: Option<int>)
    ensures r.Some? ==> s != []
  {
    if s != [] && (s[0] == '+' || s[0] == '-') then
      var body := s[1..];
      if IsDigitRun(body) then
        var magnitude: int := DigitRunValue(body);
        Some(if s[0] == '-' then -magnitude else magnitude)
      else None
    else if IsDigitRun(s) then Some(DigitRunValue(s))
    else None
  }

  datatype Option<T> = None | Some(value: T)

  lemma {:induction false} NatToDecimalValue(n: nat)
    ensures IsDigitRun(NatToDecimal(n))
    ensures DigitRunValue(NatToDecimal(n)) == n
  {
    var s := NatToDecimal(n);
    if n >= 10 {
      NatToDecimalValue(n / 10);
      var p := NatToDecimal(n / 10);
      assert s == p + [DigitChar(n % 10)];
      assert s[..|s| - 1] == p;
      assert forall k :: 0 <= k < |s| - 1 ==> s[k] == p[k];
    } else {
      assert s[..|s| - 1] == [];
    }
  }

  /** A digit run without a sign parses to its value. */
  lemma ParseIntOfDigitRun(digits: string)
    requires IsDigitRun(digits)
    ensures ParseInt(digits) == Some(DigitRunValue(digits))
  {
    assert IsDigit(digits[0]);
  }

  /** A minus sign before a digit run parses to the negated value. */
  lemma ParseIntOfNegated(digits: string)
    requires IsDigitRun(digits)
    ensures ParseInt("-" + digits) == Some(-(DigitRunValue(digits) as int))
  {
    var s := "-" + digits;
    assert s[0] == '-';
    assert s[1..] == digits;
  }

  /** `int(str(n)) == n`: the decimal rendering round-trips through the parser. */
  lemma ParseIntOfDecimal(n: int)
    ensures ParseInt(IntToDecimal(n)) == Some(n)
  {
    var s := IntToDecimal(n);
    if n < 0 {
      var digits := NatToDecimal(-n);
      assert s == "-" + digits;
      NatToDecimalValue(-n);
      ParseIntOfNegated(digits);
    } else {
      var digits := NatToDecimal(n);
      assert s == digits;
      NatToDecimalValue(n);
      ParseIntOfDigitRun(digits);
    }
  }

}
