/**
 * The few Python `str` operations the grid mapper relies on: `upper`,
 * `lower`, `strip`, `startswith`, `split()` without arguments, `isdigit`,
 * `int(s)` and decimal formatting of an `int`. Case conversion is the ASCII
 * one; whitespace is the full set Python's `str.isspace` accepts.
 */
module Text {
  import opened Wrappers

  /** The characters for which Python's `str.isspace()` is true. */
  predicate IsSpace(c: char) {
    c == ' ' || '\t' <= c <= '\r' || '\U{1c}' <= c <= '\U{1f}'
    || c == '\U{85}' || c == '\U{a0}' || c == '\U{1680}'
    || '\U{2000}' <= c <= '\U{200a}' || c == '\U{2028}' || c == '\U{2029}'
    || c == '\U{202f}' || c == '\U{205f}' || c == '\U{3000}'
  }

  predicate IsDigit(c: char) {
    '0' <= c <= '9'
  }

  function DigitValue(c: char): (d: nat)
    requires IsDigit(c)
    ensures d < 10
  {
    c as int - '0' as int
  }

  function UpperChar(c: char): (u: char)
    ensures 'a' <= c <= 'z' ==> u as int == c as int - 32
    ensures !('a' <= c <= 'z') ==> u == c
  {
    if 'a' <= c <= 'z' then (c as int - 32) as char else c
  }

  function LowerChar(c: char): (l: char)
    ensures 'A' <= c <= 'Z' ==> l as int == c as int + 32
    ensures !('A' <= c <= 'Z') ==> l == c
  {
    if 'A' <= c <= 'Z' then (c as int + 32) as char else c
  }

  /** `s.upper()` restricted to ASCII letters. */
  function Upper(s: string): (u: string)
    ensures |u| == |s|
    ensures forall i :: 0 <= i < |s| ==> u[i] == UpperChar(s[i])
  {
    seq(|s|, i requires 0 <= i < |s| => UpperChar(s[i]))
  }

  /** `s.lower()` restricted to ASCII letters. */
  function Lower(s: string): (l: string)
    ensures |l| == |s|
    ensures forall i :: 0 <= i < |s| ==> l[i] == LowerChar(s[i])
  {
    seq(|s|, i requires 0 <= i < |s| => LowerChar(s[i]))
  }

  /** `s.lstrip()`. */
  function TrimStart(s: string): (t: string)
    ensures |t| <= |s|
  {
    if s != [] && IsSpace(s[0]) then TrimStart(s[1..]) else s
  }

  /** `s.rstrip()`. */
  function TrimEnd(s: string): (t: string)
    ensures |t| <= |s|
  {
    if s != [] && IsSpace(s[|s| - 1]) then TrimEnd(s[..|s| - 1]) else s
  }

  /** `s.strip()`: leading and trailing whitespace removed. */
  function Strip(s: string): (t: string)
    ensures |t| <= |s|
  {
    TrimEnd(TrimStart(s))
  }

  /** `lstrip()` drops exactly the leading run of whitespace. */
  lemma {:induction false} TrimStartSpec(s: string)
    ensures var t := TrimStart(s);
      && t == s[|s| - |t|..]
      && (t != [] ==> !IsSpace(t[0]))
      && forall i :: 0 <= i < |s| - |t| ==> IsSpace(s[i])
  {
    if s != [] && IsSpace(s[0]) {
      TrimStartSpec(s[1..]);
    }
  }

  /** `rstrip()` drops exactly the trailing run of whitespace. */
  lemma {:induction false} TrimEndSpec(s: string)
    ensures var t := TrimEnd(s);
      && t == s[..|t|]
      && (t != [] ==> !IsSpace(t[|t| - 1]))
      && forall i :: |t| <= i < |s| ==> IsSpace(s[i])
  {
    if s != [] && IsSpace(s[|s| - 1]) {
      TrimEndSpec(s[..|s| - 1]);
    }
  }

  /**
   * `strip()` keeps a contiguous slice `s[a..a + |t|]` whose ends are not
   * whitespace and drops only whitespace on either side of it.
   */
  lemma StripSpec(s: string)
    ensures var t := Strip(s); var a := |s| - |TrimStart(s)|;
      && a + |t| <= |s| && t == s[a..a + |t|]
      && (t != [] ==> !IsSpace(t[0]) && !IsSpace(t[|t| - 1]))
      && (forall i :: 0 <= i < a ==> IsSpace(s[i]))
      && (forall i :: a + |t| <= i < |s| ==> IsSpace(s[i]))
  {
    var l := TrimStart(s);
    var t := TrimEnd(l);
    var a := |s| - |l|;
    TrimStartSpec(s);
    TrimEndSpec(l);
    ShiftedSpaces(s, a, |t|);
    if t != [] {
      assert t[0] == l[0];
    }
  }

  /** Whitespace from index `n` on in `s[a..]` is whitespace from index `a + n` on in `s`. */
  lemma ShiftedSpaces(s: string, a: nat, n: nat)
    requires a <= |s| && n <= |s| - a
    requires forall i :: n <= i < |s[a..]| ==> IsSpace(s[a..][i])
    ensures forall i :: a + n <= i < |s| ==> IsSpace(s[i])
  {
    forall i | a + n <= i < |s|
      ensures IsSpace(s[i])
    {
      assert s[i] == s[a..][i - a];
    }
  }

  lemma StripUnchanged(s: string)
    requires s != [] ==> !IsSpace(s[0]) && !IsSpace(s[|s| - 1])
    ensures Strip(s) == s
  {
  }

  /** Upper-casing twice is upper-casing once. */
  lemma UpperIdempotent(s: string)
    ensures Upper(Upper(s)) == Upper(s)
  {
  }

  /** Lower-casing first does not change the upper-case form. */
  lemma UpperOfLower(s: string)
    ensures Upper(Lower(s)) == Upper(s)
  {
  }

  /** `strip()` keeps an upper-case string upper-case: it only drops characters from the ends. */
  lemma StripKeepsUpper(s: string)
    requires Upper(s) == s
    ensures Upper(Strip(s)) == Strip(s)
  {
    var t := Strip(s);
    var a := |s| - |TrimStart(s)|;
    StripSpec(s);
    forall i | 0 <= i < |t|
      ensures UpperChar(t[i]) == t[i]
    {
      assert t[i] == s[a + i];
      assert Upper(s)[a + i] == UpperChar(s[a + i]);
    }
  }

  /** `strip()` is idempotent. */
  lemma StripIdempotent(s: string)
    ensures Strip(Strip(s)) == Strip(s)
  {
    StripSpec(s);
    StripUnchanged(Strip(s));
  }

  predicate StartsWith(s: string, prefix: string) {
    |prefix| <= |s| && s[..|prefix|] == prefix
  }

  /** `s.isdigit()` restricted to ASCII digits. */
  predicate IsDigits(s: string) {
    s != [] && forall i :: 0 <= i < |s| ==> IsDigit(s[i])
  }

  /** The length of the run of non-whitespace characters that starts `s`. */
  function WordLength(s: string): (n: nat)
    ensures n <= |s|
    ensures forall i :: 0 <= i < n ==> !IsSpace(s[i])
    ensures n < |s| ==> IsSpace(s[n])
  {
    if s == [] || IsSpace(s[0]) then 0 else 1 + WordLength(s[1..])
  }

  /** `s.split()`: the maximal runs of non-whitespace characters, in order. */
  function Split(s: string): (words: seq<string>)
    ensures forall k :: 0 <= k < |words| ==> words[k] != []
    ensures forall k, i :: 0 <= k < |words| && 0 <= i < |words[k]| ==> !IsSpace(words[k][i])
    decreases |s|
  {
    if s == [] then []
    else if IsSpace(s[0]) then Split(s[1..])
    else
      var n := WordLength(s);
      [s[..n]] + Split(s[n..])
  }

  /** The value of a non-empty run of decimal digits, most significant first. */
  function DigitsValue(s: string): (v: nat)
    requires IsDigits(s)
    decreases |s|
  {
    if |s| == 1 then DigitValue(s[0])
    else DigitsValue(s[..|s| - 1]) * 10 + DigitValue(s[|s| - 1])
  }

  /**
   * `int(s)` for the decimal forms: surrounding whitespace, an optional
   * sign, then ASCII digits. `None` stands for the `ValueError`.
   */
  function ParseInt(s: string): (r: Option<int>)
    ensures r.Some? <==> (IsDigits(Strip(s))
      || (|Strip(s)| >= 2 && Strip(s)[0] in "+-" && IsDigits(Strip(s)[1..])))
  {
    var t := Strip(s);
    if IsDigits(t) then Some(DigitsValue(t))
    else if |t| >= 2 && t[0] == '-' && IsDigits(t[1..]) then Some(-(DigitsValue(t[1..]) as int))
    else if |t| >= 2 && t[0] == '+' && IsDigits(t[1..]) then Some(DigitsValue(t[1..]))
    else None
  }

  function DigitChar(d: nat): (c: char)
    requires d < 10
    ensures IsDigit(c) && DigitValue(c) == d
  {
    ('0' as int + d) as char
  }

  /** `str(n)` for a natural number: its decimal digits without leading zeros. */
  function NatToString(n: nat): (s: string)
    ensures IsDigits(s)
    ensures DigitsValue(s) == n
    ensures s[0] == '0' ==> n == 0
    decreases n
  {
    if n < 10 then [DigitChar(n)]
    else
      var prefix := NatToString(n / 10);
      var s := prefix + [DigitChar(n % 10)];
      assert s[..|s| - 1] == prefix;
      s
  }

  /** `str(n)` (and so an f-string's `{n}`) for any integer. */
  function IntToString(n: int): (s: string)
    ensures s != [] && !IsSpace(s[0]) && !IsSpace(s[|s| - 1])
  {
    if n < 0 then "-" + NatToString(-n) else NatToString(n)
  }

  /** Formatting an integer and parsing it back with `int()` gives it back. */
  lemma ParseIntToString(n: int)
    ensures ParseInt(IntToString(n)) == Some(n)
  {
    var s := IntToString(n);
    StripUnchanged(s);
    if n < 0 {
      assert s[1..] == NatToString(-n);
      assert !IsDigits(s) by { assert !IsDigit(s[0]); }
    }
  }
}
