/**
 Python's decimal conversions as the entry points use them: `str(n)` renders
 a message Id from the enumeration counter, and `int(s)` reads the visibility
 timeout from the environment.
 */
module Decimal {

  import opened Tasks

  predicate IsDigit(c: char) {
    '0' <= c <= '9'
  }

  predicate AllDigits(s: string) {
    forall i :: 0 <= i < |s| ==> IsDigit(s[i])
  }

  function DigitChar(d: nat): (c: char)
    requires d < 10
    ensures IsDigit(c) && DigitValue(c) == d
  {
    (('0' as int) + d) as char
  }

  function DigitValue(c: char): (d: nat)
    requires IsDigit(c)
    ensures d < 10
  {
    (c as int) - ('0' as int)
  }

  /** `str(n)` for a non-negative integer: its decimal digits, most
      significant first, with no leading zero. */
  function NatToString(n: nat): (s: string)
    ensures |s| > 0 && AllDigits(s)
    ensures n < 10 <==> |s| == 1
    decreases n
  {
    if n < 10 then [DigitChar(n)] else NatToString(n / 10) + [DigitChar(n % 10)]
  }

  /** `str(i)` for any integer. */
  function IntToString(i: int): (s: string)
    ensures |s| > 0
    ensures i < 0 <==> s[0] == '-'
    ensures i >= 0 ==> AllDigits(s)
  {
    if i < 0 then "-" + NatToString(-i) else NatToString(i)
  }

  /** The number a string of decimal digits denotes. */
  function DigitsValue(ds: string): (n: nat)
    requires AllDigits(ds)
    decreases |ds|
  {
    if ds == [] then 0 else 10 * DigitsValue(ds[..|ds| - 1]) + DigitValue(ds[|ds| - 1])
  }

  /** Reading back the digits of `str(n)` gives `n`. */
  lemma {:induction false} NatToStringValue(n: nat)
    ensures DigitsValue(NatToString(n)) == n
    decreases n
  {
    if n >= 10 {
      var s := NatToString(n);
      NatToStringValue(n / 10);
      assert s[..|s| - 1] == NatToString(n / 10);
    }
  }

  /** Distinct counters give distinct Ids. */
  lemma NatToStringInjective(a: nat, b: nat)
    requires NatToString(a) == NatToString(b)
    ensures a == b
  {
    NatToStringValue(a);
    NatToStringValue(b);
  }

  /** The characters Python's `int()` ignores around a number: the six
      ASCII white-space characters " \t\n\r\v\f", and the characters above
      ASCII that `str.isspace` accepts. The ASCII separators U+001C to U+001F,
      which `str.isspace` also accepts, are not skipped: `int()` rejects them. */
  predicate IsSpace(c: char) {
    c == ' ' || c == '\t' || c == '\n' || c == '\r' || c == '\U{0B}' || c == '\U{0C}'
    || c == '\U{85}' || c == '\U{A0}' || c == '\U{1680}'
    || ('\U{2000}' <= c <= '\U{200A}') || c == '\U{2028}' || c == '\U{2029}'
    || c == '\U{202F}' || c == '\U{205F}' || c == '\U{3000}'
  }

  /** Leading white space dropped. */
  function TrimStart(s: string): (t: string)
    ensures |t| <= |s| && t == s[|s| - |t|..]
    ensures forall i :: 0 <= i < |s| - |t| ==> IsSpace(s[i])
    ensures t == [] || !IsSpace(t[0])
    ensures (forall i :: 0 <= i < |s| ==> !IsSpace(s[i])) ==> t == s
    decreases |s|
  {
    if s != [] && IsSpace(s[0]) then TrimStart(s[1..]) else s
  }

  /** Trailing white space dropped. */
  function TrimEnd(s: string): (t: string)
    ensures |t| <= |s| && t == s[..|t|]
    ensures forall i :: |t| <= i < |s| ==> IsSpace(s[i])
    ensures t == [] || !IsSpace(t[|t| - 1])
    ensures (forall i :: 0 <= i < |s| ==> !IsSpace(s[i])) ==> t == s
    decreases |s|
  {
    if s != [] && IsSpace(s[|s| - 1]) then TrimEnd(s[..|s| - 1]) else s
  }

  /** A body of digits as `int()` accepts it: it starts and ends with a
      digit, holds only digits and underscores, and never two underscores in
      a row. */
  predicate WellGrouped(d: string) {
    && |d| > 0
    && IsDigit(d[0])
    && IsDigit(d[|d| - 1])
    && (forall i :: 0 <= i < |d| ==> IsDigit(d[i]) || d[i] == '_')
    && (forall i :: 0 <= i < |d| - 1 ==> IsDigit(d[i]) || IsDigit(d[i + 1]))
  }

  /** The digits of a grouped number with its underscores dropped. */
  function Ungroup(d: string): (r: string)
    requires forall i :: 0 <= i < |d| ==> IsDigit(d[i]) || d[i] == '_'
    ensures AllDigits(r)
    ensures AllDigits(d) ==> r == d
    decreases |d|
  {
    if d == [] then []
    else if d[|d| - 1] == '_' then Ungroup(d[..|d| - 1])
    else Ungroup(d[..|d| - 1]) + [d[|d| - 1]]
  }

  function ParseDigits(d: string): (r: Result<nat>)
    ensures r.Err? ==> r.error == ValueError
  {
    if WellGrouped(d) then Ok(DigitsValue(Ungroup(d)))
    else
      Err(ValueError)
  }

  /** `int(s)` in base 10: surrounding white space is ignored, one optional
      sign, then digits grouped by single underscores; anything else raises
      ValueError. */
  function ParseInt(s: string): (r: Result<int>)
    ensures r.Err? ==> r.error == ValueError
  {
    ParseTrimmed(TrimEnd(TrimStart(s)))
  }

  /** `int()` once the white space is gone: one optional sign, then the digits. */
  function ParseTrimmed(t: string): (r: Result<int>)
    ensures r.Err? ==> r.error == ValueError
  {
    if |t| > 0 && (t[0] == '+' || t[0] == '-') then
      match ParseDigits(t[1..])
      case Err(e) => Err(e)
      case Ok(v) =>
        var n: int := if t[0] == '-' then -(v as int) else v;
        Ok(n)
    else
      match ParseDigits(t)
      case Err(e) => Err(e)
      case Ok(v) => Ok(v)
  }

  lemma NumberCharNotSpace(c: char)
    requires c == '-' || IsDigit(c)
    ensures !IsSpace(c)
  {
  }

  /** A rendered number has no white space, so trimming leaves it as it is. */
  lemma TrimNumber(s: string)
    requires forall k :: 0 <= k < |s| ==> s[k] == '-' || IsDigit(s[k])
    ensures TrimEnd(TrimStart(s)) == s
  {
    forall k | 0 <= k < |s| ensures !IsSpace(s[k]) {
      NumberCharNotSpace(s[k]);
    }
    Untrimmed(s);
  }

  /** Trimming a string with no white space leaves it as it is. */
  lemma Untrimmed(s: string)
    requires forall k :: 0 <= k < |s| ==> !IsSpace(s[k])
    ensures TrimEnd(TrimStart(s)) == s
  {
    assert TrimStart(s) == s;
  }

  lemma DigitsParse(n: nat)
    ensures ParseDigits(NatToString(n)) == Ok(n)
  {
    var digits := NatToString(n);
    NatToStringValue(n);
    assert WellGrouped(digits);
  }

  /** `int(str(i)) == i`: every integer rendered by `str` reads back. */
  lemma IntToStringRoundTrip(i: int)
    ensures ParseInt(IntToString(i)) == Ok(i)
  {
    if i < 0 {
      var n: nat := -i;
      assert IntToString(i) == "-" + NatToString(n);
      NegativeRoundTrip(n);
    } else {
      assert IntToString(i) == NatToString(i);
      NonNegativeRoundTrip(i);
    }
  }

  /** `int(str(n)) == n` for `n >= 0`: the digits alone. */
  lemma NonNegativeRoundTrip(n: nat)
    ensures ParseInt(NatToString(n)) == Ok(n)
  {
    var digits := NatToString(n);
    TrimNumber(digits);
    DigitsParse(n);
    ParseUnsigned(digits, n);
  }

  /** `int(str(-n)) == -n` for `n > 0`: a minus sign, then the digits. */
  lemma NegativeRoundTrip(n: nat)
    requires n > 0
    ensures ParseInt("-" + NatToString(n)) == Ok(-(n as int))
  {
    var digits := NatToString(n);
    var s := "-" + digits;
    forall k | 0 <= k < |s| ensures s[k] == '-' || IsDigit(s[k]) {
      if k > 0 {
        assert s[k] == digits[k - 1];
      }
    }
    TrimNumber(s);
    DigitsParse(n);
    assert s[1..] == digits;
    ParseNegative(s, n);
  }

  /** `int()` of digits with no white space around them is their value. */
  lemma ParseUnsigned(s: string, v: nat)
    requires |s| > 0 && IsDigit(s[0])
    requires ParseDigits(s) == Ok(v)
    ensures ParseTrimmed(s) == Ok(v)
  {
  }

  /** `int()` of a minus sign followed by digits, with no white space
      around them, is the negated value. */
  lemma ParseNegative(s: string, v: nat)
    requires |s| > 0 && s[0] == '-'
    requires ParseDigits(s[1..]) == Ok(v)
    ensures ParseTrimmed(s) == Ok(-(v as int))
  {
  }

  /** `int()` does not skip the ASCII separators U+001C to U+001F: text
      that starts with one raises ValueError. */
  lemma SeparatorNotSkipped(s: string)
    requires |s| > 0 && '\U{1C}' <= s[0] <= '\U{1F}'
    ensures ParseInt(s) == Err(ValueError)
  {
    TrimKeepsFirst(s);
    NoSignNoDigit(TrimEnd(TrimStart(s)));
  }

  /** Trimming text that does not start with white space keeps its first
      character in front. */
  lemma TrimKeepsFirst(s: string)
    requires |s| > 0 && !IsSpace(s[0])
    ensures var t := TrimEnd(TrimStart(s)); |t| > 0 && t[0] == s[0]
  {
    assert TrimStart(s) == s;
  }

  /** `int()` of text that starts with neither a sign nor a digit raises. */
  lemma NoSignNoDigit(t: string)
    requires |t| > 0 && t[0] != '+' && t[0] != '-' && !IsDigit(t[0])
    ensures ParseTrimmed(t) == Err(ValueError)
  {
  }
}
