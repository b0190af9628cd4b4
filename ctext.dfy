/**
 * The C string functions the day solvers rely on: the character classes of
 * <ctype.h>, the integer readers strtol and atoi (base 10, without the
 * overflow clamping of the C library), and strstr.
 */
module CText {

  /** A C string: the characters before its terminating NUL. */
  type CString = s: string | forall i :: 0 <= i < |s| ==> s[i] != '\0'

  /** The character a pointer to position i reads: the terminator at the end. */
  function At(s: CString, i: nat): (c: char)
    ensures c == '\0' <==> i >= |s|
  {
    if i < |s| then s[i] else '\0'
  }

  /** isspace in the C locale: space, \t, \n, \v, \f and \r. */
  predicate IsSpace(c: char)
  {
    c == ' ' || '\t' <= c <= '\r'
  }

  /** isdigit. */
  predicate IsDigit(c: char)
  {
    '0' <= c <= '9'
  }

  function DigitValue(c: char): (d: nat)
    requires IsDigit(c)
    ensures d < 10
  {
    c as int - '0' as int
  }

  function DigitChar(d: nat): (c: char)
    requires d < 10
    ensures IsDigit(c) && DigitValue(c) == d
  {
    ('0' as int + d) as char
  }

  /** The first position at or after i that does not hold white space. */
  function SkipSpaces(s: CString, i: nat): (j: nat)
    ensures i <= j && (j == i || j <= |s|)
    ensures !IsSpace(At(s, j))
    ensures forall k :: i <= k < j ==> IsSpace(At(s, k))
    decreases |s| - i
  {
    if IsSpace(At(s, i)) then SkipSpaces(s, i + 1) else i
  }

  /** The end of the run of decimal digits that starts at i. */
  function DigitsEnd(s: CString, i: nat): (j: nat)
    ensures i <= j && (j == i || j <= |s|)
    ensures !IsDigit(At(s, j))
    ensures forall k :: i <= k < j ==> IsDigit(At(s, k))
    decreases |s| - i
  {
    if IsDigit(At(s, i)) then DigitsEnd(s, i + 1) else i
  }

  predicate AllDigits(t: string)
  {
    forall k :: 0 <= k < |t| ==> IsDigit(t[k])
  }

  /** The value of a run of decimal digits, most significant first. */
  function DigitsValue(t: string): nat
    requires AllDigits(t)
  {
    if |t| == 0 then 0 else 10 * DigitsValue(t[..|t| - 1]) + DigitValue(t[|t| - 1])
  }

  /** What strtol(s + i, &end, 10) returns, and where `end` is left. */
  datatype Conversion = Conversion(value: int, end: nat)

  /**
   * strtol in base 10: optional white space, an optional sign, then the
   * longest run of decimal digits. When no digit follows, nothing is
   * converted: the value is 0 and `end` is the starting position itself.
   */
  function StrToL(s: CString, i: nat): (r: Conversion)
    ensures r.end == i ==> r.value == 0
    ensures r.end != i ==> i < r.end <= |s| && IsDigit(s[r.end - 1]) && !IsDigit(At(s, r.end))
  {
    var j := SkipSpaces(s, i);
    var k := if At(s, j) == '-' || At(s, j) == '+' then j + 1 else j;
    var e := DigitsEnd(s, k);
    if e == k then Conversion(0, i)
    else
      assert forall q :: 0 <= q < e - k ==> s[k..e][q] == At(s, k + q);
      var m: int := DigitsValue(s[k..e]);
      Conversion(if At(s, j) == '-' then -m else m, e)
  }

  /** atoi: the value strtol reads at the start of the string. */
  function Atoi(s: CString): (r: int)
    ensures StrToL(s, 0).end == 0 ==> r == 0
  {
    StrToL(s, 0).value
  }

  /** The decimal rendering of a natural number, without leading zeros. */
  function NatString(m: nat): (t: CString)
    ensures |t| >= 1 && AllDigits(t)
  {
    if m < 10 then [DigitChar(m)] else NatString(m / 10) + [DigitChar(m % 10)]
  }

  /** The decimal rendering of an integer, with a '-' for negative values. */
  function DecimalString(n: int): (t: CString)
    ensures |t| >= 1
  {
    if n < 0 then "-" + NatString(-n) else NatString(n)
  }

  /** Reading the digits of a rendered natural number gives the number back. */
  lemma {:induction false} DigitsValueOfNatString(m: nat)
    ensures DigitsValue(NatString(m)) == m
  {
    if m >= 10 {
      var t := NatString(m);
      assert t[..|t| - 1] == NatString(m / 10);
      DigitsValueOfNatString(m / 10);
    }
  }

  /**
   * strtol reads back what DecimalString renders: placed at position i and
   * not followed by another digit, the rendering of n converts to n and
   * `end` lands just after it.
   */
  lemma StrToLReadsDecimal(s: CString, i: nat, n: int)
    requires i + |DecimalString(n)| <= |s|
    requires s[i..i + |DecimalString(n)|] == DecimalString(n)
    requires !IsDigit(At(s, i + |DecimalString(n)|))
    ensures StrToL(s, i) == Conversion(n, i + |DecimalString(n)|)
  {
    var d := DecimalString(n);
    var m: nat := if n < 0 then -n else n;
    var t := NatString(m);
    var e := i + |d|;
    assert s[i] == d[0];
    assert SkipSpaces(s, i) == i;
    var k := if n < 0 then i + 1 else i;
    assert s[k..e] == t by {
      if n < 0 {
        assert d == "-" + t;
      }
    }
    forall q | k <= q < e
      ensures IsDigit(At(s, q))
    {
      assert s[q] == t[q - k];
    }
    assert DigitsEnd(s, k) == e;
    DigitsValueOfNatString(m);
  }

  /**
   * White space before the number changes nothing but where `end` is left
   * when nothing is converted: strtol from i skips to the same place as
   * strtol from any j after a run of white space.
   */
  lemma {:induction false} SkipSpacesRun(s: CString, i: nat, j: nat)
    requires i <= j && forall k :: i <= k < j ==> IsSpace(At(s, k))
    ensures SkipSpaces(s, i) == SkipSpaces(s, j)
    ensures StrToL(s, j).end != j ==> StrToL(s, i) == StrToL(s, j)
    ensures StrToL(s, j).end == j ==> StrToL(s, i) == Conversion(0, i)
    decreases j - i
  {
    if i < j {
      SkipSpacesRun(s, i + 1, j);
    }
  }

  /** atoi reads back the decimal rendering of n at the start of a string, whatever non-digit follows it. */
  lemma AtoiReadsDecimal(s: CString, n: int)
    requires |DecimalString(n)| <= |s| && s[..|DecimalString(n)|] == DecimalString(n)
    requires !IsDigit(At(s, |DecimalString(n)|))
    ensures Atoi(s) == n
  {
    StrToLReadsDecimal(s, 0, n);
  }

  /** The C pattern `pat` starts at position p of s. */
  predicate OccursAt(s: CString, pat: string, p: nat)
  {
    p + |pat| <= |s| && s[p..p + |pat|] == pat
  }

  /** strstr(s + from, pat): the first position at or after `from` where pat occurs, or -1 for NULL. */
  function Find(s: CString, pat: string, from: nat): (p: int)
    ensures p == -1 || (from <= p && OccursAt(s, pat, p))
    ensures forall q :: from <= q && (p == -1 || q < p) ==> !OccursAt(s, pat, q)
    decreases |s| + 1 - from
  {
    if from > |s| then -1
    else if OccursAt(s, pat, from) then from
    else Find(s, pat, from + 1)
  }
}
