/**
 * The example puzzle of src/day_0.c: every line's calibration value joins its
 * first and last decimal digit into a two-digit number, and both parts
 * report the sum over all lines.
 */
module Day0 {
  import opened CText

  /** The first decimal digit of `s`, or '\0' when there is none. */
  function FirstDigit(s: string): (c: char)
    ensures c == '\0' || IsDigit(c)
  {
    if |s| == 0 then '\0'
    else if IsDigit(s[0]) then s[0]
    else FirstDigit(s[1..])
  }

  /** The last decimal digit of `s`, or '\0' when there is none. */
  function LastDigit(s: string): (c: char)
    ensures c == '\0' || IsDigit(c)
  {
    if |s| == 0 then '\0'
    else if IsDigit(s[|s| - 1]) then s[|s| - 1]
    else LastDigit(s[..|s| - 1])
  }

  /** FirstDigit is '\0' exactly when there is no digit, and otherwise the digit no other digit precedes. */
  lemma {:induction false} FirstDigitSpec(s: string)
    ensures FirstDigit(s) == '\0' <==> forall i :: 0 <= i < |s| ==> !IsDigit(s[i])
    ensures FirstDigit(s) != '\0' ==>
      exists i :: 0 <= i < |s| && s[i] == FirstDigit(s) && IsDigit(s[i]) && forall j :: 0 <= j < i ==> !IsDigit(s[j])
  {
    if |s| > 0 && !IsDigit(s[0]) {
      FirstDigitSpec(s[1..]);
      assert forall i :: 0 <= i < |s| - 1 ==> s[1..][i] == s[i + 1];
      if FirstDigit(s) != '\0' {
        var i :| 0 <= i < |s| - 1 && s[1..][i] == FirstDigit(s) && IsDigit(s[1..][i]) && forall j :: 0 <= j < i ==> !IsDigit(s[1..][j]);
        assert s[i + 1] == FirstDigit(s) && forall j :: 0 <= j < i + 1 ==> !IsDigit(s[j]);
      }
    }
  }

  /** LastDigit is '\0' exactly when there is no digit, and otherwise the digit no other digit follows. */
  lemma {:induction false} LastDigitSpec(s: string)
    ensures LastDigit(s) == '\0' <==> forall i :: 0 <= i < |s| ==> !IsDigit(s[i])
    ensures LastDigit(s) != '\0' ==>
      exists i :: 0 <= i < |s| && s[i] == LastDigit(s) && IsDigit(s[i]) && forall j :: i < j < |s| ==> !IsDigit(s[j])
  {
    if |s| > 0 && !IsDigit(s[|s| - 1]) {
      LastDigitSpec(s[..|s| - 1]);
      assert forall i :: 0 <= i < |s| - 1 ==> s[..|s| - 1][i] == s[i];
    }
  }

  /**
   * The calibration value of a line: the first digit's character code minus
   * '0', times ten, plus the last digit's. A line without digits leaves both
   * characters '\0' and so yields -48 * 11.
   */
  function Calibration(line: CString): (r: int)
    ensures r == -528 || 0 <= r <= 99
  {
    FirstDigitSpec(line);
    LastDigitSpec(line);
    (FirstDigit(line) as int - '0' as int) * 10 + (LastDigit(line) as int - '0' as int)
  }

  /** Appending a character moves the first digit only when there was none yet. */
  lemma {:induction false} FirstDigitSnoc(s: string, c: char)
    ensures FirstDigit(s + [c]) == if FirstDigit(s) != '\0' then FirstDigit(s) else if IsDigit(c) then c else '\0'
  {
    if |s| > 0 {
      assert (s + [c])[1..] == s[1..] + [c];
      FirstDigitSnoc(s[1..], c);
    }
  }

  /** How one more character changes the first and the last digit. */
  lemma DigitsStep(s: string, c: char)
    ensures FirstDigit(s + [c]) == if FirstDigit(s) != '\0' then FirstDigit(s) else if IsDigit(c) then c else '\0'
    ensures LastDigit(s + [c]) == if IsDigit(c) then c else LastDigit(s)
  {
    FirstDigitSnoc(s, c);
    assert (s + [c])[..|s|] == s;
  }

  /** The value of a line is the number its first and last digits spell. */
  lemma CalibrationOfDigits(line: CString)
    requires exists i :: 0 <= i < |line| && IsDigit(line[i])
    ensures IsDigit(FirstDigit(line)) && IsDigit(LastDigit(line))
    ensures Calibration(line) == 10 * DigitValue(FirstDigit(line)) + DigitValue(LastDigit(line))
    ensures 0 <= Calibration(line) <= 99
  {
    FirstDigitSpec(line);
    LastDigitSpec(line);
  }

  /** A line without digits yields -528. */
  lemma CalibrationWithoutDigits(line: CString)
    requires forall i :: 0 <= i < |line| ==> !IsDigit(line[i])
    ensures Calibration(line) == -528
  {
    FirstDigitSpec(line);
    LastDigitSpec(line);
  }

  /** A single digit is both the first and the last: "treb7uchet" gives 77. */
  lemma CalibrationOfOneDigit(line: CString, k: nat)
    requires k < |line| && IsDigit(line[k])
    requires forall i :: 0 <= i < |line| && i != k ==> !IsDigit(line[i])
    ensures Calibration(line) == 11 * DigitValue(line[k])
  {
    FirstDigitAt(line, k);
    LastDigitAt(line, k);
  }

  /** The digit at `k` with no digit before it is the first digit. */
  lemma FirstDigitAt(s: string, k: nat)
    requires k < |s| && IsDigit(s[k]) && forall j :: 0 <= j < k ==> !IsDigit(s[j])
    ensures FirstDigit(s) == s[k]
  {
    FirstDigitSpec(s);
  }

  /** The digit at `k` with no digit after it is the last digit. */
  lemma LastDigitAt(s: string, k: nat)
    requires k < |s| && IsDigit(s[k]) && forall j :: k < j < |s| ==> !IsDigit(s[j])
    ensures LastDigit(s) == s[k]
  {
    LastDigitSpec(s);
  }

  /** The first example of the source's documentation: "a1b2c3d4e5f" gives 15. */
  lemma FirstExample()
    ensures Calibration("a1b2c3d4e5f") == 15
  {
    FirstDigitAt("a1b2c3d4e5f", 1);
    LastDigitAt("a1b2c3d4e5f", 9);
  }

  /** The second example: "treb7uchet" has one digit, so it gives 77. */
  lemma SecondExample()
    ensures Calibration("treb7uchet") == 77
  {
    CalibrationOfOneDigit("treb7uchet", 4);
  }

  /**
   * calibration_value: one pass over the line that keeps the first digit in
   * the tens slot and the latest digit in the units slot.
   */
  method CalibrationValue(line: CString) returns (v: int)
    ensures v == Calibration(line)
  {
    var tens, units := '\0', '\0';
    var i := 0;
    while At(line, i) != '\0'
      invariant 0 <= i <= |line|
      invariant tens == FirstDigit(line[..i]) && units == LastDigit(line[..i])
      decreases |line| - i
    {
      DigitsStep(line[..i], line[i]);
      assert line[..i + 1] == line[..i] + [line[i]];
      if IsDigit(line[i]) && tens == '\0' {
        tens := line[i];
        units := line[i];
      } else if IsDigit(line[i]) {
        units := line[i];
      }
      i := i + 1;
    }
    assert line[..i] == line;
    v := (tens as int - '0' as int) * 10 + (units as int - '0' as int);
  }

  /** The sum of the calibration values of the lines. */
  function Total(lines: seq<CString>): int
  {
    if |lines| == 0 then 0 else Total(lines[..|lines| - 1]) + Calibration(lines[|lines| - 1])
  }

  /** Lines whose values all lie in [0, 99] sum to at most 99 per line. */
  lemma {:induction false} TotalBounds(lines: seq<CString>)
    requires forall k :: 0 <= k < |lines| ==> 0 <= Calibration(lines[k]) <= 99
    ensures 0 <= Total(lines) <= 99 * |lines|
  {
    if |lines| > 0 {
      TotalBounds(lines[..|lines| - 1]);
    }
  }

  /** One accumulation pass over the lines of the file. */
  method SumLines(lines: seq<CString>) returns (sum: int)
    ensures sum == Total(lines)
  {
    sum := 0;
    var k := 0;
    while k < |lines|
      invariant 0 <= k <= |lines|
      invariant sum == Total(lines[..k])
    {
      var v := CalibrationValue(lines[k]);
      assert lines[..k + 1][..k] == lines[..k];
      sum := sum + v;
      k := k + 1;
    }
    assert lines[..k] == lines;
  }

  /** day_0 on a file that opens: both parts run the identical pass. */
  method Solve(lines: seq<CString>) returns (part1: int, part2: int)
    ensures part1 == part2 == Total(lines)
  {
    part1 := SumLines(lines);
    part2 := SumLines(lines);
  }
}
