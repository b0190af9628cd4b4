/**
 * The reactor-report puzzle of src/day_2.c: every line is a report of
 * integer levels; a report is safe when it moves in one direction by steps
 * of 1 to 3, and safe with the problem dampener when deleting one level
 * makes it so. Part one counts the safe reports, part two the dampened ones.
 */
module Day2 {
  import opened ErrorCodes
  import opened CText
  import opened Slots
  import Arrays

  /** The levels extract_digits appends for a line, and the code it returns when every append succeeds. */
  datatype Scanned = Scanned(values: seq<int>, status: int)

  /**
   * The loop of extract_digits from position i, with `done` the levels
   * appended so far: strtol reads a number and its value is appended, even
   * when nothing was read (a 0). Nothing read at white space skips that one
   * character; nothing read at anything else stops with INVALID_INPUT; a
   * number read skips the white space after it. The end of the line leaves
   * the SUCCESS of the last append.
   */
  function Scan(line: CString, i: nat, done: seq<int>): (r: Scanned)
    ensures r.status == SUCCESS || r.status == INVALID_INPUT
    ensures |done| <= |r.values| && r.values[..|done|] == done
    ensures i < |line| ==> |done| < |r.values|
    decreases |line| - i
  {
    if i >= |line| then Scanned(done, SUCCESS)
    else
      var c := StrToL(line, i);
      if c.end == i then
        if IsSpace(line[i]) then Prefixed(done, [0], Scan(line, i + 1, done + [0]))
        else Scanned(done + [0], INVALID_INPUT)
      else Prefixed(done, [c.value], Scan(line, SkipSpaces(line, c.end), done + [c.value]))
  }

  /** A scan result that extends `done + more` also extends `done`. */
  function Prefixed(done: seq<int>, more: seq<int>, r: Scanned): (r': Scanned)
    requires |more| > 0 && |done + more| <= |r.values| && r.values[..|done + more|] == done + more
    ensures r' == r && r.values[..|done|] == done && |done| < |r.values|
  {
    assert r.values[..|done|] == (done + more)[..|done|];
    r
  }

  /** A whole line: the empty line never enters the loop and keeps the initial ERROR_UNKNOWN. */
  function Record(line: CString): (r: Scanned)
    ensures r.status == SUCCESS || r.status == INVALID_INPUT || (|line| == 0 && r == Scanned([], UNKNOWN))
  {
    if |line| == 0 then Scanned([], UNKNOWN) else Scan(line, 0, [])
  }

  /**
   * What the appends leave when they can fail: an element kind without a
   * size fails the first append with INVALID_INPUT, and the append numbered
   * `failAt` (counting from 0), if there is one, fails with OUT_OF_MEMORY.
   * The scan stops at the failing append.
   */
  function Outcome(sc: Scanned, failAt: int, supported: bool): Scanned
  {
    if |sc.values| > 0 && !supported then Scanned([], INVALID_INPUT)
    else if 0 <= failAt < |sc.values| then Scanned(sc.values[..failAt], OUT_OF_MEMORY)
    else sc
  }

  /**
   * extract_digits: appends the levels of `line` to `record` left to right.
   * The append numbered `failAt`, if any, runs out of memory.
   */
  method ExtractDigits(line: CString, record: Arrays.Array?, failAt: int) returns (status: int)
    requires record != null ==> record.Valid()
    modifies record, if record == null then {} else {record.list}
    ensures record == null ==> status == INVALID_INPUT
    ensures record != null ==> record.Valid() && record.eleType == old(record.eleType)
    ensures record != null ==> record.list == old(record.list) || fresh(record.list)
    ensures record != null ==>
      var out := Outcome(Record(line), failAt, Arrays.Supported(record.eleType));
      status == out.status && record.Contents == old(record.Contents) + out.values
  {
    if record == null {
      return INVALID_INPUT;
    }
    status := UNKNOWN;
    ghost var done: seq<int> := [];
    ghost var start := record.Contents;
    var appends := 0;  // the appends served so far, which decides the failing one
    var i := 0;
    while At(line, i) != '\0'
      invariant record.Valid() && record.eleType == old(record.eleType)
      invariant record.list == old(record.list) || fresh(record.list)
      invariant 0 <= i <= |line|
      invariant (i == 0) == (|done| == 0)
      invariant |line| > 0 ==> Record(line) == Scan(line, i, done)
      invariant status == if |done| == 0 then UNKNOWN else SUCCESS
      invariant record.Contents == start + done
      invariant !(0 <= failAt < |done|)
      invariant |done| > 0 ==> Arrays.Supported(record.eleType)
      invariant appends == |done|
      decreases |line| - i
    {
      ghost var stored;
      var next;
      status, next, stored := Round(line, i, record, appends != failAt);
      if status != SUCCESS {
        if stored {
          ScanRound(line, i, done);
          Append(start, done, StrToL(line, i).value);
          done := done + [StrToL(line, i).value];
          ScanEnds(line, done, failAt, Arrays.Supported(record.eleType));
        } else {
          AppendFails(line, i, done, failAt, Arrays.Supported(record.eleType));
        }
        return;
      }
      ScanRound(line, i, done);
      Append(start, done, StrToL(line, i).value);
      done, appends := done + [StrToL(line, i).value], appends + 1;
      i := next;
    }
    if |line| > 0 {
      ScanEnds(line, done, failAt, Arrays.Supported(record.eleType));
    }
  }

  /**
   * One round of the loop of extract_digits at position i: strtol, the
   * append (served when `slotOk`), and where the loop resumes.
   */
  method Round(line: CString, i: nat, record: Arrays.Array, slotOk: bool) returns (status: int, next: nat, ghost stored: bool)
    requires i < |line| && record.Valid()
    modifies record, record.list
    ensures record.Valid() && record.eleType == old(record.eleType)
    ensures record.list == old(record.list) || fresh(record.list)
    ensures var c := StrToL(line, i);
      && stored == (Arrays.Supported(record.eleType) && slotOk)
      && record.Contents == (if stored then old(record.Contents) + [c.value] else old(record.Contents))
      && (!stored ==> status == if Arrays.Supported(record.eleType) then OUT_OF_MEMORY else INVALID_INPUT)
      && (stored && c.end == i && !IsSpace(line[i]) ==> status == INVALID_INPUT)
      && (stored && (c.end != i || IsSpace(line[i])) ==> status == SUCCESS && next == Resume(line, i, c))
  {
    next := i;
    var c := StrToL(line, i);
    status := Arrays.Add(record, c.value, true, slotOk);
    stored := status == SUCCESS;
    if status != SUCCESS {
      return;
    }
    if c.end == i {
      if IsSpace(line[i]) {
        next := i + 1;
      } else {
        status := INVALID_INPUT;
      }
      return;
    }
    next := SkipWhite(line, c.end);
  }

  /** Where the loop resumes after a round at i that read `c`. */
  function Resume(line: CString, i: nat, c: Conversion): (j: nat)
    requires i < |line| && (c.end == i || i < c.end <= |line|)
    ensures i < j <= |line|
  {
    if c.end == i then i + 1 else SkipSpaces(line, c.end)
  }

  /** When the append of round i fails, the appends so far are all the record keeps. */
  lemma AppendFails(line: CString, i: nat, done: seq<int>, failAt: int, supported: bool)
    requires i < |line| && Record(line) == Scan(line, i, done)
    requires !supported ==> |done| == 0
    requires !(0 <= failAt < |done|) && (!supported || failAt == |done|)
    ensures Outcome(Record(line), failAt, supported) == Scanned(done, if supported then OUT_OF_MEMORY else INVALID_INPUT)
  {
  }

  /** When the scan ends with every append served, the outcome is the scan itself. */
  lemma ScanEnds(line: CString, done: seq<int>, failAt: int, supported: bool)
    requires Record(line).values == done
    requires |done| > 0 ==> supported
    requires !(0 <= failAt < |done|)
    ensures Outcome(Record(line), failAt, supported) == Record(line)
  {
  }

  /** One round of the loop: the scan from i equals the scan from where the round resumes. */
  lemma ScanRound(line: CString, i: nat, done: seq<int>)
    requires i < |line|
    ensures var c := StrToL(line, i);
      Scan(line, i, done) ==
        if c.end == i && !IsSpace(line[i]) then Scanned(done + [c.value], INVALID_INPUT)
        else Scan(line, Resume(line, i, c), done + [c.value])
  {
  }

  /** Concatenation regrouped around the first element of `t`. */
  lemma Regroup(s: seq<int>, t: seq<int>)
    requires |t| > 0
    ensures (s + [t[0]]) + t[1..] == s + t
  {
    assert [t[0]] + t[1..] == t;
  }

  /** Appending one element after a concatenation. */
  lemma Append(s: seq<int>, t: seq<int>, x: int)
    ensures s + (t + [x]) == (s + t) + [x]
  {
  }

  /** The trailing-space loop of extract_digits. */
  method SkipWhite(line: CString, start: nat) returns (i: nat)
    requires start <= |line|
    ensures i == SkipSpaces(line, start)
  {
    i := start;
    while IsSpace(At(line, i))
      invariant start <= i <= |line|
      invariant forall k :: start <= k < i ==> IsSpace(At(line, k))
      decreases |line| - i
    {
      i := i + 1;
    }
  }

  /** The step from level i to level i + 1, as the source subtracts them. */
  function Diff(r: seq<int>, i: nat): int
    requires i + 1 < |r|
  {
    r[i] - r[i + 1]
  }

  /** Every step lies in [lo, hi]. */
  predicate Steps(r: seq<int>, lo: int, hi: int)
  {
    forall i :: 0 <= i < |r| - 1 ==> lo <= Diff(r, i) <= hi
  }

  /** A safe report: strictly decreasing by 1 to 3 at each step, or strictly increasing so. */
  predicate Stable(r: seq<int>)
  {
    Steps(r, 1, 3) || Steps(r, -3, -1)
  }

  /** The report with level k deleted. */
  function RemoveAt(r: seq<int>, k: nat): (t: seq<int>)
    requires k < |r|
    ensures |t| == |r| - 1
    ensures forall q :: 0 <= q < |t| ==> t[q] == if q < k then r[q] else r[q + 1]
  {
    r[..k] + r[k + 1..]
  }

  /** Safe with the dampener: at least two levels, and safe as it is or after deleting one level. */
  predicate Damped(r: seq<int>)
  {
    |r| > 1 && (Stable(r) || exists k :: 0 <= k < |r| && Stable(RemoveAt(r, k)))
  }

  /**
   * b_is_stable on the first `size` slots of `list`: true for a NULL list or
   * at most one level, else one pass over the steps that stops at a step
   * out of range or at the first change of direction.
   */
  method IsStable(list: array?<Slot<int>>, size: int) returns (stable: bool)
    requires list != null && size > 1 ==> size <= list.Length && forall k :: 0 <= k < size ==> list[k].Full?
    ensures stable <==> list == null || size <= 1 || Stable(Values(list[..size]))
  {
    stable := true;
    var pos, neg := false, false;
    if list == null || 1 >= size {
      return;
    }
    ghost var r := Values(list[..size]);
    ghost var up, down := 0, 0;
    var idx := 0;
    while idx < size - 1
      invariant 0 <= idx <= size - 1
      invariant stable
      invariant forall k :: 0 <= k < idx ==> 1 <= Abs(Diff(r, k)) <= 3
      invariant !neg ==> forall k :: 0 <= k < idx ==> Diff(r, k) > 0
      invariant !pos ==> forall k :: 0 <= k < idx ==> Diff(r, k) < 0
      invariant pos ==> 0 <= up < idx && Diff(r, up) > 0
      invariant neg ==> 0 <= down < idx && Diff(r, down) < 0
      invariant !(pos && neg)
    {
      var diff := list[idx].value - list[idx + 1].value;
      assert diff == Diff(r, idx);
      if 1 > Abs(diff) || 3 < Abs(diff) {
        stable := false;
        assert !Steps(r, 1, 3) && !Steps(r, -3, -1);
        return;
      }
      if 0 < diff {
        pos := true;
        up := idx;
      } else {
        neg := true;
        down := idx;
      }
      if pos && neg {
        stable := false;
        assert !Steps(r, 1, 3) && !Steps(r, -3, -1);
        return;
      }
      idx := idx + 1;
    }
    assert if pos then Steps(r, 1, 3) else Steps(r, -3, -1);
  }

  /** abs from <stdlib.h>. */
  function Abs(x: int): (r: nat)
    ensures r == x || r == -x
  {
    if x < 0 then -x else x
  }

  /**
   * b_is_stable_with_damper: false for a NULL list or at most one level;
   * true when the report is stable as it is; otherwise it tries every
   * deletion in a scratch buffer of size - 1 slots. `allocOk` says whether
   * calloc finds the memory for that buffer.
   */
  method IsStableWithDamper(list: array?<Slot<int>>, size: int, allocOk: bool) returns (stable: bool)
    requires list != null && size > 1 ==> size <= list.Length && forall k :: 0 <= k < size ==> list[k].Full?
    ensures stable <==> (list != null && size > 1 &&
      var r := Values(list[..size]);
      Stable(r) || (allocOk && exists k :: 0 <= k < size && Stable(RemoveAt(r, k))))
  {
    stable := false;
    if list == null || 1 >= size {
      return;
    }
    ghost var r := Values(list[..size]);
    stable := IsStable(list, size);
    if stable {
      return;
    }
    if !allocOk {
      return;
    }
    var modRecord := new Slot<int>[size - 1](_ => Empty);
    var idx := 0;
    while idx < size
      invariant 0 <= idx <= size && !stable
      invariant modRecord.Length == size - 1
      invariant forall k :: 0 <= k < idx ==> !Stable(RemoveAt(r, k))
    {
      var found := TryWithout(list, size, idx, modRecord);
      if found {
        return true;
      }
      idx := idx + 1;
    }
  }

  /**
   * One round of the damper's outer loop: NULL the scratch buffer, copy every
   * level but the idx-th into it, and test it with b_is_stable.
   */
  method TryWithout(list: array<Slot<int>>, size: int, idx: int, modRecord: array<Slot<int>>) returns (found: bool)
    requires 1 < size <= list.Length && forall k :: 0 <= k < size ==> list[k].Full?
    requires 0 <= idx < size && modRecord.Length == size - 1 && modRecord != list
    modifies modRecord
    ensures found <==> Stable(RemoveAt(Values(list[..size]), idx))
  {
    var j := 0;
    while j < size - 1
      invariant 0 <= j <= size - 1
      invariant forall q :: 0 <= q < j ==> modRecord[q] == Empty
    {
      modRecord[j] := Empty;
      j := j + 1;
    }
    var k := 0;
    j := 0;
    while j < size
      invariant 0 <= j <= size
      invariant k == if j <= idx then j else j - 1
      invariant forall q :: 0 <= q < k ==> modRecord[q] == list[Skipping(q, idx)]
    {
      if j != idx {
        modRecord[k] := list[j];
        k := k + 1;
      }
      j := j + 1;
    }
    found := IsStable(modRecord, size - 1);
    ghost var r := Values(list[..size]);
    forall q | 0 <= q < size - 1
      ensures modRecord[q].Full? && modRecord[q].value == RemoveAt(r, idx)[q]
    {
      assert modRecord[q] == list[Skipping(q, idx)];
    }
    assert Values(modRecord[..size - 1]) == RemoveAt(r, idx);
  }

  /** The position of the original level that lands at position q once level idx is deleted. */
  function Skipping(q: int, idx: int): int
  {
    if q < idx then q else q + 1
  }

  /** Deleting the first or the last level of a stable report leaves it stable. */
  lemma StableWithoutEnd(r: seq<int>)
    requires Stable(r) && |r| > 0
    ensures Stable(RemoveAt(r, 0)) && Stable(RemoveAt(r, |r| - 1))
  {
    var lo, hi := if Steps(r, 1, 3) then 1 else -3, if Steps(r, 1, 3) then 3 else -1;
    assert Steps(r, lo, hi);
    var a, b := RemoveAt(r, 0), RemoveAt(r, |r| - 1);
    forall i | 0 <= i < |a| - 1
      ensures lo <= Diff(a, i) <= hi && lo <= Diff(b, i) <= hi
    {
      assert Diff(a, i) == Diff(r, i + 1) && Diff(b, i) == Diff(r, i);
    }
    assert Steps(a, lo, hi) && Steps(b, lo, hi);
  }

  /**
   * The damper's first test only saves work: for two or more levels, the
   * report is dampened exactly when deleting some level makes it stable.
   */
  lemma DampedByDeletion(r: seq<int>)
    requires |r| > 1
    ensures Damped(r) <==> exists k :: 0 <= k < |r| && Stable(RemoveAt(r, k))
  {
    if Stable(r) {
      StableWithoutEnd(r);
    }
  }

  /** A one-level report is stable, yet the damper rejects it. */
  lemma OneLevel(x: int)
    ensures Stable([x]) && !Damped([x])
  {
  }

  /** The sum of b_is_stable over the records of the lines, all assumed to parse. */
  function SafeCount(lines: seq<CString>): nat
  {
    if |lines| == 0 then 0
    else SafeCount(lines[..|lines| - 1]) + if Stable(Record(lines[|lines| - 1]).values) then 1 else 0
  }

  /** The sum of b_is_stable_with_damper over the records of the lines. */
  function DampedCount(lines: seq<CString>): nat
  {
    if |lines| == 0 then 0
    else DampedCount(lines[..|lines| - 1]) + if Damped(Record(lines[|lines| - 1]).values) then 1 else 0
  }

  /** When every report has two levels or more, the dampener never counts fewer safe reports. */
  lemma {:induction false} DampenerCountsMore(lines: seq<CString>)
    requires forall k :: 0 <= k < |lines| ==> |Record(lines[k]).values| > 1
    ensures SafeCount(lines) <= DampedCount(lines) <= |lines|
  {
    if |lines| > 0 {
      DampenerCountsMore(lines[..|lines| - 1]);
    }
  }

  /** A report written out the usual way: the levels in decimal, separated by single spaces, ending in a newline. */
  function Report(levels: seq<int>): (line: CString)
    ensures |line| > 0 && line[|line| - 1] == '\n'
  {
    if |levels| == 0 then "\n"
    else if |levels| == 1 then DecimalString(levels[0]) + "\n"
    else DecimalString(levels[0]) + " " + Report(levels[1..])
  }

  /** The scan reads back the levels of a written report placed at position i of a line. */
  lemma {:induction false} ScanReport(line: CString, i: nat, levels: seq<int>, done: seq<int>)
    requires |levels| > 0
    requires i + |Report(levels)| == |line| && line[i..] == Report(levels)
    ensures Scan(line, i, done) == Scanned(done + levels, SUCCESS)
    decreases |levels|
  {
    var e := ReadFirst(line, i, levels);
    if |levels| > 1 {
      ScanReport(line, e, levels[1..], done + [levels[0]]);
      Regroup(done, levels);
    }
  }

  /**
   * The first round of the scan over a written report: strtol reads the
   * first level, and the scan resumes at the next level's first character,
   * or at the end of the line after the last level.
   */
  lemma ReadFirst(line: CString, i: nat, levels: seq<int>) returns (next: nat)
    requires |levels| > 0
    requires i + |Report(levels)| == |line| && line[i..] == Report(levels)
    ensures var c := StrToL(line, i);
      && c == Conversion(levels[0], i + |DecimalString(levels[0])|)
      && next == SkipSpaces(line, c.end)
      && (|levels| == 1 ==> next == |line|)
      && (|levels| > 1 ==> next == c.end + 1 && next + |Report(levels[1..])| == |line| && line[next..] == Report(levels[1..]))
  {
    ReportLayout(levels);
    if |levels| == 1 {
      next := ReadLevelAt(line, i, levels[0], '\n', []);
    } else {
      ReportLayout(levels[1..]);
      next := ReadLevelAt(line, i, levels[0], ' ', Report(levels[1..]));
    }
  }

  /**
   * strtol at position i of a line that continues with the rendering of n,
   * one separator and then `tail`: it reads n, and skipping white space from
   * there passes the separator and stops at the start of `tail`.
   */
  lemma ReadLevelAt(line: CString, i: nat, n: int, sep: char, tail: string) returns (next: nat)
    requires sep == ' ' || sep == '\n'
    requires |tail| == 0 || !IsSpace(tail[0])
    requires i + |DecimalString(n)| + 1 + |tail| == |line| && line[i..] == DecimalString(n) + [sep] + tail
    ensures StrToL(line, i) == Conversion(n, i + |DecimalString(n)|)
    ensures next == i + |DecimalString(n)| + 1 == SkipSpaces(line, i + |DecimalString(n)|)
    ensures line[next..] == tail
  {
    var d := DecimalString(n);
    var e := i + |d|;
    assert forall k :: 0 <= k < |d| ==> line[i + k] == d[k];
    assert line[i..e] == d;
    assert line[e] == sep;
    StrToLReadsDecimal(line, i, n);
    next := e + 1;
    assert line[next..] == tail by {
      assert forall k :: 0 <= k < |tail| ==> line[next + k] == tail[k];
    }
    assert SkipSpaces(line, e) == SkipSpaces(line, next) == next;
  }

  /**
   * A written report is the first level, then a newline after the last
   * level or a space and the report of the remaining levels; it never
   * starts with white space.
   */
  lemma ReportLayout(levels: seq<int>)
    requires |levels| > 0
    ensures |levels| == 1 ==> Report(levels) == DecimalString(levels[0]) + ['\n']
    ensures |levels| > 1 ==> Report(levels) == DecimalString(levels[0]) + [' '] + Report(levels[1..])
    ensures !IsSpace(Report(levels)[0])
  {
    var d := DecimalString(levels[0]);
    assert d[0] == '-' || IsDigit(d[0]);
  }

  /** extract_digits reads back every report written the usual way. */
  lemma RecordOfReport(levels: seq<int>)
    requires |levels| > 0
    ensures Record(Report(levels)) == Scanned(levels, SUCCESS)
  {
    ScanReport(Report(levels), 0, levels, []);
  }

  /** A bare newline, as fgets returns for a blank line, becomes the one level 0. */
  lemma BlankLine()
    ensures Record("\n") == Scanned([0], SUCCESS)
  {
    assert SkipSpaces("\n", 0) == 1;
  }

  /**
   * The body of day_2's read loop for one line: parse it into the empty
   * record, add both tests, and reset the record for the next line. A line
   * that fails to parse stops before the tests.
   */
  method CountLine(line: CString, record: Arrays.Array) returns (ok: bool, one: bool, two: bool)
    requires record.Valid() && record.eleType == Arrays.TypeInt && record.Contents == []
    modifies record, record.list
    ensures record.Valid() && record.eleType == Arrays.TypeInt
    ensures record.list == old(record.list) || fresh(record.list)
    ensures ok <==> Record(line).status == SUCCESS
    ensures ok ==> record.Contents == []
    ensures ok ==> one == Stable(Record(line).values) && two == Damped(Record(line).values)
  {
    one, two := false, false;
    var parsed := ExtractDigits(line, record, -1);
    ghost var r := Record(line);
    assert Outcome(r, -1, true) == r;
    ok := parsed == SUCCESS;
    if !ok {
      return;
    }
    Arrays.InUse(record);
    assert record.Contents == r.values;
    one := IsStable(record.list, record.idx);
    two := IsStableWithDamper(record.list, record.idx, true);
    assert two == Damped(r.values);
    var reset := Arrays.Reset(record);
  }

  /**
   * day_2 once the file is open and the record allocated (every allocation
   * succeeds): each line is read into the empty record, counted by both
   * tests and the record reset; a line that fails to parse ends the run
   * with ERROR_UNKNOWN.
   */
  method Solve(lines: seq<CString>) returns (status: int, part1: int, part2: int)
    ensures status == SUCCESS || status == UNKNOWN
    ensures status == SUCCESS <==> forall k :: 0 <= k < |lines| ==> Record(lines[k]).status == SUCCESS
    ensures status == SUCCESS ==> part1 == SafeCount(lines) && part2 == DampedCount(lines)
  {
    var record := new Arrays.Array(Arrays.TypeInt);
    var sumOne, sumTwo := 0, 0;
    var n := 0;
    while n < |lines|
      invariant 0 <= n <= |lines|
      invariant fresh(record) && fresh(record.list)
      invariant record.Valid() && record.eleType == Arrays.TypeInt && record.Contents == []
      invariant forall k :: 0 <= k < n ==> Record(lines[k]).status == SUCCESS
      invariant sumOne == SafeCount(lines[..n]) && sumTwo == DampedCount(lines[..n])
    {
      var ok, one, two := CountLine(lines[n], record);
      if !ok {
        return UNKNOWN, 0, 0;
      }
      assert lines[..n + 1][..n] == lines[..n];
      sumOne := sumOne + if one then 1 else 0;
      sumTwo := sumTwo + if two then 1 else 0;
      n := n + 1;
    }
    assert lines[..n] == lines;
    status, part1, part2 := SUCCESS, sumOne, sumTwo;
  }
}
