/**
 * The list-distance puzzle of src/day_1.c: each line holds two integers, the
 * two columns are collected into containers and bubble sorted, part one sums
 * the distances between the i-th smallest entries, and part two weights each
 * left entry by how often it occurs in the right column.
 */
module Day1 {
  import opened ErrorCodes
  import opened Wrappers
  import opened CText
  import opened Slots
  import Arrays

  predicate Sorted(s: seq<int>)
  {
    forall p, q :: 0 <= p < q < |s| ==> s[p] <= s[q]
  }

  /** Inserts `x` into the sorted sequence `s` before its first larger entry. */
  function Insert(x: int, s: seq<int>): (r: seq<int>)
    requires Sorted(s)
    ensures Sorted(r) && multiset(r) == multiset(s) + multiset{x} && |r| == |s| + 1
  {
    if |s| == 0 then [x]
    else if x <= s[0] then [x] + s
    else
      var t := Insert(x, s[1..]);
      InsertBehindHead(x, s, t);
      [s[0]] + t
  }

  /** The head of `s` can precede the insertion into the rest of `s` when x is larger. */
  lemma InsertBehindHead(x: int, s: seq<int>, t: seq<int>)
    requires Sorted(s) && |s| > 0 && s[0] < x
    requires Sorted(t) && multiset(t) == multiset(s[1..]) + multiset{x}
    ensures Sorted([s[0]] + t) && multiset([s[0]] + t) == multiset(s) + multiset{x}
  {
    assert s == [s[0]] + s[1..];
    forall k | 0 <= k < |t|
      ensures s[0] <= t[k]
    {
      assert t[k] in multiset(t);
      if t[k] != x {
        assert t[k] in multiset(s[1..]);
        var p :| 0 <= p < |s[1..]| && s[1..][p] == t[k];
        assert s[p + 1] == t[k];
      }
    }
  }

  /** The reference ordering: the entries of `s` in ascending order (insertion sort). */
  function SortSeq(s: seq<int>): (r: seq<int>)
    ensures Sorted(r) && multiset(r) == multiset(s) && |r| == |s|
  {
    if |s| == 0 then []
    else
      assert s == s[..|s| - 1] + [s[|s| - 1]];
      Insert(s[|s| - 1], SortSeq(s[..|s| - 1]))
  }

  /** Two ascending sequences with the same entries are equal: sorting has one answer. */
  lemma {:induction false} SortedUnique(a: seq<int>, b: seq<int>)
    requires Sorted(a) && Sorted(b) && multiset(a) == multiset(b)
    ensures a == b
    decreases |a|
  {
    assert |a| == |multiset(a)| == |multiset(b)| == |b|;
    if |a| > 0 {
      SortedHeads(a, b);
      assert a == [a[0]] + a[1..];
      assert b == [b[0]] + b[1..];
      assert multiset(a[1..]) == multiset(a) - multiset{a[0]};
      assert multiset(b[1..]) == multiset(b) - multiset{b[0]};
      SortedUnique(a[1..], b[1..]);
    }
  }

  /** Two ascending sequences with the same entries start with the same, smallest, entry. */
  lemma SortedHeads(a: seq<int>, b: seq<int>)
    requires Sorted(a) && Sorted(b) && multiset(a) == multiset(b) && |a| > 0 && |b| > 0
    ensures a[0] == b[0]
  {
    assert a[0] in multiset(b);
    var p :| 0 <= p < |b| && b[p] == a[0];
    assert b[0] in multiset(a);
    var q :| 0 <= q < |a| && a[q] == b[0];
  }

  /** Any ascending rearrangement of `s` is the reference ordering of `s`. */
  lemma SortedPermutationIsSortSeq(s: seq<int>, t: seq<int>)
    requires Sorted(t) && multiset(t) == multiset(s)
    ensures t == SortSeq(s)
  {
    SortedUnique(t, SortSeq(s));
  }

  /**
   * bubble_sort: repeatedly swaps adjacent out-of-order slots of the list,
   * moving the largest remaining entry to the end of the unsorted prefix.
   * Only the pointers move; the container's length and capacity stay.
   */
  method BubbleSort(arr: Arrays.Array?)
    requires arr != null ==> arr.Valid()
    modifies if arr == null then {} else {arr, arr.list}
    ensures arr != null ==> arr.Valid() && arr.list == old(arr.list) && arr.idx == old(arr.idx)
    ensures arr != null ==> arr.max == old(arr.max) && arr.eleType == old(arr.eleType)
    ensures arr != null ==> Sorted(arr.Contents) && multiset(arr.Contents) == multiset(old(arr.Contents))
    ensures arr != null && old(arr.idx) <= 0 ==> unchanged(arr) && unchanged(arr.list)
  {
    if arr == null || arr.idx <= 0 {
      return;
    }
    var i := arr.idx - 1;
    while i > 0
      invariant 0 <= i < arr.idx
      invariant arr.Valid() && arr.list == old(arr.list) && arr.idx == old(arr.idx)
      invariant arr.max == old(arr.max) && arr.eleType == old(arr.eleType)
      invariant multiset(arr.Contents) == multiset(old(arr.Contents))
      invariant SortedBeyond(arr.Contents, i)
    {
      BubblePass(arr, i);
      i := i - 1;
    }
  }

  /** Entries after `i` are ascending and none of the entries up to `i` exceeds them. */
  predicate SortedBeyond(s: seq<int>, i: int)
    requires 0 <= i < |s|
  {
    && (forall p, q :: i < p < q < |s| ==> s[p] <= s[q])
    && (forall p, q :: 0 <= p <= i < q < |s| ==> s[p] <= s[q])
  }

  /** One pass of the inner loop of bubble_sort over the slots [0, i]. */
  method BubblePass(arr: Arrays.Array, i: int)
    requires arr.Valid() && 0 < i < arr.idx && SortedBeyond(arr.Contents, i)
    modifies arr, arr.list
    ensures arr.Valid() && arr.list == old(arr.list) && arr.idx == old(arr.idx)
    ensures arr.max == old(arr.max) && arr.eleType == old(arr.eleType)
    ensures multiset(arr.Contents) == multiset(old(arr.Contents))
    ensures SortedBeyond(arr.Contents, i - 1)
  {
    var j := 0;
    while j < i
      invariant 0 <= j <= i
      invariant arr.Valid() && arr.list == old(arr.list) && arr.idx == old(arr.idx)
      invariant arr.max == old(arr.max) && arr.eleType == old(arr.eleType)
      invariant multiset(arr.Contents) == multiset(old(arr.Contents))
      invariant SortedBeyond(arr.Contents, i)
      invariant forall p :: 0 <= p < j ==> arr.Contents[p] <= arr.Contents[j]
    {
      if arr.list[j].value > arr.list[j + 1].value {
        SwapSlots(arr, j, i);
      }
      j := j + 1;
    }
  }

  /** Exchanges the slots j and j + 1 (both at most i), keeping the order beyond i. */
  method SwapSlots(arr: Arrays.Array, j: int, i: int)
    requires arr.Valid() && 0 <= j < i < arr.idx && SortedBeyond(arr.Contents, i)
    modifies arr, arr.list
    ensures arr.Valid() && arr.list == old(arr.list) && arr.idx == old(arr.idx)
    ensures arr.max == old(arr.max) && arr.eleType == old(arr.eleType)
    ensures arr.Contents == old(arr.Contents)[j := old(arr.Contents[j + 1])][j + 1 := old(arr.Contents[j])]
    ensures multiset(arr.Contents) == multiset(old(arr.Contents))
    ensures SortedBeyond(arr.Contents, i)
  {
    arr.list[j], arr.list[j + 1] := arr.list[j + 1], arr.list[j];
    SwapKeepsEntries(arr.Contents, j);
    arr.Contents := arr.Contents[j := arr.Contents[j + 1]][j + 1 := arr.Contents[j]];
  }

  /** Swapping two neighbouring entries keeps the multiset of entries. */
  lemma SwapKeepsEntries(s: seq<int>, j: nat)
    requires j + 1 < |s|
    ensures multiset(s[j := s[j + 1]][j + 1 := s[j]]) == multiset(s)
  {
    var t := s[j := s[j + 1]][j + 1 := s[j]];
    assert s == s[..j] + [s[j], s[j + 1]] + s[j + 2..];
    assert t == s[..j] + [s[j + 1], s[j]] + s[j + 2..];
  }

  /**
   * How many entries equal `num` the scan of similarity_score counts: it skips
   * ELEMENT_NOT_FOUND entries and stops at the first entry larger than `num`.
   */
  function Tally(num: int, s: seq<int>): (n: nat)
    ensures n <= multiset(s)[num]
  {
    if |s| == 0 then 0
    else
      assert s == [s[0]] + s[1..];
      if s[0] == ELEMENT_NOT_FOUND then Tally(num, s[1..])
      else if s[0] > num then 0
      else (if s[0] == num then 1 else 0) + Tally(num, s[1..])
  }

  /** One entry of the scan: skipped, stopping, or counted when equal to `num`. */
  lemma TallyStep(num: int, s: seq<int>, i: nat)
    requires i < |s|
    ensures Tally(num, s[i..]) ==
      if s[i] == ELEMENT_NOT_FOUND then Tally(num, s[i + 1..])
      else if s[i] > num then 0
      else (if s[i] == num then 1 else 0) + Tally(num, s[i + 1..])
  {
    assert s[i..][1..] == s[i + 1..];
  }

  /** On an ascending column, the scan counts every occurrence of a non-negative `num`. */
  lemma {:induction false} TallyOnSorted(num: int, s: seq<int>)
    requires Sorted(s) && num >= 0
    ensures Tally(num, s) == multiset(s)[num]
  {
    if |s| > 0 {
      assert s == [s[0]] + s[1..];
      if s[0] > num {
        assert forall k :: 0 <= k < |s| ==> s[k] != num;
        assert num !in multiset(s);
      } else {
        TallyOnSorted(num, s[1..]);
      }
    }
  }

  /** What similarity_score returns for `num` against a column. */
  function Score(num: int, s: seq<int>): int
  {
    if num < 0 || |s| == 0 then 0 else Tally(num, s) * num
  }

  /**
   * similarity_score: 0 for a negative `num`, a NULL list or a non-positive
   * size; otherwise `num` times the count of the scan.
   */
  method SimilarityScore(num: int, list: array?<Slot<int>>, size: int) returns (score: int)
    requires list != null && size > 0 ==> size <= list.Length && forall k :: 0 <= k < size ==> list[k].Full?
    ensures num < 0 || list == null || size <= 0 ==> score == 0
    ensures num >= 0 && list != null && size > 0 ==> score == Score(num, Values(list[..size]))
  {
    if num < 0 || list == null || size <= 0 {
      return 0;
    }
    ghost var s := Values(list[..size]);
    var count := 0;
    var idx := 0;
    while idx < size
      invariant 0 <= idx <= size
      invariant count + Tally(num, s[idx..]) == Tally(num, s)
    {
      TallyStep(num, s, idx);
      assert list[idx].value == list[..size][idx].value == s[idx];
      if list[idx].value == ELEMENT_NOT_FOUND {
        idx := idx + 1;
        continue;
      }
      if list[idx].value > num {
        break;
      }
      if list[idx].value == num {
        count := count + 1;
      }
      idx := idx + 1;
    }
    score := count * num;
  }

  /** sscanf(line, "%d %d"): two integers, each after optional white space, or nothing. */
  function ScanPair(line: CString): (r: Option<(int, int)>)
    ensures r.Some? ==> 0 < StrToL(line, 0).end < |line|
  {
    var first := StrToL(line, 0);
    if first.end == 0 then None
    else
      var second := StrToL(line, first.end);
      if second.end == first.end then None
      else Some((first.value, second.value))
  }

  /** A line of the puzzle input: two integers apart by a run of spaces, then the newline. */
  predicate PairLine(line: CString, a: int, gap: string, b: int)
  {
    && |gap| > 0 && (forall k :: 0 <= k < |gap| ==> gap[k] == ' ')
    && line == DecimalString(a) + gap + DecimalString(b) + "\n"
  }

  /** sscanf reads both integers of such a line back. */
  lemma ScanPairReadsPair(line: CString, a: int, gap: string, b: int)
    requires PairLine(line, a, gap, b)
    ensures ScanPair(line) == Some((a, b))
  {
    var da, db := DecimalString(a), DecimalString(b);
    var i, j := |da|, |da| + |gap|;
    assert line[..i] == da;
    assert line[i] == gap[0];
    StrToLReadsDecimal(line, 0, a);
    assert line[j..j + |db|] == db;
    assert line[j + |db|] == '\n';
    StrToLReadsDecimal(line, j, b);
    forall k | i <= k < j
      ensures IsSpace(At(line, k))
    {
      assert line[k] == gap[k - i];
    }
    SkipSpacesRun(line, i, j);
  }

  /** A line holding a single integer is not a pair: sscanf matches fewer than two items. */
  lemma ScanPairOfOneInteger(line: CString, a: int)
    requires line == DecimalString(a) + "\n"
    ensures ScanPair(line) == None
  {
    var da := DecimalString(a);
    assert line[..|da|] == da;
    StrToLReadsDecimal(line, 0, a);
    assert IsSpace(At(line, |da|));
    SkipSpacesRun(line, |da|, |da| + 1);
    assert StrToL(line, |da| + 1).end == |da| + 1;
  }

  /** The two columns of the input, or None when a line does not hold two integers. */
  function Columns(lines: seq<CString>): (r: Option<(seq<int>, seq<int>)>)
    ensures r.Some? ==> |r.value.0| == |r.value.1| == |lines|
    ensures r.Some? <==> forall k :: 0 <= k < |lines| ==> ScanPair(lines[k]).Some?
  {
    if |lines| == 0 then Some(([], []))
    else
      assert forall k :: 0 <= k < |lines| - 1 ==> lines[..|lines| - 1][k] == lines[k];
      var rest := Columns(lines[..|lines| - 1]);
      var last := ScanPair(lines[|lines| - 1]);
      if rest.None? || last.None? then
        None
      else Some((rest.value.0 + [last.value.0], rest.value.1 + [last.value.1]))
  }

  /** Part one: the sum of |a_i - b_i|. */
  function Distance(a: seq<int>, b: seq<int>): int
    requires |a| == |b|
  {
    if |a| == 0 then 0
    else Distance(a[..|a| - 1], b[..|b| - 1]) + (if a[|a| - 1] >= b[|b| - 1] then a[|a| - 1] - b[|b| - 1] else b[|b| - 1] - a[|a| - 1])
  }

  /** The distance is never negative and is zero between a column and itself. */
  lemma {:induction false} DistanceProperties(a: seq<int>, b: seq<int>)
    requires |a| == |b|
    ensures Distance(a, b) >= 0
    ensures a == b ==> Distance(a, b) == 0
  {
    if |a| > 0 {
      DistanceProperties(a[..|a| - 1], b[..|b| - 1]);
    }
  }

  /** Part two: the sum of Score(a_i, b). */
  function Similarity(a: seq<int>, b: seq<int>): int
  {
    if |a| == 0 then 0 else Similarity(a[..|a| - 1], b) + Score(a[|a| - 1], b)
  }

  /** Each non-negative left entry weighted by its number of occurrences in the right column. */
  function Weighted(a: seq<int>, b: seq<int>): int
  {
    if |a| == 0 then 0
    else Weighted(a[..|a| - 1], b) + (if a[|a| - 1] < 0 then 0 else a[|a| - 1] * multiset(b)[a[|a| - 1]])
  }

  /** On an ascending right column, part two is the occurrence-weighted sum. */
  lemma {:induction false} SimilarityOnSorted(a: seq<int>, b: seq<int>)
    requires Sorted(b)
    ensures Similarity(a, b) == Weighted(a, b)
  {
    if |a| > 0 {
      SimilarityOnSorted(a[..|a| - 1], b);
      var x := a[|a| - 1];
      if x >= 0 {
        TallyOnSorted(x, b);
      }
    }
  }

  /**
   * The reading loop of day_1: each line's two integers are appended to the
   * two fresh containers, until a line does not hold two integers.
   */
  method ReadColumns(lines: seq<CString>) returns (ok: bool, one: Arrays.Array, two: Arrays.Array)
    ensures fresh(one) && fresh(one.list) && fresh(two) && fresh(two.list)
    ensures one != two && one.list != two.list
    ensures one.Valid() && two.Valid() && one.eleType == two.eleType == Arrays.TypeInt
    ensures ok <==> Columns(lines).Some?
    ensures ok ==> Columns(lines).value == (one.Contents, two.Contents)
  {
    one := new Arrays.Array(Arrays.TypeInt);
    two := new Arrays.Array(Arrays.TypeInt);
    var k := 0;
    while k < |lines|
      invariant 0 <= k <= |lines|
      invariant one.Valid() && two.Valid() && one.eleType == two.eleType == Arrays.TypeInt
      invariant one != two && one.list != two.list
      invariant fresh(one) && fresh(one.list) && fresh(two) && fresh(two.list)
      invariant Columns(lines[..k]).Some? && Columns(lines[..k]).value == (one.Contents, two.Contents)
    {
      ColumnsSnoc(lines, k);
      var pair := ScanPair(lines[k]);
      if pair.None? {
        return false, one, two;
      }
      AppendPair(one, two, pair.value.0, pair.value.1);
      k := k + 1;
    }
    assert lines[..k] == lines;
    ok := true;
  }

  /** One more line extends both columns by its pair, or ends them when it holds no pair. */
  lemma ColumnsSnoc(lines: seq<CString>, k: nat)
    requires k < |lines|
    ensures var c, p := Columns(lines[..k]), ScanPair(lines[k]);
      Columns(lines[..k + 1]) == if c.None? || p.None? then None else Some((c.value.0 + [p.value.0], c.value.1 + [p.value.1]))
    ensures ScanPair(lines[k]).None? ==> Columns(lines).None?
  {
    assert lines[..k + 1][..k] == lines[..k];
  }

  /** The two array_add calls of day_1's reading loop; with memory available both succeed. */
  method AppendPair(one: Arrays.Array, two: Arrays.Array, x: int, y: int)
    requires one.Valid() && two.Valid() && one.eleType == two.eleType == Arrays.TypeInt
    requires one != two && one.list != two.list
    modifies one, one.list, two, two.list
    ensures one.Valid() && two.Valid() && one.eleType == two.eleType == Arrays.TypeInt
    ensures one != two && one.list != two.list
    ensures one.list == old(one.list) || fresh(one.list)
    ensures two.list == old(two.list) || fresh(two.list)
    ensures one.Contents == old(one.Contents) + [x] && two.Contents == old(two.Contents) + [y]
  {
    var s1 := Arrays.Add(one, x, true, true);
    var s2 := Arrays.Add(two, y, true, true);
  }

  /** The two bubble_sort calls of day_1: each column ends ascending, with the same entries. */
  method SortBoth(one: Arrays.Array, two: Arrays.Array)
    requires one.Valid() && two.Valid() && one != two && one.list != two.list
    modifies one, one.list, two, two.list
    ensures one.Valid() && two.Valid() && one.idx == old(one.idx) && two.idx == old(two.idx)
    ensures Sorted(one.Contents) && multiset(one.Contents) == multiset(old(one.Contents))
    ensures Sorted(two.Contents) && multiset(two.Contents) == multiset(old(two.Contents))
  {
    BubbleSort(one);
    BubbleSort(two);
  }

  /** The part-one loop of day_1 over two containers of equal length. */
  method SumDistances(one: Arrays.Array, two: Arrays.Array) returns (sum: int)
    requires one.Valid() && two.Valid() && one.idx == two.idx
    ensures sum == Distance(one.Contents, two.Contents)
  {
    sum := 0;
    var idx := 0;
    while idx < one.idx
      invariant 0 <= idx <= one.idx
      invariant sum == Distance(one.Contents[..idx], two.Contents[..idx])
    {
      assert one.Contents[..idx + 1][..idx] == one.Contents[..idx];
      assert two.Contents[..idx + 1][..idx] == two.Contents[..idx];
      var x, y := one.list[idx].value, two.list[idx].value;
      sum := sum + (if x >= y then x - y else y - x);
      idx := idx + 1;
    }
    assert one.Contents[..idx] == one.Contents && two.Contents[..idx] == two.Contents;
  }

  /** The part-two loop of day_1: similarity_score of every left entry against the right list. */
  method SumScores(one: Arrays.Array, two: Arrays.Array) returns (sum: int)
    requires one.Valid() && two.Valid()
    ensures sum == Similarity(one.Contents, two.Contents)
  {
    assert Values(two.list[..two.idx]) == two.Contents;
    sum := 0;
    var idx := 0;
    while idx < one.idx
      invariant 0 <= idx <= one.idx
      invariant sum == Similarity(one.Contents[..idx], two.Contents)
    {
      assert one.Contents[..idx + 1][..idx] == one.Contents[..idx];
      var score := SimilarityScore(one.list[idx].value, two.list, two.idx);
      sum := sum + score;
      idx := idx + 1;
    }
    assert one.Contents[..idx] == one.Contents;
  }

  /**
   * day_1 on the lines of a file that opens: ERROR_UNKNOWN as soon as a line
   * does not hold two integers; otherwise both columns sorted and both parts.
   */
  method Solve(lines: seq<CString>) returns (status: int, part1: int, part2: int)
    ensures status == SUCCESS || status == UNKNOWN
    ensures status == SUCCESS <==> Columns(lines).Some?
    ensures status == SUCCESS ==>
      var (left, right) := Columns(lines).value;
      && part1 == Distance(SortSeq(left), SortSeq(right))
      && part2 == Similarity(SortSeq(left), SortSeq(right))
  {
    var ok, one, two := ReadColumns(lines);
    if !ok {
      return UNKNOWN, 0, 0;
    }
    ghost var left, right := one.Contents, two.Contents;
    assert one.idx == two.idx;
    SortBoth(one, two);
    ghost var sortedLeft, sortedRight := one.Contents, two.Contents;
    part1 := SumDistances(one, two);
    part2 := SumScores(one, two);
    SortedPermutationIsSortSeq(left, sortedLeft);
    SortedPermutationIsSortSeq(right, sortedRight);
    status := SUCCESS;
  }
}
