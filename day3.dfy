/**
 * The corrupted-memory puzzle of src/day_3.c. Each line is searched for
 * `mul(a,b)`, `do()` and `don't()`; every well-formed multiplication stores
 * its two operands and the current enable flag in three containers of
 * src/aux.c. Part one sums the products, part two only the enabled ones.
 */
module Day3 {
  import opened ErrorCodes
  import opened Wrappers
  import opened CText
  import opened Slots
  import AuxArrays

  type Byte = AuxArrays.Byte
  type Bytes = AuxArrays.Bytes

  const Two31: int := 0x8000_0000
  const Two32: int := 0x1_0000_0000

  /** The values of a 32-bit C int. */
  type CInt = n: int | -Two31 <= n < Two31

  /** The (int) cast of a long: the value modulo 2^32, read as two's complement. */
  function Wrap(n: int): (r: CInt)
    ensures (n - r) % Two32 == 0
    ensures -Two31 <= n < Two31 ==> r == n
  {
    var u := n % Two32;
    if u >= Two31 then u - Two32 else u
  }

  /** The memory image of an int on a little-endian target: four bytes, least significant first. */
  function IntBytes(n: CInt): (b: Bytes)
    ensures |b| == 4
  {
    var u0 := n % Two32;
    var u1 := u0 / 0x100;
    var u2 := u1 / 0x100;
    [u0 % 0x100, u1 % 0x100, u2 % 0x100, u2 / 0x100]
  }

  /** Reading four bytes through an int pointer. */
  function BytesInt(b: Bytes): CInt
    requires |b| == 4
  {
    var u: int := (b[0] as int) + 0x100 * ((b[1] as int) + 0x100 * ((b[2] as int) + 0x100 * (b[3] as int)));
    if u >= Two31 then u - Two32 else u
  }

  lemma Split(x: int)
    ensures x == x % 0x100 + 0x100 * (x / 0x100)
  {
  }

  lemma Join(x: int, lo: int, hi: int)
    requires 0 <= lo < 0x100 && x == lo + 0x100 * hi
    ensures x % 0x100 == lo && x / 0x100 == hi
  {
  }

  /** An int stored byte by byte reads back as itself. */
  lemma BytesIntOfIntBytes(n: CInt)
    ensures BytesInt(IntBytes(n)) == n
  {
    var u0 := n % Two32;
    Split(u0);
    Split(u0 / 0x100);
    Split(u0 / 0x100 / 0x100);
  }

  /** Every four bytes are the image of the int they read as. */
  lemma IntBytesOfBytesInt(b: Bytes)
    requires |b| == 4
    ensures IntBytes(BytesInt(b)) == b
  {
    var u2: int := (b[2] as int) + 0x100 * (b[3] as int);
    var u1: int := (b[1] as int) + 0x100 * u2;
    var u0: int := (b[0] as int) + 0x100 * u1;
    assert BytesInt(b) % Two32 == u0;
    Join(u0, b[0] as int, u1);
    Join(u1, b[1] as int, u2);
    Join(u2, b[2] as int, b[3] as int);
  }

  /**
   * The four bytes array_add copies from &b_do_execute with sizeof(int): the
   * bool itself and the three padding bytes after it in PatternData, which
   * the calloc of patterndata_initialization zeroed.
   */
  function FlagBytes(flag: bool): (b: Bytes)
    ensures |b| == 4 && b == IntBytes(if flag then 1 else 0)
    ensures BytesInt(b) == if flag then 1 else 0
  {
    [if flag then 1 else 0, 0, 0, 0]
  }

  /**
   * One operand of matches_pattern: strtol at position i must convert at
   * least one digit, and the character where it stops must be `sep`. The
   * result holds the value and the position of `sep`.
   */
  function Operand(s: CString, i: nat, sep: char): (r: Option<(int, nat)>)
    ensures r.Some? ==> i < r.value.1 <= |s| && At(s, r.value.1) == sep
  {
    var x := StrToL(s, i);
    if x.end == i || At(s, x.end) != sep then None else Some((x.value, x.end))
  }

  /**
   * matches_pattern at position p: the text starts with "mul(", then comes
   * an operand closed by ',' and an operand closed by ')'. The result holds
   * the two long values strtol returned.
   */
  function MatchMul(s: CString, p: nat): (r: Option<(int, int)>)
    ensures r.Some? ==> OccursAt(s, "mul(", p)
  {
    if !OccursAt(s, "mul(", p) then None
    else
      match Operand(s, p + 4, ',')
      case None => None
      case Some((x, comma)) =>
        match Operand(s, comma + 1, ')')
        case None => None
        case Some((y, _)) => Some((x, y))
  }

  /** The text of a multiplication instruction with the operands x and y. */
  function MulText(x: int, y: int): string
  {
    "mul(" + DecimalString(x) + "," + DecimalString(y) + ")"
  }

  /** A piece of a text found at position p is found at the matching offset. */
  lemma Piece(s: string, p: nat, t: string, a: nat, b: nat)
    requires p + |t| <= |s| && s[p..p + |t|] == t && a <= b <= |t|
    ensures s[p + a..p + b] == t[a..b]
  {
    forall k | 0 <= k < b - a
      ensures s[p + a..p + b][k] == t[a..b][k]
    {
      assert s[p + a..p + b][k] == s[p..p + |t|][a + k];
    }
  }

  /** Any decimal operands, of any length and either sign, are read back from their rendering. */
  lemma MatchMulReadsMulText(s: CString, p: nat, x: int, y: int)
    requires p + |MulText(x, y)| <= |s| && s[p..p + |MulText(x, y)|] == MulText(x, y)
    ensures MatchMul(s, p) == Some((x, y))
  {
    MulTextPieces(s, p, DecimalString(x), DecimalString(y));
    MatchMulOfPieces(s, p, x, y);
  }

  /** The prefix, both renderings and their separators in place make the match. */
  lemma MatchMulOfPieces(s: CString, p: nat, x: int, y: int)
    requires var dx, dy := DecimalString(x), DecimalString(y);
      && p + 6 + |dx| + |dy| <= |s|
      && s[p..p + 4] == "mul(" && s[p + 4..p + 4 + |dx|] == dx && s[p + 4 + |dx|] == ','
      && s[p + 5 + |dx|..p + 5 + |dx| + |dy|] == dy && s[p + 5 + |dx| + |dy|] == ')'
    ensures MatchMul(s, p) == Some((x, y))
  {
    var dx, dy := DecimalString(x), DecimalString(y);
    var i := p + 4;
    var j := i + |dx| + 1;
    assert OccursAt(s, "mul(", p);
    OperandReadsDecimal(s, i, x, ',');
    OperandReadsDecimal(s, j, y, ')');
    MatchMulOfOperands(s, p, x, j - 1, y, j + |dy|);
  }

  /** The prefix and both operands in place make the match. */
  lemma MatchMulOfOperands(s: CString, p: nat, x: int, comma: nat, y: int, close: nat)
    requires OccursAt(s, "mul(", p)
    requires Operand(s, p + 4, ',') == Some((x, comma)) && Operand(s, comma + 1, ')') == Some((y, close))
    ensures MatchMul(s, p) == Some((x, y))
  {
  }

  /** An operand written in decimal and closed by its separator is read back. */
  lemma OperandReadsDecimal(s: CString, i: nat, n: int, sep: char)
    requires i + |DecimalString(n)| < |s| && s[i..i + |DecimalString(n)|] == DecimalString(n)
    requires s[i + |DecimalString(n)|] == sep && !IsDigit(sep)
    ensures Operand(s, i, sep) == Some((n, i + |DecimalString(n)|))
  {
    StrToLReadsDecimal(s, i, n);
  }

  /** Where the parts of an instruction text lie once the text is found at p. */
  lemma MulTextPieces(s: string, p: nat, dx: string, dy: string)
    requires var t := "mul(" + dx + "," + dy + ")"; p + |t| <= |s| && s[p..p + |t|] == t
    ensures p + 6 + |dx| + |dy| <= |s|
    ensures s[p..p + 4] == "mul(" && s[p + 4..p + 4 + |dx|] == dx && s[p + 4 + |dx|] == ','
    ensures s[p + 5 + |dx|..p + 5 + |dx| + |dy|] == dy && s[p + 5 + |dx| + |dy|] == ')'
  {
    var t := "mul(" + dx + "," + dy + ")";
    Piece(s, p, t, 0, 4);
    assert t[..4] == "mul(";
    Piece(s, p, t, 4, 4 + |dx|);
    assert t[4..4 + |dx|] == dx;
    assert t[4 + |dx|] == ',';
    assert s[p + 4 + |dx|] == s[p..p + |t|][4 + |dx|];
    Piece(s, p, t, 5 + |dx|, 5 + |dx| + |dy|);
    assert t[5 + |dx|..5 + |dx| + |dy|] == dy;
    assert t[5 + |dx| + |dy|] == ')';
    assert s[p + 5 + |dx| + |dy|] == s[p..p + |t|][5 + |dx| + |dy|];
  }

  /**
   * matches_pattern: the "mul(" prefix, then each operand read by strtol,
   * cast to int and checked for the separator that must follow it.
   */
  method MatchesPattern(s: CString, p: nat) returns (ok: bool, a: CInt, b: CInt)
    ensures ok <==> MatchMul(s, p).Some?
    ensures ok ==> a == Wrap(MatchMul(s, p).value.0) && b == Wrap(MatchMul(s, p).value.1)
  {
    ok, a, b := false, 0, 0;
    if !OccursAt(s, "mul(", p) {
      return;
    }
    var str := p + 4;
    var x := StrToL(s, str);
    a := Wrap(x.value);
    if x.end == str || At(s, x.end) != ',' {
      return;
    }
    str := x.end + 1;
    var y := StrToL(s, str);
    b := Wrap(y.value);
    if y.end == str || At(s, y.end) != ')' {
      return;
    }
    ok := true;
  }

  /** One recorded multiplication: both operands as ints and the enable flag when it was found. */
  datatype Entry = Entry(a: CInt, b: CInt, enabled: bool)

  /** The result of scanning: the entries recorded so far and the enable flag. */
  datatype Scan = Scan(entries: seq<Entry>, enabled: bool)

  /** No instruction starts at position k. */
  predicate Quiet(s: CString, k: nat)
  {
    !OccursAt(s, "mul(", k) && !OccursAt(s, "do()", k) && !OccursAt(s, "don't()", k)
  }

  /**
   * The reference scan of one line: every position in turn, where a
   * well-formed multiplication records an entry, "do()" enables and
   * "don't()" disables. `done` and `flag` are the entries and the flag so far.
   */
  function Run(s: CString, i: nat, flag: bool, done: seq<Entry>): Scan
    decreases |s| - i, 1
  {
    if i >= |s| then Scan(done, flag) else Step(s, i, flag, done)
  }

  /** The scan from position i < |s|: the instruction at i, if any, then the rest. */
  function Step(s: CString, i: nat, flag: bool, done: seq<Entry>): Scan
    requires i < |s|
    decreases |s| - i, 0
  {
    if OccursAt(s, "mul(", i) then
      match MatchMul(s, i)
      case Some((x, y)) => Run(s, i + 1, flag, done + [Entry(Wrap(x), Wrap(y), flag)])
      case None => Run(s, i + 1, flag, done)
    else if OccursAt(s, "do()", i) then Run(s, i + 1, true, done)
    else if OccursAt(s, "don't()", i) then Run(s, i + 1, false, done)
    else Run(s, i + 1, flag, done)
  }

  /** Scanning only ever appends to the entries already recorded. */
  lemma {:induction false} RunKeeps(s: CString, i: nat, flag: bool, done: seq<Entry>)
    ensures |done| <= |Run(s, i, flag, done).entries|
    ensures Run(s, i, flag, done).entries[..|done|] == done
    decreases |s| - i
  {
    if i < |s| {
      if OccursAt(s, "mul(", i) && MatchMul(s, i).Some? {
        var (x, y) := MatchMul(s, i).value;
        var more := done + [Entry(Wrap(x), Wrap(y), flag)];
        RunKeeps(s, i + 1, flag, more);
        assert more[..|done|] == done;
      } else if OccursAt(s, "mul(", i) || Quiet(s, i) {
        RunKeeps(s, i + 1, flag, done);
      } else if OccursAt(s, "do()", i) {
        RunKeeps(s, i + 1, true, done);
      } else {
        RunKeeps(s, i + 1, false, done);
      }
    }
  }

  /** Positions where no instruction starts change nothing. */
  lemma {:induction false} RunSkips(s: CString, i: nat, j: nat, flag: bool, done: seq<Entry>)
    requires i <= j && forall k :: i <= k < j ==> Quiet(s, k)
    ensures Run(s, i, flag, done) == Run(s, j, flag, done)
    decreases j - i
  {
    if i < j && i < |s| {
      assert Quiet(s, i);
      RunSkips(s, i + 1, j, flag, done);
    } else if i < j {
      assert Run(s, i, flag, done) == Scan(done, flag) == Run(s, j, flag, done);
    }
  }

  /** The bytes an entry adds to container c: 0 the multiplicand, 1 the multiplier, 2 the flag. */
  function Field(e: Entry, c: nat): (b: Bytes)
    ensures |b| == 4
  {
    if c == 0 then IntBytes(e.a) else if c == 1 then IntBytes(e.b) else FlagBytes(e.enabled)
  }

  /** What container c holds for the entries es, in order. */
  function Column(es: seq<Entry>, c: nat): (r: seq<Bytes>)
    ensures |r| == |es| && Words(r)
  {
    if |es| == 0 then [] else Column(es[..|es| - 1], c) + [Field(es[|es| - 1], c)]
  }

  lemma ColumnSnoc(es: seq<Entry>, e: Entry, c: nat)
    ensures Column(es + [e], c) == Column(es, c) + [Field(e, c)]
  {
    assert (es + [e])[..|es|] == es;
  }

  /** Storing one more entry in full extends every container by its field. */
  lemma StoredAllSnoc(st: Columns, es: seq<Entry>, e: Entry)
    ensures StoredAll(st, es + [e]) == Stored(StoredAll(st, es), e, 3)
  {
    ColumnSnoc(es, e, 0);
    ColumnSnoc(es, e, 1);
    ColumnSnoc(es, e, 2);
    assert st.multiplicand + Column(es + [e], 0) == (st.multiplicand + Column(es, 0)) + [Field(e, 0)];
    assert st.multiplier + Column(es + [e], 1) == (st.multiplier + Column(es, 1)) + [Field(e, 1)];
    assert st.conditional + Column(es + [e], 2) == (st.conditional + Column(es, 2)) + [Field(e, 2)];
  }

  /** Every element is one int wide. */
  predicate Words(xs: seq<Bytes>)
  {
    forall i | 0 <= i < |xs| :: |xs[i]| == 4
  }

  /** The contents of the three containers and the enable flag. */
  datatype Columns = Columns(multiplicand: seq<Bytes>, multiplier: seq<Bytes>, conditional: seq<Bytes>, enabled: bool)

  /** The first n of the three containers, in call order, receive their field of e. */
  function Stored(st: Columns, e: Entry, n: nat): Columns
  {
    Columns(
      st.multiplicand + (if 0 < n then [Field(e, 0)] else []),
      st.multiplier + (if 1 < n then [Field(e, 1)] else []),
      st.conditional + (if 2 < n then [Field(e, 2)] else []),
      st.enabled)
  }

  /** All three containers receive their fields of the entries es. */
  function StoredAll(st: Columns, es: seq<Entry>): Columns
  {
    Columns(st.multiplicand + Column(es, 0), st.multiplier + Column(es, 1), st.conditional + Column(es, 2), st.enabled)
  }

  /**
   * The effect of find_pattern on one line. The append calls of the line are
   * numbered from 0, three per multiplication (multiplicand, multiplier,
   * flag); when call failAt exists it finds no memory, the scan stops there
   * and the flag is the one that multiplication saw.
   */
  function AfterLine(st: Columns, line: CString, failAt: int): Columns
  {
    Apply(st, Run(line, 0, st.enabled, []), failAt)
  }

  /** The containers after storing the entries of a scan, up to append call failAt if it exists. */
  function Apply(st: Columns, r: Scan, failAt: int): Columns
  {
    if 0 <= failAt < 3 * |r.entries| then Broken(st, r.entries, failAt)
    else StoredAll(st, r.entries).(enabled := r.enabled)
  }

  /**
   * The containers when append call failAt fails: the multiplications before
   * it are stored in full, its own in the containers called before the
   * failure, and the flag is the one it saw.
   */
  function Broken(st: Columns, es: seq<Entry>, failAt: int): Columns
    requires 0 <= failAt < 3 * |es|
  {
    var q := failAt / 3;
    Stored(StoredAll(st, es[..q]), es[q], failAt % 3).(enabled := es[q].enabled)
  }

  /** PatternData: the three containers, filled in lockstep, and the enable flag. */
  class PatternData {
    const multiplicand: AuxArrays.Array
    const multiplier: AuxArrays.Array
    const conditional: AuxArrays.Array
    var doExecute: bool
    /** The structure, its containers and their slot arrays. */
    ghost var Repr: set<object>

    ghost predicate Valid()
      reads this, Repr
    {
      && this in Repr && multiplicand in Repr && multiplier in Repr && conditional in Repr
      && multiplicand.list in Repr && multiplier.list in Repr && conditional.list in Repr
      && Sound()
    }

    /** Three distinct containers with distinct slot arrays, each well formed. */
    ghost predicate Sound()
      reads multiplicand, multiplier, conditional, multiplicand.list, multiplier.list, conditional.list
    {
      && multiplicand != multiplier && multiplier != conditional && multiplicand != conditional
      && multiplicand.list != multiplier.list && multiplier.list != conditional.list
      && multiplicand.list != conditional.list
      && multiplicand.Valid() && multiplier.Valid() && conditional.Valid()
    }

    /** The contents of the containers and the flag. */
    ghost function Model(): Columns
      reads this, multiplicand, multiplier, conditional
    {
      Columns(multiplicand.Contents, multiplier.Contents, conditional.Contents, doExecute)
    }

    /** patterndata_initialization when every allocation succeeds: empty containers, the flag true. */
    constructor ()
      ensures Valid() && fresh(Repr) && Model() == Columns([], [], [], true)
      ensures multiplicand.Tight() && multiplier.Tight() && conditional.Tight()
    {
      doExecute := true;
      conditional := new AuxArrays.Array();
      multiplicand := new AuxArrays.Array();
      multiplier := new AuxArrays.Array();
      new;
      Repr := {this, conditional, multiplicand, multiplier, conditional.list, multiplicand.list, multiplier.list};
    }
  }

  /**
   * patterndata_initialization: NULL when the calloc or one of the three
   * array_initialization calls finds no memory (`allocOk` false).
   */
  method Initialization(allocOk: bool) returns (data: PatternData?)
    ensures data == null <==> !allocOk
    ensures data != null ==> data.Valid() && fresh(data.Repr) && data.Model() == Columns([], [], [], true)
  {
    if !allocOk {
      return null;
    }
    data := new PatternData();
  }

  /**
   * The three strstr calls of find_pattern and the choice of the nearest
   * match: -1 when no instruction starts at or after pos.
   */
  method NextMatch(s: CString, pos: nat) returns (m: int)
    ensures m == -1 ==> forall k :: pos <= k ==> Quiet(s, k)
    ensures m != -1 ==> pos <= m < |s| && !Quiet(s, m) && forall k :: pos <= k < m ==> Quiet(s, k)
  {
    var nextMul := Find(s, "mul(", pos);
    var nextDo := Find(s, "do()", pos);
    var nextDont := Find(s, "don't()", pos);
    m := nextMul;
    if nextDo != -1 && (m == -1 || nextDo < m) {
      m := nextDo;
    }
    if nextDont != -1 && (m == -1 || nextDont < m) {
      m := nextDont;
    }
  }

  /** The prefix tests of find_pattern tell the three instructions apart. */
  lemma Dispatch(s: CString, m: nat)
    requires !Quiet(s, m)
    ensures OccursAt(s, "do(", m) <==> OccursAt(s, "do()", m)
    ensures !OccursAt(s, "mul(", m) && !OccursAt(s, "do(", m) ==> OccursAt(s, "don't(", m) && OccursAt(s, "don't()", m)
  {
    if OccursAt(s, "do()", m) {
      assert s[m..m + 3] == s[m..m + 4][..3];
    }
    if OccursAt(s, "don't()", m) {
      assert s[m + 2] == s[m..m + 7][2] == 'n';
      assert s[m..m + 6] == s[m..m + 7][..6];
    }
    if OccursAt(s, "mul(", m) {
      assert s[m] == s[m..m + 4][0] == 'm';
    }
    if OccursAt(s, "do(", m) {
      assert s[m + 2] == s[m..m + 3][2] == '(';
    }
  }

  /**
   * The three array_add calls for one multiplication, the later ones only
   * when the earlier succeeded. They are append calls calls, calls + 1 and
   * calls + 2 of the line; call failAt finds neither a larger list nor memory
   * for the element.
   */
  method StoreMatch(data: PatternData, a: CInt, b: CInt, calls: int, failAt: int) returns (status: int)
    requires data.Sound()
    modifies data.multiplicand, data.multiplier, data.conditional
    modifies data.multiplicand.list, data.multiplier.list, data.conditional.list
    ensures data.Sound()
    ensures data.multiplicand.list == old(data.multiplicand.list) || fresh(data.multiplicand.list)
    ensures data.multiplier.list == old(data.multiplier.list) || fresh(data.multiplier.list)
    ensures data.conditional.list == old(data.conditional.list) || fresh(data.conditional.list)
    ensures status == SUCCESS <==> !(calls <= failAt < calls + 3)
    ensures data.Model() ==
      Stored(old(data.Model()), Entry(a, b, data.doExecute), if calls <= failAt < calls + 3 then failAt - calls else 3)
  {
    ghost var e := Entry(a, b, data.doExecute);
    ghost var st := data.Model();
    status := Append(data.multiplicand, IntBytes(a), calls != failAt);
    if status == SUCCESS {
      assert data.Model() == Stored(st, e, 1);
      status := Append(data.multiplier, IntBytes(b), calls + 1 != failAt);
      if status == SUCCESS {
        assert data.Model() == Stored(st, e, 2);
        status := Append(data.conditional, FlagBytes(data.doExecute), calls + 2 != failAt);
      }
    }
  }

  /** StoreMatch on a structure whose footprint then takes in the slot arrays the appends allocated. */
  method StoreEntry(data: PatternData, a: CInt, b: CInt, calls: int, failAt: int) returns (status: int)
    requires data.Valid()
    modifies data.Repr
    ensures data.Valid() && fresh(data.Repr - old(data.Repr))
    ensures status == SUCCESS <==> !(calls <= failAt < calls + 3)
    ensures data.Model() ==
      Stored(old(data.Model()), Entry(a, b, data.doExecute), if calls <= failAt < calls + 3 then failAt - calls else 3)
  {
    status := StoreMatch(data, a, b, calls, failAt);
    data.Repr := data.Repr + {data.multiplicand.list, data.multiplier.list, data.conditional.list};
  }

  /** One array_add of an int-sized element; `ok` says whether the memory it needs is there. */
  method Append(arr: AuxArrays.Array, ele: Bytes, ok: bool) returns (status: int)
    requires arr.Valid() && |ele| == 4
    modifies arr, arr.list
    ensures arr.Valid() && (arr.list == old(arr.list) || fresh(arr.list))
    ensures status == SUCCESS <==> ok
    ensures arr.Contents == old(arr.Contents) + if ok then [ele] else []
  {
    OutOfMemory(arr.idx >= arr.max, ok);
    status := AuxArrays.Add(arr, ele, 4, ok, ok);
    assert ele[..4] == ele;
  }

  /**
   * An append that finds memory for both the list and the element succeeds,
   * and one that finds none fails; with one flag for both allocations,
   * array_add as written and corrected report the same status.
   */
  lemma OutOfMemory(full: bool, ok: bool)
    ensures AuxArrays.Stores(full, ok, ok) == ok
    ensures AuxArrays.AddStatus(full, ok, ok) == if ok then EXIT_SUCCESS else EXIT_FAILURE
    ensures AuxArrays.AddStatusAsWritten(full, ok, ok) == AuxArrays.AddStatus(full, ok, ok)
  {
  }

  /**
   * The three array_add calls of one multiplication over array_add as
   * written, when every realloc succeeds and only the multiplicand's malloc
   * may find no memory (`elementOk` false). On a full multiplicand that
   * failure is reported as success, and the chain goes on without it.
   */
  method StoreMatchAsWritten(data: PatternData, a: CInt, b: CInt, elementOk: bool) returns (status: int)
    requires data.Sound()
    modifies data.multiplicand, data.multiplier, data.conditional
    modifies data.multiplicand.list, data.multiplier.list, data.conditional.list
    ensures data.Sound()
    ensures data.multiplicand.list == old(data.multiplicand.list) || fresh(data.multiplicand.list)
    ensures data.multiplier.list == old(data.multiplier.list) || fresh(data.multiplier.list)
    ensures data.conditional.list == old(data.conditional.list) || fresh(data.conditional.list)
    ensures status == SUCCESS <==> elementOk || old(data.multiplicand.idx >= data.multiplicand.max)
    ensures data.multiplicand.Contents == old(data.multiplicand.Contents) + if elementOk then [IntBytes(a)] else []
    ensures data.multiplier.Contents == old(data.multiplier.Contents) + if status == SUCCESS then [IntBytes(b)] else []
    ensures data.conditional.Contents ==
      old(data.conditional.Contents) + if status == SUCCESS then [FlagBytes(data.doExecute)] else []
    ensures old(data.multiplicand.Tight()) && elementOk ==> data.multiplicand.Tight()
  {
    assert IntBytes(a)[..4] == IntBytes(a) && IntBytes(b)[..4] == IntBytes(b);
    assert FlagBytes(data.doExecute)[..4] == FlagBytes(data.doExecute);
    status := AuxArrays.AddAsWritten(data.multiplicand, IntBytes(a), 4, true, elementOk);
    if status == SUCCESS {
      status := AuxArrays.AddAsWritten(data.multiplier, IntBytes(b), 4, true, true);
      if status == SUCCESS {
        status := AuxArrays.AddAsWritten(data.conditional, FlagBytes(data.doExecute), 4, true, true);
      }
    }
  }

  /** The line "mul(1,1)mul(2,2)mul(3,3)" records three enabled multiplications. */
  lemma ThreeMultiplications(s: CString)
    requires s == "mul(1,1)mul(2,2)mul(3,3)"
    ensures Run(s, 0, true, []).entries == [Entry(1, 1, true), Entry(2, 2, true), Entry(3, 3, true)]
  {
    assert DecimalString(1) == "1" && DecimalString(2) == "2" && DecimalString(3) == "3";
    assert s[0..8] == MulText(1, 1) && s[8..16] == MulText(2, 2) && s[16..24] == MulText(3, 3);
    RunOfThree(s, 0, [], Entry(1, 1, true), Entry(2, 2, true), Entry(3, 3, true));
  }

  /** Three multiplications of one-digit operands, back to back from p, make up the rest of the line. */
  lemma RunOfThree(s: CString, p: nat, done: seq<Entry>, e1: Entry, e2: Entry, e3: Entry)
    requires 0 <= e1.a < 10 && 0 <= e1.b < 10 && 0 <= e2.a < 10 && 0 <= e2.b < 10 && 0 <= e3.a < 10 && 0 <= e3.b < 10
    requires e1.enabled && e2.enabled && e3.enabled
    requires |s| == p + 24
    requires s[p..p + 8] == MulText(e1.a, e1.b) && s[p + 8..p + 16] == MulText(e2.a, e2.b)
    requires s[p + 16..p + 24] == MulText(e3.a, e3.b)
    ensures Run(s, p, true, done) == Scan(done + [e1, e2, e3], true)
  {
    var d1, d2, d3 := done + [e1], done + [e1] + [e2], done + [e1] + [e2] + [e3];
    var last := Scan(d3, true);
    assert Run(s, p + 24, true, d3) == last;
    QuietRun(s, p + 17, e3.a, e3.b);
    RunSkips(s, p + 17, p + 24, true, d3);
    RunAtMul(s, p + 16, d2, e3);
    assert Run(s, p + 16, true, d2) == last;
    QuietRun(s, p + 9, e2.a, e2.b);
    RunSkips(s, p + 9, p + 16, true, d2);
    RunAtMul(s, p + 8, d1, e2);
    assert Run(s, p + 8, true, d1) == last;
    QuietRun(s, p + 1, e1.a, e1.b);
    RunSkips(s, p + 1, p + 8, true, d1);
    RunAtMul(s, p, done, e1);
    assert d3 == done + [e1, e2, e3];
  }

  /** No instruction starts inside a multiplication of one-digit operands. */
  lemma QuietRun(s: CString, i: nat, x: int, y: int)
    requires 1 <= i && i + 7 <= |s| && 0 <= x < 10 && 0 <= y < 10
    requires s[i - 1..i + 7] == MulText(x, y)
    ensures forall k :: i <= k < i + 7 ==> Quiet(s, k)
  {
    assert MulText(x, y) == "mul(" + [DigitChar(x)] + "," + [DigitChar(y)] + ")";
    forall k | i <= k < i + 7
      ensures Quiet(s, k)
    {
      assert s[k] == s[i - 1..i + 7][k - i + 1];
      NotAt(s, "mul(", k);
      NotAt(s, "do()", k);
      NotAt(s, "don't()", k);
    }
  }

  /** A pattern does not start where its first character is missing. */
  lemma NotAt(s: CString, pat: string, k: nat)
    requires |pat| > 0 && (k >= |s| || s[k] != pat[0])
    ensures !OccursAt(s, pat, k)
  {
    if k + |pat| <= |s| {
      assert s[k..k + |pat|][0] == s[k];
    }
  }

  /** A multiplication of ints written at position i records its entry and the scan goes on at i + 1. */
  lemma RunAtMul(s: CString, i: nat, done: seq<Entry>, e: Entry)
    requires i + |MulText(e.a, e.b)| <= |s| && s[i..i + |MulText(e.a, e.b)|] == MulText(e.a, e.b)
    ensures Run(s, i, e.enabled, done) == Run(s, i + 1, e.enabled, done + [e])
  {
    MatchMulReadsMulText(s, i, e.a, e.b);
    assert Wrap(e.a) == e.a && Wrap(e.b) == e.b;
  }

  /**
   * find_pattern over array_add as written on the line
   * "mul(1,1)mul(2,2)mul(3,3)", when the third multiplicand's list grows but
   * its malloc finds no memory: every call reports success, so the scan
   * goes on, yet the multiplicand keeps two elements against three in the
   * other containers, and the length check of day_3 sees them out of step.
   */
  method MisreportInDay3(line: CString) returns (status: int, data: PatternData)
    requires line == "mul(1,1)mul(2,2)mul(3,3)"
    ensures status == SUCCESS
    ensures |Run(line, 0, true, []).entries| == |data.multiplier.Contents| == |data.conditional.Contents| == 3
    ensures |data.multiplicand.Contents| == 2
    ensures !InStep(data.Model())
  {
    ThreeMultiplications(line);
    var es := Run(line, 0, true, []).entries;
    data := new PatternData();
    status := StoreMatchAsWritten(data, es[0].a, es[0].b, true);
    status := StoreMatchAsWritten(data, es[1].a, es[1].b, true);
    assert data.multiplicand.idx == 2 == data.multiplicand.max;
    status := StoreMatchAsWritten(data, es[2].a, es[2].b, false);
  }

  /**
   * find_pattern: from the start of the line, jump to the nearest
   * instruction, handle it, and resume one character after its start. A
   * NULL data pointer does nothing.
   */
  method FindPattern(input: CString, data: PatternData?, failAt: int)
    requires data != null ==> data.Valid()
    modifies if data == null then {} else data.Repr
    ensures data != null ==> data.Valid() && fresh(data.Repr - old(data.Repr))
    ensures data != null ==> data.Model() == AfterLine(old(data.Model()), input, failAt)
  {
    if data != null {
      ScanLine(input, data, failAt);
    }
  }

  /** The loop of find_pattern over a non-NULL data pointer. */
  method ScanLine(input: CString, data: PatternData, failAt: int)
    requires data.Valid()
    modifies data.Repr
    ensures data.Valid() && fresh(data.Repr - old(data.Repr))
    ensures data.Model() == AfterLine(old(data.Model()), input, failAt)
  {
    ghost var st := data.Model();
    ghost var all := Run(input, 0, data.doExecute, []);
    ghost var done: seq<Entry> := [];
    var pos := 0;
    var calls := 0;
    while true
      invariant data.Valid() && fresh(data.Repr - old(data.Repr))
      invariant pos <= |input| && calls == 3 * |done| && !(0 <= failAt < calls)
      invariant Run(input, pos, data.doExecute, done) == all
      invariant data.Model() == StoredAll(st, done).(enabled := data.doExecute)
      decreases |input| - pos
    {
      var m := NextMatch(input, pos);
      if m == -1 {
        RunSkips(input, pos, |input|, data.doExecute, done);
        Finished(st, all, done, data.doExecute, failAt);
        break;
      }
      RunSkips(input, pos, m, data.doExecute, done);
      ghost var flag := data.doExecute;
      ghost var before := done;
      var stop;
      stop, calls, done := Visit(input, m, data, calls, failAt, st, done);
      if stop {
        Stopped(st, input, m + 1, before, done, all, failAt);
        break;
      }
      pos := m + 1;
    }
  }

  /**
   * The handling of one instruction at position m: a well-formed
   * multiplication is stored in the three containers, "do(" sets the flag and
   * "don't(" clears it. `stop` reports the failed append that ends the scan;
   * the entry it was storing is then the last of done'.
   */
  method Visit(input: CString, m: nat, data: PatternData, calls: int, failAt: int, ghost st: Columns, ghost done: seq<Entry>)
    returns (stop: bool, calls': int, ghost done': seq<Entry>)
    requires data.Valid() && m < |input| && !Quiet(input, m)
    requires calls == 3 * |done| && !(0 <= failAt < calls)
    requires data.Model() == StoredAll(st, done).(enabled := data.doExecute)
    modifies data.Repr
    ensures data.Valid() && fresh(data.Repr - old(data.Repr))
    ensures Run(input, m, old(data.doExecute), done) == Run(input, m + 1, data.doExecute, done')
    ensures stop ==>
      && |done'| == |done| + 1 && done' == done + [done'[|done|]] && done'[|done|].enabled == data.doExecute
      && calls <= failAt < calls + 3
      && data.Model() == Stored(StoredAll(st, done), done'[|done|], failAt - calls).(enabled := data.doExecute)
    ensures !stop ==>
      && calls' == 3 * |done'| && !(0 <= failAt < calls')
      && data.Model() == StoredAll(st, done').(enabled := data.doExecute)
  {
    stop, calls', done' := false, calls, done;
    Dispatch(input, m);
    if OccursAt(input, "mul(", m) {
      var ok, a, b := MatchesPattern(input, m);
      if ok {
        ghost var e := Entry(a, b, data.doExecute);
        var status := StoreEntry(data, a, b, calls, failAt);
        done' := done + [e];
        if status != SUCCESS {
          return true, calls', done';
        }
        StoredAllSnoc(st, done, e);
        calls' := calls + 3;
      }
    } else if OccursAt(input, "do(", m) {
      data.doExecute := true;
    } else if OccursAt(input, "don't(", m) {
      data.doExecute := false;
    }
  }

  /** A scan that reaches the end of the line with no failed append stores all its entries. */
  lemma Finished(st: Columns, all: Scan, done: seq<Entry>, flag: bool, failAt: int)
    requires all == Scan(done, flag) && !(0 <= failAt < 3 * |done|)
    ensures StoredAll(st, done).(enabled := flag) == Apply(st, all, failAt)
  {
  }

  /**
   * When the append call failAt of the multiplication that extends `before`
   * to `done` fails, the containers hold what Apply describes for the whole
   * scan.
   */
  lemma Stopped(st: Columns, s: CString, i: nat, before: seq<Entry>, done: seq<Entry>, all: Scan, failAt: int)
    requires |done| == |before| + 1 && done == before + [done[|before|]]
    requires Run(s, i, done[|before|].enabled, done) == all
    requires 3 * |before| <= failAt < 3 * |before| + 3
    ensures Stored(StoredAll(st, before), done[|before|], failAt - 3 * |before|).(enabled := done[|before|].enabled)
      == Apply(st, all, failAt)
  {
    RunKeeps(s, i, done[|before|].enabled, done);
    var q := failAt / 3;
    assert q == |before|;
    assert all.entries[..q] == done[..q] == before;
    assert all.entries[q] == done[q];
  }

  /** What patterndata_initialization leaves: three empty containers and the flag set. */
  const Fresh := Columns([], [], [], true)

  /** The three containers hold the same number of elements. */
  predicate InStep(c: Columns)
  {
    |c.multiplicand| == |c.multiplier| == |c.conditional|
  }

  /** Every element of the three containers is one int wide. */
  predicate AllWords(c: Columns)
  {
    Words(c.multiplicand) && Words(c.multiplier) && Words(c.conditional)
  }

  /**
   * The containers after find_pattern ran on every line in turn. Append call
   * failAt of line failLine, if there is one, is the one that finds no
   * memory; every other call finds it.
   */
  function AfterLines(lines: seq<CString>, failLine: int, failAt: int): (c: Columns)
    ensures AllWords(c)
  {
    if |lines| == 0 then Fresh
    else
      var n := |lines| - 1;
      var prev := AfterLines(lines[..n], failLine, failAt);
      var f := if failLine == n then failAt else -1;
      WordsKept(prev, Run(lines[n], 0, prev.enabled, []), f);
      AfterLine(prev, lines[n], f)
  }

  /** Storing entries only ever adds int-wide elements. */
  lemma WordsKept(st: Columns, r: Scan, failAt: int)
    requires AllWords(st)
    ensures AllWords(Apply(st, r, failAt))
  {
    if 0 <= failAt < 3 * |r.entries| {
      var q := failAt / 3;
      StoredAllWords(st, r.entries[..q]);
      StoredWords(StoredAll(st, r.entries[..q]), r.entries[q], failAt % 3);
    } else {
      StoredAllWords(st, r.entries);
    }
  }

  lemma WordsConcat(a: seq<Bytes>, b: seq<Bytes>)
    requires Words(a) && Words(b)
    ensures Words(a + b)
  {
    forall i | 0 <= i < |a + b|
      ensures |(a + b)[i]| == 4
    {
      if i >= |a| {
        assert (a + b)[i] == b[i - |a|];
      }
    }
  }

  lemma StoredAllWords(st: Columns, es: seq<Entry>)
    requires AllWords(st)
    ensures AllWords(StoredAll(st, es))
  {
    WordsConcat(st.multiplicand, Column(es, 0));
    WordsConcat(st.multiplier, Column(es, 1));
    WordsConcat(st.conditional, Column(es, 2));
  }

  lemma StoredWords(st: Columns, e: Entry, n: nat)
    requires AllWords(st)
    ensures AllWords(Stored(st, e, n))
  {
    WordsConcat(st.multiplicand, if 0 < n then [Field(e, 0)] else []);
    WordsConcat(st.multiplier, if 1 < n then [Field(e, 1)] else []);
    WordsConcat(st.conditional, if 2 < n then [Field(e, 2)] else []);
  }

  /** The reference scan of the whole file: the lines in turn, the flag carried from one line to the next. */
  function RunLines(lines: seq<CString>): Scan
  {
    if |lines| == 0 then Scan([], true)
    else
      var r := RunLines(lines[..|lines| - 1]);
      Run(lines[|lines| - 1], 0, r.enabled, r.entries)
  }

  /** Sum of the products of the ints at equal positions, in the order of the summing loop of day_3. */
  function Dot(xs: seq<Bytes>, ys: seq<Bytes>): int
    requires |xs| == |ys| && Words(xs) && Words(ys)
  {
    if |xs| == 0 then 0
    else
      var n := |xs| - 1;
      Dot(xs[..n], ys[..n]) + BytesInt(xs[n]) * BytesInt(ys[n])
  }

  /** Sum of the products of three ints at equal positions. */
  function Dot3(xs: seq<Bytes>, ys: seq<Bytes>, zs: seq<Bytes>): int
    requires |xs| == |ys| == |zs| && Words(xs) && Words(ys) && Words(zs)
  {
    if |xs| == 0 then 0
    else
      var n := |xs| - 1;
      Dot3(xs[..n], ys[..n], zs[..n]) + BytesInt(xs[n]) * BytesInt(ys[n]) * BytesInt(zs[n])
  }

  /** Part one of the puzzle: the sum of all products. */
  function Total(es: seq<Entry>): int
  {
    if |es| == 0 then 0 else Total(es[..|es| - 1]) + es[|es| - 1].a * es[|es| - 1].b
  }

  /** Part two of the puzzle: the sum of the products found while enabled. */
  function EnabledTotal(es: seq<Entry>): int
  {
    if |es| == 0 then 0
    else
      var e := es[|es| - 1];
      EnabledTotal(es[..|es| - 1]) + if e.enabled then e.a * e.b else 0
  }

  /**
   * day_3 on the lines fgets returns: `allocOk` says whether
   * patterndata_initialization finds its memory, and append call failAt of
   * line failLine is the one append that does not. When the containers
   * have different lengths the call fails with the initial ERROR_UNKNOWN.
   */
  method Solve(lines: seq<CString>, allocOk: bool, failLine: int, failAt: int) returns (status: int, part1: int, part2: int)
    ensures !allocOk ==> status == OUT_OF_MEMORY
    ensures allocOk ==> (status == SUCCESS <==> InStep(AfterLines(lines, failLine, failAt)))
    ensures allocOk && status != SUCCESS ==> status == UNKNOWN
    ensures status == SUCCESS ==>
      var c := AfterLines(lines, failLine, failAt);
      && InStep(c)
      && part1 == Dot(c.multiplicand, c.multiplier)
      && part2 == Dot3(c.multiplicand, c.multiplier, c.conditional)
  {
    status, part1, part2 := UNKNOWN, 0, 0;
    var data := Initialization(allocOk);
    if data == null {
      return OUT_OF_MEMORY, 0, 0;
    }
    var n := 0;
    while n < |lines|
      invariant n <= |lines|
      invariant data.Valid() && fresh(data.Repr)
      invariant data.Model() == AfterLines(lines[..n], failLine, failAt)
    {
      FindPattern(lines[n], data, if n == failLine then failAt else -1);
      assert lines[..n + 1][..n] == lines[..n];
      n := n + 1;
    }
    assert lines[..n] == lines;
    ghost var c := data.Model();
    if data.multiplicand.idx != data.multiplier.idx || data.conditional.idx != data.multiplier.idx {
      return;
    }
    part1, part2 := Sums(data);
    status := SUCCESS;
  }

  /** The summing loop of day_3 over containers of equal length. */
  method Sums(data: PatternData) returns (sumOne: int, sumTwo: int)
    requires data.Valid() && InStep(data.Model()) && AllWords(data.Model())
    ensures sumOne == Dot(data.multiplicand.Contents, data.multiplier.Contents)
    ensures sumTwo == Dot3(data.multiplicand.Contents, data.multiplier.Contents, data.conditional.Contents)
  {
    ghost var c := data.Model();
    sumOne, sumTwo := 0, 0;
    var idx := 0;
    while idx < data.multiplicand.idx
      invariant idx <= |c.multiplicand|
      invariant sumOne == Dot(c.multiplicand[..idx], c.multiplier[..idx])
      invariant sumTwo == Dot3(c.multiplicand[..idx], c.multiplier[..idx], c.conditional[..idx])
    {
      var x: int := BytesInt(data.multiplicand.list[idx].value);
      var y: int := BytesInt(data.multiplier.list[idx].value);
      var z: int := BytesInt(data.conditional.list[idx].value);
      assert c.multiplicand[..idx + 1][..idx] == c.multiplicand[..idx];
      assert c.multiplier[..idx + 1][..idx] == c.multiplier[..idx];
      assert c.conditional[..idx + 1][..idx] == c.conditional[..idx];
      sumOne := sumOne + x * y;
      sumTwo := sumTwo + x * y * z;
      idx := idx + 1;
    }
    assert c.multiplicand[..idx] == c.multiplicand;
    assert c.multiplier[..idx] == c.multiplier;
    assert c.conditional[..idx] == c.conditional;
  }

  /** Scanning from a longer list of entries appends the same entries and ends with the same flag. */
  lemma {:induction false} RunAppend(s: CString, i: nat, flag: bool, done: seq<Entry>, more: seq<Entry>)
    ensures Run(s, i, flag, done + more) == Scan(done + Run(s, i, flag, more).entries, Run(s, i, flag, more).enabled)
    decreases |s| - i
  {
    if i < |s| {
      if OccursAt(s, "mul(", i) && MatchMul(s, i).Some? {
        var (x, y) := MatchMul(s, i).value;
        var e := Entry(Wrap(x), Wrap(y), flag);
        RunAppend(s, i + 1, flag, done, more + [e]);
        assert (done + more) + [e] == done + (more + [e]);
      } else if OccursAt(s, "mul(", i) || Quiet(s, i) {
        RunAppend(s, i + 1, flag, done, more);
      } else if OccursAt(s, "do()", i) {
        RunAppend(s, i + 1, true, done, more);
      } else {
        RunAppend(s, i + 1, false, done, more);
      }
    }
  }

  lemma {:induction false} ColumnAppend(a: seq<Entry>, b: seq<Entry>, c: nat)
    ensures Column(a + b, c) == Column(a, c) + Column(b, c)
  {
    if |b| == 0 {
      assert a + b == a;
    } else {
      var n := |b| - 1;
      assert (a + b)[..|a| + n] == a + b[..n];
      ColumnAppend(a, b[..n], c);
    }
  }

  /** Storing two lists of entries one after the other stores their concatenation. */
  lemma StoredAllAppend(st: Columns, a: seq<Entry>, b: seq<Entry>)
    ensures StoredAll(StoredAll(st, a), b) == StoredAll(st, a + b)
  {
    ColumnAppend(a, b, 0);
    ColumnAppend(a, b, 1);
    ColumnAppend(a, b, 2);
    Regrouped(st.multiplicand, Column(a, 0), Column(b, 0), Column(a + b, 0));
    Regrouped(st.multiplier, Column(a, 1), Column(b, 1), Column(a + b, 1));
    Regrouped(st.conditional, Column(a, 2), Column(b, 2), Column(a + b, 2));
  }

  lemma Regrouped(x: seq<Bytes>, y: seq<Bytes>, z: seq<Bytes>, w: seq<Bytes>)
    requires w == y + z
    ensures (x + y) + z == x + w
  {
  }

  /**
   * When every append finds its memory, the containers hold the fields of
   * the entries the reference scan of the whole file records, and the flag it
   * ends with.
   */
  lemma {:induction false} AfterLinesWithoutFailure(lines: seq<CString>, failLine: int, failAt: int)
    requires !(0 <= failLine < |lines|)
    ensures AfterLines(lines, failLine, failAt) == StoredAll(Fresh, RunLines(lines).entries).(enabled := RunLines(lines).enabled)
  {
    if |lines| > 0 {
      var n := |lines| - 1;
      AfterLinesWithoutFailure(lines[..n], failLine, failAt);
      var p := RunLines(lines[..n]);
      var q := Run(lines[n], 0, p.enabled, []);
      RunAppend(lines[n], 0, p.enabled, p.entries, []);
      assert p.entries + [] == p.entries;
      StoredAllAppend(Fresh, p.entries, q.entries);
    }
  }

  /** Reading back the containers of a list of entries sums their products. */
  lemma {:induction false} DotOfColumns(es: seq<Entry>)
    ensures Dot(Column(es, 0), Column(es, 1)) == Total(es)
    ensures Dot3(Column(es, 0), Column(es, 1), Column(es, 2)) == EnabledTotal(es)
  {
    if |es| > 0 {
      var n := |es| - 1;
      var e := es[n];
      DotOfColumns(es[..n]);
      assert Column(es, 0)[..n] == Column(es[..n], 0);
      assert Column(es, 1)[..n] == Column(es[..n], 1);
      assert Column(es, 2)[..n] == Column(es[..n], 2);
      BytesIntOfIntBytes(e.a);
      BytesIntOfIntBytes(e.b);
    }
  }

  /**
   * The answers of day_3 when every allocation succeeds: the containers are
   * in step, part one is the sum of all products of the file and part two
   * the sum of those found while enabled.
   */
  lemma Answers(lines: seq<CString>, failLine: int, failAt: int)
    requires !(0 <= failLine < |lines|)
    ensures var c := AfterLines(lines, failLine, failAt);
      && InStep(c)
      && Dot(c.multiplicand, c.multiplier) == Total(RunLines(lines).entries)
      && Dot3(c.multiplicand, c.multiplier, c.conditional) == EnabledTotal(RunLines(lines).entries)
  {
    AfterLinesWithoutFailure(lines, failLine, failAt);
    var es := RunLines(lines).entries;
    assert [] + Column(es, 0) == Column(es, 0);
    assert [] + Column(es, 1) == Column(es, 1);
    assert [] + Column(es, 2) == Column(es, 2);
    DotOfColumns(es);
  }

  /** Append call failAt of line failLine is reached: the scan of that line records enough multiplications. */
  predicate Fails(lines: seq<CString>, failLine: int, failAt: int)
  {
    && 0 <= failLine < |lines|
    && var prev := AfterLines(lines[..failLine], failLine, failAt);
    0 <= failAt < 3 * |Run(lines[failLine], 0, prev.enabled, []).entries|
  }

  /** The last line of the file acts on the containers the lines before it left. */
  lemma AfterLinesLast(lines: seq<CString>, failLine: int, failAt: int)
    requires |lines| > 0
    ensures var prev := AfterLines(lines[..|lines| - 1], failLine, failAt);
      AfterLines(lines, failLine, failAt)
        == Apply(prev, Run(lines[|lines| - 1], 0, prev.enabled, []), if failLine == |lines| - 1 then failAt else -1)
  {
  }

  /** How far the container lengths drift apart when an append fails. */
  lemma ApplyLengths(st: Columns, r: Scan, failAt: int)
    ensures var c := Apply(st, r, failAt);
      && |c.multiplicand| - |c.multiplier|
        == |st.multiplicand| - |st.multiplier| + (if 0 <= failAt < 3 * |r.entries| && failAt % 3 == 1 then 1 else 0)
      && |c.multiplier| - |c.conditional|
        == |st.multiplier| - |st.conditional| + (if 0 <= failAt < 3 * |r.entries| && failAt % 3 == 2 then 1 else 0)
  {
  }

  /**
   * The containers end out of step exactly when the failed append is the
   * second or the third of a multiplication: a failure at the first loses the
   * multiplication from all three.
   */
  lemma {:induction false} LinesGap(lines: seq<CString>, failLine: int, failAt: int)
    ensures var c := AfterLines(lines, failLine, failAt);
      && |c.multiplicand| - |c.multiplier| == (if Fails(lines, failLine, failAt) && failAt % 3 == 1 then 1 else 0)
      && |c.multiplier| - |c.conditional| == (if Fails(lines, failLine, failAt) && failAt % 3 == 2 then 1 else 0)
  {
    if |lines| > 0 {
      var n := |lines| - 1;
      LinesGap(lines[..n], failLine, failAt);
      var prev := AfterLines(lines[..n], failLine, failAt);
      var r := Run(lines[n], 0, prev.enabled, []);
      var f := if failLine == n then failAt else -1;
      AfterLinesLast(lines, failLine, failAt);
      ApplyLengths(prev, r, f);
      if 0 <= failLine < n {
        assert lines[..n][..failLine] == lines[..failLine];
        assert lines[..n][failLine] == lines[failLine];
        assert Fails(lines, failLine, failAt) == Fails(lines[..n], failLine, failAt);
      } else {
        assert !Fails(lines[..n], failLine, failAt);
        assert Fails(lines, failLine, failAt) == (failLine == n && 0 <= failAt < 3 * |r.entries|);
      }
    }
  }

  /** day_3 detects a failed append exactly when it was the second or third of a multiplication. */
  lemma FailureDetected(lines: seq<CString>, failLine: int, failAt: int)
    ensures InStep(AfterLines(lines, failLine, failAt)) <==> !(Fails(lines, failLine, failAt) && failAt % 3 != 0)
  {
    LinesGap(lines, failLine, failAt);
  }

  /** No line contains "don't()". */
  predicate NoDont(lines: seq<CString>)
  {
    forall j, k | 0 <= j < |lines| && 0 <= k < |lines[j]| :: !OccursAt(lines[j], "don't()", k)
  }

  /** Without "don't()" the flag stays set and every recorded multiplication is enabled. */
  lemma {:induction false} RunEnabled(s: CString, i: nat, done: seq<Entry>)
    requires forall k | 0 <= k < |s| :: !OccursAt(s, "don't()", k)
    requires forall e | e in done :: e.enabled
    ensures Run(s, i, true, done).enabled
    ensures forall e | e in Run(s, i, true, done).entries :: e.enabled
    decreases |s| - i
  {
    if i < |s| {
      if OccursAt(s, "mul(", i) && MatchMul(s, i).Some? {
        var (x, y) := MatchMul(s, i).value;
        RunEnabled(s, i + 1, done + [Entry(Wrap(x), Wrap(y), true)]);
      } else {
        RunEnabled(s, i + 1, done);
      }
    }
  }

  lemma {:induction false} RunLinesEnabled(lines: seq<CString>)
    requires NoDont(lines)
    ensures RunLines(lines).enabled
    ensures forall e | e in RunLines(lines).entries :: e.enabled
  {
    if |lines| > 0 {
      var n := |lines| - 1;
      RunLinesEnabled(lines[..n]);
      assert forall k | 0 <= k < |lines[n]| :: !OccursAt(lines[n], "don't()", k);
      RunEnabled(lines[n], 0, RunLines(lines[..n]).entries);
    }
  }

  lemma {:induction false} EnabledTotalOfEnabled(es: seq<Entry>)
    requires forall e | e in es :: e.enabled
    ensures EnabledTotal(es) == Total(es)
  {
    if |es| > 0 {
      assert es[|es| - 1] in es;
      EnabledTotalOfEnabled(es[..|es| - 1]);
    }
  }

  /** A file without "don't()" gives the same answer to both parts. */
  lemma PartsAgreeWithoutDont(lines: seq<CString>)
    requires NoDont(lines)
    ensures EnabledTotal(RunLines(lines).entries) == Total(RunLines(lines).entries)
  {
    RunLinesEnabled(lines);
    EnabledTotalOfEnabled(RunLines(lines).entries);
  }

  /** strtol lets white space and a sign through: "mul( 2,+3)" is accepted as 2 times 3. */
  lemma LenientOperands()
    ensures MatchMul("mul( 2,+3)", 0) == Some((2, 3))
  {
    var s := "mul( 2,+3)";
    assert OccursAt(s, "mul(", 0);
    assert SkipSpaces(s, 4) == 5;
    assert DigitsEnd(s, 5) == 6;
    assert s[5..6] == "2";
    assert DigitsValue("2") == 2 by { assert "2"[..0] == ""; }
    assert StrToL(s, 4) == Conversion(2, 6);
    assert SkipSpaces(s, 7) == 7;
    assert DigitsEnd(s, 8) == 9;
    assert s[8..9] == "3";
    assert DigitsValue("3") == 3 by { assert "3"[..0] == ""; }
    assert StrToL(s, 7) == Conversion(3, 9);
  }

  /** An operand must be closed by its separator: "mul(4*" is rejected. */
  lemma RejectsWrongSeparator()
    ensures MatchMul("mul(4*", 0) == None
  {
    var s := "mul(4*";
    assert OccursAt(s, "mul(", 0);
    assert DigitsEnd(s, 4) == 5;
    assert s[4..5] == "4";
    assert DigitsValue("4") == 4 by { assert "4"[..0] == ""; }
    assert StrToL(s, 4) == Conversion(4, 5);
  }

  /** White space after an operand is not skipped: "mul(2 ,4)" is rejected. */
  lemma RejectsSpaceAfterOperand()
    ensures MatchMul("mul(2 ,4)", 0) == None
  {
    var s := "mul(2 ,4)";
    assert OccursAt(s, "mul(", 0);
    assert DigitsEnd(s, 4) == 5;
    assert s[4..5] == "2";
    assert DigitsValue("2") == 2 by { assert "2"[..0] == ""; }
    assert StrToL(s, 4) == Conversion(2, 5);
  }

  /** The prefix must be exactly "mul(": "mul ( 2 , 4 )" is rejected. */
  lemma RejectsSpacedPrefix()
    ensures MatchMul("mul ( 2 , 4 )", 0) == None
  {
    var s := "mul ( 2 , 4 )";
    assert s[0..4][3] == ' ';
  }
}
