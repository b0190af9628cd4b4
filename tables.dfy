/**
 * The Table of src/table.c: a fixed number of container rows, all of one
 * element kind. Every row operation checks its row index and touches only
 * the rows it names.
 */
module Tables {
  import opened ErrorCodes
  import opened Wrappers
  import Arrays

  class Table {
    var content: array<Arrays.Array?>
    var numRows: int
    /** The contents of each row, top to bottom. */
    ghost var Rows: seq<seq<int>>
    /** The element kind every row shares. */
    ghost var eleType: Arrays.ElementType
    ghost var Repr: set<object>
    /** The row each container and each slot array belongs to: no two rows share one. */
    ghost var RowOf: map<object?, int>

    ghost predicate Valid()
      reads this, Repr
    {
      && this in Repr && content in Repr
      && content.Length == numRows && numRows > 0 && |Rows| == numRows
      && (forall i :: 0 <= i < numRows ==>
            && content[i] != null && content[i] in Repr && content[i].list in Repr
            && content[i].Valid() && content[i].eleType == eleType
            && content[i].Contents == Rows[i]
            && content[i] in RowOf && RowOf[content[i]] == i
            && content[i].list in RowOf && RowOf[content[i].list] == i)
    }

    /** Builds `rows` fresh, empty rows of the given kind (rows must be positive). */
    constructor (kind: Arrays.ElementType, rows: int)
      requires rows > 0
      ensures Valid() && fresh(Repr)
      ensures numRows == rows && eleType == kind
      ensures Rows == seq(rows, _ => [])
      ensures forall i :: 0 <= i < numRows ==> content[i].max == Arrays.InitialSize
    {
      var c := new Arrays.Array?[rows];
      ghost var r: set<object> := {c};
      ghost var owner: map<object?, int> := map[];
      var i := 0;
      while i < rows
        invariant 0 <= i <= rows
        invariant c in r && fresh(r)
        invariant forall j :: 0 <= j < i ==>
          && c[j] != null && c[j] in r && c[j].list in r && c[j].Valid()
          && c[j].eleType == kind && c[j].Contents == [] && c[j].max == Arrays.InitialSize
        invariant forall j :: 0 <= j < i ==>
          c[j] in owner && owner[c[j]] == j && c[j].list in owner && owner[c[j].list] == j
      {
        var row := new Arrays.Array(kind);
        c[i] := row;
        r := r + {row, row.list};
        owner := owner[row := i][row.list := i];
        i := i + 1;
      }
      content := c;
      numRows := rows;
      Rows := seq(rows, _ => []);
      eleType := kind;
      RowOf := owner;
      new;
      Repr := r + {this};
    }
  }

  /** table_initialization: NULL unless the row count is positive. */
  method Initialization(kind: Arrays.ElementType, rows: int) returns (t: Table?)
    ensures t == null <==> rows <= 0
    ensures t != null ==> fresh(t) && fresh(t.Repr) && t.Valid()
    ensures t != null ==> t.numRows == rows && t.eleType == kind && t.Rows == seq(rows, _ => [])
  {
    if rows <= 0 {
      return null;
    }
    t := new Table(kind, rows);
  }

  /**
   * table_add_element: NULL table or element first, then the row bounds,
   * then array_add on that one row. `ele == None` is a NULL element pointer.
   */
  method AddElement(t: Table?, row: int, ele: Option<int>, growOk: bool, slotOk: bool) returns (status: int)
    requires t != null ==> t.Valid()
    modifies if t == null then {} else t.Repr
    ensures t == null || ele == None ==> status == NULL_POINTER
    ensures t != null ==> t.Valid() && fresh(t.Repr - old(t.Repr))
    ensures t != null ==> t.numRows == old(t.numRows) && t.eleType == old(t.eleType) && t.content == old(t.content)
    ensures t != null && ele != None && !(0 <= row < t.numRows) ==> status == INDEX_OUT_OF_BOUNDS
    ensures t != null && (ele == None || !(0 <= row < t.numRows)) ==> unchanged(old(t.Repr))
    ensures t != null && ele != None && 0 <= row < t.numRows ==>
      && status == Arrays.AddStatus(old(t.content[row].idx >= t.content[row].max), growOk, Arrays.Supported(t.eleType), slotOk)
      && t.Rows == old(t.Rows)[row := if status == SUCCESS then old(t.Rows[row]) + [ele.value] else old(t.Rows[row])]
  {
    if t == null || ele == None {
      return NULL_POINTER;
    }
    if row < 0 || t.numRows <= row {
      return INDEX_OUT_OF_BOUNDS;
    }
    status := AddToRow(t, row, ele.value, growOk, slotOk);
  }

  /** array_add on row `row` of a table, the row being in range. */
  method AddToRow(t: Table, row: int, ele: int, growOk: bool, slotOk: bool) returns (status: int)
    requires t.Valid() && 0 <= row < t.numRows
    modifies t.Repr
    ensures t.Valid() && fresh(t.Repr - old(t.Repr))
    ensures t.numRows == old(t.numRows) && t.eleType == old(t.eleType) && t.content == old(t.content)
    ensures status == Arrays.AddStatus(old(t.content[row].idx >= t.content[row].max), growOk, Arrays.Supported(t.eleType), slotOk)
    ensures t.Rows == old(t.Rows)[row := if status == SUCCESS then old(t.Rows[row]) + [ele] else old(t.Rows[row])]
  {
    var a := t.content[row];
    status := Arrays.Add(a, ele, growOk, slotOk);
    t.Rows, t.Repr, t.RowOf := t.Rows[row := a.Contents], t.Repr + {a.list}, t.RowOf[a.list := row];
    forall j | 0 <= j < t.numRows && j != row
      ensures t.content[j].Valid() && t.content[j].Contents == t.Rows[j]
    {
      assert t.content[j] != a && t.content[j].list != a.list;
    }
  }

  /** table_reset_row: the NULL and bounds checks, then array_reset on that one row. */
  method ResetRow(t: Table?, row: int) returns (status: int)
    requires t != null ==> t.Valid()
    modifies if t == null then {} else t.Repr
    ensures t == null ==> status == NULL_POINTER
    ensures t != null ==> t.Valid() && fresh(t.Repr - old(t.Repr))
    ensures t != null ==> t.numRows == old(t.numRows) && t.eleType == old(t.eleType) && t.content == old(t.content)
    ensures t != null && !(0 <= row < t.numRows) ==> status == INDEX_OUT_OF_BOUNDS && unchanged(old(t.Repr))
    ensures t != null && 0 <= row < t.numRows ==> status == SUCCESS && t.Rows == old(t.Rows)[row := []]
  {
    if t == null {
      return NULL_POINTER;
    }
    if row < 0 || t.numRows <= row {
      return INDEX_OUT_OF_BOUNDS;
    }
    var a := t.content[row];
    status := Arrays.Reset(a);
    assert forall i :: 0 <= i < t.numRows ==> t.content[i].list == old(t.content[i].list);
    t.Rows := t.Rows[row := a.Contents];
    forall j | 0 <= j < t.numRows && j != row
      ensures t.content[j].Valid() && t.content[j].Contents == t.Rows[j]
    {
      assert t.content[j] != a && t.content[j].list != a.list;
    }
  }

  /**
   * table_copy_row: the NULL and bounds checks, then array_copy from row
   * `src` into row `dst`. The allocation for element `failAt` of the source
   * row, if there is one, fails.
   */
  method CopyRow(t: Table?, src: int, dst: int, failAt: int) returns (status: int)
    requires t != null ==> t.Valid()
    modifies if t == null then {} else t.Repr
    ensures t == null ==> status == NULL_POINTER
    ensures t != null ==> t.Valid() && fresh(t.Repr - old(t.Repr))
    ensures t != null ==> t.numRows == old(t.numRows) && t.eleType == old(t.eleType) && t.content == old(t.content)
    ensures t != null && !(0 <= src < t.numRows && 0 <= dst < t.numRows) ==>
      status == INDEX_OUT_OF_BOUNDS && unchanged(old(t.Repr))
    ensures t != null && 0 <= src < t.numRows && 0 <= dst < t.numRows ==>
      var n := if src == dst then 0 else |old(t.Rows[src])|;
      var k := if 0 <= failAt < n then failAt else n;
      && status == (if k < n then OUT_OF_MEMORY else SUCCESS)
      && t.Rows == old(t.Rows)[dst := old(t.Rows[src])[..k]]
  {
    if t == null {
      return NULL_POINTER;
    }
    if src < 0 || t.numRows <= src || dst < 0 || t.numRows <= dst {
      return INDEX_OUT_OF_BOUNDS;
    }
    status := CopyBetweenRows(t, src, dst, failAt);
  }

  /** array_copy from row `src` into row `dst` of a table, both rows being in range. */
  method CopyBetweenRows(t: Table, src: int, dst: int, failAt: int) returns (status: int)
    requires t.Valid() && 0 <= src < t.numRows && 0 <= dst < t.numRows
    modifies t.Repr
    ensures t.Valid() && fresh(t.Repr - old(t.Repr))
    ensures t.numRows == old(t.numRows) && t.eleType == old(t.eleType) && t.content == old(t.content)
    ensures
      var n := if src == dst then 0 else |old(t.Rows[src])|;
      var k := if 0 <= failAt < n then failAt else n;
      && status == (if k < n then OUT_OF_MEMORY else SUCCESS)
      && t.Rows == old(t.Rows)[dst := old(t.Rows[src])[..k]]
  {
    var a := t.content[src];
    var b := t.content[dst];
    status := Arrays.Copy(a, b, failAt);
    t.Rows, t.Repr, t.RowOf := t.Rows[dst := b.Contents], t.Repr + {b.list}, t.RowOf[b.list := dst];
    forall j | 0 <= j < t.numRows && j != dst
      ensures t.content[j].Valid() && t.content[j].Contents == t.Rows[j]
    {
      assert t.content[j] != b && t.content[j].list != b.list;
    }
  }
}
