/**
 * The older, untyped container of src/aux.c. Each element is a block of
 * `ele_size` bytes copied into its own allocation; the list starts with 2
 * NULL slots and doubles when an append finds it full. Its functions report
 * EXIT_SUCCESS or EXIT_FAILURE instead of the codes of include/error.h.
 */
module AuxArrays {
  import opened ErrorCodes
  import opened Capacity
  import opened Slots

  /** A byte of memory, as an unsigned char reads it. */
  type Byte = b: int | 0 <= b < 0x100

  /** The bytes of one element. */
  type Bytes = seq<Byte>

  const InitialSize: nat := 2

  class Array {
    var list: array<Slot<Bytes>>
    var idx: int
    var max: int
    /** The elements in use, in insertion order. */
    ghost var Contents: seq<Bytes>
    /** How often the capacity has doubled since initialization. */
    ghost var doublings: nat

    ghost predicate Valid()
      reads this, list
    {
      && list.Length == max
      && 0 <= idx <= max
      && max == Doubled(InitialSize, doublings)
      && |Contents| == idx
      && (forall i :: 0 <= i < idx ==> list[i] == Full(Contents[i]))
      && (forall i :: idx <= i < max ==> list[i] == Empty)
    }

    /** The capacity is the smallest 2 * 2^k that holds the elements. */
    ghost predicate Tight()
      reads this
    {
      0 <= idx && max == Grow(InitialSize, idx)
    }

    /** array_initialization: an empty container with 2 NULL slots. */
    constructor ()
      ensures Valid() && fresh(list)
      ensures idx == 0 && max == InitialSize
      ensures forall i :: 0 <= i < max ==> list[i] == Empty
      ensures Contents == [] && Tight()
    {
      var l := new Slot<Bytes>[InitialSize];
      var i := 0;
      while i < InitialSize
        invariant 0 <= i <= InitialSize
        invariant forall j :: 0 <= j < i ==> l[j] == Empty
      {
        l[i] := Empty;
        i := i + 1;
      }
      idx := 0;
      max := InitialSize;
      list := l;
      Contents := [];
      doublings := 0;
    }
  }

  /**
   * array_resize: doubles the capacity, keeps the old slots and makes the new
   * ones NULL. `growOk` says whether realloc finds the memory.
   */
  method Resize(arr: Array?, growOk: bool) returns (status: int)
    requires arr != null ==> arr.Valid()
    modifies arr
    ensures arr == null ==> status == EXIT_FAILURE
    ensures arr != null ==> arr.Valid() && arr.idx == old(arr.idx) && arr.Contents == old(arr.Contents)
    ensures arr != null && !growOk ==> status == EXIT_FAILURE && unchanged(arr)
    ensures arr != null && growOk ==> status == EXIT_SUCCESS && fresh(arr.list) && arr.max == 2 * old(arr.max)
    ensures arr != null && growOk ==> forall i :: 0 <= i < old(arr.max) ==> arr.list[i] == old(arr.list[i])
    ensures arr != null && growOk ==> forall i :: old(arr.max) <= i < arr.max ==> arr.list[i] == Empty
  {
    if arr == null {
      return EXIT_FAILURE;
    }
    var newSize := arr.max * 2;
    if !growOk {
      return EXIT_FAILURE;
    }
    var newList := Realloc(arr.list, newSize);
    var i := arr.max;
    while i < newSize
      invariant unchanged(arr)
      invariant arr.max <= i <= newSize
      invariant newList[..arr.max] == arr.list[..]
      invariant forall j :: arr.max <= j < i ==> newList[j] == Empty
    {
      newList[i] := Empty;
      i := i + 1;
    }
    assert forall j :: 0 <= j < arr.max ==> newList[j] == newList[..arr.max][j];
    arr.max := newSize;
    arr.list := newList;
    arr.doublings := arr.doublings + 1;
    status := EXIT_SUCCESS;
  }

  /**
   * Whether array_add stores the element: a full container must grow first,
   * and the element's own allocation must succeed.
   */
  predicate Stores(full: bool, growOk: bool, elementOk: bool)
  {
    (!full || growOk) && elementOk
  }

  /**
   * The status array_add reports as written: the status variable still holds
   * the EXIT_SUCCESS of a successful resize when the element's malloc fails.
   */
  function AddStatusAsWritten(full: bool, growOk: bool, elementOk: bool): (r: int)
    ensures r == EXIT_SUCCESS <==> Stores(full, growOk, elementOk) || (full && growOk && !elementOk)
  {
    if full && !growOk then EXIT_FAILURE
    else if !elementOk then (if full then EXIT_SUCCESS else EXIT_FAILURE)
    else EXIT_SUCCESS
  }

  /** The status array_add is evidently meant to report: success exactly when the element is stored. */
  function AddStatus(full: bool, growOk: bool, elementOk: bool): (r: int)
    ensures r == EXIT_SUCCESS <==> Stores(full, growOk, elementOk)
    ensures r == EXIT_SUCCESS || r == EXIT_FAILURE
  {
    if Stores(full, growOk, elementOk) then EXIT_SUCCESS else EXIT_FAILURE
  }

  /**
   * array_add as written: grows a full container, then copies the first
   * `eleSize` bytes of `ele` into a fresh allocation at `idx`. `growOk` and
   * `elementOk` say whether realloc and malloc find the memory.
   */
  method AddAsWritten(arr: Array?, ele: Bytes, eleSize: nat, growOk: bool, elementOk: bool) returns (status: int)
    requires eleSize <= |ele|
    requires arr != null ==> arr.Valid()
    modifies arr, if arr == null then {} else {arr.list}
    ensures arr == null ==> status == EXIT_FAILURE
    ensures arr != null ==> arr.Valid() && (arr.list == old(arr.list) || fresh(arr.list))
    ensures arr != null ==> status == AddStatusAsWritten(old(arr.idx >= arr.max), growOk, elementOk)
    ensures arr != null ==>
      arr.Contents == if Stores(old(arr.idx >= arr.max), growOk, elementOk) then old(arr.Contents) + [ele[..eleSize]] else old(arr.Contents)
    ensures arr != null && old(arr.Tight()) && Stores(old(arr.idx >= arr.max), growOk, elementOk) ==> arr.Tight()
  {
    status := EXIT_FAILURE;
    if arr == null {
      return;
    }
    ghost var wasTight := arr.Tight();
    if arr.idx >= arr.max {
      status := Resize(arr, growOk);
      if status != EXIT_SUCCESS {
        return;
      }
    }
    if !elementOk {
      return;
    }
    arr.list[arr.idx] := Full(ele[..eleSize]);
    arr.idx := arr.idx + 1;
    arr.Contents := arr.Contents + [ele[..eleSize]];
    status := EXIT_SUCCESS;
    if wasTight {
      GrowStep(InitialSize, arr.idx - 1);
    }
  }

  /**
   * Three appends to a fresh container, the third while it is full and with
   * the element's malloc failing: the call reports EXIT_SUCCESS although only
   * two elements are stored.
   */
  method ExhibitMisreport() returns (status: int, stored: int)
    ensures status == EXIT_SUCCESS && stored == 2
  {
    var arr := new Array();
    var s := AddAsWritten(arr, [1], 1, true, true);
    s := AddAsWritten(arr, [2], 1, true, true);
    status := AddAsWritten(arr, [3], 1, true, false);
    stored := arr.idx;
  }

  /** array_add corrected: the same steps, reporting EXIT_SUCCESS exactly when the element is stored. */
  method Add(arr: Array?, ele: Bytes, eleSize: nat, growOk: bool, elementOk: bool) returns (status: int)
    requires eleSize <= |ele|
    requires arr != null ==> arr.Valid()
    modifies arr, if arr == null then {} else {arr.list}
    ensures arr == null ==> status == EXIT_FAILURE
    ensures arr != null ==> arr.Valid() && (arr.list == old(arr.list) || fresh(arr.list))
    ensures arr != null ==> status == AddStatus(old(arr.idx >= arr.max), growOk, elementOk)
    ensures arr != null ==>
      arr.Contents == if status == EXIT_SUCCESS then old(arr.Contents) + [ele[..eleSize]] else old(arr.Contents)
    ensures arr != null && old(arr.Tight()) && status == EXIT_SUCCESS ==> arr.Tight()
  {
    if arr == null {
      return EXIT_FAILURE;
    }
    ghost var wasTight := arr.Tight();
    if arr.idx >= arr.max {
      status := Resize(arr, growOk);
      if status != EXIT_SUCCESS {
        return;
      }
    }
    if !elementOk {
      return EXIT_FAILURE;
    }
    arr.list[arr.idx] := Full(ele[..eleSize]);
    arr.idx := arr.idx + 1;
    arr.Contents := arr.Contents + [ele[..eleSize]];
    status := EXIT_SUCCESS;
    if wasTight {
      GrowStep(InitialSize, arr.idx - 1);
    }
  }
}
