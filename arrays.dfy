/**
 * The growable, type-tagged container of src/array.c. The container owns a
 * list of `max` pointer slots; the first `idx` point to independently owned
 * copies of the appended elements and the rest are NULL. The capacity starts
 * at 10 and doubles whenever an append finds the container full.
 */
module Arrays {
  import opened ErrorCodes
  import opened Capacity
  import opened Slots

  /** The element kinds of ElementType (include/graph.h). */
  datatype ElementType = TypeInt | TypeFloat | TypeDouble | TypeChar | TypeIntPtr

  /** The kinds array_add knows the size of; any other kind is rejected. */
  predicate Supported(k: ElementType)
  {
    k != TypeIntPtr
  }

  const InitialSize: nat := 10

  class Array {
    var list: array<Slot<int>>
    var idx: int
    var max: int
    var eleType: ElementType
    /** The elements in use, in insertion order. */
    ghost var Contents: seq<int>
    /** How often the capacity has doubled since initialization. */
    ghost var doublings: nat

    ghost predicate Valid()
      reads this, list
    {
      && list.Length == max
      && 0 <= idx <= max
      && max == Doubled(InitialSize, doublings)
      && |Contents| == idx
      && (forall i :: 0 <= i < idx ==> list[i] == Full(Contents[i]))
      && (forall i :: idx <= i < max ==> list[i] == Empty)
      && (!Supported(eleType) ==> idx == 0)
    }

    /** The capacity is the smallest 10 * 2^k that holds the elements. */
    ghost predicate Tight()
      reads this
    {
      0 <= idx && max == Grow(InitialSize, idx)
    }

    /** array_initialization: an empty container of the given kind with 10 NULL slots. */
    constructor (kind: ElementType)
      ensures Valid() && fresh(list)
      ensures idx == 0 && max == InitialSize && eleType == kind
      ensures forall i :: 0 <= i < max ==> list[i] == Empty
      ensures Contents == [] && Tight()
    {
      var l := new Slot<int>[InitialSize];
      var i := 0;
      while i < InitialSize
        invariant 0 <= i <= InitialSize
        invariant forall j :: 0 <= j < i ==> l[j] == Empty
      {
        l[i] := Empty;
        i := i + 1;
      }
      idx := 0;
      eleType := kind;
      max := InitialSize;
      list := l;
      Contents := [];
      doublings := 0;
    }
  }

  /**
   * array_resize: doubles the capacity, keeps the old slots and makes the new
   * ones NULL. `growOk` says whether realloc finds the memory.
   */
  method Resize(arr: Array?, growOk: bool) returns (status: int)
    requires arr != null ==> arr.Valid()
    modifies arr
    ensures arr == null ==> status == NULL_POINTER
    ensures arr != null ==> arr.Valid() && arr.idx == old(arr.idx) && arr.eleType == old(arr.eleType)
    ensures arr != null && !growOk ==> status == OUT_OF_MEMORY && unchanged(arr)
    ensures arr != null && growOk ==> status == SUCCESS && fresh(arr.list) && arr.max == 2 * old(arr.max)
    ensures arr != null && growOk ==> forall i :: 0 <= i < old(arr.max) ==> arr.list[i] == old(arr.list[i])
    ensures arr != null && growOk ==> forall i :: old(arr.max) <= i < arr.max ==> arr.list[i] == Empty
    ensures arr != null ==> arr.Contents == old(arr.Contents)
  {
    if arr == null {
      return NULL_POINTER;
    }
    var newSize := arr.max * 2;
    if !growOk {
      return OUT_OF_MEMORY;
    }
    var newList := Realloc(arr.list, newSize);
    var i := arr.max;
    while i < newSize
      invariant unchanged(arr)
      invariant arr.max <= i <= newSize
      invariant newList[..arr.max] == arr.list[..]
      invariant forall j :: arr.max <= j < i ==> newList[j] == Empty
    {
      newList[i] := Empty;
      i := i + 1;
    }
    assert forall j :: 0 <= j < arr.max ==> newList[j] == newList[..arr.max][j];
    arr.max := newSize;
    arr.list := newList;
    arr.doublings := arr.doublings + 1;
    status := SUCCESS;
  }

  /** The status array_add reports, decided in the order the code checks. */
  function AddStatus(full: bool, growOk: bool, supported: bool, slotOk: bool): int
  {
    if full && !growOk then OUT_OF_MEMORY
    else if !supported then INVALID_INPUT
    else if !slotOk then OUT_OF_MEMORY
    else SUCCESS
  }

  /**
   * array_add: grows a full container first, then rejects an unsupported
   * kind, then stores a copy of the element at `idx`. `growOk` and `slotOk`
   * say whether realloc and calloc find the memory.
   */
  method Add(arr: Array?, ele: int, growOk: bool, slotOk: bool) returns (status: int)
    requires arr != null ==> arr.Valid()
    modifies arr, if arr == null then {} else {arr.list}
    ensures arr == null ==> status == NULL_POINTER
    ensures arr != null ==> arr.Valid() && arr.eleType == old(arr.eleType)
    ensures arr != null ==> arr.list == old(arr.list) || fresh(arr.list)
    ensures arr != null ==> status == AddStatus(old(arr.idx >= arr.max), growOk, Supported(arr.eleType), slotOk)
    ensures arr != null ==> arr.max == if old(arr.idx >= arr.max) && growOk then 2 * old(arr.max) else old(arr.max)
    ensures arr != null ==> arr.Contents == if status == SUCCESS then old(arr.Contents) + [ele] else old(arr.Contents)
    ensures arr != null && old(arr.Tight()) && status == SUCCESS ==> arr.Tight()
  {
    if arr == null {
      return NULL_POINTER;
    }
    ghost var wasTight := arr.Tight();
    if arr.idx >= arr.max {
      status := Resize(arr, growOk);
      if status != SUCCESS {
        return;
      }
    }
    if !Supported(arr.eleType) {
      return INVALID_INPUT;
    }
    if !slotOk {
      return OUT_OF_MEMORY;
    }
    arr.list[arr.idx] := Full(ele);
    arr.idx := arr.idx + 1;
    arr.Contents := arr.Contents + [ele];
    status := SUCCESS;
    if wasTight {
      GrowStep(InitialSize, arr.idx - 1);
    }
  }

  /** The slots in use hold the elements, in order. */
  lemma InUse(arr: Array)
    requires arr.Valid()
    ensures forall k :: 0 <= k < arr.idx ==> arr.list[k].Full?
    ensures Values(arr.list[..arr.idx]) == arr.Contents
  {
    assert forall k :: 0 <= k < arr.idx ==> arr.list[..arr.idx][k] == arr.list[k];
  }

  /** array_reset: frees every element in use and empties the container, keeping its capacity. */
  method Reset(arr: Array?) returns (status: int)
    requires arr != null ==> arr.Valid()
    modifies arr, if arr == null then {} else {arr.list}
    ensures arr == null ==> status == NULL_POINTER
    ensures arr != null ==> status == SUCCESS && arr.Valid() && arr.Contents == []
    ensures arr != null ==> arr.idx == 0 && arr.list == old(arr.list) && arr.max == old(arr.max)
    ensures arr != null ==> arr.eleType == old(arr.eleType)
    ensures arr != null ==> forall i :: 0 <= i < arr.max ==> arr.list[i] == Empty
  {
    if arr == null {
      return NULL_POINTER;
    }
    var i := 0;
    while i < arr.idx
      invariant unchanged(arr)
      invariant 0 <= i <= arr.idx
      invariant forall j :: 0 <= j < i ==> arr.list[j] == Empty
      invariant forall j :: i <= j < arr.idx ==> arr.list[j].Full?
      invariant forall j :: arr.idx <= j < arr.max ==> arr.list[j] == Empty
    {
      arr.list[i] := Empty;
      i := i + 1;
    }
    arr.idx := 0;
    arr.Contents := [];
    status := SUCCESS;
  }

  /**
   * array_copy: resets `dst`, then appends every element of `src` in order.
   * The allocation for element `failAt` (if it is an index of `src`) fails
   * and the copy stops there, keeping what it has copied so far.
   */
  method Copy(src: Array?, dst: Array?, failAt: int) returns (status: int)
    requires src != null ==> src.Valid()
    requires dst != null ==> dst.Valid()
    requires src != null && dst != null && src != dst ==> src.list != dst.list
    modifies dst, if dst == null then {} else {dst.list}
    ensures src == null || dst == null ==> status == NULL_POINTER
    ensures src != null && dst != null && old(src.eleType) != old(dst.eleType) ==>
      status == INVALID_INPUT && unchanged(dst) && unchanged(dst.list)
    ensures src != null && dst != null && old(src.eleType) == old(dst.eleType) ==>
      var n := if src == dst then 0 else |old(src.Contents)|;
      var k := if 0 <= failAt < n then failAt else n;
      && dst.Valid() && dst.eleType == old(dst.eleType) && dst.max >= old(dst.max)
      && status == (if k < n then OUT_OF_MEMORY else SUCCESS)
      && dst.Contents == old(src.Contents)[..k]
    ensures src != null && dst != null && src != dst ==> src.Valid() && src.Contents == old(src.Contents)
    ensures dst != null ==> dst.list == old(dst.list) || fresh(dst.list)
  {
    if src == null || dst == null {
      return NULL_POINTER;
    }
    if src.eleType != dst.eleType {
      return INVALID_INPUT;
    }
    ghost var want := if src == dst then [] else src.Contents;
    status := Reset(dst);
    assert src.Contents == want;
    ghost var oldMax := dst.max;
    var i := 0;
    while i < src.idx
      invariant 0 <= i && dst.Valid() && src.Valid()
      invariant src.Contents == want && src.idx == |want|
      invariant i <= src.idx
      invariant src != dst ==> src.list != dst.list
      invariant src == dst ==> i == 0
      invariant dst.eleType == src.eleType == old(dst.eleType) && dst.max >= oldMax
      invariant dst.Contents == want[..i]
      invariant dst.list == old(dst.list) || fresh(dst.list)
      invariant status == SUCCESS
      invariant !(0 <= failAt < i)
    {
      status := Add(dst, src.list[i].value, true, i != failAt);
      if status != SUCCESS {
        break;
      }
      assert want[..i + 1] == want[..i] + [want[i]];
      i := i + 1;
    }
  }
}
