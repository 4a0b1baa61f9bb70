/** MemoryManager: the M+/M-/MS/MR/MC accumulator and the newest-first list
    of stored values, capped at MAX_MEMORY_ITEMS. The Qt signals it emits are
    recorded in a ghost log, one entry per emission. */
module Memory {
  import Numeric
  import Sequences

  const MAX_MEMORY_ITEMS: int := 10

  /** memoryChanged(hasValue) and memoryListChanged(size). */
  datatype Signal = MemoryChanged(hasValue: bool) | MemoryListChanged(size: int)

  /** addToList on the list alone: a full list loses its oldest (last) value,
      then the new value goes in front. */
  function Prepended(list: seq<real>, value: real): (r: seq<real>)
    ensures |r| == if |list| >= MAX_MEMORY_ITEMS then |list| else |list| + 1
    ensures |list| <= MAX_MEMORY_ITEMS ==> |r| <= MAX_MEMORY_ITEMS
    ensures r[0] == value && r[1..] == list[..|r| - 1]
  {
    [value] + if |list| >= MAX_MEMORY_ITEMS then list[..|list| - 1] else list
  }

  /** removeFromList on the list alone: an index in range loses exactly that
      entry and keeps the order of the rest; any other index changes nothing. */
  function RemovedAt(list: seq<real>, index: int): (r: seq<real>)
    ensures 0 <= index < |list| ==> |r| == |list| - 1
    ensures 0 <= index < |list| ==> multiset(r) + multiset{list[index]} == multiset(list)
    ensures 0 <= index < |list| ==>
      forall k :: 0 <= k < |r| ==> r[k] == if k < index then list[k] else list[k + 1]
    ensures !(0 <= index < |list|) ==> r == list
  {
    if 0 <= index < |list| then
      assert list == list[..index] + [list[index]] + list[index + 1..];
      list[..index] + list[index + 1..]
    else
      list
  }

  /** The list after adding `values` one after the other. */
  function PushAll(list: seq<real>, values: seq<real>): (r: seq<real>)
    decreases |values|
  {
    if values == [] then list else PushAll(Prepended(list, values[0]), values[1..])
  }

  function MinInt(a: int, b: int): (r: int)
  {
    if a <= b then a else b
  }

  /** Adding values one after the other leaves them newest first in front of
      the old list, and only the ten newest survive. */
  lemma {:induction false} PushAllKeepsNewest(list: seq<real>, values: seq<real>)
    requires |list| <= MAX_MEMORY_ITEMS
    ensures PushAll(list, values)
      == (Sequences.Reverse(values) + list)[..MinInt(|values| + |list|, MAX_MEMORY_ITEMS)]
    decreases |values|
  {
    if values != [] {
      var v, rest := values[0], values[1..];
      var p := Prepended(list, v);
      PushAllKeepsNewest(p, rest);
      assert Sequences.Reverse(values) == Sequences.Reverse(rest) + [v];
      var lhs := (Sequences.Reverse(rest) + p)[..MinInt(|rest| + |p|, MAX_MEMORY_ITEMS)];
      var rhs := (Sequences.Reverse(values) + list)[..MinInt(|values| + |list|, MAX_MEMORY_ITEMS)];
      assert |lhs| == |rhs|;
      forall k | 0 <= k < |lhs|
        ensures lhs[k] == rhs[k]
      {
        if k > |rest| {
          assert lhs[k] == p[k - |rest|] == list[k - |rest| - 1];
        }
      }
    }
  }

  class MemoryManager {
    var memory: real
    var memoryList: seq<real>
    ghost var signals: seq<Signal>

    ghost predicate Valid()
      reads this
    {
      |memoryList| <= MAX_MEMORY_ITEMS
    }

    /** hasValue: the accumulator is not fuzzily zero, that is, it lies
        more than 1e-12 away from zero. */
    function HasValue(): (r: bool)
      reads this
      ensures r <==> memory < -0.000000000001 || 0.000000000001 < memory
    {
      !Numeric.FuzzyIsNull(memory)
    }

    function Value(): (r: real)
      reads this
    {
      memory
    }

    function GetMemoryList(): (r: seq<real>)
      reads this
    {
      memoryList
    }

    function ListSize(): (r: int)
      reads this
    {
      |memoryList|
    }

    constructor ()
      ensures Valid() && memory == 0.0 && !HasValue()
      ensures memoryList == [] && signals == []
    {
      memory := 0.0;
      memoryList := [];
      signals := [];
    }

    method NotifyChange()
      modifies this`signals
      ensures signals == old(signals) + [MemoryChanged(HasValue())]
    {
      signals := signals + [MemoryChanged(HasValue())];
    }

    method NotifyListChange()
      modifies this`signals
      ensures signals == old(signals) + [MemoryListChanged(|memoryList|)]
    {
      signals := signals + [MemoryListChanged(|memoryList|)];
    }

    /** M+ */
    method Add(value: real)
      requires Valid()
      modifies this
      ensures Valid() && memory == old(memory) + value && memoryList == old(memoryList)
      ensures signals == old(signals) + [MemoryChanged(HasValue())]
    {
      memory := memory + value;
      NotifyChange();
    }

    /** M- */
    method Subtract(value: real)
      requires Valid()
      modifies this
      ensures Valid() && memory == old(memory) - value && memoryList == old(memoryList)
      ensures signals == old(signals) + [MemoryChanged(HasValue())]
    {
      memory := memory - value;
      NotifyChange();
    }

    /** MR: reads the accumulator and changes nothing. */
    method Recall() returns (r: real)
      ensures r == memory
    {
      r := memory;
    }

    /** MC */
    method Clear()
      requires Valid()
      modifies this
      ensures Valid() && memory == 0.0 && !HasValue() && memoryList == old(memoryList)
      ensures signals == old(signals) + [MemoryChanged(false)]
    {
      memory := 0.0;
      NotifyChange();
    }

    /** MS: replaces the accumulator. */
    method Store(value: real)
      requires Valid()
      modifies this
      ensures Valid() && memory == value && memoryList == old(memoryList)
      ensures signals == old(signals) + [MemoryChanged(HasValue())]
    {
      memory := value;
      NotifyChange();
    }

    method AddToList(value: real)
      requires Valid()
      modifies this
      ensures Valid() && memoryList == Prepended(old(memoryList), value)
      ensures memoryList[0] == value
      ensures memory == old(memory)
      ensures signals == old(signals) + [MemoryListChanged(|memoryList|)]
    {
      if |memoryList| >= MAX_MEMORY_ITEMS {
        memoryList := memoryList[..|memoryList| - 1];
      }
      memoryList := [value] + memoryList;
      NotifyListChange();
    }

    /** Copies an entry of the list into the accumulator; an index out of
        range changes nothing and emits nothing. */
    method RecallFromList(index: int)
      requires Valid()
      modifies this
      ensures Valid() && memoryList == old(memoryList)
      ensures 0 <= index < |memoryList| ==>
        memory == memoryList[index] && signals == old(signals) + [MemoryChanged(HasValue())]
      ensures !(0 <= index < |memoryList|) ==> memory == old(memory) && signals == old(signals)
    {
      if index >= 0 && index < |memoryList| {
        memory := memoryList[index];
        NotifyChange();
      }
    }

    /** Deletes an entry of the list; an index out of range changes nothing
        and emits nothing. */
    method RemoveFromList(index: int)
      requires Valid()
      modifies this
      ensures Valid() && memoryList == RemovedAt(old(memoryList), index) && memory == old(memory)
      ensures 0 <= index < old(|memoryList|) ==> signals == old(signals) + [MemoryListChanged(|memoryList|)]
      ensures !(0 <= index < old(|memoryList|)) ==> signals == old(signals)
    {
      if index >= 0 && index < |memoryList| {
        memoryList := memoryList[..index] + memoryList[index + 1..];
        NotifyListChange();
      }
    }

    method ClearList()
      requires Valid()
      modifies this
      ensures Valid() && memoryList == [] && memory == old(memory)
      ensures signals == old(signals) + [MemoryListChanged(0)]
    {
      memoryList := [];
      NotifyListChange();
    }
  }

  /** M+ 5 then M- 5 on a fresh register leaves no value. */
  method AddThenSubtract(v: real) returns (has: bool, value: real)
    ensures !has && value == 0.0
  {
    var m := new MemoryManager();
    m.Add(v);
    m.Subtract(v);
    has := m.HasValue();
    value := m.Value();
  }

  /** Adding 0, 10, ..., 140 to the list keeps the ten newest, 140 first, and
      nothing below 50. */
  method FillPastCapacity() returns (list: seq<real>)
    ensures |list| == MAX_MEMORY_ITEMS && list[0] == 140.0
    ensures forall k :: 0 <= k < |list| ==> list[k] >= 50.0
  {
    var m := new MemoryManager();
    var i := 0;
    ghost var added: seq<real> := [];
    while i < 15
      invariant 0 <= i <= 15 && m.Valid()
      invariant |added| == i && forall k :: 0 <= k < i ==> added[k] == k as real * 10.0
      invariant m.memoryList == PushAll([], added)
    {
      m.AddToList(i as real * 10.0);
      PushAllAppend([], added, i as real * 10.0);
      added := added + [i as real * 10.0];
      i := i + 1;
    }
    PushAllKeepsNewest([], added);
    list := m.GetMemoryList();
    assert list == Sequences.Reverse(added)[..MAX_MEMORY_ITEMS];
  }

  /** Adding one more value after a batch is adding the longer batch. */
  lemma {:induction false} PushAllAppend(list: seq<real>, values: seq<real>, v: real)
    ensures PushAll(list, values + [v]) == Prepended(PushAll(list, values), v)
    decreases |values|
  {
    if values == [] {
      assert values + [v] == [v];
    } else {
      assert (values + [v])[1..] == values[1..] + [v];
      PushAllAppend(Prepended(list, values[0]), values[1..], v);
    }
  }
}
