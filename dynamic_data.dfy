/**
 * `useDynamicData`: a list of records with identifiers, a loading flag and the
 * list operations the dynamic page uses. Each state update is a pure
 * function on the list (so that the lemmas can relate them); the class
 * `DataStore` holds the hook's state and applies them.
 */
module DynamicData {
  import opened Wrappers
  import opened HeightCache

  /** Items are generated this many at a time. */
  const BatchSize := 1000

  /** `Array.prototype.filter`: the items that satisfy `keep`, in their order. */
  function Filter<T(!new)>(s: seq<T>, keep: T -> bool): (r: seq<T>)
    ensures |r| <= |s|
    ensures forall x :: x in r <==> x in s && keep(x)
  {
    if |s| == 0 then []
    else
      var rest := Filter(s[1..], keep);
      assert s == [s[0]] + s[1..];
      if keep(s[0]) then [s[0]] + rest else rest
  }

  /** How many items of `s` satisfy `keep`, counted one by one. */
  function Count<T(!new)>(s: seq<T>, keep: T -> bool): nat
  {
    if |s| == 0 then 0 else (if keep(s[0]) then 1 else 0) + Count(s[1..], keep)
  }

  /** `filter(keep).length` is the number of items that satisfy `keep`. */
  lemma {:induction false} FilterLength<T(!new)>(s: seq<T>, keep: T -> bool)
    ensures |Filter(s, keep)| == Count(s, keep)
  {
    if |s| > 0 {
      FilterLength(s[1..], keep);
    }
  }

  /** Each kept item occurs as often as in the input, each other item not at all. */
  lemma {:induction false} FilterCounts<T(!new)>(s: seq<T>, keep: T -> bool)
    ensures forall x :: multiset(Filter(s, keep))[x] == if keep(x) then multiset(s)[x] else 0
  {
    if |s| > 0 {
      FilterCounts(s[1..], keep);
      assert s == [s[0]] + s[1..];
    }
  }

  /** A test that every item passes keeps the list as it is. */
  lemma {:induction false} FilterKeepsAll<T(!new)>(s: seq<T>, keep: T -> bool)
    requires forall x :: x in s ==> keep(x)
    ensures Filter(s, keep) == s
  {
    if |s| > 0 {
      assert forall x :: x in s[1..] ==> x in s;
      FilterKeepsAll(s[1..], keep);
      assert s == [s[0]] + s[1..];
    }
  }

  /** Two tests that no item passes together select at most as many items as there are. */
  lemma {:induction false} DisjointFilterLengths<T(!new)>(s: seq<T>, keep: T -> bool, keep': T -> bool)
    requires forall x :: !(keep(x) && keep'(x))
    ensures |Filter(s, keep)| + |Filter(s, keep')| <= |s|
  {
    if |s| > 0 {
      DisjointFilterLengths(s[1..], keep, keep');
    }
  }

  /** Filtering a concatenation filters each part, keeping their order. */
  lemma {:induction false} FilterAppend<T(!new)>(a: seq<T>, b: seq<T>, keep: T -> bool)
    ensures Filter(a + b, keep) == Filter(a, keep) + Filter(b, keep)
  {
    if |a| == 0 {
      assert a + b == b;
    } else {
      var ab := a + b;
      assert ab[0] == a[0] && ab[1..] == a[1..] + b;
      FilterAppend(a[1..], b, keep);
      assert Filter(ab, keep) == (if keep(a[0]) then [a[0]] else []) + Filter(ab[1..], keep);
      assert Filter(a, keep) == (if keep(a[0]) then [a[0]] else []) + Filter(a[1..], keep);
    }
  }

  /** Filtering twice by the same test is filtering once. */
  lemma {:induction false} FilterIdempotent<T(!new)>(s: seq<T>, keep: T -> bool)
    ensures Filter(Filter(s, keep), keep) == Filter(s, keep)
  {
    if |s| > 0 {
      FilterIdempotent(s[1..], keep);
    }
  }

  /** The position at which `addItem` puts the new item: `index` when it is a valid insertion point, else the end. */
  function InsertPosition<T(!new)>(s: seq<T>, index: Option<int>): (p: nat)
    ensures p <= |s|
    ensures index.Some? && 0 <= index.value <= |s| ==> p == index.value
    ensures !(index.Some? && 0 <= index.value <= |s|) ==> p == |s|
  {
    if index.Some? && 0 <= index.value <= |s| then index.value else |s|
  }

  /** `splice(p, 1)`: the list without its item at `p`. */
  function RemoveAt<T(!new)>(s: seq<T>, p: int): (r: seq<T>)
    requires 0 <= p < |s|
    ensures |r| == |s| - 1
    ensures multiset(r) == multiset(s) - multiset{s[p]}
    ensures forall i :: 0 <= i < |r| ==> r[i] == if i < p then s[i] else s[i + 1]
  {
    assert s == s[..p] + [s[p]] + s[p + 1..];
    s[..p] + s[p + 1..]
  }

  /** `splice(p, 0, x)`: the list with `x` inserted before position `p`. */
  function InsertAt<T(!new)>(s: seq<T>, p: int, x: T): (r: seq<T>)
    requires 0 <= p <= |s|
    ensures |r| == |s| + 1 && r[p] == x
    ensures multiset(r) == multiset(s) + multiset{x}
    ensures RemoveAt(r, p) == s
  {
    assert s == s[..p] + s[p..];
    var r := s[..p] + [x] + s[p..];
    assert r[..p] == s[..p] && r[p + 1..] == s[p..];
    r
  }

  /** Removing an item and inserting it back where it was gives the list back. */
  lemma InsertRemovedItem<T(!new)>(s: seq<T>, p: int)
    requires 0 <= p < |s|
    ensures InsertAt(RemoveAt(s, p), p, s[p]) == s
  {
    assert s == s[..p] + [s[p]] + s[p + 1..];
    var m := RemoveAt(s, p);
    assert m[..p] == s[..p] && m[p..] == s[p + 1..];
  }

  /** `addItem`'s update: the item at its insertion position, everything else kept. */
  function WithItemAdded<T(!new)>(s: seq<T>, item: T, index: Option<int>): (r: seq<T>)
    ensures |r| == |s| + 1
    ensures r[InsertPosition(s, index)] == item
    ensures RemoveAt(r, InsertPosition(s, index)) == s
    ensures multiset(r) == multiset(s) + multiset{item}
  {
    InsertAt(s, InsertPosition(s, index), item)
  }

  /** Adding at index 0 puts the item in front of the list. */
  lemma AddAtFront<T(!new)>(s: seq<T>, item: T)
    ensures WithItemAdded(s, item, Some(0)) == [item] + s
  {
    var r := WithItemAdded(s, item, Some(0));
    assert RemoveAt(r, 0) == r[1..];
  }

  /** `removeItem`'s update: every item whose id is strictly equal to `id` goes, the rest stay in order. */
  function RemoveById<T(!new)>(s: seq<T>, idOf: T -> Key, id: Key): (r: seq<T>)
    ensures forall x :: x in r ==> idOf(x) != id
    ensures forall x :: x in s && idOf(x) != id ==> multiset(r)[x] == multiset(s)[x]
    ensures |r| <= |s|
  {
    FilterCounts(s, x => idOf(x) != id);
    Filter(s, x => idOf(x) != id)
  }

  /** Removing an id that no item carries leaves the list, and its order, unchanged. */
  lemma RemoveAbsentId<T(!new)>(s: seq<T>, idOf: T -> Key, id: Key)
    requires forall x :: x in s ==> idOf(x) != id
    ensures RemoveById(s, idOf, id) == s
  {
    FilterKeepsAll(s, x => idOf(x) != id);
  }

  /** `removeItems`'s update: every item whose id is one of `ids` goes, the rest stay in order. */
  function RemoveByIds<T(!new)>(s: seq<T>, idOf: T -> Key, ids: seq<Key>): (r: seq<T>)
    ensures forall x :: x in r ==> idOf(x) !in ids
    ensures forall x :: x in s && idOf(x) !in ids ==> multiset(r)[x] == multiset(s)[x]
    ensures |r| <= |s|
  {
    var idsSet := set k | k in ids;
    FilterCounts(s, x => idOf(x) !in idsSet);
    Filter(s, x => idOf(x) !in idsSet)
  }

  /** Filtering by two tests that agree on every item gives the same list. */
  lemma {:induction false} FilterAgreeing<T(!new)>(s: seq<T>, keep: T -> bool, keep': T -> bool)
    requires forall x :: x in s ==> keep(x) == keep'(x)
    ensures Filter(s, keep) == Filter(s, keep')
  {
    if |s| > 0 {
      assert forall x :: x in s[1..] ==> x in s;
      FilterAgreeing(s[1..], keep, keep');
    }
  }

  /** Removing a one-element id list is removing that id. */
  lemma RemoveSingleId<T(!new)>(s: seq<T>, idOf: T -> Key, id: Key)
    ensures RemoveByIds(s, idOf, [id]) == RemoveById(s, idOf, id)
  {
    var idsSet := set k | k in [id];
    assert idsSet == {id};
    FilterAgreeing(s, x => idOf(x) !in idsSet, x => idOf(x) != id);
  }

  /** `updateItem`'s update: every item with that id is patched, the others are left alone, the order is kept. */
  function UpdateById<T(!new)>(s: seq<T>, idOf: T -> Key, id: Key, patch: T -> T): (r: seq<T>)
    ensures |r| == |s|
    ensures forall i :: 0 <= i < |s| && idOf(s[i]) == id ==> r[i] == patch(s[i])
    ensures forall i :: 0 <= i < |s| && idOf(s[i]) != id ==> r[i] == s[i]
  {
    seq(|s|, i requires 0 <= i < |s| => if idOf(s[i]) == id then patch(s[i]) else s[i])
  }

  /** An id that no item carries leaves the list as it was. */
  lemma UpdateUnknownIdIsIdentity<T(!new)>(s: seq<T>, idOf: T -> Key, id: Key, patch: T -> T)
    requires forall x :: x in s ==> idOf(x) != id
    ensures UpdateById(s, idOf, id, patch) == s
  {
    var r := UpdateById(s, idOf, id, patch);
    forall i | 0 <= i < |s|
      ensures r[i] == s[i]
    {
      assert s[i] in s;
    }
  }

  /**
   * `moveItem`'s update: with both indices in bounds, the item at `fromIndex`
   * ends up at `toIndex` and the others keep their relative order; otherwise
   * the list is returned as it was.
   */
  function Move<T(!new)>(s: seq<T>, fromIndex: int, toIndex: int): (r: seq<T>)
    ensures |r| == |s| && multiset(r) == multiset(s)
    ensures 0 <= fromIndex < |s| && 0 <= toIndex < |s| ==>
      r[toIndex] == s[fromIndex] && RemoveAt(r, toIndex) == RemoveAt(s, fromIndex)
    ensures !(0 <= fromIndex < |s| && 0 <= toIndex < |s|) ==> r == s
  {
    if fromIndex < 0 || fromIndex >= |s| || toIndex < 0 || toIndex >= |s| then s
    else InsertAt(RemoveAt(s, fromIndex), toIndex, s[fromIndex])
  }

  /** Moving an item back to where it came from undoes the move. */
  lemma MoveBack<T(!new)>(s: seq<T>, fromIndex: int, toIndex: int)
    ensures Move(Move(s, fromIndex, toIndex), toIndex, fromIndex) == s
  {
    if 0 <= fromIndex < |s| && 0 <= toIndex < |s| {
      var r := Move(s, fromIndex, toIndex);
      assert Move(r, toIndex, fromIndex) == InsertAt(RemoveAt(s, fromIndex), fromIndex, s[fromIndex]);
      InsertRemovedItem(s, fromIndex);
    }
  }

  /**
   * The body of `generateData`: call the generator for indices `0 .. count - 1`,
   * a batch of `BatchSize` at a time. A generator that throws (`None`) aborts
   * the whole run, so the result is `None` exactly when some call fails.
   */
  method GenerateInChunks<T(!new)>(count: int, generator: int -> Option<T>) returns (r: Option<seq<T>>)
    ensures r.Some? <==> forall j :: 0 <= j < count ==> generator(j).Some?
    ensures r.Some? ==> |r.value| == Max(count, 0)
    ensures r.Some? ==> forall j :: 0 <= j < |r.value| ==> generator(j) == Some(r.value[j])
  {
    var newData: seq<T> := [];
    var i := 0;
    while i < count
      invariant 0 <= i
      invariant |newData| == Min(i, Max(count, 0))
      invariant forall k :: 0 <= k < |newData| ==> generator(k) == Some(newData[k])
    {
      var batchEnd := Min(i + BatchSize, count);
      var batch: seq<T> := [];
      var j := i;
      while j < batchEnd
        invariant i <= j <= batchEnd
        invariant |batch| == j - i
        invariant forall k :: 0 <= k < |batch| ==> generator(i + k) == Some(batch[k])
      {
        var x := generator(j);
        if x.None? {
          return None;
        }
        batch := batch + [x.value];
        j := j + 1;
      }
      newData := newData + batch;
      i := i + BatchSize;
    }
    return Some(newData);
  }

  /** The hook's state: the list and the loading flag. */
  class DataStore<T(!new)> {
    const idOf: T -> Key
    var data: seq<T>
    var loading: bool

    constructor (idOf: T -> Key)
      ensures this.idOf == idOf && data == [] && !loading
    {
      this.idOf := idOf;
      data := [];
      loading := false;
    }

    method SetData(newData: seq<T>)
      modifies this`data
      ensures data == newData
    {
      data := newData;
    }

    method AddItem(item: T, index: Option<int>)
      modifies this`data
      ensures data == WithItemAdded(old(data), item, index)
    {
      data := WithItemAdded(data, item, index);
    }

    method RemoveItem(id: Key)
      modifies this`data
      ensures data == RemoveById(old(data), idOf, id)
    {
      data := RemoveById(data, idOf, id);
    }

    method RemoveItems(ids: seq<Key>)
      modifies this`data
      ensures data == RemoveByIds(old(data), idOf, ids)
    {
      data := RemoveByIds(data, idOf, ids);
    }

    method UpdateItem(id: Key, patch: T -> T)
      modifies this`data
      ensures data == UpdateById(old(data), idOf, id, patch)
    {
      data := UpdateById(data, idOf, id, patch);
    }

    method MoveItem(fromIndex: int, toIndex: int)
      modifies this`data
      ensures data == Move(old(data), fromIndex, toIndex)
    {
      data := Move(data, fromIndex, toIndex);
    }

    /**
     * `generateData`: loading is raised for the run and lowered at the end
     * whatever happens; on success the list is replaced by the generated
     * items, and a failure is swallowed, leaving the list as it was.
     */
    method GenerateData(count: int, generator: int -> Option<T>)
      modifies this`data, this`loading
      ensures !loading
      ensures (forall j :: 0 <= j < count ==> generator(j).Some?) ==>
        |data| == Max(count, 0) && forall j :: 0 <= j < |data| ==> generator(j) == Some(data[j])
      ensures !(forall j :: 0 <= j < count ==> generator(j).Some?) ==> data == old(data)
    {
      loading := true;
      var r := GenerateInChunks(count, generator);
      if r.Some? {
        data := r.value;
      }
      loading := false;
    }

    method ClearData()
      modifies this`data
      ensures data == []
    {
      data := [];
    }

    /** `searchData`: the items that satisfy the predicate, in order; the state is not touched. */
    function SearchData(matches: T -> bool): (r: seq<T>)
      reads this
      ensures forall x :: x in r <==> x in data && matches(x)
      ensures forall x :: multiset(r)[x] == if matches(x) then multiset(data)[x] else 0
    {
      FilterCounts(data, matches);
      Filter(data, matches)
    }
  }
}
