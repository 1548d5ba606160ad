/**
 * `useVirtualScroll` and `useBigData`: the fixed-height scroller, where item
 * `i` occupies `[i * itemHeight, (i + 1) * itemHeight)`, and the plain list
 * generator that feeds it.
 */
module FixedVirtualScroll {
  import opened Wrappers
  import opened Strings
  import VirtualScrollStore
  import JsArrays

  const DefaultOverscan := 5
  const Categories: seq<string> := ["Category A", "Category B", "Category C"]

  datatype VisibleRange = VisibleRange(start: int, end: int)
  datatype VirtualItem = VirtualItem(index: int, start: int, end: int)

  /**
   * `visibleRange`: the items under the viewport, widened by `overscan` on
   * both sides and clipped to the list. It never starts below 0 nor ends past
   * the last item, and it is empty for an empty list.
   */
  function ComputeVisibleRange(itemCount: nat, itemHeight: int, containerHeight: int, overscan: int, scrollTop: int): (r: VisibleRange)
    requires itemHeight > 0
    ensures r.start >= 0 && r.end <= itemCount - 1
    ensures itemCount == 0 ==> r.end < r.start
    ensures itemCount == 0 && overscan >= 0 && scrollTop + containerHeight >= 0 ==> r.end == -1
  {
    var start := scrollTop / itemHeight;
    var end := Min(itemCount - 1, (scrollTop + containerHeight) / itemHeight);
    VisibleRange(Max(0, start - overscan), Min(itemCount - 1, end + overscan))
  }

  lemma MulLess(a: int, b: int, c: int)
    requires c > 0 && a * c < b * c
    ensures a < b
  {
    assert (b - a) * c == b * c - a * c;
  }

  /**
   * Every item that intersects the viewport `[scrollTop, scrollTop + containerHeight)`
   * lies inside the visible range.
   */
  lemma {:induction false} RangeCoversViewport(itemCount: nat, itemHeight: int, containerHeight: int, overscan: int, scrollTop: int, k: int)
    requires itemHeight > 0 && overscan >= 0 && 0 <= k < itemCount
    requires k * itemHeight < scrollTop + containerHeight && scrollTop < (k + 1) * itemHeight
    ensures var r := ComputeVisibleRange(itemCount, itemHeight, containerHeight, overscan, scrollTop);
      r.start <= k <= r.end
  {
    var q := scrollTop / itemHeight;
    assert q * itemHeight <= scrollTop;
    MulLess(q, k + 1, itemHeight);
    var q' := (scrollTop + containerHeight) / itemHeight;
    assert scrollTop + containerHeight < (q' + 1) * itemHeight;
    MulLess(k, q' + 1, itemHeight);
  }

  /**
   * The range is no wider than the source's formulas allow: every item in it
   * is at most `overscan` items above the one holding `scrollTop` and at most
   * `overscan` items below the one holding the viewport's bottom edge.
   */
  lemma {:induction false} RangeIsTight(itemCount: nat, itemHeight: int, containerHeight: int, overscan: int, scrollTop: int, k: int)
    requires itemHeight > 0
    requires var r := ComputeVisibleRange(itemCount, itemHeight, containerHeight, overscan, scrollTop);
      r.start <= k <= r.end
    ensures scrollTop < (k + overscan + 1) * itemHeight
    ensures (k - overscan) * itemHeight <= scrollTop + containerHeight
  {
    var q := scrollTop / itemHeight;
    assert scrollTop < (q + 1) * itemHeight;
    MulMonotone(q + 1, k + overscan + 1, itemHeight);
    var q' := (scrollTop + containerHeight) / itemHeight;
    assert q' * itemHeight <= scrollTop + containerHeight;
    MulMonotone(k - overscan, q', itemHeight);
  }

  /** Item `i` of a list of `itemHeight`-tall items. */
  function ItemAt(i: int, itemHeight: int): (v: VirtualItem)
    ensures v.index == i && v.start == i * itemHeight && v.end == v.start + itemHeight
  {
    VirtualItem(i, i * itemHeight, (i + 1) * itemHeight)
  }

  lemma {:induction false} MulMonotone(a: int, b: int, c: int)
    requires a <= b && c >= 0
    ensures a * c <= b * c
    decreases b - a
  {
    if a < b {
      MulMonotone(a, b - 1, c);
      assert b * c == (b - 1) * c + c;
    }
  }

  /** Every item of a list lies inside the list's total height. */
  lemma AllItemsInsideList(itemCount: nat, itemHeight: int)
    requires itemHeight > 0
    ensures 0 <= itemCount * itemHeight
    ensures forall i :: 0 <= i < itemCount ==> ItemAt(i, itemHeight).end <= itemCount * itemHeight
  {
    MulMonotone(0, itemCount, itemHeight);
    forall i | 0 <= i < itemCount
      ensures ItemAt(i, itemHeight).end <= itemCount * itemHeight
    {
      ItemInsideList(i, itemCount, itemHeight);
    }
  }

  lemma ItemInsideList(i: int, itemCount: nat, itemHeight: int)
    requires itemHeight > 0 && 0 <= i < itemCount
    ensures 0 <= ItemAt(i, itemHeight).start && ItemAt(i, itemHeight).end <= itemCount * itemHeight
  {
    MulMonotone(0, i, itemHeight);
    MulMonotone(i + 1, itemCount, itemHeight);
  }

  /** The scroller's state: the configuration and the last scroll offset. */
  class Scroller {
    const itemHeight: int
    const containerHeight: int
    const overscan: int
    var scrollTop: int

    ghost predicate Valid()
    {
      itemHeight > 0
    }

    constructor (itemHeight: int, containerHeight: int, overscan: Option<int>)
      requires itemHeight > 0
      ensures Valid() && scrollTop == 0
      ensures this.itemHeight == itemHeight && this.containerHeight == containerHeight
      ensures this.overscan == overscan.GetOr(DefaultOverscan)
    {
      this.itemHeight := itemHeight;
      this.containerHeight := containerHeight;
      this.overscan := overscan.GetOr(DefaultOverscan);
      scrollTop := 0;
    }

    /** `handleScroll`: only the offset changes. */
    method HandleScroll(newScrollTop: int)
      modifies this`scrollTop
      ensures scrollTop == newScrollTop
    {
      scrollTop := newScrollTop;
    }

    /** `totalHeight`: the extent of the whole list, which holds every item. */
    function TotalHeight(itemCount: nat): (h: int)
      ensures Valid() ==> 0 <= h && forall i :: 0 <= i < itemCount ==> ItemAt(i, itemHeight).end <= h
    {
      if itemHeight > 0 then AllItemsInsideList(itemCount, itemHeight); itemCount * itemHeight
      else itemCount * itemHeight
    }

    /**
     * `virtualItems`: one item per index of the visible range, in ascending
     * order, each exactly one item height tall, abutting the next, and all
     * inside `[0, TotalHeight(itemCount)]`.
     */
    method VirtualItems(itemCount: nat) returns (items: seq<VirtualItem>)
      requires Valid()
      ensures var r := ComputeVisibleRange(itemCount, itemHeight, containerHeight, overscan, scrollTop);
        && |items| == Max(r.end - r.start + 1, 0)
        && forall k :: 0 <= k < |items| ==> items[k].index == r.start + k
      ensures forall k :: 0 <= k < |items| ==>
        items[k].start == items[k].index * itemHeight && items[k].end == items[k].start + itemHeight
      ensures forall k :: 0 <= k < |items| - 1 ==> items[k].end == items[k + 1].start
      ensures forall k :: 0 <= k < |items| ==> 0 <= items[k].start && items[k].end <= TotalHeight(itemCount)
    {
      var range := ComputeVisibleRange(itemCount, itemHeight, containerHeight, overscan, scrollTop);
      items := [];
      var i := range.start;
      while i <= range.end
        invariant range.start <= i && (i <= range.end + 1 || i == range.start)
        invariant |items| == i - range.start
        invariant forall k :: 0 <= k < |items| ==> items[k] == ItemAt(range.start + k, itemHeight)
      {
        items := items + [ItemAt(i, itemHeight)];
        i := i + 1;
      }
      forall k | 0 <= k < |items|
        ensures 0 <= items[k].start && items[k].end <= TotalHeight(itemCount)
      {
        ItemInsideList(range.start + k, itemCount, itemHeight);
      }
    }
  }

  /** Item `index` of `useBigData`'s list: id `index`, named from 1, category cycling through three. */
  function BigDataItem(index: nat, d: VirtualScrollStore.ItemDraw): (item: VirtualScrollStore.DataItem)
    ensures item.id == index && item.category == Categories[index % 3]
    ensures item.name == "Item " + NatToString(index + 1)
    ensures 0 <= item.value < 1000
  {
    VirtualScrollStore.DataItem(
      index, "Item " + NatToString(index + 1), d.value % 1000,
      "This is description for item " + NatToString(index + 1), d.timestamp, Categories[index % 3])
  }

  /** `useBigData`'s state. */
  class BigData {
    var data: seq<VirtualScrollStore.DataItem>
    var loading: bool

    constructor ()
      ensures data == [] && !loading
    {
      data := [];
      loading := false;
    }

    /**
     * `generateData`: the list becomes `count` items and loading ends. There
     * is no error handling: a RangeError escapes, leaving the list as it was
     * and loading stuck on.
     */
    method GenerateData(count: int, draws: nat -> VirtualScrollStore.ItemDraw) returns (rangeError: bool)
      modifies this
      ensures rangeError <==> count > JsArrays.MaxArrayLength
      ensures !rangeError ==>
        && !loading && |data| == Max(count, 0)
        && forall i :: 0 <= i < |data| ==> data[i] == BigDataItem(i, draws(i))
      ensures rangeError ==> loading && data == old(data)
    {
      loading := true;
      var r := JsArrays.ArrayFrom(count, i => BigDataItem(i, draws(i)));
      if r.None? {
        return true;
      }
      data := r.value;
      loading := false;
      return false;
    }

    method ClearData()
      modifies this`data
      ensures data == []
    {
      data := [];
    }
  }
}
