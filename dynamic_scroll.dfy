/**
 * `useDynamicVirtualScroll`: the dynamic-height virtual scroller. The hook's
 * refs and state become the fields of `Engine`; each memoised value becomes a
 * method the host calls after a change (`ItemPositions`, `VirtualItems`,
 * `Render`), and each effect becomes a method (`ItemsChanged`, `Teardown`).
 * The 150 ms idle timer is an explicit handle: scheduling issues a fresh
 * handle, cancelling forgets it, and only the pending handle can fire.
 */
module DynamicVirtualScroll {
  import opened Wrappers
  import opened HeightCache
  import opened PositionIndex

  const DefaultOverscan := 5
  const DefaultItemGap := 16
  /** Milliseconds without a scroll event before `isScrolling` drops (the timer itself is an event here). */
  const ScrollIdleDelay := 150

  /** The numeric part of `DynamicVirtualScrollConfig`. */
  datatype Config = Config(estimatedItemHeight: int, containerHeight: int, overscan: int, itemGap: int)
  {
    ghost predicate Valid()
    {
      estimatedItemHeight > 0 && containerHeight >= 0 && overscan >= 0 && itemGap >= 0
    }
  }

  /** The configuration with `overscan` and `itemGap` left out taking their defaults. */
  function WithDefaults(estimatedItemHeight: int, containerHeight: int, overscan: Option<int>, itemGap: Option<int>): (c: Config)
    ensures c.estimatedItemHeight == estimatedItemHeight && c.containerHeight == containerHeight
    ensures overscan.None? ==> c.overscan == 5
    ensures itemGap.None? ==> c.itemGap == 16
    ensures overscan.Some? ==> c.overscan == overscan.value
    ensures itemGap.Some? ==> c.itemGap == itemGap.value
  {
    Config(estimatedItemHeight, containerHeight, overscan.GetOr(DefaultOverscan), itemGap.GetOr(DefaultItemGap))
  }

  /** The integers from `lo` to `hi`, both included. */
  function Interval(lo: int, hi: int): (s: set<int>)
    ensures forall i :: i in s <==> lo <= i <= hi
    decreases hi - lo
  {
    if lo > hi then {} else {lo} + Interval(lo + 1, hi)
  }

  /** The key of an item when no `getItemKey` is configured: its index. */
  function DefaultItemKey<T>(index: int, item: T): Key
  {
    NumKey(index)
  }

  /** `Math.ceil(c / d)` for a positive divisor. */
  function CeilDiv(c: int, d: int): (q: int)
    requires d > 0
    ensures (q - 1) * d < c <= q * d
  {
    var q := (c + d - 1) / d;
    assert c + d - 1 == d * q + (c + d - 1) % d;
    q
  }

  /**
   * How many extents the bounded first pass lays out for `n` items: indices
   * `0 ..= min(n - 1, ceil(containerHeight / (estimate + gap)) + 2 * overscan)`.
   */
  function InitialCount(config: Config, n: nat): (c: nat)
    requires config.Valid()
    ensures c <= n
    ensures n > 0 ==> c >= 1
    ensures c < n ==> c == CeilDiv(config.containerHeight, config.estimatedItemHeight + config.itemGap) + 2 * config.overscan + 1
  {
    var initialVisibleCount := CeilDiv(config.containerHeight, config.estimatedItemHeight + config.itemGap) + config.overscan * 2;
    Min(n - 1, initialVisibleCount) + 1
  }

  class Engine<T> {
    const config: Config
    const getItemKey: (int, T) -> Key

    var items: seq<T>
    /** `heightCache`: heights by property name. */
    var heightCache: Cache
    /** Indices (not keys) whose height has been reported. */
    var measuredIndexes: set<int>
    /** Indices that have been rendered; while empty, the bounded first pass is used. */
    var renderedIndexes: set<int>
    /** `forceRecalculate`: bumped on every change that invalidates the position index. */
    var recalculations: nat
    var scrollTop: int
    var isScrolling: bool
    /** The pending idle timer, if any. */
    var scrollTimer: Option<nat>
    /** The handle the next scheduled timer gets; handles are never reused. */
    var nextTimer: nat

    ghost predicate Valid()
      reads this
    {
      && config.Valid()
      && (forall name :: name in heightCache ==> heightCache[name] >= 0)
      && (scrollTimer.Some? ==> isScrolling && scrollTimer.value < nextTimer)
    }

    constructor (config: Config, getItemKey: (int, T) -> Key, items: seq<T>)
      requires config.Valid()
      ensures Valid()
      ensures this.config == config && this.getItemKey == getItemKey && this.items == items
      ensures heightCache == map[] && measuredIndexes == {} && renderedIndexes == {}
      ensures scrollTop == 0 && !isScrolling && scrollTimer == None
    {
      this.config := config;
      this.getItemKey := getItemKey;
      this.items := items;
      heightCache := map[];
      measuredIndexes := {};
      renderedIndexes := {};
      recalculations := 0;
      scrollTop := 0;
      isScrolling := false;
      scrollTimer := None;
      nextTimer := 0;
    }

    /** The keys of a list of items, as `getItemKey` gives them. */
    function ValidKeys(xs: seq<T>): (keys: set<Key>)
      ensures forall i :: 0 <= i < |xs| ==> getItemKey(i, xs[i]) in keys
      ensures forall k :: k in keys ==> exists i :: 0 <= i < |xs| && k == getItemKey(i, xs[i])
    {
      set i | 0 <= i < |xs| :: getItemKey(i, xs[i])
    }

    /** `getItemHeight`: the cached height of the item's key, or the estimate when it is absent or 0. */
    function GetItemHeight(index: int, item: T): (h: int)
      reads this
      ensures var name := PropertyName(getItemKey(index, item));
        if name in heightCache && heightCache[name] != 0 then h == heightCache[name] else h == config.estimatedItemHeight
      ensures Valid() ==> h > 0
    {
      HeightOr(heightCache, PropertyName(getItemKey(index, item)), config.estimatedItemHeight)
    }

    /**
     * The effect that runs when the items change: prune the cache against the
     * new keys, forget every measured and rendered index, and force a recompute.
     */
    method ItemsChanged(newItems: seq<T>)
      requires Valid()
      modifies this`items, this`heightCache, this`measuredIndexes, this`renderedIndexes, this`recalculations
      ensures Valid()
      ensures items == newItems
      ensures heightCache == Prune(old(heightCache), ValidKeys(newItems))
      ensures forall name :: name in heightCache ==> StrKey(name) in ValidKeys(newItems)
      ensures measuredIndexes == {} && renderedIndexes == {}
      ensures recalculations == old(recalculations) + 1
    {
      items := newItems;
      heightCache := Prune(heightCache, ValidKeys(newItems));
      measuredIndexes := {};
      renderedIndexes := {};
      recalculations := recalculations + 1;
    }

    /**
     * `setItemHeight`: a no-op when the key already caches exactly `height`;
     * otherwise cache it, mark the index measured and rendered, and recompute.
     * Afterwards the key caches `height`, so a repeated call is a no-op.
     */
    method SetItemHeight(index: int, item: T, height: int)
      requires Valid() && height >= 0
      modifies this`heightCache, this`measuredIndexes, this`renderedIndexes, this`recalculations
      ensures Valid()
      ensures var name := PropertyName(getItemKey(index, item));
        if name in old(heightCache) && old(heightCache)[name] == height then
          && heightCache == old(heightCache)
          && measuredIndexes == old(measuredIndexes) && renderedIndexes == old(renderedIndexes)
          && recalculations == old(recalculations)
        else
          && heightCache == old(heightCache)[name := height]
          && measuredIndexes == old(measuredIndexes) + {index}
          && renderedIndexes == old(renderedIndexes) + {index}
          && recalculations == old(recalculations) + 1
      ensures var name := PropertyName(getItemKey(index, item));
        name in heightCache && heightCache[name] == height
    {
      var key := getItemKey(index, item);
      var name := PropertyName(key);
      if !(name in heightCache && heightCache[name] == height) {
        heightCache := heightCache[name := height];
        measuredIndexes := measuredIndexes + {index};
        renderedIndexes := renderedIndexes + {index};
        recalculations := recalculations + 1;
      }
    }

    /**
     * `itemPositions`. While no index has been rendered, a bounded first pass
     * lays out only the first `InitialCount` items, all at the estimate and
     * unmeasured; otherwise a full pass lays out every item at its cached
     * height. Either way the extents are chained by the gap.
     */
    method ItemPositions() returns (ps: seq<Extent>)
      requires Valid()
      ensures Chained(ps, config.itemGap)
      ensures |ps| == if renderedIndexes == {} then InitialCount(config, |items|) else |items|
      ensures forall i :: 0 <= i < |ps| ==> i < |items| && ps[i].key == getItemKey(i, items[i])
      ensures renderedIndexes == {} ==>
        forall i :: 0 <= i < |ps| ==> ps[i].height == config.estimatedItemHeight && !ps[i].measured
      ensures renderedIndexes != {} ==>
        forall i :: 0 <= i < |ps| ==>
          ps[i].height == GetItemHeight(i, items[i]) && ps[i].measured == (i in measuredIndexes)
    {
      if |renderedIndexes| == 0 {
        var initialVisibleCount := CeilDiv(config.containerHeight, config.estimatedItemHeight + config.itemGap) + config.overscan * 2;
        var endIndex := Min(|items| - 1, initialVisibleCount);
        ps := EstimatedPass(endIndex);
      } else {
        ps := MeasuredPass();
      }
    }

    /** The bounded first pass: items `0 ..= endIndex` at the estimate, unmeasured. */
    method EstimatedPass(endIndex: int) returns (ps: seq<Extent>)
      requires Valid() && -1 <= endIndex < |items|
      ensures Chained(ps, config.itemGap) && |ps| == endIndex + 1
      ensures forall i :: 0 <= i < |ps| ==>
        ps[i].key == getItemKey(i, items[i]) && ps[i].height == config.estimatedItemHeight && !ps[i].measured
    {
      ps := [];
      var currentTop := 0;
      var i := 0;
      while i <= endIndex
        invariant 0 <= i <= endIndex + 1
        invariant |ps| == i
        invariant Chained(ps, config.itemGap)
        invariant currentTop == if i == 0 then 0 else ps[i - 1].end + config.itemGap
        invariant forall k :: 0 <= k < i ==>
          ps[k].key == getItemKey(k, items[k]) && ps[k].height == config.estimatedItemHeight && !ps[k].measured
      {
        var key := getItemKey(i, items[i]);
        var height := config.estimatedItemHeight;
        var e := Extent(i, key, currentTop, currentTop + height, height, false);
        ChainedAppend(ps, config.itemGap, e);
        ps := ps + [e];
        currentTop := currentTop + height + config.itemGap;
        i := i + 1;
      }
    }

    /** The full pass: every item at its cached height, marked measured when its index is. */
    method MeasuredPass() returns (ps: seq<Extent>)
      requires Valid()
      ensures Chained(ps, config.itemGap) && |ps| == |items|
      ensures forall i :: 0 <= i < |ps| ==>
        && ps[i].key == getItemKey(i, items[i])
        && ps[i].height == GetItemHeight(i, items[i])
        && ps[i].measured == (i in measuredIndexes)
    {
      ps := [];
      var currentTop := 0;
      var i := 0;
      while i < |items|
        invariant 0 <= i <= |items|
        invariant |ps| == i
        invariant Chained(ps, config.itemGap)
        invariant currentTop == if i == 0 then 0 else ps[i - 1].end + config.itemGap
        invariant forall k :: 0 <= k < i ==>
          && ps[k].key == getItemKey(k, items[k])
          && ps[k].height == GetItemHeight(k, items[k])
          && ps[k].measured == (k in measuredIndexes)
      {
        var key := getItemKey(i, items[i]);
        var height := GetItemHeight(i, items[i]);
        var measured := i in measuredIndexes;
        var e := Extent(i, key, currentTop, currentTop + height, height, measured);
        ChainedAppend(ps, config.itemGap, e);
        ps := ps + [e];
        currentTop := currentTop + height + config.itemGap;
        i := i + 1;
      }
    }

    /**
     * `virtualItems`: the extents of the range, in index order, skipping
     * indices with no extent; every index it returns is marked rendered.
     */
    method VirtualItems(ps: seq<Extent>, r: Range) returns (result: seq<Extent>)
      modifies this`renderedIndexes
      ensures result == Window(ps, r)
      ensures renderedIndexes == old(renderedIndexes) + Interval(Max(r.start, 0), Min(r.end, |ps| - 1))
    {
      result := [];
      var i := r.start;
      while i <= r.end
        invariant r.start <= i && (i <= r.end + 1 || i == r.start)
        invariant result == Window(ps, Range(r.start, i - 1, r.offsetY))
        invariant renderedIndexes == old(renderedIndexes) + Interval(Max(r.start, 0), Min(i - 1, |ps| - 1))
      {
        if 0 <= i < |ps| {
          assert ps[Max(r.start, 0)..i + 1] == ps[Max(r.start, 0)..i] + [ps[i]];
          result := result + [ps[i]];
          renderedIndexes := renderedIndexes + {i};
        }
        i := i + 1;
      }
    }

    /**
     * One render in which the `itemPositions` memo recomputes (after the list
     * or a height changed): lay out the index, resolve the visible range for
     * the current scroll offset and collect its extents. A render caused by
     * scrolling alone keeps the previous index, since that memo does not
     * depend on the offset; the host then calls `VisibleRange` and
     * `VirtualItems` on the index it already has. The index is monotone,
     * the range is the reference range, and a non-empty list leaves at least
     * one index rendered, which switches the next layout to the full pass.
     */
    method Render() returns (ps: seq<Extent>, totalHeight: int, range: Range, visible: seq<Extent>)
      requires Valid()
      modifies this`renderedIndexes
      ensures Valid()
      ensures Chained(ps, config.itemGap) && Monotone(ps)
      ensures |ps| == if old(renderedIndexes) == {} then InitialCount(config, |items|) else |items|
      ensures totalHeight == TotalHeight(ps)
      ensures range == ResolveRange(ps, scrollTop, config.containerHeight, config.overscan)
      ensures |ps| > 0 ==> 0 <= range.start <= range.end < |ps|
      ensures visible == Window(ps, range)
      ensures renderedIndexes == old(renderedIndexes) + Interval(Max(range.start, 0), Min(range.end, |ps| - 1))
      ensures |items| > 0 ==> renderedIndexes != {}
    {
      ps := ItemPositions();
      forall k | 0 <= k < |ps|
        ensures ps[k].height >= 0
      {
        if old(renderedIndexes) != {} {
          assert ps[k].height == GetItemHeight(k, items[k]);
        }
      }
      ChainedIsMonotone(ps, config.itemGap);
      totalHeight := TotalHeight(ps);
      range := VisibleRange(ps, scrollTop, config.containerHeight, config.overscan);
      if |ps| > 0 {
        ResolvedRangeInBounds(ps, scrollTop, config.containerHeight, config.overscan);
      }
      visible := VirtualItems(ps, range);
      if |items| > 0 {
        assert range.start in renderedIndexes;
      }
    }

    /** `handleScroll`: record the offset, raise `isScrolling`, and replace any pending idle timer by a fresh one. */
    method HandleScroll(newScrollTop: int)
      requires Valid()
      modifies this`scrollTop, this`isScrolling, this`scrollTimer, this`nextTimer
      ensures Valid()
      ensures scrollTop == newScrollTop && isScrolling
      ensures scrollTimer == Some(old(nextTimer)) && nextTimer == old(nextTimer) + 1
      ensures old(scrollTimer).Some? ==> old(scrollTimer) != scrollTimer
    {
      scrollTop := newScrollTop;
      isScrolling := true;
      scrollTimer := Some(nextTimer);
      nextTimer := nextTimer + 1;
    }

    /**
     * A timer fires. Only the pending one has any effect: it lowers
     * `isScrolling`. A cancelled (replaced) timer never reaches its callback.
     */
    method FireScrollTimer(timer: nat)
      requires Valid()
      modifies this`isScrolling, this`scrollTimer
      ensures Valid()
      ensures old(scrollTimer) == Some(timer) ==> !isScrolling && scrollTimer == None
      ensures old(scrollTimer) != Some(timer) ==> isScrolling == old(isScrolling) && scrollTimer == old(scrollTimer)
    {
      if scrollTimer == Some(timer) {
        isScrolling := false;
        scrollTimer := None;
      }
    }

    /** Unmount: the pending idle timer is cancelled, so nothing can fire afterwards. */
    method Teardown()
      requires Valid()
      modifies this`scrollTimer
      ensures Valid() && scrollTimer == None
    {
      scrollTimer := None;
    }

    /**
     * `remeasureItem`: when item `index` exists, forget its key's height and
     * its measured mark (its rendered mark stays) and recompute; otherwise do nothing.
     */
    method RemeasureItem(index: int)
      requires Valid()
      modifies this`heightCache, this`measuredIndexes, this`recalculations
      ensures Valid()
      ensures 0 <= index < |items| ==>
        && heightCache == old(heightCache) - {PropertyName(getItemKey(index, items[index]))}
        && measuredIndexes == old(measuredIndexes) - {index}
        && recalculations == old(recalculations) + 1
      ensures !(0 <= index < |items|) ==>
        heightCache == old(heightCache) && measuredIndexes == old(measuredIndexes) && recalculations == old(recalculations)
      ensures 0 <= index < |items| ==> GetItemHeight(index, items[index]) == config.estimatedItemHeight
    {
      if 0 <= index < |items| {
        var key := getItemKey(index, items[index]);
        heightCache := heightCache - {PropertyName(key)};
        measuredIndexes := measuredIndexes - {index};
        recalculations := recalculations + 1;
      }
    }

    /**
     * `remeasureAll`: empty the cache and both index sets, so every item reads
     * as the estimate and the next layout is the bounded first pass again.
     */
    method RemeasureAll()
      requires Valid()
      modifies this`heightCache, this`measuredIndexes, this`renderedIndexes, this`recalculations
      ensures Valid()
      ensures heightCache == map[] && measuredIndexes == {} && renderedIndexes == {}
      ensures recalculations == old(recalculations) + 1
      ensures forall i, item :: GetItemHeight(i, item) == config.estimatedItemHeight
    {
      heightCache := map[];
      measuredIndexes := {};
      renderedIndexes := {};
      recalculations := recalculations + 1;
    }
  }

  /** A sample configuration: 300 px estimate, 600 px viewport, overscan 2 and a 16 px gap lay out items 0 to 6 first. */
  lemma SampleInitialCount()
    ensures InitialCount(Config(300, 600, 2, 16), 1000) == 7
  {
    assert CeilDiv(600, 316) == 2;
  }
}
