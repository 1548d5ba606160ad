/**
 * The position index of the dynamic virtual scroller and the range resolver
 * that reads it: item extents laid out top to bottom with a fixed gap, a binary
 * search from a scroll offset to an item index, and the visible range widened
 * by the overscan margin.
 */
module PositionIndex {
  import opened Wrappers
  import opened HeightCache

  /** One laid-out item: `DynamicVirtualItem`. */
  datatype Extent = Extent(index: int, key: Key, start: int, end: int, height: int, measured: bool)

  /** Inclusive index bounds of what to render, and the pixel offset of the first one. */
  datatype Range = Range(start: int, end: int, offsetY: int)

  /**
   * The layout invariant of every position index: the first extent starts at
   * 0, extent i has index i and ends `height` below its start, and the next
   * one starts `gap` below that end.
   */
  ghost predicate Chained(ps: seq<Extent>, gap: int)
  {
    && (|ps| > 0 ==> ps[0].start == 0)
    && (forall i :: 0 <= i < |ps| ==> ps[i].index == i && ps[i].end == ps[i].start + ps[i].height)
    && (forall i :: 0 <= i < |ps| - 1 ==> ps[i + 1].start == ps[i].end + gap)
  }

  /** Extents are well formed and do not overlap, in index order. */
  ghost predicate Monotone(ps: seq<Extent>)
  {
    && (forall i :: 0 <= i < |ps| ==> ps[i].start <= ps[i].end)
    && (forall i, j :: 0 <= i < j < |ps| ==> ps[i].end <= ps[j].start)
  }

  /** `totalHeight`: the end of the last extent, or 0 for an empty index. */
  function TotalHeight(ps: seq<Extent>): (h: int)
    ensures |ps| == 0 ==> h == 0
    ensures Monotone(ps) ==> forall i :: 0 <= i < |ps| ==> ps[i].end <= h
  {
    if |ps| == 0 then 0 else ps[|ps| - 1].end
  }

  function HeightSum(ps: seq<Extent>): int
  {
    if |ps| == 0 then 0 else HeightSum(ps[..|ps| - 1]) + ps[|ps| - 1].height
  }

  lemma ChainedPrefix(ps: seq<Extent>, gap: int, n: nat)
    requires Chained(ps, gap) && n <= |ps|
    ensures Chained(ps[..n], gap)
  {
  }

  /** Appending the next extent, one gap below the last, keeps the index chained. */
  lemma ChainedAppend(ps: seq<Extent>, gap: int, e: Extent)
    requires Chained(ps, gap)
    requires e.index == |ps| && e.end == e.start + e.height
    requires e.start == if |ps| == 0 then 0 else ps[|ps| - 1].end + gap
    ensures Chained(ps + [e], gap)
  {
  }

  /** The total height is the sum of the item heights plus one gap between each two items. */
  lemma {:induction false} TotalHeightIsHeightsPlusGaps(ps: seq<Extent>, gap: int)
    requires Chained(ps, gap)
    ensures TotalHeight(ps) == HeightSum(ps) + (if |ps| == 0 then 0 else (|ps| - 1) * gap)
  {
    if |ps| > 1 {
      var p := ps[..|ps| - 1];
      ChainedPrefix(ps, gap, |ps| - 1);
      TotalHeightIsHeightsPlusGaps(p, gap);
      assert TotalHeight(p) == p[|p| - 1].end == ps[|ps| - 2].end;
      assert HeightSum(ps) == HeightSum(p) + ps[|ps| - 1].height;
      assert TotalHeight(ps) == ps[|ps| - 2].end + gap + ps[|ps| - 1].height;
      assert (|ps| - 1) * gap == (|p| - 1) * gap + gap;
    }
  }

  lemma {:induction false} EndBeforeLaterStart(ps: seq<Extent>, gap: int, i: int, j: int)
    requires Chained(ps, gap) && gap >= 0
    requires forall k :: 0 <= k < |ps| ==> ps[k].height >= 0
    requires 0 <= i < j < |ps|
    ensures ps[i].end <= ps[j].start
    decreases j - i
  {
    assert ps[j].start == ps[j - 1].end + gap;
    if j > i + 1 {
      EndBeforeLaterStart(ps, gap, i, j - 1);
      assert ps[j - 1].height >= 0;
    }
  }

  /** With a non-negative gap and non-negative heights, a chained index is monotone. */
  lemma ChainedIsMonotone(ps: seq<Extent>, gap: int)
    requires Chained(ps, gap) && gap >= 0
    requires forall k :: 0 <= k < |ps| ==> ps[k].height >= 0
    ensures Monotone(ps)
  {
    forall i, j | 0 <= i < j < |ps|
      ensures ps[i].end <= ps[j].start
    {
      EndBeforeLaterStart(ps, gap, i, j);
    }
  }

  /** When every height plus the gap is positive, the starts strictly increase. */
  lemma {:induction false} StartsStrictlyIncrease(ps: seq<Extent>, gap: int, i: int, j: int)
    requires Chained(ps, gap)
    requires forall k :: 0 <= k < |ps| ==> ps[k].height + gap > 0
    requires 0 <= i < j < |ps|
    ensures ps[i].start < ps[j].start
    decreases j - i
  {
    assert ps[j].start == ps[j - 1].end + gap;
    assert ps[j - 1].height + gap > 0;
    if j > i + 1 {
      StartsStrictlyIncrease(ps, gap, i, j - 1);
    }
  }

  /**
   * Linear reference for the binary search: how many leading extents end at or
   * above the offset `st`.
   */
  function LeadingEndsAtOrAbove(ps: seq<Extent>, st: int): (c: nat)
    ensures c <= |ps|
    ensures forall j :: 0 <= j < c ==> ps[j].end <= st
    ensures c < |ps| ==> st < ps[c].end
  {
    if |ps| == 0 || st < ps[0].end then 0 else 1 + LeadingEndsAtOrAbove(ps[1..], st)
  }

  /** The leading count is the only count with the three properties above. */
  lemma LeadingCountUnique(ps: seq<Extent>, st: int, c: nat)
    requires c <= |ps|
    requires forall j :: 0 <= j < c ==> ps[j].end <= st
    requires c < |ps| ==> st < ps[c].end
    ensures LeadingEndsAtOrAbove(ps, st) == c
  {
    var l := LeadingEndsAtOrAbove(ps, st);
    assert l < |ps| ==> st < ps[l].end;
    assert c < |ps| ==> st < ps[c].end;
  }

  /** The reference index: the first extent not wholly above `st`, clamped to the last one. */
  function IndexAt(ps: seq<Extent>, st: int): (k: int)
    ensures |ps| == 0 ==> k == 0
    ensures |ps| > 0 ==> 0 <= k < |ps|
  {
    if |ps| == 0 then 0 else Min(LeadingEndsAtOrAbove(ps, st), |ps| - 1)
  }

  /** The extent that contains the offset is the one found. */
  lemma ContainingExtentIsFound(ps: seq<Extent>, st: int, k: int)
    requires Monotone(ps)
    requires 0 <= k < |ps| && ps[k].start <= st < ps[k].end
    ensures IndexAt(ps, st) == k
  {
    forall j | 0 <= j < k
      ensures ps[j].end <= st
    {
      assert ps[j].end <= ps[k].start;
    }
    LeadingCountUnique(ps, st, k);
  }

  /** A lower offset never resolves to a later index. */
  lemma IndexAtMonotone(ps: seq<Extent>, a: int, b: int)
    requires a <= b
    ensures IndexAt(ps, a) <= IndexAt(ps, b)
  {
    if |ps| > 0 {
      var la, lb := LeadingEndsAtOrAbove(ps, a), LeadingEndsAtOrAbove(ps, b);
      assert lb < |ps| ==> b < ps[lb].end;
    }
  }

  /**
   * `findItemIndexByScrollTop`: binary search over the extents. On a monotone
   * index it agrees with the linear reference, so it finds the extent that
   * contains the offset, if there is one.
   */
  method FindItemIndexByScrollTop(ps: seq<Extent>, scrollTop: int) returns (idx: int)
    ensures |ps| == 0 ==> idx == 0
    ensures |ps| > 0 ==> 0 <= idx < |ps|
    ensures Monotone(ps) ==> idx == IndexAt(ps, scrollTop)
  {
    if |ps| == 0 {
      return 0;
    }
    var left, right := 0, |ps| - 1;
    while left <= right
      invariant 0 <= left <= right + 1 <= |ps|
      invariant Monotone(ps) ==> forall j :: 0 <= j < left ==> ps[j].end <= scrollTop
      invariant Monotone(ps) ==> forall j :: right < j < |ps| ==> scrollTop < ps[j].end
    {
      var mid := (left + right) / 2;
      var position := ps[mid];
      if position.start <= scrollTop && scrollTop < position.end {
        if Monotone(ps) {
          ContainingExtentIsFound(ps, scrollTop, mid);
        }
        return mid;
      } else if position.end <= scrollTop {
        left := mid + 1;
      } else {
        right := mid - 1;
      }
    }
    if Monotone(ps) {
      LeadingCountUnique(ps, scrollTop, left);
    }
    idx := Min(left, |ps| - 1);
  }

  /** Reference definition of `visibleRange`, in terms of the linear index. */
  function ResolveRange(ps: seq<Extent>, scrollTop: int, containerHeight: int, overscan: int): (r: Range)
    requires overscan >= 0
    ensures |ps| == 0 ==> r == Range(0, 0, 0)
    ensures |ps| > 0 ==> 0 <= r.start <= IndexAt(ps, scrollTop) <= r.start + overscan && r.end < |ps|
    ensures |ps| > 0 ==> r.offsetY == if r.start > 0 then ps[r.start].start else 0
  {
    if |ps| == 0 then Range(0, 0, 0)
    else
      var startIndex := IndexAt(ps, scrollTop);
      var bottom := scrollTop + containerHeight;
      var endIndex0 := IndexAt(ps, bottom);
      var endIndex := if endIndex0 < |ps| - 1 && ps[endIndex0].end < bottom then endIndex0 + 1 else endIndex0;
      var start := Max(0, startIndex - overscan);
      var end := Min(|ps| - 1, endIndex + overscan);
      Range(start, end, if start > 0 then ps[start].start else 0)
  }

  /**
   * `visibleRange`: `{0, 0, 0}` for an empty index; otherwise both bounds are
   * valid indices, and on a monotone index the result is the reference range.
   */
  method VisibleRange(ps: seq<Extent>, scrollTop: int, containerHeight: int, overscan: int)
    returns (r: Range)
    requires overscan >= 0
    ensures |ps| == 0 ==> r == Range(0, 0, 0)
    ensures |ps| > 0 ==> 0 <= r.start < |ps| && r.end < |ps|
    ensures Monotone(ps) ==> r == ResolveRange(ps, scrollTop, containerHeight, overscan)
  {
    if |ps| == 0 {
      return Range(0, 0, 0);
    }
    var startIndex := FindItemIndexByScrollTop(ps, scrollTop);
    var endScrollTop := scrollTop + containerHeight;
    var endIndex := FindItemIndexByScrollTop(ps, endScrollTop);
    if endIndex < |ps| - 1 && ps[endIndex].end < endScrollTop {
      endIndex := endIndex + 1;
    }
    var startWithOverscan := Max(0, startIndex - overscan);
    var endWithOverscan := Min(|ps| - 1, endIndex + overscan);
    r := Range(startWithOverscan, endWithOverscan,
               if startWithOverscan > 0 then ps[startWithOverscan].start else 0);
  }

  /** With a non-negative viewport the resolved range is a non-empty run of valid indices. */
  lemma ResolvedRangeInBounds(ps: seq<Extent>, scrollTop: int, containerHeight: int, overscan: int)
    requires overscan >= 0 && containerHeight >= 0 && |ps| > 0
    ensures var r := ResolveRange(ps, scrollTop, containerHeight, overscan);
      0 <= r.start <= r.end < |ps|
  {
    IndexAtMonotone(ps, scrollTop, scrollTop + containerHeight);
  }

  /** On a chained index `offsetY` is the start of the first rendered extent (extent 0 starts at 0). */
  lemma ResolvedOffsetIsFirstStart(ps: seq<Extent>, gap: int, scrollTop: int, containerHeight: int, overscan: int)
    requires overscan >= 0 && |ps| > 0 && Chained(ps, gap)
    ensures var r := ResolveRange(ps, scrollTop, containerHeight, overscan);
      0 <= r.start < |ps| && r.offsetY == ps[r.start].start
  {
  }

  /** Scrolled into the first extent, rendering starts at item 0 with no offset. */
  lemma RangeAtTopStartsAtZero(ps: seq<Extent>, scrollTop: int, containerHeight: int, overscan: int)
    requires overscan >= 0 && Monotone(ps) && |ps| > 0
    requires ps[0].start <= scrollTop < ps[0].end
    ensures ResolveRange(ps, scrollTop, containerHeight, overscan).start == 0
    ensures ResolveRange(ps, scrollTop, containerHeight, overscan).offsetY == 0
  {
    ContainingExtentIsFound(ps, scrollTop, 0);
  }

  /**
   * Every extent that meets the viewport `[scrollTop, scrollTop + containerHeight)`
   * lies inside the resolved range, so nothing visible is left unrendered.
   */
  lemma RangeCoversViewport(ps: seq<Extent>, scrollTop: int, containerHeight: int, overscan: int, k: int)
    requires overscan >= 0 && containerHeight >= 0 && Monotone(ps)
    requires 0 <= k < |ps|
    requires ps[k].start < scrollTop + containerHeight && scrollTop < ps[k].end
    ensures var r := ResolveRange(ps, scrollTop, containerHeight, overscan);
      r.start <= k <= r.end
  {
    var bottom := scrollTop + containerHeight;
    var l := LeadingEndsAtOrAbove(ps, bottom);
    assert l < |ps| ==> bottom < ps[l].end;
  }

  /** `virtualItems`: the extents whose index lies in the range; indices outside the index are skipped. */
  function Window(ps: seq<Extent>, r: Range): (w: seq<Extent>)
    ensures |w| <= |ps|
  {
    var lo := Max(r.start, 0);
    var hi := Min(r.end + 1, |ps|);
    if lo < hi then ps[lo..hi] else []
  }

  /** For a range of valid indices the window is exactly `ps[start..end]`, in order. */
  lemma WindowOfValidRange(ps: seq<Extent>, gap: int, r: Range)
    requires Chained(ps, gap) && 0 <= r.start <= r.end < |ps|
    ensures |Window(ps, r)| == r.end - r.start + 1
    ensures forall k :: 0 <= k < |Window(ps, r)| ==> Window(ps, r)[k] == ps[r.start + k]
    ensures forall k :: 0 <= k < |Window(ps, r)| ==> Window(ps, r)[k].index == r.start + k
  {
  }
}
