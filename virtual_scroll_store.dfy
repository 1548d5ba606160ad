/**
 * The virtual-scroll page store: the generated list, its loading flag and
 * requested size, the fixed-height scroll configuration and the render
 * statistics. Each action is a method that replaces exactly the fields it
 * names. Render times are exact reals here; the average is kept as a
 * running mean of every render time since the last reset.
 */
module VirtualScrollStore {
  import opened Wrappers
  import opened Strings
  import opened JsArrays

  datatype DataItem = DataItem(id: int, name: string, value: int, description: string, timestamp: string, category: string)

  /** The random value and clock readings behind one generated item. */
  datatype ItemDraw = ItemDraw(value: nat, timestamp: string, localeTime: string)

  datatype ScrollConfig = ScrollConfig(itemHeight: int, containerHeight: int, overscan: int)
  /** A `Partial<ScrollConfig>`. */
  datatype ScrollConfigPatch = ScrollConfigPatch(itemHeight: Option<int>, containerHeight: Option<int>, overscan: Option<int>)

  datatype RenderStats = RenderStats(totalRenders: nat, averageRenderTime: real, lastRenderTime: real)

  const DefaultScrollConfig := ScrollConfig(50, 600, 5)
  const DefaultRenderStats := RenderStats(0, 0.0, 0.0)
  const DefaultDataCount := 10000
  const Categories: seq<string> := ["Category A", "Category B", "Category C", "Category D"]

  /** Item `index` of `generateData`: id `index`, named from 1, category cycling through four. */
  function GeneratedItem(index: nat, d: ItemDraw): (item: DataItem)
    ensures item.id == index && item.category == Categories[index % 4]
    ensures item.name == "Item " + NatToString(index + 1)
    ensures 0 <= item.value < 1000
  {
    DataItem(
      index, "Item " + NatToString(index + 1), d.value % 1000,
      "This is description for item " + NatToString(index + 1) + ". Generated at " + d.localeTime,
      d.timestamp, Categories[index % 4])
  }

  /** `{ ...scrollConfig, ...patch }`: the fields the patch gives replace the old ones, the others stay. */
  function MergeScrollConfig(c: ScrollConfig, p: ScrollConfigPatch): (r: ScrollConfig)
    ensures r.itemHeight == if p.itemHeight.Some? then p.itemHeight.value else c.itemHeight
    ensures r.containerHeight == if p.containerHeight.Some? then p.containerHeight.value else c.containerHeight
    ensures r.overscan == if p.overscan.Some? then p.overscan.value else c.overscan
  {
    ScrollConfig(p.itemHeight.GetOr(c.itemHeight), p.containerHeight.GetOr(c.containerHeight), p.overscan.GetOr(c.overscan))
  }

  /** An empty patch changes nothing. */
  lemma MergeEmptyPatch(c: ScrollConfig)
    ensures MergeScrollConfig(c, ScrollConfigPatch(None, None, None)) == c
  {
  }

  function Sum(times: seq<real>): real
  {
    if |times| == 0 then 0.0 else Sum(times[..|times| - 1]) + times[|times| - 1]
  }

  /** `updateRenderStats`' new statistics: one more render, a running mean, and the latest time. */
  function NextRenderStats(s: RenderStats, renderTime: real): (r: RenderStats)
    ensures r.totalRenders == s.totalRenders + 1 && r.lastRenderTime == renderTime
    ensures r.averageRenderTime * (r.totalRenders as real) == s.averageRenderTime * (s.totalRenders as real) + renderTime
  {
    var total := s.totalRenders + 1;
    RenderStats(total, (s.averageRenderTime * (s.totalRenders as real) + renderTime) / (total as real), renderTime)
  }

  class Store {
    var data: seq<DataItem>
    var loading: bool
    var dataCount: int
    var scrollConfig: ScrollConfig
    var renderStats: RenderStats
    /** The render times since the last reset, in order. */
    ghost var renderTimes: seq<real>

    /** The average is the mean of the render times since the last reset. */
    ghost predicate Valid()
      reads this
    {
      && |renderTimes| == renderStats.totalRenders
      && renderStats.averageRenderTime * (renderStats.totalRenders as real) == Sum(renderTimes)
    }

    constructor ()
      ensures Valid()
      ensures data == [] && !loading && dataCount == DefaultDataCount
      ensures scrollConfig == DefaultScrollConfig && renderStats == DefaultRenderStats
    {
      data := [];
      loading := false;
      dataCount := DefaultDataCount;
      scrollConfig := DefaultScrollConfig;
      renderStats := DefaultRenderStats;
      renderTimes := [];
    }

    method SetData(newData: seq<DataItem>)
      modifies this`data
      ensures data == newData
    {
      data := newData;
    }

    /**
     * `generateData`: on success the list is `count` generated items and
     * loading is off; a RangeError leaves the list as it was, loading off.
     */
    method GenerateData(count: int, draws: nat -> ItemDraw)
      modifies this`data, this`loading
      ensures !loading
      ensures count <= MaxArrayLength ==>
        |data| == Max(count, 0) && forall i :: 0 <= i < |data| ==> data[i] == GeneratedItem(i, draws(i))
      ensures count > MaxArrayLength ==> data == old(data)
    {
      loading := true;
      var r := ArrayFrom(count, i => GeneratedItem(i, draws(i)));
      if r.Some? {
        data := r.value;
      }
      loading := false;
    }

    /** `clearData`: empties the list and resets the statistics. */
    method ClearData()
      modifies this`data, this`renderStats, this`renderTimes
      ensures Valid()
      ensures data == [] && renderStats == DefaultRenderStats
    {
      data := [];
      renderStats := DefaultRenderStats;
      renderTimes := [];
    }

    method SetLoading(value: bool)
      modifies this`loading
      ensures loading == value
    {
      loading := value;
    }

    method SetDataCount(count: int)
      modifies this`dataCount
      ensures dataCount == count
    {
      dataCount := count;
    }

    method UpdateScrollConfig(patch: ScrollConfigPatch)
      modifies this`scrollConfig
      ensures scrollConfig == MergeScrollConfig(old(scrollConfig), patch)
    {
      scrollConfig := MergeScrollConfig(scrollConfig, patch);
    }

    /** `updateRenderStats`: the average stays the mean of all render times, the new one included. */
    method UpdateRenderStats(renderTime: real)
      requires Valid()
      modifies this`renderStats, this`renderTimes
      ensures Valid()
      ensures renderStats == NextRenderStats(old(renderStats), renderTime)
      ensures renderTimes == old(renderTimes) + [renderTime]
    {
      renderStats := NextRenderStats(renderStats, renderTime);
      renderTimes := renderTimes + [renderTime];
      assert renderTimes[..|renderTimes| - 1] == old(renderTimes);
    }

    method ResetRenderStats()
      modifies this`renderStats, this`renderTimes
      ensures Valid()
      ensures renderStats == DefaultRenderStats
    {
      renderStats := DefaultRenderStats;
      renderTimes := [];
    }
  }
}
