/**
 * The dynamic virtual container page: its records (items with sub-tasks and
 * task metrics), the item generator, and the component's bookkeeping around
 * the engine: the per-index debounced height reports, the per-item
 * last-height filter, and the handlers that patch an item and then ask the
 * engine to remeasure it. Randomness and each clock reading are parameters
 * (`draws`, one time per reading); the re-render that follows a data change is the call to
 * `Engine.ItemsChanged` at the end of each handler.
 */
module VirtualContainer {
  import opened Wrappers
  import opened Strings
  import opened HeightCache
  import opened DynamicData
  import opened DynamicVirtualScroll

  datatype Status = Active | Pending | Completed | Error
  datatype Priority = Low | Medium | High
  datatype ItemType = Simple | Complex | Mega

  datatype Metadata = Metadata(priority: Priority, assignee: Option<string>, dueDate: Option<string>)

  datatype SubItem = SubItem(
    id: string, title: string, content: string, status: Status,
    progress: Option<int>, tags: Option<seq<string>>, metadata: Option<Metadata>)

  /** A `Partial<SubItem>`: the fields it sets. */
  datatype SubItemPatch = SubItemPatch(
    id: Option<string>, title: Option<string>, content: Option<string>, status: Option<Status>,
    progress: Option<int>, tags: Option<seq<string>>, metadata: Option<Metadata>)

  datatype Metrics = Metrics(totalTasks: int, completedTasks: int, pendingTasks: int)

  datatype DataItem = DataItem(
    id: int, name: string, value: int, description: string, content: string,
    timestamp: string, category: string, itemType: ItemType, subItems: seq<SubItem>,
    expanded: Option<bool>, metrics: Option<Metrics>)

  /** The engine configuration the container uses; items are keyed by their numeric id. */
  const ContainerConfig := Config(300, 600, 2, 16)
  const InitialDataCount := 1000
  const ItemTypes: seq<ItemType> := [Simple, Complex, Mega]
  const Categories: seq<string> := ["类别 A", "类别 B", "类别 C", "类别 D"]
  const TaskTypes: seq<string> := ["设计", "开发", "测试", "部署", "优化", "文档", "审核", "修复"]
  const Assignees: seq<string> := ["张三", "李四", "王五", "赵六", "孙七"]

  function StatusName(s: Status): string
  {
    match s
    case Active => "active"
    case Pending => "pending"
    case Completed => "completed"
    case Error => "error"
  }

  function PriorityName(p: Priority): string
  {
    match p
    case Low => "low"
    case Medium => "medium"
    case High => "high"
  }

  function IdKey(item: DataItem): Key
  {
    NumKey(item.id)
  }

  /** The container's `getItemKey`: `(index, item) => item.id`. */
  function ItemKey(index: int, item: DataItem): Key
  {
    NumKey(item.id)
  }

  function SubItemKey(s: SubItem): Key
  {
    StrKey(s.id)
  }

  // ---------------------------------------------------------------------
  // Sub-items and metrics
  // ---------------------------------------------------------------------

  /** `{ ...subItem, ...updates }`: each field the patch sets replaces the sub-item's. */
  function MergeSubItem(s: SubItem, p: SubItemPatch): (r: SubItem)
    ensures r.id == (if p.id.Some? then p.id.value else s.id)
    ensures r.title == (if p.title.Some? then p.title.value else s.title)
    ensures r.content == (if p.content.Some? then p.content.value else s.content)
    ensures r.status == (if p.status.Some? then p.status.value else s.status)
    ensures p.progress.Some? ==> r.progress == p.progress
    ensures p.progress.None? ==> r.progress == s.progress
    ensures p.tags.Some? ==> r.tags == p.tags
    ensures p.tags.None? ==> r.tags == s.tags
    ensures p.metadata.Some? ==> r.metadata == p.metadata
    ensures p.metadata.None? ==> r.metadata == s.metadata
  {
    SubItem(
      p.id.GetOr(s.id), p.title.GetOr(s.title), p.content.GetOr(s.content), p.status.GetOr(s.status),
      if p.progress.Some? then p.progress else s.progress,
      if p.tags.Some? then p.tags else s.tags,
      if p.metadata.Some? then p.metadata else s.metadata)
  }

  /** `handleUpdateSubItem`'s list: the patch is merged into every sub-item with that id, and only into those. */
  function UpdatedSubItems(subItems: seq<SubItem>, subItemId: string, patch: SubItemPatch): (r: seq<SubItem>)
    ensures |r| == |subItems|
    ensures forall i :: 0 <= i < |r| && subItems[i].id == subItemId ==> r[i] == MergeSubItem(subItems[i], patch)
    ensures forall i :: 0 <= i < |r| && subItems[i].id != subItemId ==> r[i] == subItems[i]
  {
    UpdateById(subItems, SubItemKey, StrKey(subItemId), s => MergeSubItem(s, patch))
  }

  /** `handleDeleteSubItem`'s list: every sub-item with that id goes, the others stay with their multiplicities. */
  function DeletedSubItems(subItems: seq<SubItem>, subItemId: string): (r: seq<SubItem>)
    ensures forall s :: s in r ==> s.id != subItemId
    ensures forall s :: s in subItems && s.id != subItemId ==> multiset(r)[s] == multiset(subItems)[s]
  {
    RemoveById(subItems, SubItemKey, StrKey(subItemId))
  }

  /** Deleting an id that no sub-item carries leaves the list, and its order, unchanged. */
  lemma DeleteAbsentSubItem(subItems: seq<SubItem>, subItemId: string)
    requires forall s :: s in subItems ==> s.id != subItemId
    ensures DeletedSubItems(subItems, subItemId) == subItems
  {
    RemoveAbsentId(subItems, SubItemKey, StrKey(subItemId));
  }

  predicate IsCompleted(s: SubItem) { s.status == Completed }

  predicate IsPending(s: SubItem) { s.status == Pending }

  /**
   * The metrics recomputed after an update or delete: all sub-items, those
   * completed and those pending. The last two never add up to more than the first.
   */
  function ComputeMetrics(subItems: seq<SubItem>): (m: Metrics)
    ensures m.totalTasks == |subItems|
    ensures m.completedTasks == Count(subItems, IsCompleted) && m.pendingTasks == Count(subItems, IsPending)
    ensures 0 <= m.completedTasks && 0 <= m.pendingTasks
    ensures m.completedTasks + m.pendingTasks <= m.totalTasks
    ensures forall s :: s in subItems && s.status == Completed ==> m.completedTasks > 0
  {
    DisjointFilterLengths(subItems, IsCompleted, IsPending);
    FilterLength(subItems, IsCompleted);
    FilterLength(subItems, IsPending);
    var completed := Filter(subItems, IsCompleted);
    assert forall s :: s in subItems && s.status == Completed ==> s in completed;
    Metrics(|subItems|, |completed|, |Filter(subItems, IsPending)|)
  }

  // ---------------------------------------------------------------------
  // Generation
  // ---------------------------------------------------------------------

  /** The random choices behind one generated sub-item (each index is reduced modulo its list). */
  datatype SubItemDraw = SubItemDraw(
    status: Status, priority: Priority, taskType: nat, assignee: nat,
    progress: nat, tagCount: nat, dueDate: string)

  /** The random choices and clock reading behind one generated item. */
  datatype ItemDraw = ItemDraw(
    value: int, content: string, timestamp: string, subItemCount: nat,
    subItem: nat -> SubItemDraw, expanded: bool)

  /** The id of sub-item `index` of item `parentId`: `${parentId}-sub-${index}`. */
  function SubItemId(parentId: int, index: nat): string
  {
    IntToString(parentId) + "-sub-" + NatToString(index)
  }

  /** Sub-items of one parent get distinct ids. */
  lemma SubItemIdInjective(parentId: int, i: nat, j: nat)
    requires i != j
    ensures SubItemId(parentId, i) != SubItemId(parentId, j)
  {
    var prefix := IntToString(parentId) + "-sub-";
    NatToStringInjective(i, j);
    assert SubItemId(parentId, i)[|prefix|..] == NatToString(i);
    assert SubItemId(parentId, j)[|prefix|..] == NatToString(j);
  }

  /** The progress `generateSubItems` assigns: 100 when completed, 20..99 when active, else 0..29. */
  function DrawnProgress(status: Status, draw: nat): (p: int)
    ensures status == Completed ==> p == 100
    ensures status == Active ==> 20 <= p < 100
    ensures status != Completed && status != Active ==> 0 <= p < 30
  {
    if status == Completed then 100 else if status == Active then draw % 80 + 20 else draw % 30
  }

  function GenerateSubItem(parentId: int, index: nat, d: SubItemDraw): (s: SubItem)
    ensures s.id == SubItemId(parentId, index) && s.status == d.status
    ensures s.progress.Some? && 0 <= s.progress.value <= 100
    ensures s.tags.Some? && 1 <= |s.tags.value| <= 3
  {
    var taskType := TaskTypes[d.taskType % |TaskTypes|];
    SubItem(
      SubItemId(parentId, index),
      taskType + "任务 " + NatToString(index + 1),
      "这是" + taskType + "相关的详细内容描述，包含了具体的任务要求和实现细节。",
      d.status,
      Some(DrawnProgress(d.status, d.progress)),
      Some([taskType, PriorityName(d.priority), StatusName(d.status)][..d.tagCount % 3 + 1]),
      Some(Metadata(d.priority, Some(Assignees[d.assignee % |Assignees|]), Some(d.dueDate))))
  }

  /** `generateSubItems(count, parentId)`: `count` sub-items with pairwise distinct ids. */
  function GenerateSubItems(count: nat, parentId: int, draw: nat -> SubItemDraw): (r: seq<SubItem>)
    ensures |r| == count
    ensures forall i :: 0 <= i < count ==> r[i].id == SubItemId(parentId, i)
    ensures forall i, j :: 0 <= i < j < count ==> r[i].id != r[j].id
  {
    var r := seq(count, i requires 0 <= i < count => GenerateSubItem(parentId, i, draw(i)));
    forall i | 0 <= i < count
      ensures r[i].id == SubItemId(parentId, i)
    {
      assert r[i] == GenerateSubItem(parentId, i, draw(i));
    }
    forall i, j | 0 <= i < j < count
      ensures r[i].id != r[j].id
    {
      SubItemIdInjective(parentId, i, j);
    }
    r
  }

  /** How many sub-items an item of each type gets: one, two to four, or three to six. */
  function SubItemCount(t: ItemType, draw: nat): (n: nat)
    ensures t == Simple ==> n == 1
    ensures t == Complex ==> 2 <= n <= 4
    ensures t == Mega ==> 3 <= n <= 6
  {
    match t
    case Simple => 1
    case Complex => draw % 3 + 2
    case Mega => draw % 4 + 3
  }

  /**
   * The item `handleGenerateData`'s generator builds for `index`: its id is
   * the index, its type cycles simple/complex/mega, its category cycles
   * through four, and its metrics describe its own sub-items.
   */
  function GeneratedItem(index: nat, d: ItemDraw): (item: DataItem)
    ensures item.id == index
    ensures item.itemType == ItemTypes[index % 3] && item.category == Categories[index % 4]
    ensures item.name == "动态项目 " + NatToString(index + 1)
    ensures |item.subItems| == SubItemCount(item.itemType, d.subItemCount)
    ensures item.metrics == Some(ComputeMetrics(item.subItems))
    ensures forall i, j :: 0 <= i < j < |item.subItems| ==> item.subItems[i].id != item.subItems[j].id
  {
    var t := ItemTypes[index % 3];
    var subItems := GenerateSubItems(SubItemCount(t, d.subItemCount), index, d.subItem);
    DataItem(
      index, "动态项目 " + NatToString(index + 1), d.value,
      "这是第 " + NatToString(index + 1) + " 个项目的描述", d.content, d.timestamp,
      Categories[index % 4], t, subItems, Some(d.expanded), Some(ComputeMetrics(subItems)))
  }

  /** The generator as the data hook sees it; indices below zero are never asked for. */
  function Generator(draws: nat -> ItemDraw): int -> Option<DataItem>
  {
    i => if i < 0 then None else Some(GeneratedItem(i, draws(i)))
  }

  /**
   * `handleAddItem`'s item: complex, expanded, two sub-items. The clock is read
   * three times, so the sub-items' parent id, the item id and the name each get
   * their own reading.
   */
  function NewItem(subItemsTime: int, idTime: int, nameTime: int, d: ItemDraw): (item: DataItem)
    ensures item.id == idTime && item.name == "新项目 " + IntToString(nameTime)
    ensures item.itemType == Complex && item.expanded == Some(true)
    ensures item.category == "新类别" && |item.subItems| == 2
    ensures forall i :: 0 <= i < 2 ==> item.subItems[i].id == SubItemId(subItemsTime, i)
    ensures item.subItems[0].id != item.subItems[1].id
    ensures item.metrics == Some(ComputeMetrics(item.subItems))
  {
    var subItems := GenerateSubItems(2, subItemsTime, d.subItem);
    DataItem(
      idTime, "新项目 " + IntToString(nameTime), d.value, "这是一个新添加的项目", d.content, d.timestamp,
      "新类别", Complex, subItems, Some(true), Some(ComputeMetrics(subItems)))
  }

  /** `data.findIndex(d => d.id === id)`: the first position with that id, or -1. */
  function FindIndex(data: seq<DataItem>, id: int): (k: int)
    ensures -1 <= k < |data|
    ensures k == -1 <==> forall i :: 0 <= i < |data| ==> data[i].id != id
    ensures k >= 0 ==> data[k].id == id && forall i :: 0 <= i < k ==> data[i].id != id
  {
    if |data| == 0 then -1
    else if data[0].id == id then 0
    else
      var k := FindIndex(data[1..], id);
      if k == -1 then -1 else k + 1
  }

  // ---------------------------------------------------------------------
  // The last-height filter of one rendered item
  // ---------------------------------------------------------------------

  /** `lastHeightRef` of a `VirtualItem`: a height is reported only when it differs from the last one. */
  class HeightFilter {
    var lastHeight: int

    constructor ()
      ensures lastHeight == 0
    {
      lastHeight := 0;
    }

    /** `measureHeight`: report the height when it changed; either way it is the last height afterwards. */
    method Measure(height: int) returns (report: Option<int>)
      modifies this
      ensures report == if height != old(lastHeight) then Some(height) else None
      ensures lastHeight == height
    {
      if height != lastHeight {
        lastHeight := height;
        report := Some(height);
      } else {
        report := None;
      }
    }
  }

  // ---------------------------------------------------------------------
  // The container
  // ---------------------------------------------------------------------

  /** A debounced height report: the height, and the list as the report saw it. */
  datatype PendingMeasure = PendingMeasure(height: int, snapshot: seq<DataItem>)

  class Container {
    const store: DataStore<DataItem>
    const engine: Engine<DataItem>
    var dataCount: int
    /** The selection, in insertion order. */
    var selectedItems: seq<int>
    /** `heightMeasureTimeouts`: at most one pending report per index. */
    var pendingMeasures: map<int, PendingMeasure>

    ghost predicate Valid()
      reads this, store, engine
    {
      && engine.Valid()
      && engine.config == ContainerConfig
      && store.idOf == IdKey
      && (forall i, d :: engine.getItemKey(i, d) == NumKey(d.id))
      && (forall i :: i in pendingMeasures ==> pendingMeasures[i].height >= 0)
    }

    constructor ()
      ensures Valid() && fresh(store) && fresh(engine)
      ensures store.data == [] && engine.items == [] && dataCount == InitialDataCount
      ensures selectedItems == [] && pendingMeasures == map[]
    {
      store := new DataStore(IdKey);
      engine := new Engine(ContainerConfig, ItemKey, []);
      dataCount := InitialDataCount;
      selectedItems := [];
      pendingMeasures := map[];
    }

    /**
     * The re-render after the list changed: the engine sees the new list.
     * Every key of the container is numeric, so the prune empties the cache.
     */
    method ItemsReplaced()
      requires Valid()
      modifies engine`items, engine`heightCache, engine`measuredIndexes, engine`renderedIndexes, engine`recalculations
      ensures Valid() && unchanged(this)
      ensures engine.items == store.data
      ensures engine.heightCache == map[] && engine.measuredIndexes == {} && engine.renderedIndexes == {}
      ensures engine.recalculations == old(engine.recalculations) + 1
    {
      engine.ItemsChanged(store.data);
      PruneWithNumericKeysDropsAll(old(engine.heightCache), engine.ValidKeys(store.data));
    }

    /** `handleGenerateData`: the list becomes the generated items `0 .. dataCount - 1`. */
    method HandleGenerateData(draws: nat -> ItemDraw)
      requires Valid()
      modifies store`data, store`loading, engine`items, engine`heightCache, engine`measuredIndexes, engine`renderedIndexes, engine`recalculations
      ensures Valid()
      ensures |store.data| == Max(dataCount, 0) && !store.loading
      ensures forall i :: 0 <= i < |store.data| ==> store.data[i] == GeneratedItem(i, draws(i))
      ensures engine.items == store.data && engine.heightCache == map[]
    {
      store.GenerateData(dataCount, Generator(draws));
      forall i | 0 <= i < |store.data|
        ensures store.data[i] == GeneratedItem(i, draws(i))
      {
        assert Generator(draws)(i) == Some(store.data[i]);
      }
      ItemsReplaced();
    }

    /**
     * `handleAddItem`: the new item goes to the top of the list. The three
     * clock readings of `NewItem` are passed separately.
     */
    method HandleAddItem(subItemsTime: int, idTime: int, nameTime: int, d: ItemDraw)
      requires Valid()
      modifies store`data, engine`items, engine`heightCache, engine`measuredIndexes, engine`renderedIndexes, engine`recalculations
      ensures Valid()
      ensures store.data == [NewItem(subItemsTime, idTime, nameTime, d)] + old(store.data)
      ensures engine.items == store.data && engine.heightCache == map[]
    {
      AddToTop(NewItem(subItemsTime, idTime, nameTime, d));
    }

    /** `addItem(item, 0)` and the re-render after it. */
    method AddToTop(item: DataItem)
      requires Valid()
      modifies store`data, engine`items, engine`heightCache, engine`measuredIndexes, engine`renderedIndexes, engine`recalculations
      ensures Valid()
      ensures store.data == [item] + old(store.data)
      ensures engine.items == store.data && engine.heightCache == map[]
    {
      AddAtFront(store.data, item);
      store.AddItem(item, Some(0));
      ItemsReplaced();
    }

    /** `handleDeleteSelected`: every selected id is removed and the selection is emptied. */
    method HandleDeleteSelected()
      requires Valid()
      modifies this`selectedItems, store`data, engine`items, engine`heightCache, engine`measuredIndexes, engine`renderedIndexes, engine`recalculations
      ensures Valid()
      ensures store.data == RemoveByIds(old(store.data), IdKey, SelectedKeys(old(selectedItems)))
      ensures selectedItems == [] && pendingMeasures == old(pendingMeasures) && dataCount == old(dataCount)
      ensures engine.items == store.data
    {
      store.RemoveItems(SelectedKeys(selectedItems));
      selectedItems := [];
      ItemsReplaced();
    }

    /**
     * `handleHeightMeasured`: a report for `index` replaces any report still
     * pending for it (its timer is cancelled) and remembers the current list.
     */
    method HandleHeightMeasured(index: int, height: int)
      requires Valid() && height >= 0
      modifies this`pendingMeasures
      ensures Valid()
      ensures pendingMeasures == old(pendingMeasures)[index := PendingMeasure(height, store.data)]
    {
      pendingMeasures := pendingMeasures[index := PendingMeasure(height, store.data)];
    }

    /**
     * The debounce timer of `index` fires: when the remembered list has an
     * item at `index`, its height is handed to the engine; the entry goes
     * either way. With nothing pending for `index` there is no timer to fire.
     */
    method FireMeasure(index: int)
      requires Valid()
      modifies this`pendingMeasures, engine`heightCache, engine`measuredIndexes, engine`renderedIndexes, engine`recalculations
      ensures Valid()
      ensures pendingMeasures == old(pendingMeasures) - {index}
      ensures index in old(pendingMeasures) && 0 <= index < |old(pendingMeasures)[index].snapshot| ==>
        var m := old(pendingMeasures)[index];
        var name := PropertyName(NumKey(m.snapshot[index].id));
        name in engine.heightCache && engine.heightCache[name] == m.height
      ensures !(index in old(pendingMeasures) && 0 <= index < |old(pendingMeasures)[index].snapshot|) ==> unchanged(engine)
      ensures engine.items == old(engine.items)
    {
      if index in pendingMeasures {
        var m := pendingMeasures[index];
        if 0 <= index < |m.snapshot| {
          engine.SetItemHeight(index, m.snapshot[index], m.height);
        }
        pendingMeasures := pendingMeasures - {index};
      }
    }

    /** Unmount: every pending report is cancelled, and so is the engine's idle timer. */
    method Teardown()
      requires Valid()
      modifies this`pendingMeasures, engine`scrollTimer
      ensures Valid()
      ensures pendingMeasures == map[] && engine.scrollTimer == None
    {
      pendingMeasures := map[];
      engine.Teardown();
    }

    /**
     * After patching item `id`: its position in the list as it was before the
     * patch is remeasured, and the re-render hands the engine the new list.
     */
    method RemeasurePatched(oldData: seq<DataItem>, id: int)
      requires Valid()
      modifies engine`items, engine`heightCache, engine`measuredIndexes, engine`renderedIndexes, engine`recalculations
      ensures Valid()
      ensures engine.items == store.data && engine.heightCache == map[]
      ensures engine.measuredIndexes == {} && engine.renderedIndexes == {}
    {
      var index := FindIndex(oldData, id);
      if index != -1 {
        engine.RemeasureItem(index);
      }
      ItemsReplaced();
    }

    /** `handleItemEdit`: a confirmed new content replaces the item's content. */
    method HandleItemEdit(item: DataItem, newContent: Option<string>)
      requires Valid()
      modifies store`data, engine`items, engine`heightCache, engine`measuredIndexes, engine`renderedIndexes, engine`recalculations
      ensures Valid()
      ensures newContent.Some? ==>
        store.data == UpdateById(old(store.data), IdKey, NumKey(item.id), (d: DataItem) => d.(content := newContent.value))
      ensures newContent.Some? ==> engine.items == store.data
      ensures newContent.None? ==> unchanged(store) && unchanged(engine)
    {
      if newContent.Some? {
        var oldData := store.data;
        var content := newContent.value;
        store.UpdateItem(NumKey(item.id), (d: DataItem) => d.(content := content));
        RemeasurePatched(oldData, item.id);
      }
    }

    /** `handleItemDelete`: once confirmed, every item with that id is removed. */
    method HandleItemDelete(item: DataItem, confirmed: bool)
      requires Valid()
      modifies store`data, engine`items, engine`heightCache, engine`measuredIndexes, engine`renderedIndexes, engine`recalculations
      ensures Valid()
      ensures confirmed ==> store.data == RemoveById(old(store.data), IdKey, NumKey(item.id))
      ensures confirmed ==> engine.items == store.data
      ensures !confirmed ==> unchanged(store) && unchanged(engine)
    {
      if confirmed {
        store.RemoveItem(NumKey(item.id));
        ItemsReplaced();
      }
    }

    /** `handleToggleExpand`: the item is expanded exactly when the rendered copy was not. */
    method HandleToggleExpand(item: DataItem)
      requires Valid()
      modifies store`data, engine`items, engine`heightCache, engine`measuredIndexes, engine`renderedIndexes, engine`recalculations
      ensures Valid()
      ensures store.data == UpdateById(old(store.data), IdKey, NumKey(item.id), ExpandPatch(item.expanded != Some(true)))
      ensures forall d :: d in store.data && d.id == item.id ==> d.expanded == Some(item.expanded != Some(true))
      ensures engine.items == store.data
    {
      var oldData := store.data;
      var patch := ExpandPatch(item.expanded != Some(true));
      store.UpdateItem(NumKey(item.id), patch);
      RemeasurePatched(oldData, item.id);
      PatchedItemsCarryId(oldData, store.data, item.id, patch);
    }

    /**
     * `handleUpdateSubItem`: the patch goes into the sub-items of the rendered
     * copy, and every item with that id gets those sub-items and their metrics.
     */
    method HandleUpdateSubItem(item: DataItem, subItemId: string, patch: SubItemPatch)
      requires Valid()
      modifies store`data, engine`items, engine`heightCache, engine`measuredIndexes, engine`renderedIndexes, engine`recalculations
      ensures Valid()
      ensures store.data == UpdateById(old(store.data), IdKey, NumKey(item.id),
        SubItemsPatch(UpdatedSubItems(item.subItems, subItemId, patch)))
      ensures forall d :: d in store.data && d.id == item.id ==>
        && d.subItems == UpdatedSubItems(item.subItems, subItemId, patch)
        && d.metrics == Some(ComputeMetrics(d.subItems))
      ensures engine.items == store.data
    {
      var oldData := store.data;
      var itemPatch := SubItemsPatch(UpdatedSubItems(item.subItems, subItemId, patch));
      store.UpdateItem(NumKey(item.id), itemPatch);
      RemeasurePatched(oldData, item.id);
      PatchedItemsCarryId(oldData, store.data, item.id, itemPatch);
    }

    /** `handleDeleteSubItem`: as `HandleUpdateSubItem`, with the sub-item removed instead. */
    method HandleDeleteSubItem(item: DataItem, subItemId: string)
      requires Valid()
      modifies store`data, engine`items, engine`heightCache, engine`measuredIndexes, engine`renderedIndexes, engine`recalculations
      ensures Valid()
      ensures store.data == UpdateById(old(store.data), IdKey, NumKey(item.id),
        SubItemsPatch(DeletedSubItems(item.subItems, subItemId)))
      ensures forall d :: d in store.data && d.id == item.id ==>
        && d.subItems == DeletedSubItems(item.subItems, subItemId)
        && d.metrics == Some(ComputeMetrics(d.subItems))
      ensures engine.items == store.data
    {
      var oldData := store.data;
      var itemPatch := SubItemsPatch(DeletedSubItems(item.subItems, subItemId));
      store.UpdateItem(NumKey(item.id), itemPatch);
      RemeasurePatched(oldData, item.id);
      PatchedItemsCarryId(oldData, store.data, item.id, itemPatch);
    }
  }

  /**
   * `{ ...d, expanded }`: the toggle's patch. Only `expanded` changes; the id
   * and every other field are kept.
   */
  function ExpandPatch(expanded: bool): DataItem -> DataItem
  {
    (d: DataItem) => d.(expanded := Some(expanded))
  }

  /**
   * `{ ...d, subItems, metrics }`: the sub-item handlers' patch. The new
   * sub-items come with metrics describing them; every other field is kept.
   */
  function SubItemsPatch(subItems: seq<SubItem>): DataItem -> DataItem
  {
    (d: DataItem) => d.(subItems := subItems, metrics := Some(ComputeMetrics(subItems)))
  }

  /** The selection as the id list handed to `removeItems`. */
  function SelectedKeys(selected: seq<int>): (keys: seq<Key>)
    ensures |keys| == |selected|
    ensures forall i :: 0 <= i < |selected| ==> keys[i] == NumKey(selected[i])
  {
    seq(|selected|, i requires 0 <= i < |selected| => NumKey(selected[i]))
  }

  /** After a patch keyed by `id`, every item that carries `id` is a patched one. */
  lemma PatchedItemsCarryId(oldData: seq<DataItem>, data: seq<DataItem>, id: int, patch: DataItem -> DataItem)
    requires data == UpdateById(oldData, IdKey, NumKey(id), patch)
    requires forall d :: patch(d).id == d.id
    ensures forall d :: d in data && d.id == id ==> exists k :: 0 <= k < |oldData| && d == patch(oldData[k])
    ensures |data| == |oldData|
  {
    forall d | d in data && d.id == id
      ensures exists k :: 0 <= k < |oldData| && d == patch(oldData[k])
    {
      var k :| 0 <= k < |data| && data[k] == d;
      assert oldData[k].id == id;
      assert d == patch(oldData[k]);
    }
  }
}
