# Virtual scrolling and stores of react-study-web, in Dafny

This project models the logic core of the `react-study-web` demo application:

- **The dynamic-height virtual scroller** (`useDynamicVirtualScroll`). It keeps:
  - a height cache keyed by item key;
  - the sets of measured and rendered indices;
  - a position index of item extents separated by a fixed gap. While nothing has been rendered, the index comes from a bounded first pass at the estimated height; otherwise from a full pass.
  - a binary search from a scroll offset to an item;
  - the visible range widened by the overscan margin;
  - an "is scrolling" flag that a 150 ms idle timer lowers.
- **Its backing list** (`useDynamicData`): insert, remove, bulk remove, patch, move, chunked generation, clear and search.
- **The container page around them.** It holds a per-index table of debounced height reports, a per-item filter that only reports changed heights, sub-item update and delete with their task metrics recomputed, and the item generator.
- **The fixed-height scroller** (`useVirtualScroll`) and its list generator (`useBigData`).
- **The four zustand stores:**
  - the virtual-scroll page store;
  - the counter with a bounded undo history;
  - the comparison page store with its ten-line action log;
  - the parent–child message store.
- **The API helpers:** the proxy prefix, and `:name` placeholder substitution with `String.prototype.replace`.
- **The router:** the auth guard, the root and catch-all redirects, and the route table's auth flags.

Each source file maps to a module:

- `enhancedHooks.ts` is split four ways:
  - `HeightCache`: keys, JavaScript property-name coercion, pruning, the `||` fallback;
  - `PositionIndex`: extents, the binary search, the range resolver;
  - `DynamicVirtualScroll`: class `Engine`, with the hook's refs and state as fields;
  - `DynamicData`: pure list updates and class `DataStore`.
- The container page is `VirtualContainer`, with classes `HeightFilter` and `Container`.
- `hooks.ts` is `FixedVirtualScroll`.
- The stores are `VirtualScrollStore`, `ComparisonStore`, `ComparisonPageStore` and `ParentChildStore`. Each is a class whose methods replace the fields the action sets.
- `api.ts` is `ApiConfig` and the router is `Router`.
- Three helper modules model JavaScript built-ins the code relies on:
  - `Strings`: `String(n)` for whole numbers below `10^21` in magnitude;
  - `JsArrays`: `slice` with a negative start, and `Array.from` with its length limit;
  - `Wrappers`: `Option`, standing in for `undefined`/`null` and for a thrown error.

React's memoisation becomes explicit calls. The items-changed effect is `Engine.ItemsChanged`, and a render in which the positions memo recomputes (after the list or a height changed) is `Engine.Render`. A render caused by scrolling alone reuses the previous positions: the host calls `PositionIndex.VisibleRange` and `Engine.VirtualItems` on them, because that memo does not depend on the scroll offset. Timers become explicit schedule, cancel and fire events. Randomness and clock readings become parameters, one per reading.

Two behaviours of the code worth stating plainly:

- `addItem` with an index outside `0..length` appends the item at the end (`enhancedHooks.ts:287-291`).
- A generator failure in `useDynamicData.generateData` is caught and only logged (`enhancedHooks.ts:357-358`). It is not reported to the caller. The previous list is kept and `loading` ends false.

## Model

| member | source | states |
|---|---|---|
| Strings.NatToString | src/pages/components/dynamicVirtualContainer/index.tsx:386 | the decimal rendering of a natural number is non-empty, all digits, and has no leading zero |
| Strings.IntToString | src/config/api.ts:30 | the decimal text of a whole number (what `String(n)` prints for magnitudes below `10^21`) is non-empty, made of digits and `-`, and starts with a digit exactly when `n >= 0` |
| Strings.ParseNatToString | src/pages/components/dynamicVirtualContainer/index.tsx:386 | reading the rendered digits back gives the number, so the rendering loses nothing |
| Strings.NatToStringInjective | src/pages/components/dynamicVirtualContainer/index.tsx:386 | distinct natural numbers render as distinct strings |
| Strings.IntToStringInjective | src/stores/parentChildStore.ts:61 | distinct whole numbers, negative ones included, render as distinct strings |
| JsArrays.SliceFrom | src/stores/comparisonStore.ts:47 | `slice(start)` counts a negative start from the end and clamps an out-of-range start |
| JsArrays.SliceLast | src/pages/comparisonPage/store.ts:140 | `slice(-k)` keeps exactly the last `min(length, k)` elements |
| JsArrays.ArrayFrom | src/pages/virtualScrollPage/store.ts:86-93 | `Array.from({length: count}, f)` fails exactly when `count > 2^32 - 1`; otherwise it has `max(count, 0)` elements and element `i` is `f(i)` |
| HeightCache.PropertyName | src/pages/virtualScrollPage/enhancedHooks.ts:77-79 | a string key is its own property name; a numeric key becomes its decimal text, non-empty and made of digits and `-` |
| HeightCache.NumericNamesDistinct | src/pages/virtualScrollPage/enhancedHooks.ts:77-79 | distinct numeric keys name distinct cache entries |
| DynamicVirtualScroll.Engine.GetItemHeight | src/pages/virtualScrollPage/enhancedHooks.ts:76-80 | the cached height under the item's key when present and non-zero, else the estimate; positive under a valid configuration |
| DynamicVirtualScroll.Engine.ValidKeys | src/pages/virtualScrollPage/enhancedHooks.ts:61 | the set holds exactly the keys of the current items |
| PositionIndex.TotalHeight | src/pages/virtualScrollPage/enhancedHooks.ts:150-154 | 0 for an empty index; on a monotone index no item ends below it |
| PositionIndex.ResolveRange | src/pages/virtualScrollPage/enhancedHooks.ts:180-204 | `{0, 0, 0}` for an empty index; otherwise the start is at most `overscan` items before the item at the scroll position, the end is a valid index, and `offsetY` is the start's top (0 at the first item) |
| VirtualContainer.MergeSubItem | src/pages/components/dynamicVirtualContainer/index.tsx:522 | `{...subItem, ...updates}`: each field comes from the patch when the patch sets it, else from the sub-item |
| HeightCache.HeightOr | src/pages/virtualScrollPage/enhancedHooks.ts:77-80 | the cached height when present and non-zero; the estimate when absent or 0, because 0 is falsy |
| HeightCache.Prune | src/pages/virtualScrollPage/enhancedHooks.ts:60-67 | a cached name survives exactly when the valid keys contain it as a string key; surviving entries keep their heights |
| HeightCache.PruneShrinks | src/pages/virtualScrollPage/enhancedHooks.ts:60-67 | pruning only forgets entries: its keys are a subset of the old ones and it is no larger |
| HeightCache.PruneWithNumericKeysDropsAll | src/pages/virtualScrollPage/enhancedHooks.ts:61-67 | when every key is numeric (the container's `item.id`), pruning empties the whole cache |
| HeightCache.PruneWithStringKeys | src/pages/virtualScrollPage/enhancedHooks.ts:61-67 | with string keys, a key's entry survives exactly when it was cached and the key is still valid |
| PositionIndex.ChainedPrefix | src/pages/virtualScrollPage/enhancedHooks.ts:128-144 | every prefix of a chained index is chained |
| PositionIndex.ChainedAppend | src/pages/virtualScrollPage/enhancedHooks.ts:128-144 | appending an extent one gap below the last end, with end = start + height, keeps the index chained |
| PositionIndex.TotalHeightIsHeightsPlusGaps | src/pages/virtualScrollPage/enhancedHooks.ts:150-154 | the total height of a chained index is the sum of the heights plus `(n - 1)` gaps, or 0 when empty |
| PositionIndex.EndBeforeLaterStart | src/pages/virtualScrollPage/enhancedHooks.ts:128-144 | with non-negative heights and gap, every extent ends at or above the start of any later one |
| PositionIndex.ChainedIsMonotone | src/pages/virtualScrollPage/enhancedHooks.ts:128-144 | with non-negative heights and gap, a chained index is monotone, which the binary search needs |
| PositionIndex.StartsStrictlyIncrease | src/pages/virtualScrollPage/enhancedHooks.ts:128-144 | when every height plus the gap is positive, the starts strictly increase |
| PositionIndex.LeadingEndsAtOrAbove | src/pages/virtualScrollPage/enhancedHooks.ts:157-177 | the linear reference for the search: it counts the leading extents that end at or before the offset, and the next extent ends past it |
| PositionIndex.LeadingCountUnique | src/pages/virtualScrollPage/enhancedHooks.ts:157-177 | any count with those properties is the reference count |
| PositionIndex.IndexAt | src/pages/virtualScrollPage/enhancedHooks.ts:157-177 | the reference index is 0 for an empty index and otherwise a valid index |
| PositionIndex.ContainingExtentIsFound | src/pages/virtualScrollPage/enhancedHooks.ts:167-168 | on a monotone index, the extent with `start <= offset < end` is the one found |
| PositionIndex.IndexAtMonotone | src/pages/virtualScrollPage/enhancedHooks.ts:157-177 | a lower offset never resolves to a later index |
| PositionIndex.FindItemIndexByScrollTop | src/pages/virtualScrollPage/enhancedHooks.ts:157-177 | the binary search returns 0 on an empty index and otherwise a valid index; on a monotone index it equals the linear reference |
| PositionIndex.VisibleRange | src/pages/virtualScrollPage/enhancedHooks.ts:180-204 | `{0, 0, 0}` for an empty index; otherwise both bounds are valid, and on a monotone index the range is the reference range |
| PositionIndex.ResolvedRangeInBounds | src/pages/virtualScrollPage/enhancedHooks.ts:185-197 | with a non-negative viewport and overscan, `0 <= start <= end <= n - 1` |
| PositionIndex.ResolvedOffsetIsFirstStart | src/pages/virtualScrollPage/enhancedHooks.ts:199-203 | on a chained index, `offsetY` is the start of the first rendered extent |
| PositionIndex.RangeAtTopStartsAtZero | src/pages/virtualScrollPage/enhancedHooks.ts:185-203 | scrolled into the first extent, the range starts at item 0 with offset 0 |
| PositionIndex.RangeCoversViewport | src/pages/virtualScrollPage/enhancedHooks.ts:185-197 | every extent that meets the viewport lies inside the range, so nothing visible is skipped |
| PositionIndex.Window | src/pages/virtualScrollPage/enhancedHooks.ts:207-219 | the extents of the range's valid indices, never more than the index holds |
| PositionIndex.WindowOfValidRange | src/pages/virtualScrollPage/enhancedHooks.ts:207-219 | for a range of valid indices the window is exactly `positions[start..end]`, in order, with consecutive indices |
| DynamicVirtualScroll.WithDefaults | src/pages/virtualScrollPage/enhancedHooks.ts:39-45 | an omitted `overscan` is 5 and an omitted `itemGap` is 16; given values are kept |
| DynamicVirtualScroll.Interval | src/pages/virtualScrollPage/enhancedHooks.ts:210-216 | the set of integers from `lo` to `hi`, both included |
| DynamicVirtualScroll.CeilDiv | src/pages/virtualScrollPage/enhancedHooks.ts:104 | `Math.ceil(c / d)` for `d > 0`: the `q` with `(q - 1) * d < c <= q * d` |
| DynamicVirtualScroll.InitialCount | src/pages/virtualScrollPage/enhancedHooks.ts:104-107 | the first pass lays out `min(n, ceil(h / (est + gap)) + 2 * overscan + 1)` items, at least one when there are items |
| DynamicVirtualScroll.SampleInitialCount | src/pages/components/dynamicVirtualContainer/index.tsx:330-336 | with the container's configuration (300, 600, 2, 16) the first pass lays out items 0 to 6 |
| DynamicVirtualScroll.Engine.constructor | src/pages/virtualScrollPage/enhancedHooks.ts:47-57 | the engine starts at offset 0, not scrolling, with an empty cache, no measured or rendered index, and no timer |
| DynamicVirtualScroll.Engine.ItemsChanged | src/pages/virtualScrollPage/enhancedHooks.ts:60-74 | on new items, the cache is pruned so no name outside the valid keys remains, both index sets are emptied, and a recompute is forced |
| DynamicVirtualScroll.Engine.SetItemHeight | src/pages/virtualScrollPage/enhancedHooks.ts:83-95 | when the key already caches that height, nothing changes; otherwise the height is cached, the index is marked measured and rendered, and a recompute is forced. Afterwards the key caches the height, so a repeated call is a no-op |
| DynamicVirtualScroll.Engine.ItemPositions | src/pages/virtualScrollPage/enhancedHooks.ts:98-148 | the extents are chained with the gap. While nothing has been rendered, the first `InitialCount` items are laid out at the estimate, unmeasured; otherwise every item is laid out at its cached height, measured when its index is |
| DynamicVirtualScroll.Engine.EstimatedPass | src/pages/virtualScrollPage/enhancedHooks.ts:102-125 | items `0..endIndex` at the estimated height, unmeasured, chained |
| DynamicVirtualScroll.Engine.MeasuredPass | src/pages/virtualScrollPage/enhancedHooks.ts:127-147 | every item at its cached-or-estimated height, measured when its index is, chained |
| DynamicVirtualScroll.Engine.VirtualItems | src/pages/virtualScrollPage/enhancedHooks.ts:207-219 | the result is the window of the range, and exactly the indices of that window are added to the rendered set |
| DynamicVirtualScroll.Engine.Render | src/pages/virtualScrollPage/enhancedHooks.ts:98-219 | one render yields a chained and monotone index, its total height, the reference range (in bounds when non-empty) and its window. With items present, at least one index is then rendered, so the next layout is the full pass |
| DynamicVirtualScroll.Engine.HandleScroll | src/pages/virtualScrollPage/enhancedHooks.ts:222-236 | the offset is recorded, scrolling is raised, and any pending idle timer is replaced by a fresh one |
| DynamicVirtualScroll.Engine.FireScrollTimer | src/pages/virtualScrollPage/enhancedHooks.ts:233-235 | only the pending timer lowers `isScrolling`; a replaced timer changes nothing |
| DynamicVirtualScroll.Engine.Teardown | src/pages/virtualScrollPage/enhancedHooks.ts:239-245 | unmounting cancels the pending timer |
| DynamicVirtualScroll.Engine.RemeasureItem | src/pages/virtualScrollPage/enhancedHooks.ts:248-255 | for an existing item, only its key's height and its measured mark go, and it then reads as the estimate; for a missing item nothing changes |
| DynamicVirtualScroll.Engine.RemeasureAll | src/pages/virtualScrollPage/enhancedHooks.ts:258-263 | the cache and both index sets are emptied, so every item reads as the estimate |
| DynamicData.Filter | src/pages/virtualScrollPage/enhancedHooks.ts:298 | `filter` keeps exactly the items that pass the test and is no longer than the input |
| DynamicData.FilterLength | src/pages/components/dynamicVirtualContainer/index.tsx:528-529 | `filter(test).length` equals a one-by-one count of the items that pass the test |
| DynamicData.FilterCounts | src/pages/virtualScrollPage/enhancedHooks.ts:298 | each kept item occurs as often as in the input, each other item not at all |
| DynamicData.FilterKeepsAll | src/pages/virtualScrollPage/enhancedHooks.ts:298 | a test every item passes keeps the list unchanged |
| DynamicData.DisjointFilterLengths | src/pages/components/dynamicVirtualContainer/index.tsx:528-529 | two tests that never both hold select at most as many items as there are |
| DynamicData.FilterAppend | src/pages/virtualScrollPage/enhancedHooks.ts:298 | filtering a concatenation filters each part, in order |
| DynamicData.FilterIdempotent | src/pages/virtualScrollPage/enhancedHooks.ts:370-372 | searching a search result with the same predicate changes nothing |
| DynamicData.InsertPosition | src/pages/virtualScrollPage/enhancedHooks.ts:287-291 | the insertion point is `index` when `0 <= index <= length`, else the end |
| DynamicData.RemoveAt | src/pages/virtualScrollPage/enhancedHooks.ts:325 | `splice(p, 1)` removes exactly the item at `p` and shifts the rest down |
| DynamicData.InsertAt | src/pages/virtualScrollPage/enhancedHooks.ts:326 | `splice(p, 0, x)` puts `x` at `p`; removing it again gives the list back |
| DynamicData.InsertRemovedItem | src/pages/virtualScrollPage/enhancedHooks.ts:325-326 | removing an item and inserting it where it was restores the list |
| DynamicData.WithItemAdded | src/pages/virtualScrollPage/enhancedHooks.ts:284-294 | one item longer, the new item at its insertion point, and the old list with it removed |
| DynamicData.AddAtFront | src/pages/components/dynamicVirtualContainer/index.tsx:451 | adding at index 0 puts the item in front of the list |
| DynamicData.RemoveById | src/pages/virtualScrollPage/enhancedHooks.ts:297-299 | no remaining item has the id (strict equality, so `1` and `"1"` differ); every other item keeps its multiplicity |
| DynamicData.RemoveAbsentId | src/pages/virtualScrollPage/enhancedHooks.ts:297-299 | removing an id no item carries leaves the list and its order unchanged |
| DynamicData.RemoveByIds | src/pages/virtualScrollPage/enhancedHooks.ts:302-305 | no remaining item has a listed id; every other item keeps its multiplicity |
| DynamicData.FilterAgreeing | src/pages/virtualScrollPage/enhancedHooks.ts:302-305 | two tests that agree on every item filter the same way |
| DynamicData.RemoveSingleId | src/pages/virtualScrollPage/enhancedHooks.ts:297-305 | bulk removal of a single id is `removeItem` of that id |
| DynamicData.UpdateById | src/pages/virtualScrollPage/enhancedHooks.ts:308-314 | same length; matching items are patched and all others are left as they were, in place |
| DynamicData.UpdateUnknownIdIsIdentity | src/pages/virtualScrollPage/enhancedHooks.ts:308-314 | updating an id no item carries leaves the list unchanged |
| DynamicData.Move | src/pages/virtualScrollPage/enhancedHooks.ts:317-330 | with either index out of range, the list is unchanged. Otherwise it is a permutation of the same length, with the moved item at `toIndex` and the others in their relative order |
| DynamicData.MoveBack | src/pages/virtualScrollPage/enhancedHooks.ts:317-330 | moving an item back to where it came from undoes the move |
| DynamicData.GenerateInChunks | src/pages/virtualScrollPage/enhancedHooks.ts:337-354 | in batches of 1000, the result is `[gen(0), …, gen(count - 1)]` when every call succeeds, and a failure otherwise |
| DynamicData.DataStore.constructor | src/pages/virtualScrollPage/enhancedHooks.ts:280-281 | the list starts empty and not loading |
| DynamicData.DataStore.SetData | src/pages/virtualScrollPage/enhancedHooks.ts:280 | the list is replaced |
| DynamicData.DataStore.AddItem | src/pages/virtualScrollPage/enhancedHooks.ts:284-294 | the list becomes `WithItemAdded` of the old one |
| DynamicData.DataStore.RemoveItem | src/pages/virtualScrollPage/enhancedHooks.ts:297-299 | the list becomes `RemoveById` of the old one |
| DynamicData.DataStore.RemoveItems | src/pages/virtualScrollPage/enhancedHooks.ts:302-305 | the list becomes `RemoveByIds` of the old one |
| DynamicData.DataStore.UpdateItem | src/pages/virtualScrollPage/enhancedHooks.ts:308-314 | the list becomes `UpdateById` of the old one |
| DynamicData.DataStore.MoveItem | src/pages/virtualScrollPage/enhancedHooks.ts:317-330 | the list becomes `Move` of the old one |
| DynamicData.DataStore.GenerateData | src/pages/virtualScrollPage/enhancedHooks.ts:332-362 | loading ends false; on success the list is the generated items in order, and on a generator failure the list is unchanged |
| DynamicData.DataStore.ClearData | src/pages/virtualScrollPage/enhancedHooks.ts:365-367 | the list is emptied |
| DynamicData.DataStore.SearchData | src/pages/virtualScrollPage/enhancedHooks.ts:370-372 | exactly the items matching the predicate, each as often as in the list; the state is not touched |
| VirtualContainer.UpdatedSubItems | src/pages/components/dynamicVirtualContainer/index.tsx:521-523 | the patch is merged into every sub-item with the id and only those; all others stay in place |
| VirtualContainer.DeletedSubItems | src/pages/components/dynamicVirtualContainer/index.tsx:543 | no sub-item with the id remains; every other sub-item keeps its multiplicity |
| VirtualContainer.DeleteAbsentSubItem | src/pages/components/dynamicVirtualContainer/index.tsx:543 | deleting an id no sub-item carries leaves the list and its order unchanged |
| VirtualContainer.ComputeMetrics | src/pages/components/dynamicVirtualContainer/index.tsx:526-530 | total is the number of sub-items. Completed and pending are the counts of sub-items with those statuses, so together they never exceed the total |
| VirtualContainer.SubItemIdInjective | src/pages/components/dynamicVirtualContainer/index.tsx:386 | sub-items of one parent get distinct ids `${parentId}-sub-${index}` |
| VirtualContainer.DrawnProgress | src/pages/components/dynamicVirtualContainer/index.tsx:390 | progress is 100 when completed, 20..99 when active, 0..29 otherwise |
| VirtualContainer.GenerateSubItem | src/pages/components/dynamicVirtualContainer/index.tsx:379-396 | a generated sub-item has its indexed id and drawn status, progress within 0..100, and one to three tags |
| VirtualContainer.GenerateSubItems | src/pages/components/dynamicVirtualContainer/index.tsx:373-397 | `count` sub-items whose ids are the indexed ids, pairwise distinct |
| VirtualContainer.SubItemCount | src/pages/components/dynamicVirtualContainer/index.tsx:406 | simple items get one sub-item, complex two to four, mega three to six |
| VirtualContainer.GeneratedItem | src/pages/components/dynamicVirtualContainer/index.tsx:403-426 | generated item `i` has id `i`, type `[simple, complex, mega][i % 3]`, category `i % 4`, distinct sub-item ids, and metrics of its own sub-items |
| VirtualContainer.NewItem | src/pages/components/dynamicVirtualContainer/index.tsx:430-450 | the three `Date.now()` readings are separate: the sub-item ids come from the first, the item's id is the second and its name carries the third; the item is complex, expanded, in the new category, with two sub-items of distinct ids and their metrics |
| VirtualContainer.FindIndex | src/pages/components/dynamicVirtualContainer/index.tsx:495 | `findIndex` gives the first position with the id, or -1 exactly when no item has it |
| VirtualContainer.HeightFilter.constructor | src/pages/components/dynamicVirtualContainer/index.tsx:162 | the last height starts at 0 |
| VirtualContainer.HeightFilter.Measure | src/pages/components/dynamicVirtualContainer/index.tsx:168-175 | a height is reported only when it differs from the last one, and it is the last one afterwards |
| VirtualContainer.Container.constructor | src/pages/components/dynamicVirtualContainer/index.tsx:313-348 | an empty list, count 1000, an empty selection and no pending report |
| VirtualContainer.Container.ItemsReplaced | src/pages/virtualScrollPage/enhancedHooks.ts:60-74 | after the list changes the engine sees the new list; every key is numeric, so the height cache is emptied, both index sets are emptied and one recompute is forced; the container itself and the engine's scroll offset, scrolling flag and timers are untouched |
| VirtualContainer.Container.HandleGenerateData | src/pages/components/dynamicVirtualContainer/index.tsx:402-427 | the list becomes generated items `0..dataCount - 1`, loading is off, and the engine sees the new list with its cache emptied; the engine's scroll offset, scrolling flag and timers are untouched |
| VirtualContainer.Container.HandleAddItem | src/pages/components/dynamicVirtualContainer/index.tsx:430-452 | the list becomes the new item (built from the three clock readings) followed by the old list, which the engine sees with its cache emptied; `store.loading` and the engine's scroll offset, scrolling flag and timers are untouched |
| VirtualContainer.Container.AddToTop | src/pages/components/dynamicVirtualContainer/index.tsx:451 | `addItem(item, 0)` prepends the item and the engine sees the new list; `store.loading` and the engine's scroll offset, scrolling flag and timers are untouched |
| VirtualContainer.Container.HandleDeleteSelected | src/pages/components/dynamicVirtualContainer/index.tsx:455-458 | every selected id is removed, the selection is emptied and the engine sees the new list; `store.loading` and the engine's scroll offset, scrolling flag and timers are untouched |
| VirtualContainer.Container.HandleHeightMeasured | src/pages/components/dynamicVirtualContainer/index.tsx:463-479 | a report for an index replaces any pending one for it, so there is at most one per index |
| VirtualContainer.Container.FireMeasure | src/pages/components/dynamicVirtualContainer/index.tsx:471-476 | the entry goes either way; the height reaches the engine's cache only if the list seen by the report has an item at that index, and otherwise the engine is left exactly as it was; the engine's list, scroll offset, scrolling flag and timers are untouched |
| VirtualContainer.Container.Teardown | src/pages/components/dynamicVirtualContainer/index.tsx:482-487 | unmounting drops every pending report and the engine's idle timer |
| VirtualContainer.Container.RemeasurePatched | src/pages/components/dynamicVirtualContainer/index.tsx:495-499 | the patched item's old position is remeasured, then the engine sees the new list with its cache and index sets emptied; the engine's scroll offset, scrolling flag and timers are untouched |
| VirtualContainer.Container.HandleItemEdit | src/pages/components/dynamicVirtualContainer/index.tsx:490-501 | confirmed content replaces the content of every item with that id and the engine sees the new list; a cancelled prompt leaves the store and the engine exactly as they were; `store.loading` and the engine's scroll offset, scrolling flag and timers are untouched |
| VirtualContainer.Container.HandleItemDelete | src/pages/components/dynamicVirtualContainer/index.tsx:503-507 | a confirmed delete removes every item with that id and the engine sees the new list; otherwise the store and the engine are left exactly as they were; `store.loading` and the engine's scroll offset, scrolling flag and timers are untouched |
| VirtualContainer.Container.HandleToggleExpand | src/pages/components/dynamicVirtualContainer/index.tsx:510-517 | the whole new list is `UpdateById` of the old one with the patch setting `expanded` to the negation of the rendered copy's flag: items with other ids are untouched, and in every item with the id only `expanded` changes; the engine sees the new list; `store.loading` and the engine's scroll offset, scrolling flag and timers are untouched |
| VirtualContainer.Container.HandleUpdateSubItem | src/pages/components/dynamicVirtualContainer/index.tsx:520-539 | the whole new list is `UpdateById` of the old one with the patch setting the rendered copy's sub-items with the one sub-item merged, and their metrics: items with other ids are untouched, and in every item with the id only those two fields change; the engine sees the new list; `store.loading` and the engine's scroll offset, scrolling flag and timers are untouched |
| VirtualContainer.Container.HandleDeleteSubItem | src/pages/components/dynamicVirtualContainer/index.tsx:542-559 | the whole new list is `UpdateById` of the old one with the patch setting the rendered copy's sub-items without the deleted one, and their metrics: items with other ids are untouched, and in every item with the id only those two fields change; the engine sees the new list; `store.loading` and the engine's scroll offset, scrolling flag and timers are untouched |
| VirtualContainer.SelectedKeys | src/pages/components/dynamicVirtualContainer/index.tsx:456 | the selection becomes the same ids, in order, as numeric keys |
| VirtualContainer.PatchedItemsCarryId | src/pages/virtualScrollPage/enhancedHooks.ts:308-314 | after an id-keyed patch that keeps ids, every item carrying the id is a patched old item |
| FixedVirtualScroll.ComputeVisibleRange | src/pages/virtualScrollPage/hooks.ts:32-43 | the range never starts below 0 or ends past the last item; for an empty list it is empty, and it ends at -1 whenever the overscan and the viewport's bottom edge are non-negative |
| FixedVirtualScroll.RangeCoversViewport | src/pages/virtualScrollPage/hooks.ts:33-41 | every item that meets the viewport lies inside the range |
| FixedVirtualScroll.RangeIsTight | src/pages/virtualScrollPage/hooks.ts:33-41 | the range is no wider than the formulas give: every item in it is at most `overscan` items above the item holding the scroll offset and at most `overscan` items below the item holding the viewport's bottom edge |
| FixedVirtualScroll.ItemAt | src/pages/virtualScrollPage/hooks.ts:49-53 | item `i` spans `[i * h, (i + 1) * h)` |
| FixedVirtualScroll.ItemInsideList | src/pages/virtualScrollPage/hooks.ts:49-59 | every item of the list lies within `[0, itemCount * itemHeight]` |
| FixedVirtualScroll.Scroller.constructor | src/pages/virtualScrollPage/hooks.ts:28-29 | the offset starts at 0 and an omitted overscan is 5 |
| FixedVirtualScroll.Scroller.HandleScroll | src/pages/virtualScrollPage/hooks.ts:62-64 | only the offset changes |
| FixedVirtualScroll.Scroller.VirtualItems | src/pages/virtualScrollPage/hooks.ts:46-56 | one item per index of the range, ascending, each one item-height tall, abutting the next, all inside the total height |
| FixedVirtualScroll.BigDataItem | src/pages/virtualScrollPage/hooks.ts:86-93 | item `i` has id `i`, name `Item i+1`, category `i % 3` and a value in 0..999 |
| FixedVirtualScroll.BigData.constructor | src/pages/virtualScrollPage/hooks.ts:76-77 | no data, not loading |
| FixedVirtualScroll.BigData.GenerateData | src/pages/virtualScrollPage/hooks.ts:80-97 | on success, `count` generated items and loading off. On a RangeError, which escapes uncaught, the list is unchanged and loading stays on |
| FixedVirtualScroll.BigData.ClearData | src/pages/virtualScrollPage/hooks.ts:100-102 | the list is emptied |
| VirtualScrollStore.GeneratedItem | src/pages/virtualScrollPage/store.ts:86-93 | item `i` has id `i`, name `Item i+1`, category `i % 4` and a value in 0..999 |
| VirtualScrollStore.MergeScrollConfig | src/pages/virtualScrollPage/store.ts:125-129 | each field the patch gives replaces the old one; the others stay |
| VirtualScrollStore.MergeEmptyPatch | src/pages/virtualScrollPage/store.ts:125-129 | an empty patch leaves the configuration unchanged |
| VirtualScrollStore.NextRenderStats | src/pages/virtualScrollPage/store.ts:132-146 | one more render, the latest time recorded, and the average updated as a running mean |
| VirtualScrollStore.Store.constructor | src/pages/virtualScrollPage/store.ts:50-71 | no data, not loading, count 10000, configuration {50, 600, 5}, zeroed statistics |
| VirtualScrollStore.Store.SetData | src/pages/virtualScrollPage/store.ts:74-76 | only the list changes |
| VirtualScrollStore.Store.GenerateData | src/pages/virtualScrollPage/store.ts:79-104 | loading ends false; the list is the `count` generated items, or unchanged on a RangeError |
| VirtualScrollStore.Store.ClearData | src/pages/virtualScrollPage/store.ts:107-112 | the list is emptied and the statistics reset |
| VirtualScrollStore.Store.SetLoading | src/pages/virtualScrollPage/store.ts:115-117 | only the loading flag changes |
| VirtualScrollStore.Store.SetDataCount | src/pages/virtualScrollPage/store.ts:120-122 | only the requested count changes |
| VirtualScrollStore.Store.UpdateScrollConfig | src/pages/virtualScrollPage/store.ts:125-129 | the configuration is merged with the patch |
| VirtualScrollStore.Store.UpdateRenderStats | src/pages/virtualScrollPage/store.ts:132-146 | the statistics advance by one render, and the average remains the mean of every render time since the last reset |
| VirtualScrollStore.Store.ResetRenderStats | src/pages/virtualScrollPage/store.ts:150-154 | only the statistics reset |
| ComparisonStore.Pushed | src/stores/comparisonStore.ts:47 | at most 10 entries: the last nine old ones in order, then the new value |
| ComparisonStore.UndoAfterPush | src/stores/comparisonStore.ts:66-84 | below the cap, undoing a push restores the history exactly |
| ComparisonStore.PushOnFullHistory | src/stores/comparisonStore.ts:47 | a full history loses its oldest entry on a push |
| ComparisonStore.Average | src/stores/comparisonStore.ts:100-103 | the average times the length is the sum |
| ComparisonStore.SumBounds | src/stores/comparisonStore.ts:102 | entries between `lo` and `hi` put the sum between `n * lo` and `n * hi` |
| ComparisonStore.AverageWithinBounds | src/stores/comparisonStore.ts:100-103 | the average lies between the smallest and largest entry |
| ComparisonStore.ComplexStore.constructor | src/stores/comparisonStore.ts:38-40 | count 0 and history `[0]` |
| ComparisonStore.ComplexStore.Increment | src/stores/comparisonStore.ts:43-49 | count up by one and pushed; the history stays non-empty, at most 10 long, ending with the count |
| ComparisonStore.ComplexStore.Decrement | src/stores/comparisonStore.ts:51-57 | count down by one and pushed, keeping that invariant |
| ComparisonStore.ComplexStore.Reset | src/stores/comparisonStore.ts:59-64 | count 0 and pushed, keeping that invariant |
| ComparisonStore.ComplexStore.SetCount | src/stores/comparisonStore.ts:66-71 | count set and pushed, keeping that invariant |
| ComparisonStore.ComplexStore.Undo | src/stores/comparisonStore.ts:74-84 | with more than one entry the last goes and the count is the new last; otherwise nothing changes |
| ComparisonStore.ComplexStore.Redo | src/stores/comparisonStore.ts:86-89 | redo changes no state (it may not modify the store) and keeps the invariant |
| ComparisonStore.ComplexStore.ClearHistory | src/stores/comparisonStore.ts:91-95 | the history becomes `[count]` |
| ComparisonStore.ComplexStore.CanUndo | src/stores/comparisonStore.ts:98 | true exactly when the history has more than one entry |
| ComparisonStore.ComplexStore.CanRedo | src/stores/comparisonStore.ts:99 | always false |
| ComparisonStore.ComplexStore.GetAverage | src/stores/comparisonStore.ts:100-103 | the mean of the history |
| ComparisonPageStore.Toggled | src/pages/comparisonPage/store.ts:120 | the other theme |
| ComparisonPageStore.ToggleTwice | src/pages/comparisonPage/store.ts:119-123 | toggling twice restores the theme |
| ComparisonPageStore.Logged | src/pages/comparisonPage/store.ts:136-142 | at most 10 lines: the newest nine old ones in order, then the new one |
| ComparisonPageStore.LoggedBelowCap | src/pages/comparisonPage/store.ts:140 | while there is room, logging only appends |
| ComparisonPageStore.CounterStatusOf | src/pages/comparisonPage/store.ts:176-181 | negative, zero or positive exactly as the counter is |
| ComparisonPageStore.UserInfo | src/pages/comparisonPage/store.ts:185-188 | `name (age岁)` for a user, the no-user notice otherwise |
| ComparisonPageStore.UserInfoDistinguishesAges | src/pages/comparisonPage/store.ts:187 | two users with the same name get different info exactly when their ages differ |
| ComparisonPageStore.UserInfoOfUserIsNotNotice | src/pages/comparisonPage/store.ts:187 | a user's info never reads as the no-user notice |
| ComparisonPageStore.Store.constructor | src/pages/comparisonPage/store.ts:60-65 | counter 0, the welcome message, no user, light theme, not loading, empty log |
| ComparisonPageStore.Store.AddToHistory | src/pages/comparisonPage/store.ts:136-142 | one `[time] action` line is logged, keeping at most 10 |
| ComparisonPageStore.Store.Increment | src/pages/comparisonPage/store.ts:68-71 | counter up by one and one line logged with the new value |
| ComparisonPageStore.Store.Decrement | src/pages/comparisonPage/store.ts:73-76 | counter down by one and one line logged with the new value |
| ComparisonPageStore.Store.ResetCounter | src/pages/comparisonPage/store.ts:78-81 | counter 0 and one line logged |
| ComparisonPageStore.Store.SetCounter | src/pages/comparisonPage/store.ts:83-86 | counter set and one line logged |
| ComparisonPageStore.Store.SetMessage | src/pages/comparisonPage/store.ts:89-92 | message set; the log quotes its first 20 characters |
| ComparisonPageStore.Store.ClearMessage | src/pages/comparisonPage/store.ts:94-97 | message emptied and one line logged |
| ComparisonPageStore.Store.SetUser | src/pages/comparisonPage/store.ts:100-103 | user set and one line logged |
| ComparisonPageStore.Store.ClearUser | src/pages/comparisonPage/store.ts:105-108 | user cleared and one line logged |
| ComparisonPageStore.Store.UpdateUserAge | src/pages/comparisonPage/store.ts:110-116 | without a user nothing changes, the log included; with one, only the age changes and one line is logged |
| ComparisonPageStore.Store.ToggleTheme | src/pages/comparisonPage/store.ts:119-123 | the theme flips and one line is logged |
| ComparisonPageStore.Store.SetTheme | src/pages/comparisonPage/store.ts:125-128 | the theme is set and one line is logged |
| ComparisonPageStore.Store.SetLoading | src/pages/comparisonPage/store.ts:131-133 | only the loading flag changes; nothing is logged |
| ComparisonPageStore.Store.ClearHistory | src/pages/comparisonPage/store.ts:144-146 | the log is emptied |
| ComparisonPageStore.Store.PerformComplexAction | src/pages/comparisonPage/store.ts:149-173 | the counter grows by 10, the message carries the time read when the update is made, a user of age 20..69 is set, a start line (first reading) and a success line (its own, third reading) are logged, and loading ends off |
| ComparisonPageStore.Store.GetCounterStatus | src/pages/comparisonPage/store.ts:176-181 | negative, zero or positive exactly as the counter is |
| ComparisonPageStore.Store.GetHistoryCount | src/pages/comparisonPage/store.ts:183 | the number of log lines |
| ComparisonPageStore.Store.GetUserInfo | src/pages/comparisonPage/store.ts:185-188 | the no-user notice exactly when no user is set |
| ParentChildStore.MergeChildData | src/stores/parentChildStore.ts:48-56 | each field the patch gives replaces the old one; the others stay |
| ParentChildStore.MergeIdempotent | src/stores/parentChildStore.ts:48-56 | applying the same patch twice is applying it once |
| ParentChildStore.NewMessage | src/stores/parentChildStore.ts:60-65 | the message carries the sender, text and timestamp, and the decimal clock reading as its id |
| ParentChildStore.MessageIdsCollideOnlyWithinOneMillisecond | src/stores/parentChildStore.ts:61 | two messages share an id exactly when their id readings are the same millisecond |
| ParentChildStore.Latest | src/stores/parentChildStore.ts:91-94 | nothing for an empty log, else the last message |
| ParentChildStore.Store.constructor | src/stores/parentChildStore.ts:40-45 | John, 30, the default message, and an empty log |
| ParentChildStore.Store.UpdateChildData | src/stores/parentChildStore.ts:48-56 | the data is merged with the patch |
| ParentChildStore.Store.AddMessage | src/stores/parentChildStore.ts:59-74 | exactly one message is appended, earlier ones are untouched, the count grows by one, and it is the latest |
| ParentChildStore.Store.ClearHistory | src/stores/parentChildStore.ts:77-83 | the log is emptied and there is no latest message |
| ParentChildStore.Store.GetMessageCount | src/stores/parentChildStore.ts:86-88 | the number of messages |
| ParentChildStore.Store.GetLatestMessage | src/stores/parentChildStore.ts:91-94 | nothing exactly when the log is empty, else the last message |
| ApiConfig.GetApiUrl | src/config/api.ts:22-24 | the endpoint under `/api`, recoverable by dropping the prefix |
| ApiConfig.IndexOfFrom | src/config/api.ts:30 | the first occurrence at or after a position, or -1 when there is none |
| ApiConfig.IndexOf | src/config/api.ts:30 | `indexOf`: -1 exactly when the pattern never occurs, else its first occurrence |
| ApiConfig.ValueString | src/config/api.ts:30 | `String(value)`: a string value is itself; a number becomes non-empty text made of digits and `-` |
| ApiConfig.Substitution | src/config/api.ts:30 | a replacement without `$` is inserted as it is |
| ApiConfig.ReplaceParams | src/config/api.ts:27-33 | a URL in which no entry's placeholder occurs comes back unchanged |
| ApiConfig.SingleParam | src/config/api.ts:27-33 | one entry is exactly one `replace` call |
| ApiConfig.PlaceholderAfterColonFreePrefix | src/config/api.ts:30 | when the text before a placeholder has no colon and the value's text no `$`, that placeholder becomes the value's text and everything else is kept |
| ApiConfig.Replace | src/config/api.ts:30 | `replace` with a string pattern: unchanged without a match; otherwise only the first match gives way to the substituted replacement, and the text around it is kept |
| ApiConfig.ReplaceUrlParams | src/config/api.ts:27-33 | the loop applies the entries in order, each replacing the first occurrence of its placeholder in the previous result |
| ApiConfig.NoParams | src/config/api.ts:28-32 | no parameters leave the URL unchanged |
| ApiConfig.AbsentPlaceholder | src/config/api.ts:30 | a URL without a key's placeholder is unchanged by that key |
| ApiConfig.FirstPlaceholderOnly | src/config/api.ts:30 | the first placeholder becomes the value's text (when it has no `$`), and the rest survives |
| ApiConfig.FirstPlaceholder | src/config/api.ts:30 | the first placeholder gives way to the substituted value; the text around it is kept |
| ApiConfig.NumberHasNoDollar | src/config/api.ts:30 | a number's text never contains `$` |
| ApiConfig.NoPlaceholderBeforeColon | src/config/api.ts:30 | no placeholder occurs before the URL's first colon |
| ApiConfig.ArticleDetailPlaceholder | src/config/api.ts:62 | in `/articles/:id` the placeholder first occurs at position 10 |
| ApiConfig.ArticleDetailUrl | src/config/api.ts:62 | `/articles/:id` with a numeric id is `/articles/` followed by the id |
| ApiConfig.SubstituteMatch | src/config/api.ts:30 | `$&` stands for the matched text |
| ApiConfig.DollarPatternInValue | src/config/api.ts:30 | a string value `$&` reinserts the placeholder, so `/articles/:id` comes back unchanged |
| ApiConfig.PlaceholderPrefixMatches | src/config/api.ts:30 | `:id` also matches the start of `:idx`: for any number `n`, `/items/:idx` becomes `/items/` + `n` + `x` |
| ApiConfig.SecondPlaceholderSurvives | src/config/api.ts:30 | in `/a/:id/b/:id` only the first `:id` is replaced, for any number |
| ComparisonPageStore.HistoryEntry | src/pages/comparisonPage/store.ts:137-138 | the entry is `[`, the time, `] ` and the action, in that order and nothing else |
| Router.Resolve | src/router/index.tsx:92-125 | a path with no route redirects to the fallback; a rendered page is the requested path and has a route; every redirect goes home or to login |
| FixedVirtualScroll.Scroller.TotalHeight | src/pages/virtualScrollPage/hooks.ts:59 | with a positive item height the list height is non-negative and no item ends below it |
| FixedVirtualScroll.AllItemsInsideList | src/pages/virtualScrollPage/hooks.ts:59 | with a positive item height every item ends within `itemCount * itemHeight` |
| Router.Guard | src/router/index.tsx:21-36 | redirect to login when auth is required and missing; to home when it is not required but present; the page renders exactly when the flag equals the auth state |
| Router.RequiresAuth | src/router/index.tsx:102 | a missing flag means public |
| Router.Fallback | src/router/index.tsx:112-121 | the root and unknown paths send the visitor home when authenticated, else to login |
| Router.FindRoute | src/router/index.tsx:96-109 | the first route with the path, or -1 exactly when none has it |
| Router.PathsDistinct | src/router/index.tsx:39-89 | no two routes share a path |
| Router.OnlyLoginIsPublic | src/router/index.tsx:39-89 | only the login route is public |
| Router.SettingsFallsBack | src/router/index.tsx:59-64 | the settings path has no route, so it falls back like any unknown path |
| Router.TableRouteRendersIffFlagMatches | src/router/index.tsx:96-109 | a route's page shows exactly when its auth flag equals the visitor's auth state |
| Router.RedirectsSettle | src/router/index.tsx:27-33 | every redirect lands on a page that renders: redirects never chain |

## Left out

- React itself: rendering, JSX, hook dependency tracking and re-render scheduling. A memoised value is a method the host calls, an effect is a method, and the re-render after a data change is `Container.ItemsReplaced`.
- The DOM: `ResizeObserver`, `offsetHeight` and scroll events. Measured heights and scroll offsets are parameters.
- `prompt` and `confirm`: the user's answer is a parameter.
- Timers: `setTimeout`/`clearTimeout` are explicit handles that are scheduled, cancelled and fired by the caller. Time does not pass on its own.
- The `await` between generation batches (and the 100 ms and 2 s delays): generation is one synchronous run, with no interleaving of other actions.
- Randomness and clocks (`Math.random`, `Date.now`, `toISOString`, `toLocaleTimeString`): drawn values and time strings are parameters.
- `generateRandomContent`: its text comes from the drawn value.
- Fractional numbers:
  - heights, gaps, offsets and counters are integers;
  - render times and averages are exact reals, not IEEE doubles;
  - `String(n)` is modelled for whole numbers of magnitude below `10^21` only; JavaScript prints larger numbers in exponent form;
  - `NaN` and `Infinity` are not modelled.
- `completionRate` (rounded percentage) and `usePerformanceMonitor`: floating point and clock only.
- FixedVirtualScroll.ComputeVisibleRange: requires `itemHeight > 0`. With 0, JavaScript divides to `Infinity`/`NaN`.
- DynamicVirtualScroll.Config.Valid: the engine's operations require `estimatedItemHeight > 0`, `containerHeight >= 0`, `overscan >= 0` and `itemGap >= 0`. The hook accepts any numbers; negative or zero values are not modelled.
- PositionIndex.ResolveRange and PositionIndex.VisibleRange: require `overscan >= 0`, which the hook does not check.
- DynamicVirtualScroll.Engine.RemeasureItem: tests `0 <= index < length`, where the code tests the truthiness of `items[index]`. The two agree for object items, the only kind the pages pass; a falsy item (`null`, `0`, `""`) is not modelled.
- DynamicVirtualScroll.Engine.SetItemHeight: requires a non-negative height, as `offsetHeight` always is.
- String lengths count characters, not UTF-16 code units, in `substring(0, 20)` and `replace`.
- `Object.entries` order of the URL parameters: the entries are given as a sequence in that order. Integer-like keys, which JavaScript moves to the front, are not reordered.
- ApiConfig.FirstPlaceholderOnly: states the plain-text result only for values without `$`. `ApiConfig.FirstPlaceholder` and `ApiConfig.DollarPatternInValue` cover values with `$` patterns.
- The container's selection: no handler in the page ever adds to it. The model keeps the field and `HandleDeleteSelected`, but no selection operation.
- The default `getItemKey` is a new function on every render. In React that re-runs the prune effect on each render; here the key function is fixed for the engine's lifetime.
- Route matching is by exact string. React Router's case-insensitive and trailing-slash matching is not modelled, and page components are not modelled.
- Persistence (`persist` with `localStorage`) and the devtools middleware. Also `useSimpleStore`, the selectors and the authentication store.
- The network layer (axios service, request helpers, `useApi`) and the endpoint constants other than `/articles/:id`.
- ComparisonStore.ComplexStore.Redo: its only effect is a console message, so it is stated as changing nothing.
