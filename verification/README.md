# Sortable offset

A Dafny model of the sortable-offset computation of a drag-and-drop library for a
reactive UI toolkit (`src/create-sortable.ts`). While an item is being dragged
through a sortable list, every participant is shifted visually so that the live
drag order (`sortedIds`) shows before the list itself is reordered. The shift is
computed from the participant's position in the baseline order (`initialIds`),
its position in the live order, its own layout and the layout of the item being
dragged. It reaches the screen through a transformer named `sortableOffset` with
order 100. The participant registers that transformer with the drag-drop
context's registry when it is mounted and removes it on cleanup.

Modules:

- `Wrappers`: `Option`, for the source's `null`/`undefined`.
- `Geometry`: `Layout`, `Transform`, the identity offset, addition and negation.
- `Sequences`: `IndexOf`, with JavaScript's `indexOf` semantics (-1 when absent).
  Also `Move`, a single item taken out of an order and put back elsewhere. `Move` is
  used only to state what the offset does for such a reordering.
- `DragDrop`: a read-only snapshot of the drag-drop store (active draggable,
  overlay flag, draggable transforms, droppable layouts and transforms). It also
  holds the transformer registry, modelled as a class over a sequence of
  registrations.
- `CreateSortable`: the core. `SortedTransform` is the imperative offset
  computation. It is proved equal to the reference function `SortOffset`, which
  the transformer callback uses and which the lemmas are about. The module also
  holds the transformer, the `transform` getter, and the `Sortable` class whose
  `Mount` and `Cleanup` do the registration pairing.

The drag-drop state is passed in explicitly as an immutable snapshot, instead of
being read from ambient context. JavaScript numbers are modelled as `real`. The
offset computation only compares, copies and negates them, which is exact. The
callback's addition of the offset to its input is modelled as exact real
addition (see "Left out").

One detail of property access is modelled on purpose. When there is no active
draggable, `dndState.droppables[null]` looks up the key `"null"`. `StoreKey`
captures this. So "no active draggable gives no shift" holds only when no
droppable is stored under the id `"null"` (`NoActiveDraggableNoOffset`).

## Model

| member | source | states |
|---|---|---|
| `Sequences.IndexOf` | src/create-sortable.ts:33-34 | The result is -1 exactly when the element is absent; otherwise it is a position holding the element with no earlier occurrence |
| `Sequences.IndexAfterMove` | src/create-sortable.ts:33-34 | After one item of a repetition-free order moves from `from` to `to`, the index lookup finds it at `to`, the items between shifted one place toward `from`, and every other item unchanged |
| `CreateSortable.InitialIndex` | src/create-sortable.ts:33 | Position of the id in `initialIds`: between -1 and the last index; -1 iff absent, else a position holding the id with no earlier occurrence |
| `CreateSortable.CurrentIndex` | src/create-sortable.ts:34 | Position of the id in `sortedIds`: between -1 and the last index; -1 iff absent, else a position holding the id with no earlier occurrence |
| `CreateSortable.LayoutById` | src/create-sortable.ts:35-36 | No layout iff no droppable is stored under the key; otherwise that droppable's layout |
| `CreateSortable.StoreKey` | src/create-sortable.ts:45 | The active draggable's id is the store key; a missing id becomes the key "null" |
| `CreateSortable.SortedTransform` | src/create-sortable.ts:38-62 | The delta built axis by axis equals the reference offset `SortOffset` |
| `CreateSortable.NoMoveNoOffset` | src/create-sortable.ts:40-43 | Equal initial and current indices give the zero delta |
| `CreateSortable.UnknownIdNoOffset` | src/create-sortable.ts:33-34 | An id absent from both orders (-1 == -1) gives the zero delta |
| `CreateSortable.UnchangedOrderNoOffset` | src/create-sortable.ts:33-43 | While `sortedIds` equals `initialIds`, every id's delta is zero |
| `CreateSortable.MissingLayoutNoOffset` | src/create-sortable.ts:44-47 | A missing layout, for the participant or for the active draggable, gives the zero delta |
| `CreateSortable.NoActiveDraggableNoOffset` | src/create-sortable.ts:45-47 | With no active draggable and no droppable keyed "null", the delta is zero |
| `CreateSortable.ActiveParticipantNoOffset` | src/create-sortable.ts:44-53 | The dragged participant's own delta is zero, since it is compared with its own layout |
| `CreateSortable.AxisRule` | src/create-sortable.ts:47-57 | After a move with both layouts known, each axis is the dragged item's width (x) or height (y), negated when the item moved earlier, where the positions differ, and zero where they agree |
| `CreateSortable.NonZeroComponentNeedsMove` | src/create-sortable.ts:43-57 | A non-zero component implies differing indices, both layouts present, differing positions on that axis, and magnitude equal to the dragged item's size on it |
| `CreateSortable.MovedLaterNonNegative` | src/create-sortable.ts:48-57 | currentIndex > initialIndex with non-negative sizes gives non-negative components |
| `CreateSortable.MovedEarlierNonPositive` | src/create-sortable.ts:54-57 | currentIndex < initialIndex with non-negative sizes gives non-positive components |
| `CreateSortable.OffsetAntisymmetric` | src/create-sortable.ts:43-57 | Exchanging the two indices with the same layouts exactly negates the delta |
| `CreateSortable.SwappedOrdersNegate` | src/create-sortable.ts:33-57 | Exchanging `initialIds` and `sortedIds` exactly negates every participant's delta |
| `CreateSortable.SwapFirstTwoExample` | src/create-sortable.ts:33-57 | initialIds [A,B,C], sortedIds [B,A,C], A at (0,0,100,50), dragged B at (100,0,100,50): A's delta is (100, 0) |
| `CreateSortable.SingleMoveOffsets` | src/create-sortable.ts:33-57 | When the live order is the baseline with one item moved from `from` to `to` (ids distinct), participants outside that range are not shifted; when both layouts are known, those slid earlier get the negated slot extent and those slid later get the slot extent |
| `CreateSortable.OffsetTransformer` | src/create-sortable.ts:64-71 | The transformer's id is "sortableOffset", its order 100, and its callback adds the delta componentwise to its input |
| `CreateSortable.CallbackFromZeroIsOffset` | src/create-sortable.ts:67-70 | The callback applied to the zero transform yields exactly the delta |
| `CreateSortable.EffectiveTransform` | src/create-sortable.ts:76-82 | The dragged id without overlay gets its draggable transform; every other case gets the droppable transform; an absent entry gives zero |
| `CreateSortable.DraggedWithoutOverlayBypassesDroppables` | src/create-sortable.ts:78-79 | For the dragged id without overlay, the result does not depend on any droppable transform, so the sortable offset is bypassed |
| `CreateSortable.OthersIgnoreDraggables` | src/create-sortable.ts:78-80 | In every other case, the result does not depend on the raw drag transforms |
| `CreateSortable.Sortable.Mount` | src/create-sortable.ts:73 | Mounting appends one registration: kind droppables, the sortable's id, "sortableOffset", order 100 |
| `CreateSortable.Sortable.Cleanup` | src/create-sortable.ts:74 | Cleanup removes the earliest droppables registration for the id named "sortableOffset" |
| `CreateSortable.MountThenCleanup` | src/create-sortable.ts:73-74 | For an id not yet registered, mount followed by cleanup leaves the registry as it was |
| `DragDrop.RemoveFirst` | src/create-sortable.ts:74 | Removal by key drops the earliest entry with that key and keeps the rest in order; with no such entry, nothing changes |
| `DragDrop.AddThenRemoveRestores` | src/create-sortable.ts:73-74 | Adding an unregistered key and then removing by it gives back the original registrations |
| `DragDrop.SecondRemoveIsNoop` | src/create-sortable.ts:74 | After one registration and one removal, a second removal by the same key changes nothing |
| `DragDrop.TransformerRegistry.AddTransformer` | src/create-sortable.ts:73 | `addTransformer` appends the registration; duplicates are permitted |
| `DragDrop.TransformerRegistry.RemoveTransformer` | src/create-sortable.ts:74 | `removeTransformer` drops the earliest matching registration, if any |

## Left out

- DOM side effects of `linkTransformUpdates` (src/create-sortable.ts:84-93): setting and removing the `transform` style property. `./style` is not part of this model.
- Reactivity and lifecycle hooks (`createEffect`, `onMount`, `onCleanup`) and the context lookups (src/create-sortable.ts:1, 26-28). Mounting and cleanup are the explicit methods `Sortable.Mount` and `Sortable.Cleanup`. The state is an explicit snapshot parameter.
- `createDraggable`, `createDroppable`, `combineRefs`, the `ref` setter, and the getters `isActiveDraggable`, `dragActivators` and `isActiveDroppable` (src/create-sortable.ts:29-31, 96-127). They delegate to code that is not part of this model.
- The registry's fold and sort (`applyTransformers` in `./drag-drop-context`), which is not part of this model. A droppable's composed transform is an input of the snapshot. The registry keeps each transformer's name and order but not its callback.
- The registry is an abstraction. `./drag-drop-context` is not part of this model, so how it really stores transformers (for instance, keyed by transformer id) is not captured.
- The callable-object surface built with `Object.defineProperties`. It is language-specific API sugar.
- Numeric ids. The model uses string ids only. JavaScript coerces a number to its decimal string when it is used as an object key, while `indexOf` compares strictly; that difference is not modelled.
- Signed zero. `delta.x *= -1` turns 0 into -0 in JavaScript. `real` has a single zero, and `===` treats 0 and -0 as equal.
- The sortable list context's invariant that `sortedIds` is a permutation of `initialIds`. The offset computation does not depend on it, so it is not assumed.
- `OffsetTransformer`: the callback reads the live state each time it runs. The model gives it the state it is applied in as an argument of the function that builds it.
- `OffsetTransformer`: the callback's `transform.x + delta.x` and `transform.y + delta.y` are IEEE-754 double additions, which can round. The model uses exact real addition, so rounding, NaN and infinities are not captured.
