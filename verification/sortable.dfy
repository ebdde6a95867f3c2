/**
 The sortable offset: how far a sortable participant must be shifted so that the
 live drag order shows before the list is actually reordered, the transformer that
 contributes that offset, the participant's effective transform, and the pairing of
 its registration with its removal.
 */
module CreateSortable {
  import opened Wrappers
  import opened Geometry
  import opened Sequences
  import opened DragDrop

  /** The orderings owned by the sortable list context. */
  datatype SortableState = SortableState(initialIds: seq<Id>, sortedIds: seq<Id>)

  const SortableOffsetId: string := "sortableOffset"
  const SortableOffsetOrder: int := 100

  /** Position of `id` in the baseline order, or -1 when it is not there. */
  function InitialIndex(ss: SortableState, id: Id): (r: int)
    ensures -1 <= r < |ss.initialIds|
    ensures r == -1 <==> id !in ss.initialIds
    ensures 0 <= r ==> ss.initialIds[r] == id
    ensures forall j :: 0 <= j < r ==> ss.initialIds[j] != id
  {
    IndexOf(ss.initialIds, id)
  }

  /** Position of `id` in the live order, or -1 when it is not there. */
  function CurrentIndex(ss: SortableState, id: Id): (r: int)
    ensures -1 <= r < |ss.sortedIds|
    ensures r == -1 <==> id !in ss.sortedIds
    ensures 0 <= r ==> ss.sortedIds[r] == id
    ensures forall j :: 0 <= j < r ==> ss.sortedIds[j] != id
  {
    IndexOf(ss.sortedIds, id)
  }

  /**
   The store key used for the active draggable. A missing draggable id (`null`)
   is coerced by property access to the key "null".
   */
  function StoreKey(draggableId: Option<Id>): (key: Id)
    ensures draggableId.Some? ==> key == draggableId.value
    ensures draggableId.None? ==> key == "null"
  {
    match draggableId
    case Some(d) => d
    case None => "null"
  }

  /** The layout of the droppable stored under `key`, or none when there is no such droppable. */
  function LayoutById(dnd: State, key: Id): (r: Option<Layout>)
    ensures r.None? <==> key !in dnd.droppables
    ensures r.Some? ==> r.value == dnd.droppables[key].layout
  {
    if key in dnd.droppables then Some(dnd.droppables[key].layout) else None
  }

  /**
   One slot's worth of space: on each axis where the two positions differ, the
   dragged participant's size on that axis; zero on an axis where they agree.
   */
  function SlotExtent(current: Layout, dragged: Layout): (r: Transform)
  {
    Transform(if current.x != dragged.x then dragged.width else 0.0,
              if current.y != dragged.y then dragged.height else 0.0)
  }

  /**
   Reference definition of the offset from the two indices and the two layouts:
   nothing when the participant has not moved or a layout is missing, otherwise
   one slot's extent, pointing backwards when it moved earlier in the order.
   */
  function Offset(initialIndex: int, currentIndex: int, current: Option<Layout>, dragged: Option<Layout>): (r: Transform)
  {
    if currentIndex == initialIndex || current.None? || dragged.None? then Zero()
    else if currentIndex < initialIndex then Neg(SlotExtent(current.value, dragged.value))
    else SlotExtent(current.value, dragged.value)
  }

  /** The offset of participant `id` in the given state. */
  function SortOffset(ss: SortableState, dnd: State, id: Id): (r: Transform)
  {
    Offset(InitialIndex(ss, id), CurrentIndex(ss, id),
           LayoutById(dnd, id), LayoutById(dnd, StoreKey(dnd.active.draggableId)))
  }

  /**
   `sortedTransform`: builds the offset in a local delta, axis by axis, then
   flips its direction when the participant moved earlier.
   */
  method SortedTransform(ss: SortableState, dnd: State, id: Id) returns (delta: Transform)
    ensures delta == SortOffset(ss, dnd, id)
  {
    delta := Zero();
    var resolvedInitialIndex := InitialIndex(ss, id);
    var resolvedCurrentIndex := CurrentIndex(ss, id);

    if resolvedCurrentIndex != resolvedInitialIndex {
      var currentLayout := LayoutById(dnd, id);
      var draggableLayout := LayoutById(dnd, StoreKey(dnd.active.draggableId));

      if currentLayout.Some? && draggableLayout.Some? {
        if currentLayout.value.x != draggableLayout.value.x {
          delta := delta.(x := draggableLayout.value.width);
        }
        if currentLayout.value.y != draggableLayout.value.y {
          delta := delta.(y := draggableLayout.value.height);
        }
        if resolvedCurrentIndex < resolvedInitialIndex {
          delta := delta.(x := delta.x * -1.0);
          delta := delta.(y := delta.y * -1.0);
        }
      }
    }
  }

  // ---------------------------------------------------------------------------
  // Properties of the offset

  /** A participant whose two indices agree is not shifted. */
  lemma NoMoveNoOffset(ss: SortableState, dnd: State, id: Id)
    requires CurrentIndex(ss, id) == InitialIndex(ss, id)
    ensures SortOffset(ss, dnd, id) == Zero()
  {
  }

  /** An id in neither order resolves both indices to -1 and is not shifted. */
  lemma UnknownIdNoOffset(ss: SortableState, dnd: State, id: Id)
    requires id !in ss.initialIds && id !in ss.sortedIds
    ensures SortOffset(ss, dnd, id) == Zero()
  {
  }

  /** While the live order equals the baseline, nothing is shifted. */
  lemma UnchangedOrderNoOffset(ss: SortableState, dnd: State)
    requires ss.sortedIds == ss.initialIds
    ensures forall id :: SortOffset(ss, dnd, id) == Zero()
  {
  }

  /** A missing layout, for the participant or for the active draggable, means no shift. */
  lemma MissingLayoutNoOffset(ss: SortableState, dnd: State, id: Id)
    requires id !in dnd.droppables || StoreKey(dnd.active.draggableId) !in dnd.droppables
    ensures SortOffset(ss, dnd, id) == Zero()
  {
  }

  /**
   With no active draggable nothing is shifted, provided no droppable is stored
   under the key "null" that the missing id is coerced to.
   */
  lemma NoActiveDraggableNoOffset(ss: SortableState, dnd: State, id: Id)
    requires dnd.active.draggableId.None? && "null" !in dnd.droppables
    ensures SortOffset(ss, dnd, id) == Zero()
  {
  }

  /** The dragged participant itself is never shifted: it is compared with its own layout. */
  lemma ActiveParticipantNoOffset(ss: SortableState, dnd: State, id: Id)
    requires dnd.active.draggableId == Some(id)
    ensures SortOffset(ss, dnd, id) == Zero()
  {
  }

  /**
   The axis rule: when the participant moved and both layouts exist, each axis is
   the dragged participant's size on that axis, negated when the participant
   moved earlier, where the two positions differ, and zero where they agree.
   */
  lemma AxisRule(ss: SortableState, dnd: State, id: Id)
    requires CurrentIndex(ss, id) != InitialIndex(ss, id)
    requires id in dnd.droppables && StoreKey(dnd.active.draggableId) in dnd.droppables
    ensures var cur := dnd.droppables[id].layout;
            var drag := dnd.droppables[StoreKey(dnd.active.draggableId)].layout;
            var sign := if CurrentIndex(ss, id) < InitialIndex(ss, id) then -1.0 else 1.0;
            var r := SortOffset(ss, dnd, id);
            && r.x == (if cur.x != drag.x then sign * drag.width else 0.0)
            && r.y == (if cur.y != drag.y then sign * drag.height else 0.0)
  {
  }

  /**
   Conversely, a non-zero component can only come from a real move with both
   layouts known and the positions differing on that axis, and its magnitude is
   then the dragged participant's size on that axis.
   */
  lemma NonZeroComponentNeedsMove(ss: SortableState, dnd: State, id: Id)
    ensures var r := SortOffset(ss, dnd, id);
            var key := StoreKey(dnd.active.draggableId);
            (r.x != 0.0 || r.y != 0.0) ==>
              && CurrentIndex(ss, id) != InitialIndex(ss, id)
              && id in dnd.droppables && key in dnd.droppables
              && (r.x != 0.0 ==> dnd.droppables[id].layout.x != dnd.droppables[key].layout.x
                                 && (r.x == dnd.droppables[key].layout.width || r.x == -dnd.droppables[key].layout.width))
              && (r.y != 0.0 ==> dnd.droppables[id].layout.y != dnd.droppables[key].layout.y
                                 && (r.y == dnd.droppables[key].layout.height || r.y == -dnd.droppables[key].layout.height))
  {
  }

  /** A participant pushed later in the order moves forwards when sizes are non-negative. */
  lemma MovedLaterNonNegative(ss: SortableState, dnd: State, id: Id)
    requires CurrentIndex(ss, id) > InitialIndex(ss, id)
    requires var key := StoreKey(dnd.active.draggableId);
             key in dnd.droppables ==> dnd.droppables[key].layout.width >= 0.0 && dnd.droppables[key].layout.height >= 0.0
    ensures SortOffset(ss, dnd, id).x >= 0.0 && SortOffset(ss, dnd, id).y >= 0.0
  {
  }

  /** A participant pulled earlier in the order moves backwards when sizes are non-negative. */
  lemma MovedEarlierNonPositive(ss: SortableState, dnd: State, id: Id)
    requires CurrentIndex(ss, id) < InitialIndex(ss, id)
    requires var key := StoreKey(dnd.active.draggableId);
             key in dnd.droppables ==> dnd.droppables[key].layout.width >= 0.0 && dnd.droppables[key].layout.height >= 0.0
    ensures SortOffset(ss, dnd, id).x <= 0.0 && SortOffset(ss, dnd, id).y <= 0.0
  {
  }

  /** Exchanging the two indices, with the same layouts, exactly negates the offset. */
  lemma OffsetAntisymmetric(i: int, j: int, current: Option<Layout>, dragged: Option<Layout>)
    ensures Offset(j, i, current, dragged) == Neg(Offset(i, j, current, dragged))
  {
  }

  /** Exchanging the baseline and live orders exactly negates every participant's offset. */
  lemma SwappedOrdersNegate(ss: SortableState, dnd: State, id: Id)
    ensures SortOffset(SortableState(ss.sortedIds, ss.initialIds), dnd, id) == Neg(SortOffset(ss, dnd, id))
  {
    OffsetAntisymmetric(InitialIndex(ss, id), CurrentIndex(ss, id),
                        LayoutById(dnd, id), LayoutById(dnd, StoreKey(dnd.active.draggableId)));
  }

  /**
   Worked example: B is dragged in front of A. A moves from index 0 to 1 and,
   its x position differing from B's, shifts forwards by B's width.
   */
  lemma SwapFirstTwoExample()
    ensures var ss := SortableState(["A", "B", "C"], ["B", "A", "C"]);
            var dnd := State(Active(Some("B"), false), map[],
                             map["A" := Droppable(Layout(0.0, 0.0, 100.0, 50.0), Zero()),
                                 "B" := Droppable(Layout(100.0, 0.0, 100.0, 50.0), Zero())]);
            SortOffset(ss, dnd, "A") == Transform(100.0, 0.0)
  {
    var ss := SortableState(["A", "B", "C"], ["B", "A", "C"]);
    IndexOfIsFirst(ss.initialIds, "A", 0);
    IndexOfIsFirst(ss.sortedIds, "A", 1);
  }

  /**
   A single move: the live order is the baseline with the item at `from` moved to
   `to`. Participants outside the range between the two slots are not shifted. Those the move slid
   earlier are shifted back by one slot, and those it slid later forward by one
   slot, whenever both layouts are known.
   */
  lemma SingleMoveOffsets(ids: seq<Id>, from: nat, to: nat, dnd: State, k: nat)
    requires Distinct(ids) && from < |ids| && to < |ids| && k < |ids|
    ensures var ss := SortableState(ids, Move(ids, from, to));
            var cur := LayoutById(dnd, ids[k]);
            var drag := LayoutById(dnd, StoreKey(dnd.active.draggableId));
            var o := SortOffset(ss, dnd, ids[k]);
            && (k != from && !(from < k <= to) && !(to <= k < from) ==> o == Zero())
            && (from < k <= to && cur.Some? && drag.Some? ==> o == Neg(SlotExtent(cur.value, drag.value)))
            && (to <= k < from && cur.Some? && drag.Some? ==> o == SlotExtent(cur.value, drag.value))
  {
    IndexOfDistinct(ids, k);
    IndexAfterMove(ids, from, to, k);
  }

  // ---------------------------------------------------------------------------
  // The transformer

  /**
   The transformer a sortable registers, as it behaves when applied in the given
   state: named "sortableOffset", order 100, adding the offset to its input.
   */
  function OffsetTransformer(ss: SortableState, dnd: State, id: Id): (t: Transformer)
    ensures t.id == "sortableOffset" && t.order == 100
    ensures forall tr :: t.callback(tr).x == tr.x + SortOffset(ss, dnd, id).x
                      && t.callback(tr).y == tr.y + SortOffset(ss, dnd, id).y
  {
    Transformer(SortableOffsetId, SortableOffsetOrder, tr => Add(tr, SortOffset(ss, dnd, id)))
  }

  /** Applied to the identity offset, the callback yields exactly the sortable offset. */
  lemma CallbackFromZeroIsOffset(ss: SortableState, dnd: State, id: Id)
    ensures OffsetTransformer(ss, dnd, id).callback(Zero()) == SortOffset(ss, dnd, id)
  {
  }

  // ---------------------------------------------------------------------------
  // The effective transform

  /**
   The `transform` getter: the raw drag transform for the participant being
   dragged without an overlay, otherwise the droppable's composed transform; the
   identity offset when the chosen entry is absent.
   */
  function EffectiveTransform(dnd: State, id: Id): (r: Transform)
    ensures dnd.active.draggableId == Some(id) && !dnd.active.overlay ==>
              r == if id in dnd.draggables then dnd.draggables[id] else Zero()
    ensures !(dnd.active.draggableId == Some(id) && !dnd.active.overlay) ==>
              r == if id in dnd.droppables then dnd.droppables[id].transform else Zero()
  {
    var chosen :=
      if dnd.active.draggableId == Some(id) && !dnd.active.overlay then
        if id in dnd.draggables then Some(dnd.draggables[id]) else None
      else
        if id in dnd.droppables then Some(dnd.droppables[id].transform) else None;
    match chosen
    case Some(t) => t
    case None => Zero()
  }

  /**
   The participant being dragged without an overlay ignores every droppable
   transform, its own composed one (which holds the sortable offset) included.
   */
  lemma DraggedWithoutOverlayBypassesDroppables(dnd: State, id: Id, others: map<Id, Droppable>)
    requires dnd.active.draggableId == Some(id) && !dnd.active.overlay
    ensures EffectiveTransform(dnd, id) == EffectiveTransform(dnd.(droppables := others), id)
  {
  }

  /** Every other participant ignores the raw drag transforms. */
  lemma OthersIgnoreDraggables(dnd: State, id: Id, others: map<Id, Transform>)
    requires !(dnd.active.draggableId == Some(id) && !dnd.active.overlay)
    ensures EffectiveTransform(dnd, id) == EffectiveTransform(dnd.(draggables := others), id)
  {
  }

  // ---------------------------------------------------------------------------
  // Registration

  /** The registration a sortable makes for itself. */
  function OffsetKey(id: Id): (k: Key)
  {
    Key(Droppables, id, SortableOffsetId)
  }

  /**
   A sortable's lifecycle binding: mounting registers its offset transformer with
   the droppable half of the registry under its id; cleanup removes it by name.
   */
  class Sortable {
    const id: Id
    const registry: TransformerRegistry

    constructor (id: Id, registry: TransformerRegistry)
      ensures this.id == id && this.registry == registry
    {
      this.id := id;
      this.registry := registry;
    }

    method Mount()
      modifies registry
      ensures registry.entries
              == old(registry.entries) + [Entry(Droppables, id, SortableOffsetId, SortableOffsetOrder)]
    {
      registry.AddTransformer(Droppables, id, SortableOffsetId, SortableOffsetOrder);
    }

    method Cleanup()
      modifies registry
      ensures registry.entries == RemoveFirst(old(registry.entries), OffsetKey(id))
    {
      registry.RemoveTransformer(Droppables, id, SortableOffsetId);
    }
  }

  /**
   Mount followed by cleanup leaves the registry as it was, for a participant
   that was not registered before.
   */
  method MountThenCleanup(registry: TransformerRegistry, id: Id)
    requires OffsetKey(id) !in Keys(registry.entries)
    modifies registry
    ensures registry.entries == old(registry.entries)
  {
    var sortable := new Sortable(id, registry);
    sortable.Mount();
    sortable.Cleanup();
    AddThenRemoveRestores(old(registry.entries), Entry(Droppables, id, SortableOffsetId, SortableOffsetOrder));
  }
}
