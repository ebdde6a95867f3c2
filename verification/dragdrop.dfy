/**
 The parts of the drag-drop context that the sortable offset reads and writes:
 a read-only snapshot of the store, and the transformer registry. The context's
 own code (`./drag-drop-context`) is not part of this model; the registry below is
 an abstraction of its `addTransformer`/`removeTransformer` contract.
 */
module DragDrop {
  import opened Wrappers
  import opened Geometry
  import opened Sequences

  /** Participant identity. Only string ids are modelled. */
  type Id = string

  /** The two halves of the store a transformer can be registered under. */
  datatype Kind = Draggables | Droppables

  /** Which draggable, if any, is being dragged, and whether an overlay stands in for it. */
  datatype Active = Active(draggableId: Option<Id>, overlay: bool)

  /** A droppable's measured layout and its composed (post-transformer) transform. */
  datatype Droppable = Droppable(layout: Layout, transform: Transform)

  /** Snapshot of the drag-drop store. Draggables are given by their raw drag transform. */
  datatype State = State(active: Active, draggables: map<Id, Transform>, droppables: map<Id, Droppable>)

  /** A transform contributor: a name, a priority and a pure callback. */
  datatype Transformer = Transformer(id: string, order: int, callback: Transform -> Transform)

  /** What identifies a registration for removal: the target and the transformer's name. */
  datatype Key = Key(kind: Kind, target: Id, transformerId: string)

  /** One registration held by the registry. */
  datatype Entry = Entry(kind: Kind, target: Id, transformerId: string, order: int)

  function KeyOf(e: Entry): (k: Key)
  {
    Key(e.kind, e.target, e.transformerId)
  }

  /** The keys of a registration list, position by position. */
  function Keys(s: seq<Entry>): (ks: seq<Key>)
    ensures |ks| == |s|
    ensures forall i :: 0 <= i < |s| ==> ks[i] == KeyOf(s[i])
  {
    seq(|s|, i requires 0 <= i < |s| => KeyOf(s[i]))
  }

  /**
   Registration list after removing by key: the earliest entry with that key is
   dropped and everything else keeps its order; without such an entry nothing changes.
   */
  function RemoveFirst(s: seq<Entry>, key: Key): (r: seq<Entry>)
    ensures key !in Keys(s) ==> r == s
    ensures key in Keys(s) ==>
      exists k :: 0 <= k < |s| && KeyOf(s[k]) == key && key !in Keys(s[..k])
                  && r == s[..k] + s[k + 1..]
    ensures key in Keys(s) ==> |r| == |s| - 1
  {
    var k := IndexOf(Keys(s), key);
    if k < 0 then s
    else
      assert Keys(s)[..k] == Keys(s[..k]);
      s[..k] + s[k + 1..]
  }

  /**
   Registering a key that is not yet registered and then removing by that key
   gives back the registration list unchanged.
   */
  lemma AddThenRemoveRestores(s: seq<Entry>, e: Entry)
    requires KeyOf(e) !in Keys(s)
    ensures RemoveFirst(s + [e], KeyOf(e)) == s
  {
    assert Keys(s + [e]) == Keys(s) + [KeyOf(e)];
    IndexOfAppendFresh(Keys(s), KeyOf(e));
    assert (s + [e])[..|s|] == s;
  }

  /** Removing by a key twice after one registration: the second removal is a no-op. */
  lemma SecondRemoveIsNoop(s: seq<Entry>, e: Entry)
    requires KeyOf(e) !in Keys(s)
    ensures RemoveFirst(RemoveFirst(s + [e], KeyOf(e)), KeyOf(e)) == RemoveFirst(s + [e], KeyOf(e))
  {
    AddThenRemoveRestores(s, e);
  }

  /**
   The transformer registry: one list of registrations, each naming its kind and
   target id. Registrations are kept in the order they were made.
   */
  class TransformerRegistry {
    var entries: seq<Entry>

    constructor ()
      ensures entries == []
    {
      entries := [];
    }

    /**
     `addTransformer`: appends a registration; duplicates are permitted. The
     registry keeps the transformer's name and order; its callback is only used
     by the fold, which is not part of this model.
     */
    method AddTransformer(kind: Kind, target: Id, transformerId: string, order: int)
      modifies this
      ensures entries == old(entries) + [Entry(kind, target, transformerId, order)]
    {
      entries := entries + [Entry(kind, target, transformerId, order)];
    }

    /** `removeTransformer`: drops the earliest matching registration, if any. */
    method RemoveTransformer(kind: Kind, target: Id, transformerId: string)
      modifies this
      ensures entries == RemoveFirst(old(entries), Key(kind, target, transformerId))
    {
      entries := RemoveFirst(entries, Key(kind, target, transformerId));
    }
  }
}
