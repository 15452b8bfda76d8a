/** `DirtyTracker`: the set of components whose plan is out of date. */
module DirtyTracking {
  import opened MrpCore

  class DirtyTracker {
    var dirtyComponents: set<ComponentId>

    /** `new` and `default`: nothing is dirty. */
    constructor ()
      ensures dirtyComponents == {}
    {
      dirtyComponents := {};
    }

    /** `mark_dirty`: adds one component and touches no other. */
    method MarkDirty(c: ComponentId)
      modifies this
      ensures dirtyComponents == old(dirtyComponents) + {c}
      ensures IsDirty(c)
      ensures forall x :: x != c ==> (IsDirty(x) <==> old(IsDirty(x)))
    {
      dirtyComponents := dirtyComponents + {c};
    }

    /** `is_dirty` */
    predicate IsDirty(c: ComponentId)
      reads this
    {
      c in dirtyComponents
    }

    /** `clear`: no component stays dirty. */
    method Clear()
      modifies this
      ensures dirtyComponents == {}
      ensures forall x :: !IsDirty(x)
    {
      dirtyComponents := {};
    }

    /** `get_dirty_components`: every dirty component once, in the set's
        iteration order, which the model leaves unspecified. */
    method GetDirtyComponents() returns (list: seq<ComponentId>)
      ensures forall x :: x in list <==> IsDirty(x)
      ensures forall i, j :: 0 <= i < j < |list| ==> list[i] != list[j]
    {
      list := [];
      var rest := dirtyComponents;
      while rest != {}
        invariant rest <= dirtyComponents
        invariant forall x :: x in list <==> x in dirtyComponents && x !in rest
        invariant forall i, j :: 0 <= i < j < |list| ==> list[i] != list[j]
        decreases |rest|
      {
        var c :| c in rest;
        list := list + [c];
        rest := rest - {c};
      }
    }
  }

  /** Marking a component twice leaves the same dirty set as marking it
      once, whatever else is dirty. */
  method MarkTwice(t: DirtyTracker, c: ComponentId)
    modifies t
    ensures t.dirtyComponents == old(t.dirtyComponents) + {c}
  {
    t.MarkDirty(c);
    ghost var once := t.dirtyComponents;
    t.MarkDirty(c);
    assert t.dirtyComponents == once;
  }
}
