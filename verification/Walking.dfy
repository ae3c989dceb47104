/** Walks over a set of daemons, in whatever order. */
module Walking {
  import opened Torrents

  /** `order` visits every one of the daemons once. */
  predicate Walks(order: seq<Id>, ids: set<Id>) {
    (set x | x in order) == ids && |order| == |ids|
  }

  lemma WalkOn(order: seq<Id>, ids: set<Id>, x: Id)
    requires Walks(order, ids) && x !in ids
    ensures Walks(order + [x], ids + {x})
  {
    assert (set y | y in order + [x]) == (set y | y in order) + {x};
  }

  ghost function Walk(ids: set<Id>): (order: seq<Id>)
    ensures Walks(order, ids)
    decreases |ids|
  {
    if ids == {} then [] else
      var x :| x in ids;
      WalkOn(Walk(ids - {x}), ids - {x}, x);
      assert ids - {x} + {x} == ids;
      Walk(ids - {x}) + [x]
  }
}
