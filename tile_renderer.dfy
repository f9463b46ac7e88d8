/**
 * `Tessellate` turns one feature into at most one queued shape and widens the
 * bounding box over it; `Render` drains the queue back to front. The canvas is
 * represented by the order in which shapes are handed to it.
 */
module TileRenderer {
  import opened MapData
  import opened Shapes
  import opened Classifier
  import opened BoundingBoxes
  import opened PriorityQueues

  /**
   * Classifies `feature`; on a match builds the shape, enqueues it at its own
   * `ZIndex` and returns the box widened over its screen coordinates. On no
   * match the result is null and neither the queue nor the box changes.
   */
  method Tessellate(vocabulary: Vocabulary, traits: ShapeTraits, feature: Feature,
                    boundingBox: BoundingBox, shapes: PriorityQueue)
    returns (shape: Shape?, box: BoundingBox)
    modifies shapes
    ensures Classify(vocabulary, feature).None? ==>
      shape == null && box == boundingBox && shapes.entries == old(shapes.entries)
    ensures Classify(vocabulary, feature).Some? ==>
      shape != null && fresh(shape) &&
      shape.kind == Classify(vocabulary, feature).value &&
      shape.zIndex == traits.zIndex(shape.kind) &&
      shape.screenCoordinates == traits.project(shape.kind, feature.coordinates) &&
      shapes.entries == old(shapes.entries) + [(shape, shape.zIndex)] &&
      IsWidening(boundingBox, shape.screenCoordinates, box)
  {
    var kind := Classify(vocabulary, feature);
    if kind.Some? {
      shape := new Shape(traits, kind.value, feature.coordinates);
      shapes.Enqueue(shape, shape.zIndex);
      box := Widen(boundingBox, shape.screenCoordinates);
    } else {
      shape := null;
      box := boundingBox;
    }
  }

  /**
   * Drains the queue, handing each shape to the canvas; returns the entries
   * in the order they were drawn. Scaling to pixels and rasterising are not
   * part of this model.
   */
  method Render(shapes: PriorityQueue) returns (drawn: seq<Entry>)
    modifies shapes
    ensures shapes.entries == []
    ensures multiset(drawn) == multiset(old(shapes.entries))
    ensures Ascending(Priorities(drawn))
  {
    drawn := [];
    while shapes.Count() > 0
      invariant multiset(drawn) + multiset(shapes.entries) == multiset(old(shapes.entries))
      invariant Ascending(Priorities(drawn))
      invariant forall i, e :: 0 <= i < |drawn| && e in shapes.entries ==> drawn[i].1 <= e.1
      decreases |shapes.entries|
    {
      ghost var before := shapes.entries;
      var entry := shapes.Dequeue();
      forall e | e in shapes.entries
        ensures entry.1 <= e.1
      {
        assert e in multiset(before);
      }
      assert Priorities(drawn + [entry]) == Priorities(drawn) + [entry.1];
      drawn := drawn + [entry];
    }
  }

  /** Shapes queued with priorities 3, 1, 2 are drawn with priorities 1, 2, 3. */
  lemma DrawsBackToFront(queued: seq<Entry>, drawn: seq<Entry>)
    requires Priorities(queued) == [3, 1, 2]
    requires multiset(drawn) == multiset(queued) && Ascending(Priorities(drawn))
    ensures Priorities(drawn) == [1, 2, 3]
  {
    SamePrioritiesForSameEntries(drawn, queued);
    assert multiset([3, 1, 2]) == multiset([1, 2, 3]);
    AscendingIsUnique(Priorities(drawn), [1, 2, 3]);
  }
}
