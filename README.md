# Tile renderer core of Mapster, in Dafny

This project models the core of Mapster's tile renderer
(`Rendering/TileRenderer/TileRenderer.cs`). It covers two stages.

- **`Tessellate`** takes one map feature, with its geometry type, its
  coordinates and its key/value properties. It runs an ordered chain of
  fourteen rules, and the first rule that accepts the feature picks the shape:
  Road, Waterway, Border, PopulatedPlace, Railway, or GeoFeature with subtype
  Forest, Residential, Plain, Water or a natural subtype. The shape is put in
  the shared priority queue at its own `ZIndex`. The shared bounding box is
  widened over the shape's screen coordinates.
- **`Render`** drains the priority queue. It hands shapes to the canvas from
  the lowest priority to the highest.

Modules:

- `MapData` (`map_data.dfy`): features, property keys, geometry types and the
  `CountryLand` categories.
- `Shapes` (`shapes.dfy`): shape kinds, and the `Shape` class that fixes its
  `ZIndex` and screen coordinates when it is built.
- `Classifier` (`classifier.dfy`): the rule chain `Classify`. The same rules
  also appear as a table (`Rule`, `FirstMatch`), and lemmas prove that the
  chain and the table agree. Further lemmas state the precedence,
  fall-through and geometry properties of single rules.
- `BoundingBoxes` (`bounding_box.dfy`): the min/max widening loop.
- `PriorityQueues` (`priority_queue.dfy`): the queue, specified only by its
  contract. `Dequeue` removes an entry of least priority.
- `TileRenderer` (`tile_renderer.dfy`): `Tessellate`, the drain loop of
  `Render`, and lemmas about draw order.

Some code lives outside this file and enters the model as function-valued
parameters:

- in `Vocabulary`: the case-insensitive `Enum.TryParse` for `HighwayTypes`
  and `CountryLand`, `Border.ShouldBeBorder`,
  `PopulatedPlace.ShouldBePopulatedPlace`, and the natural subtype chosen by
  `GeoFeature(coordinates, feature)`;
- in `ShapeTraits`: each shape's `ZIndex` and the projection that produces its
  `ScreenCoordinates`.

The first rule asks for a `highway` key whose value parses as a highway type,
not for a key that is itself a highway type. .NET's `PriorityQueue` does not
promise a stable order for equal priorities, so the model promises none; it
proves instead that the sequence of drawn priorities is the same however ties
are broken (`DrainOrderIsDetermined`).

## Model

| member | source | states |
|---|---|---|
| `Classifier.ClassifyIsFirstMatch` | Rendering/TileRenderer/TileRenderer.cs:20-128 | The written if/else chain gives, for every feature, the same result as scanning the fourteen-rule table from the top and taking the first rule that accepts. |
| `Classifier.ClassifyFirstMatchWins` | Rendering/TileRenderer/TileRenderer.cs:20-128 | When rule i accepts the feature and no earlier rule does, the feature becomes rule i's shape kind, whatever later rules would say. |
| `Classifier.ClassifyComesFromFirstMatch` | Rendering/TileRenderer/TileRenderer.cs:20-128 | Every shape kind produced comes from some rule that accepts the feature, and every rule before it rejects the feature. |
| `Classifier.ClassifyNoneIffNoRule` | Rendering/TileRenderer/TileRenderer.cs:15-128 | The result stays null exactly when all fourteen rules reject the feature. |
| `Classifier.RoadShadowsLaterRules` | Rendering/TileRenderer/TileRenderer.cs:20-26 | A `highway` pair whose value parses as a highway type makes a Road, even when any other tags (water, railway, natural, landuse, ...) are added before or after it. |
| `Classifier.UnparsedHighwayFallsThrough` | Rendering/TileRenderer/TileRenderer.cs:20-128 | When no `highway` value parses, the result is whatever rules 2 to 14 give, and it is never a Road. |
| `Classifier.UnparsedLanduseMatchesNoLanduseRule` | Rendering/TileRenderer/TileRenderer.cs:70-107 | When no `landuse` value parses as `CountryLand`, none of the four land-use rules accepts. A Plain or Water GeoFeature can then come only from the `natural` rule. |
| `Classifier.WaterwayOnlyForLinesAndPolygons` | Rendering/TileRenderer/TileRenderer.cs:27-34 | A Waterway is produced exactly when the feature is not a Road, has a `water` or `waterway` key, and is not a Point. It is filled exactly when the geometry is a Polygon. |
| `Classifier.PolygonOnlyRules` | Rendering/TileRenderer/TileRenderer.cs:56-128 | The natural, residential-class, plain-class and reservoir/basin land-use, building, leisure and amenity rules accept Polygon geometry only. |
| `Classifier.GeometryFreeRules` | Rendering/TileRenderer/TileRenderer.cs:63-76 | The forest-boundary rule and the forest/orchard land-use rule give the same answer for every geometry type. |
| `Classifier.AreaTagsOnNonPolygonAreDropped` | Rendering/TileRenderer/TileRenderer.cs:56-128 | A Point or Line carrying only building, leisure, amenity or natural tags produces nothing, unless it is a border or a populated place. |
| `Classifier.UnrecognisedTagsAreDropped` | Rendering/TileRenderer/TileRenderer.cs:15-128 | A feature carrying only unrecognised keys (such as `shop`) produces nothing, unless it is a border or a populated place. |
| `Shapes.Shape.constructor` | Rendering/TileRenderer/TileRenderer.cs:22-23 | A new shape records its kind, the `ZIndex` of that kind, and the screen coordinates projected from the feature's coordinates. |
| `BoundingBoxes.Widen` | Rendering/TileRenderer/TileRenderer.cs:130-139 | The widened box contains the old box and every screen point. Each of its bounds is either the old bound or a coordinate of one of the points. |
| `BoundingBoxes.WideningIsUnique` | Rendering/TileRenderer/TileRenderer.cs:132-138 | Only one box satisfies the widening contract: each bound is the min or max of the old bound and the points on that axis. |
| `BoundingBoxes.WideningComposes` | Rendering/TileRenderer/TileRenderer.cs:130-139 | Widening over one shape and then over the next gives the box widened over all their points at once. So the box never narrows from feature to feature. |
| `PriorityQueues.MinimumAt` | Rendering/TileRenderer/TileRenderer.cs:157 | Every non-empty queue has a position whose entry has a priority no larger than any other entry's. |
| `PriorityQueues.PriorityQueue.Enqueue` | Rendering/TileRenderer/TileRenderer.cs:25 | The queue gains exactly the given (shape, priority) entry. |
| `PriorityQueues.PriorityQueue.Dequeue` | Rendering/TileRenderer/TileRenderer.cs:157 | The entry returned was queued and has the least priority in the queue. The queue loses exactly that entry. |
| `PriorityQueues.DrainOrderIsDetermined` | Rendering/TileRenderer/TileRenderer.cs:155-160 | Any two lowest-first drains of the same queue draw the same sequence of priorities, whatever the insertion order and however ties are broken. |
| `TileRenderer.Tessellate` | Rendering/TileRenderer/TileRenderer.cs:13-142 | No match: the result is null, and the queue and the box are unchanged. Match: the result is a fresh shape of the classified kind, and the queue gains exactly one entry, that same shape at its own `ZIndex`. The box is then the old box widened over the shape's screen coordinates. |
| `TileRenderer.Render` | Rendering/TileRenderer/TileRenderer.cs:155-160 | The loop leaves the queue empty. The shapes drawn are exactly those that were queued, in non-decreasing priority order. |
| `TileRenderer.DrawsBackToFront` | Rendering/TileRenderer/TileRenderer.cs:155-160 | Shapes queued with priorities 3, 1, 2 are drawn with priorities 1, 2, 3. |

## Left out

- The ImageSharp canvas is left out: creating the image, the white fill, `canvas.Mutate` and each shape's `Render`. These are calls into a drawing library. Instead, `Render` returns the entries in the order they are handed to the canvas.
- The scale computation in `Render` (float division of the canvas size by the box's extent, with no guard against a degenerate box, which divides by zero) is left out. So is `TranslateAndScale`, which lives in the shape classes that are not part of this model. So `Render` takes no bounding box, width or height, and it does not change shapes' coordinates.
- `Border.ShouldBeBorder`, `PopulatedPlace.ShouldBePopulatedPlace`, the natural subtype mapping of `GeoFeature`, the `ZIndex` constants and the coordinate projection are parameters (`Vocabulary`, `ShapeTraits`). Their definitions are not part of this model.
- The property keys form a closed vocabulary: the ten keys the rules name are their own constructors, and `Other` stands only for keys outside them. An `Other` whose name spells a recognised key (`Other("highway")`) is not that key.
- The members of `HighwayTypes` are not modelled; the parse is the parameter `isHighwayType`. The `CountryLand` members the rules do not name are collapsed into `OtherLand`.
- The parses are case-insensitive in the source. Here each is a parameter, so its case behaviour is whatever the parameter gives; Dafny strings have no case folding.
- `StartsWith("forest")` is culture-sensitive in .NET. Here it is a plain prefix test on the character sequence.
- Coordinates are reals, so `Math.Min` and `Math.Max` are exact. NaN and float rounding are not modelled.
- The starting value of the bounding box is chosen by the caller, which is not part of this model. `Widen` is specified for any starting box.
- The .NET heap inside `PriorityQueue` is left out, and so is its tie-breaking. The queue is a sequence of entries, and `Dequeue` is specified only by its least-priority contract.
- PriorityQueues.PriorityQueue.Dequeue: requires a non-empty queue, where .NET throws on an empty one; `Render` only dequeues while the count is positive.
- Loading features from memory-mapped files is left out, because it is I/O.
