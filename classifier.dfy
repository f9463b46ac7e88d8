/**
 * The rule chain of `Tessellate`: an ordered list of fourteen guards over a
 * feature's geometry type and properties; the first guard that holds picks
 * the shape kind, and a feature no guard accepts is dropped.
 *
 * `Classify` is the chain as the renderer writes it. `Rule` and `FirstMatch`
 * restate it as a table scanned from the top, and the lemmas below prove the
 * two agree and derive the precedence, fall-through and geometry properties
 * of individual rules from the table.
 */
module Classifier {
  import opened MapData
  import opened Shapes

  /**
   * Decisions taken by code outside the renderer: the case-insensitive
   * enumeration parses of `HighwayTypes` and `CountryLand`, the border and
   * populated-place predicates, and the natural subtype of a `GeoFeature`.
   */
  datatype Vocabulary = Vocabulary(
    isHighwayType: string -> bool,
    parseCountryLand: string -> Option<CountryLand>,
    shouldBeBorder: Feature -> bool,
    shouldBePopulatedPlace: Feature -> bool,
    naturalType: Feature -> GeoFeatureType)

  predicate HasAnyKey(f: Feature, keys: set<Key>) {
    exists p :: p in f.properties && p.0 in keys
  }

  /** Some `highway` pair whose value parses as a highway type. */
  predicate HasHighwayType(v: Vocabulary, f: Feature) {
    exists p :: p in f.properties && p.0 == Key.Highway && v.isHighwayType(p.1)
  }

  /** Some `boundary` pair whose value starts with "forest". */
  predicate HasForestBoundary(f: Feature) {
    exists p :: p in f.properties && p.0 == Key.Boundary && "forest" <= p.1
  }

  /** Some `landuse` pair whose value parses as one of `lands`. */
  predicate HasLanduseIn(v: Vocabulary, f: Feature, lands: set<CountryLand>) {
    exists p :: p in f.properties && p.0 == Key.Landuse &&
      v.parseCountryLand(p.1).Some? && v.parseCountryLand(p.1).value in lands
  }

  const ForestLands: set<CountryLand> := {CountryLand.Forest, Orchard}
  const ResidentialLands: set<CountryLand> :=
    {CountryLand.Residential, Cemetery, Industrial, Commercial, Square, Construction, Military, Quarry, Brownfield}
  const PlainLands: set<CountryLand> :=
    {Farm, Meadow, Grass, Greenfield, RecreationGround, WinterSports, Allotments}
  const WaterLands: set<CountryLand> := {Reservoir, Basin}

  // ---------------------------------------------------------------------------
  // The fourteen guards, in the order the chain tests them

  predicate IsRoad(v: Vocabulary, f: Feature) { HasHighwayType(v, f) }
  predicate IsWaterway(f: Feature) { HasAnyKey(f, {Key.Water, Key.Waterway}) && f.geometry != Point }
  predicate IsBorder(v: Vocabulary, f: Feature) { v.shouldBeBorder(f) }
  predicate IsPopulatedPlace(v: Vocabulary, f: Feature) { v.shouldBePopulatedPlace(f) }
  predicate IsRailway(f: Feature) { HasAnyKey(f, {Key.Railway}) }
  predicate IsNaturalArea(f: Feature) { HasAnyKey(f, {Key.Natural}) && f.geometry == Polygon }
  predicate IsForestBoundary(f: Feature) { HasForestBoundary(f) }
  predicate IsForestLanduse(v: Vocabulary, f: Feature) { HasLanduseIn(v, f, ForestLands) }
  predicate IsResidentialLanduse(v: Vocabulary, f: Feature) { f.geometry == Polygon && HasLanduseIn(v, f, ResidentialLands) }
  predicate IsPlainLanduse(v: Vocabulary, f: Feature) { f.geometry == Polygon && HasLanduseIn(v, f, PlainLands) }
  predicate IsWaterLanduse(v: Vocabulary, f: Feature) { f.geometry == Polygon && HasLanduseIn(v, f, WaterLands) }
  predicate IsBuilding(f: Feature) { f.geometry == Polygon && HasAnyKey(f, {Key.Building}) }
  predicate IsLeisure(f: Feature) { f.geometry == Polygon && HasAnyKey(f, {Key.Leisure}) }
  predicate IsAmenity(f: Feature) { f.geometry == Polygon && HasAnyKey(f, {Key.Amenity}) }

  function Classify(v: Vocabulary, f: Feature): Option<ShapeKind> {
    if IsRoad(v, f) then Some(Road)
    else if IsWaterway(f) then Some(ShapeKind.Waterway(f.geometry == Polygon))
    else if IsBorder(v, f) then Some(Border)
    else if IsPopulatedPlace(v, f) then Some(PopulatedPlace)
    else if IsRailway(f) then Some(ShapeKind.Railway)
    else if IsNaturalArea(f) then Some(GeoFeature(v.naturalType(f)))
    else if IsForestBoundary(f) then Some(GeoFeature(GeoFeatureType.Forest))
    else if IsForestLanduse(v, f) then Some(GeoFeature(GeoFeatureType.Forest))
    else if IsResidentialLanduse(v, f) then Some(GeoFeature(GeoFeatureType.Residential))
    else if IsPlainLanduse(v, f) then Some(GeoFeature(Plain))
    else if IsWaterLanduse(v, f) then Some(GeoFeature(GeoFeatureType.Water))
    else if IsBuilding(f) then Some(GeoFeature(GeoFeatureType.Residential))
    else if IsLeisure(f) then Some(GeoFeature(GeoFeatureType.Residential))
    else if IsAmenity(f) then Some(GeoFeature(GeoFeatureType.Residential))
    else None
  }

  // ---------------------------------------------------------------------------
  // The same rules as a table scanned top to bottom

  const RuleCount: nat := 14

  function When(guard: bool, kind: ShapeKind): Option<ShapeKind> {
    if guard then Some(kind) else None
  }

  /** Rule `i` on its own: the kind it produces for `f`, ignoring every other rule. */
  function Rule(v: Vocabulary, f: Feature, i: nat): Option<ShapeKind>
    requires i < RuleCount
  {
    if i == 0 then When(IsRoad(v, f), Road)
    else if i == 1 then When(IsWaterway(f), ShapeKind.Waterway(f.geometry == Polygon))
    else if i == 2 then When(IsBorder(v, f), Border)
    else if i == 3 then When(IsPopulatedPlace(v, f), PopulatedPlace)
    else if i == 4 then When(IsRailway(f), ShapeKind.Railway)
    else if i == 5 then When(IsNaturalArea(f), GeoFeature(v.naturalType(f)))
    else if i == 6 then When(IsForestBoundary(f), GeoFeature(GeoFeatureType.Forest))
    else if i == 7 then When(IsForestLanduse(v, f), GeoFeature(GeoFeatureType.Forest))
    else if i == 8 then When(IsResidentialLanduse(v, f), GeoFeature(GeoFeatureType.Residential))
    else if i == 9 then When(IsPlainLanduse(v, f), GeoFeature(Plain))
    else if i == 10 then When(IsWaterLanduse(v, f), GeoFeature(GeoFeatureType.Water))
    else if i == 11 then When(IsBuilding(f), GeoFeature(GeoFeatureType.Residential))
    else if i == 12 then When(IsLeisure(f), GeoFeature(GeoFeatureType.Residential))
    else When(IsAmenity(f), GeoFeature(GeoFeatureType.Residential))
  }

  /** The kind produced by the first rule at or after `from` that accepts `f`. */
  function FirstMatch(v: Vocabulary, f: Feature, from: nat): Option<ShapeKind>
    requires from <= RuleCount
    decreases RuleCount - from
  {
    if from == RuleCount then None
    else if Rule(v, f, from).Some? then Rule(v, f, from)
    else FirstMatch(v, f, from + 1)
  }

  /** Rule `i` accepts `f` and no earlier rule does. */
  ghost predicate IsFirstMatch(v: Vocabulary, f: Feature, i: nat) {
    i < RuleCount && Rule(v, f, i).Some? &&
    forall j :: 0 <= j < i ==> Rule(v, f, j).None?
  }

  /** The written chain and the table scan agree on every feature. */
  lemma ClassifyIsFirstMatch(v: Vocabulary, f: Feature)
    ensures Classify(v, f) == FirstMatch(v, f, 0)
  {
  }

  /** The scan from `from` returns the first accepting rule at or after `from`. */
  lemma FirstMatchFinds(v: Vocabulary, f: Feature, from: nat, i: nat)
    requires from <= i < RuleCount && Rule(v, f, i).Some?
    requires forall j :: from <= j < i ==> Rule(v, f, j).None?
    ensures FirstMatch(v, f, from) == Rule(v, f, i)
  {
  }

  /** The scan from `from` finds nothing exactly when no rule at or after `from` accepts. */
  lemma FirstMatchNone(v: Vocabulary, f: Feature, from: nat)
    requires from <= RuleCount
    ensures FirstMatch(v, f, from).None? <==> forall j :: from <= j < RuleCount ==> Rule(v, f, j).None?
  {
  }

  /** First match wins: when rule `i` is the first to accept, the feature becomes rule `i`'s kind. */
  lemma ClassifyFirstMatchWins(v: Vocabulary, f: Feature, i: nat)
    requires IsFirstMatch(v, f, i)
    ensures Classify(v, f) == Rule(v, f, i)
  {
    ClassifyIsFirstMatch(v, f);
    FirstMatchFinds(v, f, 0, i);
  }

  /** A successful scan from `from` returns some rule at or after `from` that every rule before it in the scan rejected. */
  lemma FirstMatchOrigin(v: Vocabulary, f: Feature, from: nat)
    requires from <= RuleCount && FirstMatch(v, f, from).Some?
    ensures exists i :: from <= i < RuleCount && Rule(v, f, i) == FirstMatch(v, f, from) &&
                        forall j :: from <= j < i ==> Rule(v, f, j).None?
  {
  }

  /** Every kind `Classify` produces comes from the first rule that accepts the feature. */
  lemma ClassifyComesFromFirstMatch(v: Vocabulary, f: Feature)
    requires Classify(v, f).Some?
    ensures exists i :: IsFirstMatch(v, f, i) && Classify(v, f) == Rule(v, f, i)
  {
    ClassifyIsFirstMatch(v, f);
    FirstMatchOrigin(v, f, 0);
  }

  /** A feature is dropped exactly when every rule rejects it. */
  lemma ClassifyNoneIffNoRule(v: Vocabulary, f: Feature)
    ensures Classify(v, f).None? <==> forall i :: 0 <= i < RuleCount ==> Rule(v, f, i).None?
  {
    ClassifyIsFirstMatch(v, f);
    FirstMatchNone(v, f, 0);
  }

  // ---------------------------------------------------------------------------
  // Properties of individual rules

  /** A parsed `highway` pair makes a Road whatever other tags are added before or after it. */
  lemma RoadShadowsLaterRules(v: Vocabulary, f: Feature, extra: seq<Property>)
    requires HasHighwayType(v, f)
    ensures Classify(v, f.(properties := f.properties + extra)) == Some(Road)
    ensures Classify(v, f.(properties := extra + f.properties)) == Some(Road)
  {
  }

  /**
   * A `highway` value that does not parse is no match: the feature falls
   * through to the remaining rules and never becomes a Road.
   */
  lemma UnparsedHighwayFallsThrough(v: Vocabulary, f: Feature)
    requires forall p :: p in f.properties && p.0 == Key.Highway ==> !v.isHighwayType(p.1)
    ensures Classify(v, f) == FirstMatch(v, f, 1)
    ensures Classify(v, f) != Some(Road)
  {
  }

  /**
   * A `landuse` value that does not parse as `CountryLand` matches none of the
   * four land-use rules, so a Plain or Water area can then only come from a
   * `natural` tag.
   */
  lemma UnparsedLanduseMatchesNoLanduseRule(v: Vocabulary, f: Feature)
    requires forall p :: p in f.properties && p.0 == Key.Landuse ==> v.parseCountryLand(p.1).None?
    ensures forall i :: 7 <= i <= 10 ==> Rule(v, f, i).None?
    ensures Classify(v, f) == Some(GeoFeature(Plain)) ==> v.naturalType(f) == Plain
    ensures Classify(v, f) == Some(GeoFeature(GeoFeatureType.Water)) ==> v.naturalType(f) == GeoFeatureType.Water
  {
  }

  /**
   * A Waterway comes exactly from a water or waterway tag on a line or
   * polygon that is not already a Road, and it is filled exactly for polygons.
   */
  lemma WaterwayOnlyForLinesAndPolygons(v: Vocabulary, f: Feature)
    ensures (Classify(v, f).Some? && Classify(v, f).value.Waterway?) <==>
            !HasHighwayType(v, f) && HasAnyKey(f, {Key.Water, Key.Waterway}) && f.geometry != Point
    ensures Classify(v, f).Some? && Classify(v, f).value.Waterway? ==>
            Classify(v, f).value.filled == (f.geometry == Polygon)
  {
  }

  /** The natural, residential-, plain- and water-class land-use, building, leisure and amenity rules accept polygons only. */
  lemma PolygonOnlyRules(v: Vocabulary, f: Feature, i: nat)
    requires i in {5, 8, 9, 10, 11, 12, 13}
    requires Rule(v, f, i).Some?
    ensures f.geometry == Polygon
  {
  }

  /** The forest-boundary and forest/orchard land-use rules do not look at the geometry type. */
  lemma GeometryFreeRules(v: Vocabulary, f: Feature, g: GeometryType)
    ensures Rule(v, f, 6) == Rule(v, f.(geometry := g), 6)
    ensures Rule(v, f, 7) == Rule(v, f.(geometry := g), 7)
  {
  }

  /**
   * A point or line whose only tags are building, leisure, amenity or natural
   * (and that is neither a border nor a populated place) produces nothing.
   */
  lemma AreaTagsOnNonPolygonAreDropped(v: Vocabulary, f: Feature)
    requires f.geometry != Polygon
    requires forall p :: p in f.properties ==> p.0 in {Key.Building, Key.Leisure, Key.Amenity, Key.Natural}
    requires !v.shouldBeBorder(f) && !v.shouldBePopulatedPlace(f)
    ensures Classify(v, f) == None
  {
  }

  /** A feature carrying only unrecognised keys (a `shop` tag, say) produces nothing unless it is a border or populated place. */
  lemma UnrecognisedTagsAreDropped(v: Vocabulary, f: Feature)
    requires forall p :: p in f.properties ==> p.0.Other?
    requires !v.shouldBeBorder(f) && !v.shouldBePopulatedPlace(f)
    ensures Classify(v, f) == None
  {
  }
}
