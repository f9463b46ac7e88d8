/**
 * The shapes a feature can become. Each shape fixes its draw priority
 * (`ZIndex`) and its screen coordinates when it is constructed; both are
 * computed by shape classes outside this model and enter here as the
 * function-valued parameters of `ShapeTraits`.
 */
module Shapes {
  import opened MapData

  datatype ScreenPoint = ScreenPoint(x: real, y: real)

  datatype GeoFeatureType = Plain | Forest | Water | Residential | Unknown

  datatype ShapeKind =
    | Road
    | Waterway(filled: bool)
    | Border
    | PopulatedPlace
    | Railway
    | GeoFeature(geoType: GeoFeatureType)

  /** Per-kind `ZIndex` constants and the projection each shape applies to the feature's coordinates. */
  datatype ShapeTraits = ShapeTraits(
    zIndex: ShapeKind -> int,
    project: (ShapeKind, seq<Coordinate>) -> seq<ScreenPoint>)

  class Shape {
    const kind: ShapeKind
    const zIndex: int
    var screenCoordinates: seq<ScreenPoint>

    constructor (traits: ShapeTraits, kind: ShapeKind, coordinates: seq<Coordinate>)
      ensures this.kind == kind
      ensures zIndex == traits.zIndex(kind)
      ensures screenCoordinates == traits.project(kind, coordinates)
    {
      this.kind := kind;
      zIndex := traits.zIndex(kind);
      screenCoordinates := traits.project(kind, coordinates);
    }
  }
}
