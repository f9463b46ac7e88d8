/**
 * Map features as the memory-mapped loader hands them to the tile renderer:
 * a geometry type, world coordinates and an ordered list of key/value
 * properties. Properties stay a sequence, not a map, so a feature may carry
 * the same key twice and every rule asks whether ANY pair matches.
 */
module MapData {

  datatype Option<+T> = None | Some(value: T)

  datatype GeometryType = Point | Line | Polygon

  datatype Coordinate = Coordinate(latitude: real, longitude: real)

  /** The property keys the rule chain compares against; every other key is `Other`. */
  datatype Key =
    | Highway | Water | Waterway | Boundary | Railway | Natural
    | Landuse | Building | Leisure | Amenity
    | Other(name: string)

  type Property = (Key, string)

  datatype Feature = Feature(geometry: GeometryType, coordinates: seq<Coordinate>, properties: seq<Property>)

  /** The land-use categories the rule chain names; any further member of the enumeration is `OtherLand`. */
  datatype CountryLand =
    | Forest | Orchard
    | Residential | Cemetery | Industrial | Commercial | Square | Construction | Military | Quarry | Brownfield
    | Farm | Meadow | Grass | Greenfield | RecreationGround | WinterSports | Allotments
    | Reservoir | Basin
    | OtherLand
}
