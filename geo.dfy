/** The map-side values the components exchange: points, the bounding box
    of a hacienda layer, GeoJSON features reduced to the properties that
    carry a name, and a routing result (coordinates, turn instructions and
    a summary). Distances come from an opaque non-negative metric. */
module Geo {
  import opened Common

  datatype Point = Point(lat: real, lng: real)

  /** An axis-aligned bounds rectangle (south-west and north-east corners). */
  datatype Box = Box(south: real, west: real, north: real, east: real)

  /** Bounds containment of a point, borders included. */
  predicate InBox(b: Box, p: Point) {
    b.south <= p.lat <= b.north && b.west <= p.lng <= b.east
  }

  type Meters = r: real | r >= 0.0

  /** The metric the map library provides, treated as uninterpreted. */
  type Distance = (Point, Point) -> Meters

  /** The name-bearing properties of a hacienda feature. */
  datatype Props = Props(nombre: Option<string>, name: Option<string>,
                         nombreUpper: Option<string>, hacienda: Option<string>)

  /** A feature, or a layer wrapping one in its `feature` field. */
  datatype Feature = Feature(properties: Option<Props>, feature: Option<Feature>)

  /** One hacienda layer of the map: its feature and its bounds. */
  datatype Zone = Zone(feature: Option<Feature>, bounds: Box)

  datatype Instruction = Instruction(text: string, distance: real, kind: string,
                                     modifier: Option<string>)

  datatype Summary = Summary(totalDistance: real, totalTime: real)

  datatype Route = Route(coordinates: seq<Point>, instructions: seq<Instruction>,
                         summary: Summary)
}
