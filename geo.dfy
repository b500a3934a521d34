/** Values shared by every part of the map synchronisation core: records of the
    host table as the core reads them, parsed geometries, the features built from
    them and the label points derived from those features. */
module Geo {

  datatype Option<+T> = None | Some(value: T)

  /** Record ids of the host table. */
  type Id = string

  /** A longitude/latitude pair; the model never computes with coordinates. */
  datatype Point = Point(lng: real, lat: real)

  /** The value `JSON.parse` yields for a geometry cell: `null` for an empty
      cell, otherwise whatever geometry object the cell holds. */
  datatype Geometry =
    | NullGeometry
    | Shape(kind: string, coordinates: seq<seq<Point>>)

  /** What `record.getColorHexInView(view)` does: throw, or return a colour
      string (the empty string stands for a falsy result such as `null`). */
  datatype ColorLookup = ColorThrows | ColorHex(hex: string)

  /** A record as the core reads it: its id, the string form of its geometry
      cell (empty when the cell is empty), the string form of its label cell
      and the outcome of its per-view colour lookup. */
  datatype Record = Record(id: Id, geometryCell: string, labelCell: string, viewColor: ColorLookup)

  /** The `properties` object of a feature. */
  datatype Properties = Properties(
    id: Id,
    name: string,
    selected: bool,
    invisible: bool,
    labelPoint: Point,
    color: Option<string>)

  datatype Feature = Feature(id: Id, geometry: Geometry, properties: Properties)

  /** A label point: a point feature at the feature's label point, carrying the
      feature's id, name, selected flag and the whole feature as `original`. */
  datatype Label = Label(coordinates: Point, id: Id, name: string, original: Feature, selected: bool)

  /** The colour forced onto records outside the filtered record list. */
  const MutedColor: string := "#878787"

  /** `xs.map(f)`: one image per item, in order. */
  function MapSeq<A, B>(xs: seq<A>, f: A -> B): (ys: seq<B>)
    ensures |ys| == |xs|
    ensures forall i :: 0 <= i < |xs| ==> ys[i] == f(xs[i])
  {
    if xs == [] then [] else MapSeq(xs[..|xs| - 1], f) + [f(xs[|xs| - 1])]
  }

  function RecordId(r: Record): Id { r.id }

  function FeatureId(f: Feature): Id { f.id }

  /** The ids of a list of records. */
  function Ids(rs: seq<Record>): seq<Id> {
    MapSeq(rs, RecordId)
  }

  /** The ids of a list of features. */
  function FeatureIds(fs: seq<Feature>): seq<Id> {
    MapSeq(fs, FeatureId)
  }

  /** `JSON.parse(cell || null)`: an empty cell parses to `null` without
      failing; any other cell goes through the (abstract) JSON parser. */
  function ParseCell(cell: string, parse: string -> Option<Geometry>): (g: Option<Geometry>)
    ensures cell == "" ==> g == Some(NullGeometry)
    ensures cell != "" ==> g == parse(cell)
  {
    if cell == "" then Some(NullGeometry) else parse(cell)
  }
}
