/**
 * Abstract stand-ins for the GeoJSON values the placement rules look at and
 * for the two Turf predicates they call. Features are opaque: only their
 * identity matters, and the predicates are supplied by the caller.
 */
module Geometry {

  /** An opaque GeoJSON feature (a polygon of an entity, a zone, a border, ...). */
  datatype Feature = Feature(id: nat)

  /** What a Leaflet layer's `toGeoJSON()` yields: a single feature or a feature collection. */
  datatype GeoJson = Single(feature: Feature) | Collection(features: seq<Feature>)

  /** A layer group, seen as the GeoJSON of each of its layers, in iteration order. */
  type LayerGroup = seq<GeoJson>

  /** Turf's `booleanOverlap(a, b)` and `booleanContains(outer, inner)`, as uninterpreted relations. */
  datatype Predicates = Predicates(overlap: (Feature, Feature) -> bool, contains: (Feature, Feature) -> bool)

  /** The features a layer contributes once feature collections are flattened. */
  function FeaturesOf(g: GeoJson): seq<Feature>
  {
    match g
    case Single(f) => [f]
    case Collection(fs) => fs
  }

  /** Some feature of the first `n` layers contains `shape`. */
  ghost predicate ContainedWithin(layers: LayerGroup, n: nat, shape: Feature, geo: Predicates)
    requires n <= |layers|
  {
    exists a, b :: 0 <= a < n && 0 <= b < |FeaturesOf(layers[a])| && geo.contains(FeaturesOf(layers[a])[b], shape)
  }

  /** Some feature of the first `n` layers is overlapped by `shape`. */
  ghost predicate OverlapsWithin(shape: Feature, layers: LayerGroup, n: nat, geo: Predicates)
    requires n <= |layers|
  {
    exists a, b :: 0 <= a < n && 0 <= b < |FeaturesOf(layers[a])| && geo.overlap(shape, FeaturesOf(layers[a])[b])
  }

  /** Some feature of some layer of the group contains `shape`. */
  ghost predicate AnyContains(layers: LayerGroup, shape: Feature, geo: Predicates)
  {
    ContainedWithin(layers, |layers|, shape, geo)
  }

  /** `shape` overlaps some feature of some layer of the group. */
  ghost predicate AnyOverlaps(shape: Feature, layers: LayerGroup, geo: Predicates)
  {
    OverlapsWithin(shape, layers, |layers|, geo)
  }
}
