/** Axis-aligned boxes in geographic degrees, the configured Fiji area and the
    features the service returns. A box is written in the source's
    (min_lon, min_lat, max_lon, max_lat) order. */
module Geometry {

  datatype Box = Box(minLon: real, minLat: real, maxLon: real, maxLat: real)

  /** A building feature, represented by an identifier and the bounding
      rectangle of its footprint polygon. */
  datatype Feature = Feature(id: nat, extent: Box)

  /** The two band tags the download loop attaches to its boxes. */
  datatype Band = East | West

  predicate WellFormed(b: Box) {
    b.minLon < b.maxLon && b.minLat < b.maxLat
  }

  /** Closed containment of a point. */
  predicate ContainsPoint(b: Box, lon: real, lat: real) {
    b.minLon <= lon <= b.maxLon && b.minLat <= lat <= b.maxLat
  }

  /** Open containment of a point (the box's interior). */
  predicate InInterior(b: Box, lon: real, lat: real) {
    b.minLon < lon < b.maxLon && b.minLat < lat < b.maxLat
  }

  /** Every bound of `inner` lies inside `outer`: the source's sub-box test. */
  predicate ContainsBox(outer: Box, inner: Box) {
    inner.minLon >= outer.minLon && inner.maxLon <= outer.maxLon &&
    inner.minLat >= outer.minLat && inner.maxLat <= outer.maxLat
  }

  /** Closed-rectangle overlap: boxes that only touch along an edge or at a
      corner intersect, as shapely's `intersects` has it. */
  predicate Intersects(a: Box, b: Box) {
    a.minLon <= b.maxLon && b.minLon <= a.maxLon &&
    a.minLat <= b.maxLat && b.minLat <= a.maxLat
  }

  /** `cells` tile `region`: every cell is a well-formed part of the region,
      every point of the region lies in some cell, and no two cells share an
      interior point. */
  ghost predicate Tiles(cells: seq<Box>, region: Box) {
    && (forall k :: 0 <= k < |cells| ==> WellFormed(cells[k]) && ContainsBox(region, cells[k]))
    && (forall lon, lat :: ContainsPoint(region, lon, lat) ==>
          exists k :: 0 <= k < |cells| && ContainsPoint(cells[k], lon, lat))
    && (forall k, l, lon, lat :: 0 <= k < l < |cells| && InInterior(cells[k], lon, lat) ==>
          !InInterior(cells[l], lon, lat))
  }

  // The configured bounds of Fiji; the area straddles the antimeridian.
  const MinLat: real := -20.0
  const MaxLat: real := -15.0
  const MinLonEast: real := 177.0
  const MaxLonEast: real := 180.0
  const MinLonWest: real := -180.0
  const MaxLonWest: real := -178.0

  /** The east and west boxes of Fiji, each inside [-180, 180] so that neither
      wraps around the antimeridian; they share the latitude range and are
      disjoint. */
  function FijiBoxes(): (r: (Box, Box))
    ensures WellFormed(r.0) && WellFormed(r.1)
    ensures r.0.minLat == r.1.minLat && r.0.maxLat == r.1.maxLat
    ensures -180.0 <= r.0.minLon && r.0.maxLon <= 180.0
    ensures -180.0 <= r.1.minLon && r.1.maxLon <= 180.0
    ensures r.1.maxLon < r.0.minLon && !Intersects(r.0, r.1)
    ensures r.0 == Box(177.0, -20.0, 180.0, -15.0) && r.1 == Box(-180.0, -20.0, -178.0, -15.0)
  {
    (Box(MinLonEast, MinLat, MaxLonEast, MaxLat), Box(MinLonWest, MinLat, MaxLonWest, MaxLat))
  }

  function EastBox(): Box { FijiBoxes().0 }

  function WestBox(): Box { FijiBoxes().1 }
}
