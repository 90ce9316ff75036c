/**
 * The committed boundary that the drawing handler hands to its consumer: a GeoJSON
 * (RFC 7946) FeatureCollection holding one Polygon feature, built in
 * frontend/src/components/Policy/AreaHighlighter.tsx, and the map that turns the
 * stored boundary back into (latitude, longitude) positions for display.
 */
module GeoJson {
  import opened Wrappers

  /** A two-element JSON array of numbers: (lat, lng) while drawing, (lng, lat) in GeoJSON. */
  type Pair = (real, real)

  function Swap(p: Pair): Pair {
    (p.1, p.0)
  }

  /** The `geometry` member; the code only ever builds `{type: 'Polygon', coordinates}`. */
  datatype Geometry = Polygon(coordinates: seq<seq<Pair>>)

  /** `{type: 'Feature', properties: {}, geometry}`; `properties` is always empty. */
  datatype Feature = Feature(geometry: Geometry)

  /** `{type: 'FeatureCollection', features}`. */
  datatype FeatureCollection = FeatureCollection(features: seq<Feature>)

  /** `points.map((p) => [p[1], p[0]])`: every pair swapped, positions kept. */
  function SwapAll(points: seq<Pair>): (r: seq<Pair>)
    ensures |r| == |points|
    ensures forall i :: 0 <= i < |points| ==> r[i] == (points[i].1, points[i].0)
  {
    if points == [] then [] else [Swap(points[0])] + SwapAll(points[1..])
  }

  /** Swapping twice gives the positions back. */
  lemma SwapAllInvolution(points: seq<Pair>)
    ensures SwapAll(SwapAll(points)) == points
  {
    var back := SwapAll(SwapAll(points));
    assert |back| == |points|;
    forall i | 0 <= i < |points| ensures back[i] == points[i] {
      assert SwapAll(points)[i] == (points[i].1, points[i].0);
    }
  }

  /** The FeatureCollection `handleFinishDrawing` emits for the drawn points. */
  function BuildBoundary(points: seq<Pair>): FeatureCollection {
    FeatureCollection([Feature(Polygon([SwapAll(points)]))])
  }

  /** The only ring of a boundary the serialiser built. */
  function Ring(fc: FeatureCollection): seq<Pair>
    requires |fc.features| > 0 && |fc.features[0].geometry.coordinates| > 0
  {
    fc.features[0].geometry.coordinates[0]
  }

  /**
   * The emitted collection holds exactly one Polygon feature with exactly one ring; the ring
   * has as many positions as points were drawn, in drawing order, each written longitude first.
   * No closing position is appended.
   */
  lemma BoundaryShape(points: seq<Pair>)
    ensures |BuildBoundary(points).features| == 1
    ensures |BuildBoundary(points).features[0].geometry.coordinates| == 1
    ensures |Ring(BuildBoundary(points))| == |points|
    ensures forall i :: 0 <= i < |points| ==>
              Ring(BuildBoundary(points))[i] == (points[i].1, points[i].0)
  {
  }

  /**
   * `boundaries?.features?.[0]?.geometry?.coordinates?.[0]?.map(..) || []`: the first ring of
   * the first feature with every position swapped back, or the empty list when any step is absent.
   */
  function PolygonCoordinates(boundaries: Option<FeatureCollection>): (r: seq<Pair>)
    ensures boundaries.None? ==> r == []
    ensures boundaries.Some? && boundaries.value.features == [] ==> r == []
  {
    match boundaries
    case None => []
    case Some(fc) =>
      if fc.features == [] then []
      else if fc.features[0].geometry.coordinates == [] then []
      else SwapAll(fc.features[0].geometry.coordinates[0])
  }

  /** The display conversion inverts the serialiser: the drawn points come back unchanged. */
  lemma PolygonCoordinatesInvertsBoundary(points: seq<Pair>)
    ensures PolygonCoordinates(Some(BuildBoundary(points))) == points
  {
    SwapAllInvolution(points);
  }

  /**
   * Section 3.1.6 of RFC 7946: a linear ring is a closed sequence of four or more positions
   * whose first and last positions are equivalent.
   */
  predicate IsLinearRing(ring: seq<Pair>) {
    |ring| >= 4 && ring[0] == ring[|ring| - 1]
  }

  /**
   * Because no closing position is appended, the serialised ring is a linear ring exactly when
   * the user happened to click the first point again as the last of at least four.
   */
  lemma RingClosedOnlyIfUserClosedIt(points: seq<Pair>)
    ensures IsLinearRing(Ring(BuildBoundary(points)))
        <==> |points| >= 4 && points[0] == points[|points| - 1]
  {
    var ring := Ring(BuildBoundary(points));
    BoundaryShape(points);
    if |points| >= 4 {
      assert ring[0] == Swap(points[0]);
      assert ring[|ring| - 1] == Swap(points[|points| - 1]);
      assert Swap(ring[0]) == points[0];
      assert Swap(ring[|ring| - 1]) == points[|points| - 1];
    }
  }

  /**
   * Four clicks at (10,10), (10,20), (20,20), (20,10) give the ring
   * [[10,10],[20,10],[20,20],[10,20]]: lng-lat order, and not closed.
   */
  lemma SquareExample()
    ensures Ring(BuildBoundary([(10.0, 10.0), (10.0, 20.0), (20.0, 20.0), (20.0, 10.0)]))
         == [(10.0, 10.0), (20.0, 10.0), (20.0, 20.0), (10.0, 20.0)]
    ensures !IsLinearRing(Ring(BuildBoundary([(10.0, 10.0), (10.0, 20.0), (20.0, 20.0), (20.0, 10.0)])))
  {
    var points := [(10.0, 10.0), (10.0, 20.0), (20.0, 20.0), (20.0, 10.0)];
    BoundaryShape(points);
  }
}
