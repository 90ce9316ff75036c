/**
 * The boundary-drawing handler of frontend/src/components/Policy/AreaHighlighter.tsx.
 * Its two state cells are fields; each event handler is a method. A call of
 * `onBoundariesChange` is the method's returned `Notification`.
 */
module AreaHighlighter {
  import opened Wrappers
  import opened GeoJson

  /** Whether a handler called `onBoundariesChange`, and with what (`None` is `null`). */
  datatype Notification = Silent | Notify(boundaries: Option<FeatureCollection>)

  class DrawingHandler {
    /** `polygonPoints`: the clicked points as (lat, lng), in drawing order. */
    var polygonPoints: seq<Pair>
    /** `isDrawing` */
    var isDrawing: bool

    constructor ()
      ensures polygonPoints == [] && !isDrawing
    {
      polygonPoints := [];
      isDrawing := false;
    }

    /** The "Finish Drawing" button is rendered only while drawing. */
    predicate FinishButtonShown()
      reads this
    {
      isDrawing
    }

    /** A map click: appends `[lat, lng]` while drawing and is ignored otherwise. */
    method Click(lat: real, lng: real)
      modifies this
      ensures isDrawing == old(isDrawing)
      ensures old(isDrawing) ==> polygonPoints == old(polygonPoints) + [(lat, lng)]
      ensures !old(isDrawing) ==> polygonPoints == old(polygonPoints)
    {
      if isDrawing {
        polygonPoints := polygonPoints + [(lat, lng)];
      }
    }

    /** "Start Drawing": enters drawing mode with an empty draft. Notifies nobody. */
    method StartDrawing()
      modifies this
      ensures isDrawing && polygonPoints == []
    {
      isDrawing := true;
      polygonPoints := [];
    }

    /**
     * "Finish Drawing": always leaves drawing mode and keeps the points. With three or more
     * points it emits the FeatureCollection built from them; with fewer it emits nothing.
     */
    method FinishDrawing() returns (n: Notification)
      modifies this
      ensures !isDrawing && polygonPoints == old(polygonPoints)
      ensures |old(polygonPoints)| >= 3 ==> n == Notify(Some(BuildBoundary(old(polygonPoints))))
      ensures |old(polygonPoints)| < 3 ==> n == Silent
    {
      isDrawing := false;
      if |polygonPoints| >= 3 {
        n := Notify(Some(BuildBoundary(polygonPoints)));
      } else {
        n := Silent;
      }
    }

    /** "Clear": empties the points and emits `null`; drawing mode is left as it was. */
    method Clear() returns (n: Notification)
      modifies this
      ensures isDrawing == old(isDrawing) && polygonPoints == []
      ensures n == Notify(None)
    {
      polygonPoints := [];
      n := Notify(None);
    }
  }

  /**
   * A drawing session of three clicks: start, click a, b and c, finish. The consumer receives
   * a boundary whose display conversion gives back the three clicks in order, and a later
   * Clear withdraws it while the handler stays out of drawing mode.
   */
  method DrawTriangleThenClear(h: DrawingHandler, a: Pair, b: Pair, c: Pair)
    returns (finished: Notification, cleared: Notification)
    modifies h
    ensures finished.Notify? && finished.boundaries.Some?
    ensures PolygonCoordinates(finished.boundaries) == [a, b, c]
    ensures cleared == Notify(None)
    ensures !h.isDrawing && h.polygonPoints == []
  {
    h.StartDrawing();
    h.Click(a.0, a.1);
    h.Click(b.0, b.1);
    h.Click(c.0, c.1);
    finished := h.FinishDrawing();
    PolygonCoordinatesInvertsBoundary([a, b, c]);
    cleared := h.Clear();
  }
}
