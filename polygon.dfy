/** The `Polygon` overlay: an ordered, mutable list of geographic points with a
    cached bounding box that every mutator recomputes, and a `draw` that skips
    cheaply or projects the points into a path and strokes, then fills, it. */
module Polygons {
  import opened MapCore

  /** The thread-safe list the polygon keeps its points in. It is an object of
      its own because `getLatLongs` hands out the live list. Each operation is
      atomic; `AddAll` reads its argument before changing anything, as a
      copy-on-write list copies its argument first. */
  class LatLongList {
    var items: seq<LatLong>

    constructor ()
      ensures items == []
    {
      items := [];
    }

    method Add(p: LatLong)
      modifies this
      ensures items == old(items) + [p]
    {
      items := items + [p];
    }

    method AddAll(other: LatLongList)
      modifies this
      ensures items == old(items) + old(other.items)
    {
      items := items + other.items;
    }

    method Clear()
      modifies this
      ensures items == []
    {
      items := [];
    }
  }

  /** The identity of a paint style; its colours and shader are library state. */
  datatype Paint = Paint(id: nat)

  /** The library's Mercator projection, left uninterpreted: the map size in
      pixels for a zoom level and tile size, and the pixel coordinate of a
      longitude and of a latitude on a map of that size. */
  datatype Projection = Projection(
    mapSize: (Byte, nat) -> int,
    longitudeToPixelX: (real, int) -> real,
    latitudeToPixelY: (real, int) -> real)

  /** One call `draw` makes on the path or the canvas, in the order made. */
  datatype DrawEvent =
    | MoveTo(to: Point)
    | LineTo(to: Point)
    | SetBitmapShaderShift(paint: Paint, origin: Point)
    | DrawPath(paint: Paint)

  /** The pixel position of `p` relative to the top-left corner of the canvas. */
  function ToPixel(projection: Projection, mapSize: int, p: LatLong, topLeftPoint: Point): Point {
    Point(projection.longitudeToPixelX(p.longitude, mapSize) - topLeftPoint.x,
          projection.latitudeToPixelY(p.latitude, mapSize) - topLeftPoint.y)
  }

  /** The path built from the points: a move to the first, a line to each next. */
  function PathEvents(points: seq<LatLong>, projection: Projection, mapSize: int, topLeftPoint: Point): seq<DrawEvent>
    decreases |points|
  {
    if |points| == 0 then []
    else if |points| == 1 then [MoveTo(ToPixel(projection, mapSize, points[0], topLeftPoint))]
    else PathEvents(points[..|points| - 1], projection, mapSize, topLeftPoint)
         + [LineTo(ToPixel(projection, mapSize, points[|points| - 1], topLeftPoint))]
  }

  /** The path has one event per point: a single `moveTo` to the first point,
      then a `lineTo` to every following point, in list order. */
  lemma {:induction false} PathShape(points: seq<LatLong>, projection: Projection, mapSize: int, topLeftPoint: Point)
    requires |points| > 0
    ensures var path := PathEvents(points, projection, mapSize, topLeftPoint);
      && |path| == |points|
      && path[0] == MoveTo(ToPixel(projection, mapSize, points[0], topLeftPoint))
      && forall k :: 1 <= k < |points| ==> path[k] == LineTo(ToPixel(projection, mapSize, points[k], topLeftPoint))
    decreases |points|
  {
    if |points| > 1 {
      var init := points[..|points| - 1];
      PathShape(init, projection, mapSize, topLeftPoint);
      assert forall k :: 0 <= k < |init| ==> init[k] == points[k];
    }
  }

  /** The canvas calls for one paint: nothing if it is unset, otherwise an
      optional shader alignment (only when the polygon keeps aligned) followed
      by drawing the path with it. */
  function PaintEvents(paint: Option<Paint>, isKeepAligned: bool, topLeftPoint: Point): seq<DrawEvent> {
    match paint
    case None => []
    case Some(p) => (if isKeepAligned then [SetBitmapShaderShift(p, topLeftPoint)] else []) + [DrawPath(p)]
  }

  function OptionToSeq<T>(o: Option<T>): seq<T> {
    if o.Some? then [o.value] else []
  }

  /** The paints the path is drawn with, in the order the canvas receives them. */
  function DrawnPaints(events: seq<DrawEvent>): seq<Paint> {
    if events == [] then []
    else (if events[0].DrawPath? then [events[0].paint] else []) + DrawnPaints(events[1..])
  }

  /** The paints whose shader is shifted, in order. */
  function ShiftedPaints(events: seq<DrawEvent>): seq<Paint> {
    if events == [] then []
    else (if events[0].SetBitmapShaderShift? then [events[0].paint] else []) + ShiftedPaints(events[1..])
  }

  lemma {:induction false} PaintsOfConcat(front: seq<DrawEvent>, back: seq<DrawEvent>)
    ensures DrawnPaints(front + back) == DrawnPaints(front) + DrawnPaints(back)
    ensures ShiftedPaints(front + back) == ShiftedPaints(front) + ShiftedPaints(back)
  {
    if front != [] {
      assert (front + back)[1..] == front[1..] + back;
      PaintsOfConcat(front[1..], back);
    } else {
      assert front + back == back;
    }
  }

  /** A path contains no canvas calls. */
  lemma {:induction false} NoPaintsInPath(path: seq<DrawEvent>)
    requires forall k :: 0 <= k < |path| ==> path[k].MoveTo? || path[k].LineTo?
    ensures DrawnPaints(path) == [] && ShiftedPaints(path) == []
  {
    if path != [] {
      NoPaintsInPath(path[1..]);
    }
  }

  /** The cached box `updatePoints` stores for a point list: null when the list
      is empty, otherwise the box of the list. */
  function CachedBox(points: seq<LatLong>): Option<BoundingBox> {
    if |points| == 0 then None else Some(BoxOf(points))
  }

  /** The cached box is null exactly for the empty list, and otherwise is the
      least box holding every point: it contains each point and any box that
      contains them all encloses it. */
  lemma CachedBoxIsTight(points: seq<LatLong>, box: BoundingBox)
    ensures CachedBox(points).None? <==> points == []
    ensures forall i :: 0 <= i < |points| ==> CachedBox(points).value.Contains(points[i])
    ensures points != [] && (forall i :: 0 <= i < |points| ==> box.Contains(points[i]))
            ==> box.Encloses(CachedBox(points).value)
  {
    if points != [] && (forall i :: 0 <= i < |points| ==> box.Contains(points[i])) {
      BoxOfIsMinimal(points, box);
    }
  }

  /** The cheap reject in `draw` never skips a polygon that has a point inside
      the viewport: the cached box then meets the viewport. */
  lemma CheapRejectIsSound(points: seq<LatLong>, viewport: BoundingBox, i: nat)
    requires i < |points| && viewport.Contains(points[i])
    ensures CachedBox(points).Some? && CachedBox(points).value.Intersects(viewport)
  {
  }

  /** What `draw` reads from a polygon. */
  datatype PolygonState = PolygonState(
    points: seq<LatLong>,
    boundingBox: Option<BoundingBox>,
    paintStroke: Option<Paint>,
    paintFill: Option<Paint>,
    isKeepAligned: bool,
    displayModel: Option<DisplayModel>)

  /** `draw` gets past its early exits: at least two points, some paint set, and
      no cached box that misses the viewport. */
  predicate Proceeds(s: PolygonState, viewport: BoundingBox) {
    && |s.points| >= 2
    && (s.paintStroke.Some? || s.paintFill.Some?)
    && (s.boundingBox.None? || s.boundingBox.value.Intersects(viewport))
  }

  /** The calls `draw` makes, in order, or the failure it ends with: nothing on an
      early exit; a null display model fails when the map size is needed;
      otherwise the path, then the stroke, then the fill. */
  function Render(s: PolygonState, viewport: BoundingBox, zoomLevel: Byte, projection: Projection, topLeftPoint: Point)
    : Result<seq<DrawEvent>>
  {
    if |s.points| < 2 || (s.paintStroke.None? && s.paintFill.None?) then Ok([])
    else if s.boundingBox.Some? && !s.boundingBox.value.Intersects(viewport) then Ok([])
    else if s.displayModel.None? then Err(NullPointer)
    else
      var mapSize := projection.mapSize(zoomLevel, s.displayModel.value.tileSize);
      Ok(PathEvents(s.points, projection, mapSize, topLeftPoint)
         + PaintEvents(s.paintStroke, s.isKeepAligned, topLeftPoint)
         + PaintEvents(s.paintFill, s.isKeepAligned, topLeftPoint))
  }

  /** `draw` makes no call at all exactly when it takes an early exit. */
  lemma RenderSkipsExactly(s: PolygonState, viewport: BoundingBox, zoomLevel: Byte, projection: Projection, topLeftPoint: Point)
    ensures Render(s, viewport, zoomLevel, projection, topLeftPoint) == Ok([]) <==> !Proceeds(s, viewport)
  {
  }

  /** When `draw` proceeds it builds the path through all points in list order,
      and then only paint calls follow. */
  lemma RenderPath(s: PolygonState, viewport: BoundingBox, zoomLevel: Byte, projection: Projection, topLeftPoint: Point)
    requires Proceeds(s, viewport) && s.displayModel.Some?
    ensures var r := Render(s, viewport, zoomLevel, projection, topLeftPoint);
      var mapSize := projection.mapSize(zoomLevel, s.displayModel.value.tileSize);
      var n := |s.points|;
      && r.Ok? && |r.value| >= n
      && r.value[0] == MoveTo(ToPixel(projection, mapSize, s.points[0], topLeftPoint))
      && (forall k :: 1 <= k < n ==> r.value[k] == LineTo(ToPixel(projection, mapSize, s.points[k], topLeftPoint)))
      && (forall k :: n <= k < |r.value| ==> r.value[k].SetBitmapShaderShift? || r.value[k].DrawPath?)
  {
    var mapSize := projection.mapSize(zoomLevel, s.displayModel.value.tileSize);
    PathShape(s.points, projection, mapSize, topLeftPoint);
  }

  /** When `draw` proceeds the path is drawn with the stroke iff it is set and
      with the fill iff it is set, the stroke first; shaders are shifted, each
      right before its own drawing, only when the polygon keeps aligned. */
  lemma RenderPaints(s: PolygonState, viewport: BoundingBox, zoomLevel: Byte, projection: Projection, topLeftPoint: Point)
    requires Proceeds(s, viewport) && s.displayModel.Some?
    ensures var r := Render(s, viewport, zoomLevel, projection, topLeftPoint);
      && r.Ok?
      && DrawnPaints(r.value) == OptionToSeq(s.paintStroke) + OptionToSeq(s.paintFill)
      && ShiftedPaints(r.value) == (if s.isKeepAligned then OptionToSeq(s.paintStroke) + OptionToSeq(s.paintFill) else [])
      && forall k :: 0 <= k < |r.value| && r.value[k].SetBitmapShaderShift? ==>
           k + 1 < |r.value| && r.value[k + 1] == DrawPath(r.value[k].paint)
  {
    var mapSize := projection.mapSize(zoomLevel, s.displayModel.value.tileSize);
    var path := PathEvents(s.points, projection, mapSize, topLeftPoint);
    var stroke := PaintEvents(s.paintStroke, s.isKeepAligned, topLeftPoint);
    var fill := PaintEvents(s.paintFill, s.isKeepAligned, topLeftPoint);
    PathShape(s.points, projection, mapSize, topLeftPoint);
    NoPaintsInPath(path);
    PaintsOfConcat(path, stroke);
    PaintsOfConcat(path + stroke, fill);
    if s.paintStroke.Some? && s.isKeepAligned {
      PaintsOfConcat([SetBitmapShaderShift(s.paintStroke.value, topLeftPoint)], [DrawPath(s.paintStroke.value)]);
    }
    if s.paintFill.Some? && s.isKeepAligned {
      PaintsOfConcat([SetBitmapShaderShift(s.paintFill.value, topLeftPoint)], [DrawPath(s.paintFill.value)]);
    }
    var events := path + stroke + fill;
    forall k | 0 <= k < |events| && events[k].SetBitmapShaderShift?
      ensures k + 1 < |events| && events[k + 1] == DrawPath(events[k].paint)
    {
      assert k >= |path|;
      if k < |path| + |stroke| {
        assert events[k] == stroke[k - |path|];
      } else {
        assert events[k] == fill[k - |path| - |stroke|];
      }
    }
  }

  /** A unit square with only a fill paint, drawn over a viewport that meets it:
      exactly one path drawing, with the fill, and no stroke. */
  lemma FillOnlySquare(fill: Paint, tileSize: nat, viewport: BoundingBox, zoomLevel: Byte, projection: Projection, topLeftPoint: Point)
    requires viewport.Intersects(BoundingBox(0.0, 0.0, 1.0, 1.0))
    ensures var square := [LatLong(0.0, 0.0), LatLong(0.0, 1.0), LatLong(1.0, 1.0), LatLong(1.0, 0.0)];
      var s := PolygonState(square, CachedBox(square), None, Some(fill), false, Some(DisplayModel(tileSize)));
      var r := Render(s, viewport, zoomLevel, projection, topLeftPoint);
      r.Ok? && DrawnPaints(r.value) == [fill]
  {
    var square := [LatLong(0.0, 0.0), LatLong(0.0, 1.0), LatLong(1.0, 1.0), LatLong(1.0, 0.0)];
    var s := PolygonState(square, CachedBox(square), None, Some(fill), false, Some(DisplayModel(tileSize)));
    var box := BoundingBox(0.0, 0.0, 1.0, 1.0);
    BoxOfIsMinimal(square, box);
    assert BoxOf(square) == box;
    RenderPaints(s, viewport, zoomLevel, projection, topLeftPoint);
  }

  class Polygon {
    var paintFill: Option<Paint>
    var paintStroke: Option<Paint>
    const isKeepAligned: bool
    /** Inherited from the library's layer base class; set when the layer is
        attached to a map view. */
    var displayModel: Option<DisplayModel>
    var boundingBox: Option<BoundingBox>
    const latLongs: LatLongList

    /** The cached box agrees with the current points. */
    ghost predicate Valid()
      reads this, latLongs
    {
      boundingBox == CachedBox(latLongs.items)
    }

    /** The snapshot `draw` works on. */
    function State(): PolygonState
      reads this, latLongs
    {
      PolygonState(latLongs.items, boundingBox, paintStroke, paintFill, isKeepAligned, displayModel)
    }

    constructor (paintFill: Option<Paint>, paintStroke: Option<Paint>, isKeepAligned: bool := false)
      ensures this.paintFill == paintFill && this.paintStroke == paintStroke && this.isKeepAligned == isKeepAligned
      ensures displayModel == None
      ensures fresh(latLongs) && latLongs.items == [] && boundingBox == None
      ensures Valid()
    {
      this.paintFill := paintFill;
      this.paintStroke := paintStroke;
      this.isKeepAligned := isKeepAligned;
      displayModel := None;
      boundingBox := None;
      latLongs := new LatLongList();
    }

    /** The live point list, not a copy. */
    function GetLatLongs(): (list: LatLongList)
      ensures list == latLongs
    {
      latLongs
    }

    /** Recomputes the cached box from the current points. */
    method UpdatePoints()
      modifies this`boundingBox
      ensures Valid()
    {
      boundingBox := CachedBox(latLongs.items);
    }

    /** Appends one point; the box grows by exactly that point. */
    method AddPoint(point: LatLong)
      modifies this`boundingBox, latLongs
      ensures latLongs.items == old(latLongs.items) + [point]
      ensures Valid()
      ensures old(Valid()) && old(latLongs.items) != [] ==> boundingBox == Some(old(boundingBox).value.Extend(point))
    {
      latLongs.Add(point);
      UpdatePoints();
      assert latLongs.items[..|latLongs.items| - 1] == old(latLongs.items);
    }

    /** Appends all of `points` in order (the polygon's own list included: it is
        then doubled); null fails before anything changes. The box grows to the
        union of the old box and the box of the appended points. */
    method AddPoints(points: LatLongList?) returns (outcome: Outcome)
      modifies this`boundingBox, latLongs
      ensures points == null ==> outcome == Thrown(NullPointer) && unchanged(this, latLongs)
      ensures points != null ==> outcome == Success && Valid()
      ensures points != null ==> latLongs.items == old(latLongs.items) + old(points.items)
      ensures points != null && old(Valid()) && old(latLongs.items) != [] && old(points.items) != []
              ==> boundingBox == Some(old(boundingBox).value.Union(BoxOf(old(points.items))))
    {
      if points == null {
        return Thrown(NullPointer);
      }
      ghost var added := points.items;
      latLongs.AddAll(points);
      UpdatePoints();
      outcome := Success;
      if old(latLongs.items) != [] && added != [] {
        BoxOfConcat(old(latLongs.items), added);
      }
    }

    /** Empties the list; the cached box becomes null. */
    method Clear()
      modifies this`boundingBox, latLongs
      ensures latLongs.items == [] && boundingBox == None
      ensures Valid()
    {
      latLongs.Clear();
      UpdatePoints();
    }

    /** Replaces the points, as the source does it: the list is cleared BEFORE
        the argument is dereferenced and copied. A null argument therefore fails
        with the list already empty and the cached box not recomputed, and the
        polygon's own list as argument yields an empty polygon. */
    method SetPoints(points: LatLongList?) returns (outcome: Outcome)
      modifies this`boundingBox, latLongs
      ensures points == null ==> outcome == Thrown(NullPointer) && latLongs.items == [] && boundingBox == old(boundingBox)
      ensures points != null ==> outcome == Success && Valid()
      ensures points != null ==> latLongs.items == if points == latLongs then [] else old(points.items)
    {
      latLongs.Clear();
      if points == null {
        return Thrown(NullPointer);
      }
      latLongs.AddAll(points);
      UpdatePoints();
      outcome := Success;
    }

    /** Replaces the points with a copy of `points` taken before anything
        changes: null fails with the polygon untouched, and any argument, the
        polygon's own list included, becomes the new point list. */
    method SetPointsSnapshot(points: LatLongList?) returns (outcome: Outcome)
      modifies this`boundingBox, latLongs
      ensures points == null ==> outcome == Thrown(NullPointer) && unchanged(this, latLongs)
      ensures points != null ==> outcome == Success && Valid()
      ensures points != null ==> latLongs.items == old(points.items)
    {
      if points == null {
        return Thrown(NullPointer);
      }
      var copy := new LatLongList();
      copy.AddAll(points);
      latLongs.Clear();
      latLongs.AddAll(copy);
      UpdatePoints();
      outcome := Success;
    }

    /** Draws the polygon: returns the path and canvas calls it makes, in order,
        or the failure it ends with. Changes no state of the polygon. */
    method Draw(viewport: BoundingBox, zoomLevel: Byte, projection: Projection, topLeftPoint: Point)
      returns (result: Result<seq<DrawEvent>>)
      ensures result == Render(State(), viewport, zoomLevel, projection, topLeftPoint)
    {
      var points := latLongs.items;
      if |points| < 2 || (paintStroke.None? && paintFill.None?) {
        return Ok([]);
      }
      if boundingBox.Some? && !boundingBox.value.Intersects(viewport) {
        return Ok([]);
      }
      if displayModel.None? {
        return Err(NullPointer);
      }
      var mapSize := projection.mapSize(zoomLevel, displayModel.value.tileSize);
      var events := [MoveTo(ToPixel(projection, mapSize, points[0], topLeftPoint))];
      var i := 1;
      while i < |points|
        invariant 1 <= i <= |points|
        invariant events == PathEvents(points[..i], projection, mapSize, topLeftPoint)
      {
        events := events + [LineTo(ToPixel(projection, mapSize, points[i], topLeftPoint))];
        i := i + 1;
        assert points[..i][..i - 1] == points[..i - 1];
      }
      assert points[..i] == points;
      ghost var path := events;
      if paintStroke.Some? {
        if isKeepAligned {
          events := events + [SetBitmapShaderShift(paintStroke.value, topLeftPoint)];
        }
        events := events + [DrawPath(paintStroke.value)];
      }
      assert events == path + PaintEvents(paintStroke, isKeepAligned, topLeftPoint);
      if paintFill.Some? {
        if isKeepAligned {
          events := events + [SetBitmapShaderShift(paintFill.value, topLeftPoint)];
        }
        events := events + [DrawPath(paintFill.value)];
      }
      assert events == path + PaintEvents(paintStroke, isKeepAligned, topLeftPoint)
                            + PaintEvents(paintFill, isKeepAligned, topLeftPoint);
      result := Ok(events);
    }
  }

  /** Source behaviour: `setPoints(getLatLongs())` on a polygon with points
      empties it, because the list is cleared before its own contents are
      copied back. */
  method SelfSetPointsEmpties(polygon: Polygon) returns (outcome: Outcome)
    requires polygon.latLongs.items != []
    modifies polygon, polygon.latLongs
    ensures outcome == Success && polygon.latLongs.items == []
  {
    outcome := polygon.SetPoints(polygon.GetLatLongs());
  }

  /** Source behaviour: `setPoints(null)` on a polygon with points throws and
      leaves a stale cached box behind an empty list. */
  method NullSetPointsLeavesStaleBox(polygon: Polygon) returns (outcome: Outcome)
    requires polygon.Valid() && polygon.latLongs.items != []
    modifies polygon, polygon.latLongs
    ensures outcome == Thrown(NullPointer) && !polygon.Valid()
  {
    outcome := polygon.SetPoints(null);
  }

  /** With the copy taken first, `setPoints(getLatLongs())` keeps the points and
      the box, and `setPoints(null)` keeps the polygon consistent. */
  method SelfSetPointsSnapshotKeeps(polygon: Polygon) returns (selfOutcome: Outcome, nullOutcome: Outcome)
    requires polygon.Valid()
    modifies polygon, polygon.latLongs
    ensures selfOutcome == Success && nullOutcome == Thrown(NullPointer)
    ensures polygon.latLongs.items == old(polygon.latLongs.items)
    ensures polygon.Valid() && polygon.boundingBox == old(polygon.boundingBox)
  {
    selfOutcome := polygon.SetPointsSnapshot(polygon.GetLatLongs());
    nullOutcome := polygon.SetPointsSnapshot(null);
  }

  /** Replacing the points with an independent list twice gives the same
      polygon as doing it once. */
  method SetPointsIdempotent(polygon: Polygon, points: LatLongList)
    returns (first: Outcome, second: Outcome)
    requires points != polygon.latLongs
    modifies polygon, polygon.latLongs
    ensures first == Success && second == Success
    ensures polygon.latLongs.items == old(points.items) && polygon.Valid()
  {
    first := polygon.SetPoints(points);
    ghost var once := polygon.latLongs.items;
    second := polygon.SetPoints(points);
    assert polygon.latLongs.items == once;
  }
}
