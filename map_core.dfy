/** Value types shared by the layer and polygon models: the optional reference,
    the failures Kotlin's fail-fast helpers raise, geographic positions, pixel
    points and the geographic bounding box (with the minimal box of a point list). */
module MapCore {

  /** A Kotlin nullable reference: `None` stands for `null`. */
  datatype Option<+T> = None | Some(value: T)

  /** The exceptions the modelled code can raise. `check(...)` and
      `checkNotNull(...)` raise IllegalState with a message; `!!` on null and a
      member access on a null platform reference raise NullPointer. */
  datatype Failure = IllegalState(message: string) | NullPointer

  /** How a call that returns nothing ends: normally, or by throwing. */
  datatype Outcome = Success | Thrown(failure: Failure)

  /** How a call that produces a value ends. */
  datatype Result<+T> = Ok(value: T) | Err(failure: Failure)

  /** The Kotlin `Byte` the zoom level is passed as. */
  newtype Byte = b: int | -128 <= b < 128

  /** A geographic position in degrees. */
  datatype LatLong = LatLong(latitude: real, longitude: real)

  /** A pixel position (the `Point` of the rendering library). */
  datatype Point = Point(x: real, y: real)

  /** The rendering configuration a layer gets from its map view; only the tile
      size is used by the model. */
  datatype DisplayModel = DisplayModel(tileSize: nat)

  function Min(a: real, b: real): real { if a <= b then a else b }
  function Max(a: real, b: real): real { if a <= b then b else a }

  /** An axis-aligned geographic rectangle, closed on all sides. */
  datatype BoundingBox = BoundingBox(minLatitude: real, minLongitude: real, maxLatitude: real, maxLongitude: real)
  {
    predicate Contains(p: LatLong) {
      minLatitude <= p.latitude <= maxLatitude && minLongitude <= p.longitude <= maxLongitude
    }

    /** The library's overlap test: the two closed rectangles share a point. */
    predicate Intersects(other: BoundingBox) {
      maxLatitude >= other.minLatitude && maxLongitude >= other.minLongitude &&
      minLatitude <= other.maxLatitude && minLongitude <= other.maxLongitude
    }

    /** This box covers all of `other`. */
    predicate Encloses(other: BoundingBox) {
      minLatitude <= other.minLatitude && minLongitude <= other.minLongitude &&
      other.maxLatitude <= maxLatitude && other.maxLongitude <= maxLongitude
    }

    /** The smallest box covering this one and the position `p`. */
    function Extend(p: LatLong): BoundingBox {
      BoundingBox(Min(minLatitude, p.latitude), Min(minLongitude, p.longitude),
                  Max(maxLatitude, p.latitude), Max(maxLongitude, p.longitude))
    }

    /** The smallest box covering this one and `other`. */
    function Union(other: BoundingBox): BoundingBox {
      BoundingBox(Min(minLatitude, other.minLatitude), Min(minLongitude, other.minLongitude),
                  Max(maxLatitude, other.maxLatitude), Max(maxLongitude, other.maxLongitude))
    }
  }

  /** The degenerate box of a single position. */
  function PointBox(p: LatLong): BoundingBox {
    BoundingBox(p.latitude, p.longitude, p.latitude, p.longitude)
  }

  /** The box the library's `BoundingBox(List<LatLong>)` constructor builds: it
      scans the list in order, keeping the running minimum and maximum of the
      latitudes and of the longitudes. Every point of the list lies in it. */
  function BoxOf(points: seq<LatLong>): (box: BoundingBox)
    requires |points| > 0
    ensures forall i :: 0 <= i < |points| ==> box.Contains(points[i])
    decreases |points|
  {
    var last := points[|points| - 1];
    if |points| == 1 then PointBox(last)
    else
      var init := points[..|points| - 1];
      var box := BoxOf(init).Extend(last);
      assert forall i :: 0 <= i < |points| - 1 ==> points[i] == init[i];
      box
  }

  /** The box of a list is the least one containing all its points: any box
      that contains every point encloses it. */
  lemma {:induction false} BoxOfIsMinimal(points: seq<LatLong>, box: BoundingBox)
    requires |points| > 0
    requires forall i :: 0 <= i < |points| ==> box.Contains(points[i])
    ensures box.Encloses(BoxOf(points))
  {
    if |points| > 1 {
      var init := points[..|points| - 1];
      assert forall i :: 0 <= i < |init| ==> init[i] == points[i];
      BoxOfIsMinimal(init, box);
    }
  }

  /** Each side of the box is attained by some point of the list. */
  lemma {:induction false} BoxOfIsAttained(points: seq<LatLong>)
    requires |points| > 0
    ensures exists i :: 0 <= i < |points| && points[i].latitude == BoxOf(points).minLatitude
    ensures exists i :: 0 <= i < |points| && points[i].longitude == BoxOf(points).minLongitude
    ensures exists i :: 0 <= i < |points| && points[i].latitude == BoxOf(points).maxLatitude
    ensures exists i :: 0 <= i < |points| && points[i].longitude == BoxOf(points).maxLongitude
  {
    var n := |points|;
    if n > 1 {
      var init := points[..n - 1];
      BoxOfIsAttained(init);
      assert forall i :: 0 <= i < n - 1 ==> init[i] == points[i];
      var b, last := BoxOf(init), points[n - 1];
      var i0 :| 0 <= i0 < n - 1 && init[i0].latitude == b.minLatitude;
      var i1 :| 0 <= i1 < n - 1 && init[i1].longitude == b.minLongitude;
      var i2 :| 0 <= i2 < n - 1 && init[i2].latitude == b.maxLatitude;
      var i3 :| 0 <= i3 < n - 1 && init[i3].longitude == b.maxLongitude;
      var j0 := if b.minLatitude <= last.latitude then i0 else n - 1;
      var j1 := if b.minLongitude <= last.longitude then i1 else n - 1;
      var j2 := if b.maxLatitude <= last.latitude then n - 1 else i2;
      var j3 := if b.maxLongitude <= last.longitude then n - 1 else i3;
      assert points[j0].latitude == BoxOf(points).minLatitude;
      assert points[j1].longitude == BoxOf(points).minLongitude;
      assert points[j2].latitude == BoxOf(points).maxLatitude;
      assert points[j3].longitude == BoxOf(points).maxLongitude;
    } else {
      assert BoxOf(points) == PointBox(points[0]);
    }
  }

  /** Appending a list of points grows the box to the union of the old box and
      the box of the appended points. */
  lemma {:induction false} BoxOfConcat(front: seq<LatLong>, back: seq<LatLong>)
    requires |front| > 0 && |back| > 0
    ensures BoxOf(front + back) == BoxOf(front).Union(BoxOf(back))
    decreases |back|
  {
    var all := front + back;
    assert all[..|all| - 1] == front + back[..|back| - 1];
    if |back| > 1 {
      BoxOfConcat(front, back[..|back| - 1]);
    }
  }
}
