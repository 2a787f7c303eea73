# Map overlay layers: `Layer` and `Polygon`

This project models the two pieces of original logic in a small Android map
viewer built on the mapsforge toolkit, and proves properties of them in Dafny.

- **`Layer`** (module `Layers`) is the base of every map overlay. It has a
  visibility flag, which is true at first. It also has an exclusive, fail-fast
  back-reference to the redrawer, the external scheduler that repaints all
  layers. `assign` throws `IllegalStateException("layer already assigned")` when
  a redrawer is already recorded. `unassign` throws
  `IllegalStateException("layer is not assigned")` when none is.
  `requestRedraw` notifies the redrawer only when one is assigned. `setVisible`
  writes the flag and, by default, requests a redraw. The default event
  handlers never handle an event.
- **`Polygon`** (module `Polygons`) is an ordered, mutable list of geographic
  points with a cached bounding box. `addPoint`, `addPoints`, `clear` and
  `setPoints` change the list and then recompute the box. The box is null for
  an empty list and otherwise the min/max box of the points. `draw` has three
  cheap exits: fewer than two points, no paint, or a cached box that misses the
  viewport. Otherwise it projects the points into a path (one `moveTo`, then a
  `lineTo` per further point). It strokes the path, then fills it; each paint
  is used only if set, and its shader is aligned first only when the polygon
  keeps aligned.

Module `MapCore` holds the shared values: nullable references (`Option`), the
exceptions (`Failure`, `Outcome`, `Result`), positions, pixel points and the
geographic bounding box. `BoxOf` is the box that the library's
`BoundingBox(List<LatLong>)` constructor builds from a list.

Modelling choices:

- A thrown exception is a returned `Outcome`/`Result` value. State changed
  before the throw stays changed; nothing after it happens.
- Redraw notifications are appended to the layer's `redrawRequests` log.
- The polygon's point list is an object of its own (`LatLongList`), because
  `getLatLongs` returns the live list and callers can pass it back in.
- `draw` returns the path and canvas calls it makes, in order, as a list of
  `DrawEvent`s. It changes no polygon state. `Polygon.Draw` is proved equal to
  the specification function `Render`, and the lemmas state what `Render` does.
- The Mercator projection is a `Projection` value of three uninterpreted
  functions: map size, longitude to pixel x, and latitude to pixel y. The model
  therefore fixes the structure of the path, not its numbers.
- `displayModel` is read in `draw` as a null-unsafe platform reference. If it is
  null once the early exits have passed, `draw` throws a null-pointer exception
  (`Err(NullPointer)`). `draw` is therefore not total.

## Model

| member | source | states |
|---|---|---|
| `MapCore.BoxOf` | app/src/main/java/com/example/mapsforge/Polygon.kt:139-141 | the box built from a non-empty list contains every point of the list |
| `MapCore.BoxOfIsMinimal` | app/src/main/java/com/example/mapsforge/Polygon.kt:139-141 | any box containing all points encloses the list's box, so it is the least such box |
| `MapCore.BoxOfIsAttained` | app/src/main/java/com/example/mapsforge/Polygon.kt:139-141 | each of the four sides of the box is the coordinate of some point of the list |
| `MapCore.BoxOfConcat` | app/src/main/java/com/example/mapsforge/Polygon.kt:57-60 | the box of a list followed by more points is the union of the two boxes |
| `Layers.Layer.constructor` | app/src/main/java/com/example/mapsforge/Layer.kt:23-25 | a new layer is visible, has no display model, is unassigned and has sent no redraw request |
| `Layers.Layer.Position` | app/src/main/java/com/example/mapsforge/Layer.kt:50-51 | the default position is null |
| `Layers.Layer.IsVisible` | app/src/main/java/com/example/mapsforge/Layer.kt:56-58 | returns the current visibility flag and changes nothing |
| `Layers.Layer.OnLongPress` | app/src/main/java/com/example/mapsforge/Layer.kt:76-78 | the default long-press handler returns false and reads no state |
| `Layers.Layer.OnScroll` | app/src/main/java/com/example/mapsforge/Layer.kt:90-92 | the default scroll handler returns false and reads no state |
| `Layers.Layer.OnTap` | app/src/main/java/com/example/mapsforge/Layer.kt:106-108 | the default tap handler returns false and reads no state |
| `Layers.Layer.RequestRedraw` | app/src/main/java/com/example/mapsforge/Layer.kt:113-118 | notifies the assigned redrawer exactly once; with none assigned, nothing is sent |
| `Layers.Layer.SetVisible` | app/src/main/java/com/example/mapsforge/Layer.kt:126-138 | sets the flag to the given value; one redraw request is sent iff `redraw` holds and a redrawer is assigned; `redraw` defaults to true |
| `Layers.Layer.Assign` | app/src/main/java/com/example/mapsforge/Layer.kt:154-159 | already assigned: fails with "layer already assigned" and keeps the owner; otherwise succeeds and records the argument, null included |
| `Layers.Layer.Unassign` | app/src/main/java/com/example/mapsforge/Layer.kt:161-166 | unassigned: fails with "layer is not assigned"; otherwise succeeds; either way the layer ends unassigned |
| `Layers.AssignUnassignRoundTrip` | app/src/main/java/com/example/mapsforge/Layer.kt:155-166 | from unassigned, assign then unassign both succeed and a further assign succeeds again |
| `Layers.DoubleAssignFails` | app/src/main/java/com/example/mapsforge/Layer.kt:155-159 | a second assign without unassign fails with illegal state and the first owner stays |
| `Layers.AssignNullLeavesUnassigned` | app/src/main/java/com/example/mapsforge/Layer.kt:155-166 | assign(null) succeeds, a following unassign fails with illegal state, a following assign succeeds |
| `Layers.SetVisibleNotifies` | app/src/main/java/com/example/mapsforge/Layer.kt:126-138 | on an assigned layer the one-argument form notifies once, and the two-argument form notifies iff `redraw` |
| `Polygons.Polygon.constructor` | app/src/main/java/com/example/mapsforge/Polygon.kt:20-43 | keeps the given paints and alignment flag (false by default); fresh empty list, null box, box consistent |
| `Polygons.Polygon.GetLatLongs` | app/src/main/java/com/example/mapsforge/Polygon.kt:128-130 | returns the polygon's own live list, not a copy |
| `Polygons.Polygon.UpdatePoints` | app/src/main/java/com/example/mapsforge/Polygon.kt:139-141 | afterwards the cached box agrees with the current points |
| `Polygons.CachedBoxIsTight` | app/src/main/java/com/example/mapsforge/Polygon.kt:139-141 | the cached box is null iff the list is empty; otherwise it contains every point and is the least box that does |
| `Polygons.Polygon.AddPoint` | app/src/main/java/com/example/mapsforge/Polygon.kt:50-54 | list is the old list plus the point at the end; box consistent; a consistent non-empty box grows by exactly that point |
| `Polygons.Polygon.AddPoints` | app/src/main/java/com/example/mapsforge/Polygon.kt:56-60 | null fails with nothing changed; otherwise the old list followed by the argument's points, box consistent and equal to the union of old box and added points' box |
| `Polygons.Polygon.Clear` | app/src/main/java/com/example/mapsforge/Polygon.kt:62-66 | list empty and box null |
| `Polygons.Polygon.SetPoints` | app/src/main/java/com/example/mapsforge/Polygon.kt:132-137 | as written: null fails with the list already cleared and the box left as it was; the polygon's own list as argument leaves it empty; any other list becomes the new list, box consistent |
| `Polygons.Polygon.SetPointsSnapshot` | app/src/main/java/com/example/mapsforge/Polygon.kt:132-137 | corrected: null fails with nothing changed; any argument, its own list included, becomes the new list, box consistent |
| `Polygons.SetPointsIdempotent` | app/src/main/java/com/example/mapsforge/Polygon.kt:132-137 | setting the same independent list twice leaves exactly that list, box consistent |
| `Polygons.Polygon.Draw` | app/src/main/java/com/example/mapsforge/Polygon.kt:73-123 | the calls made, in order, are those of `Render` for the polygon's current state; the loop builds the path point by point |
| `Polygons.RenderSkipsExactly` | app/src/main/java/com/example/mapsforge/Polygon.kt:80-85 | draw returns normally without any call iff there are fewer than 2 points, or no paint, or a cached box that misses the viewport; a null display model past those exits throws instead |
| `Polygons.CheapRejectIsSound` | app/src/main/java/com/example/mapsforge/Polygon.kt:83-85 | a consistent cached box meets the viewport whenever some point lies in it, so the cheap reject never drops a visible vertex |
| `Polygons.PathShape` | app/src/main/java/com/example/mapsforge/Polygon.kt:86-110 | the path has one event per point: one moveTo to the first point, then a lineTo to each following point in list order |
| `Polygons.RenderPath` | app/src/main/java/com/example/mapsforge/Polygon.kt:86-110 | once draw proceeds with a display model it succeeds, the path through all points comes first, and only paint calls follow |
| `Polygons.RenderPaints` | app/src/main/java/com/example/mapsforge/Polygon.kt:111-122 | the path is drawn with the stroke iff set and with the fill iff set, stroke before fill; shaders are shifted only when keeping aligned, for exactly the paints used, each shift directly followed by the drawing with the same paint |
| `Polygons.FillOnlySquare` | app/src/main/java/com/example/mapsforge/Polygon.kt:80-122 | a unit square with only a fill, over an overlapping viewport, is drawn exactly once, with the fill |
| `Polygons.SelfSetPointsEmpties` | app/src/main/java/com/example/mapsforge/Polygon.kt:128-137 | as written, `setPoints(getLatLongs())` on a non-empty polygon succeeds and leaves it empty |
| `Polygons.NullSetPointsLeavesStaleBox` | app/src/main/java/com/example/mapsforge/Polygon.kt:132-141 | as written, `setPoints(null)` on a consistent non-empty polygon throws and leaves the box inconsistent with the list |
| `Polygons.SelfSetPointsSnapshotKeeps` | app/src/main/java/com/example/mapsforge/Polygon.kt:132-141 | corrected, passing its own list keeps points and box, and null throws with the polygon still consistent |

## Findings

| source | as written | input that shows it | evidently intended | confidence | as-written member | corrected member |
|---|---|---|---|---|---|---|
| app/src/main/java/com/example/mapsforge/Polygon.kt:133-136 | `setPoints` clears the list before it reads its argument, and `getLatLongs` returns that same list | `p.setPoints(p.getLatLongs())` on a polygon holding two points | the polygon keeps its two points (replace with a copy of the argument) | medium, not executed | `Polygons.SelfSetPointsEmpties` | `Polygons.SelfSetPointsSnapshotKeeps` |
| app/src/main/java/com/example/mapsforge/Polygon.kt:133-141 | `setPoints` clears the list before `points!!` throws, so `updatePoints` is skipped | `p.setPoints(null)` on a polygon holding one point: the list is empty but the cached box is not null | a null argument throws with the polygon unchanged, and the box always matches the list | medium, not executed | `Polygons.NullSetPointsLeavesStaleBox` | `Polygons.SelfSetPointsSnapshotKeeps` |

## Left out

- The application activity (file picker, content stream, tile cache and tile renderer setup) is Android and library wiring, so it is not modelled.
- `contains` delegates entirely to the library's point-in-polygon test, so it is not modelled. It only reads the point list.
- Concurrency: the `@Synchronized` locks and the copy-on-write list exist for concurrent access. Every method is modelled as one atomic step.
- Projection arithmetic and the `toFloat` narrowing of pixel coordinates are floating-point library code. The projection is an uninterpreted function over `real`.
- Path creation through the graphic factory is not an event. `Canvas`, `Path` and `Paint` appear only as entries of the event trace. What `setBitmapShaderShift` and `redrawLayers` do internally is library behaviour and is not modelled.
- The library's `BoundingBox` and `LatLong` constructors check that coordinates are in range. This check is not modelled, and coordinates are arbitrary reals.
- `BoundingBox.intersects` is modelled as the overlap of two closed rectangles, which is the library's test.
- `onDestroy`, `onAdd` and `onRemove` are empty hooks, so they are left out. `displayModel` is a plain public field.
- `Layer.draw` is abstract in the base class. Only the polygon's `draw` is modelled.
- `Polygon` also inherits visibility and redrawer assignment from the library's layer class. Those are modelled once, on `Layer`, and not repeated on `Polygon`.
