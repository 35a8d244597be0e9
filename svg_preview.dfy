/** The SVG preview of one layer of the last slicing run: which contours it draws, and the
    frame it draws them in. */
module SvgPreview {
  import opened Wrappers
  import opened Geometry
  import opened Models

  /** `part.layers[layer_index]` with an index below `-len(part.layers)`. */
  datatype SvgError = IndexError

  /** Python's reading of an index into a list of length `n`: negative indices count from the end. */
  function PyIndex(n: nat, idx: int): (k: nat)
    requires -(n as int) <= idx < n
    ensures k < n && (idx >= 0 ==> k == idx) && (idx < 0 ==> k == n + idx)
  {
    if idx < 0 then n + idx else idx
  }

  /** The contours of layer `idx` of every part that is taken to have one, in part order.  Every
      part with `idx < len(layers)` is indexed, so a negative index too far back raises. */
  function LayerContours(parts: seq<PartValue>, idx: int): Option<seq<Contour>>
    decreases |parts|
  {
    if parts == [] then Some([])
    else
      match LayerContours(parts[..|parts| - 1], idx)
      case None => None
      case Some(cs) =>
        var ls := parts[|parts| - 1].layers;
        if idx >= |ls| then Some(cs)
        else if idx < -|ls| then None
        else Some(cs + ls[PyIndex(|ls|, idx)].contours)
  }

  /** Collecting fails exactly when some part is shorter than a negative index reaches back. */
  lemma {:induction false} LayerContoursFailsIff(parts: seq<PartValue>, idx: int)
    ensures LayerContours(parts, idx).None? <==> exists i :: 0 <= i < |parts| && idx < -|parts[i].layers|
    decreases |parts|
  {
    if parts != [] {
      var front := parts[..|parts| - 1];
      LayerContoursFailsIff(front, idx);
      assert forall i :: 0 <= i < |front| ==> front[i] == parts[i];
      if LayerContours(front, idx).None? {
        var i :| 0 <= i < |front| && idx < -|front[i].layers|;
        assert idx < -|parts[i].layers|;
      }
    }
  }

  /** Layer `idx` of each part, or nothing for a part without one. */
  function TakenAt(parts: seq<PartValue>, idx: nat): (css: seq<seq<Contour>>)
    ensures |css| == |parts|
  {
    seq(|parts|, i requires 0 <= i < |parts| =>
      if idx < |parts[i].layers| then parts[i].layers[idx].contours else [])
  }

  /** A non-negative index takes layer `idx` from each part that has it and skips the rest. */
  lemma {:induction false} NonNegativeIndexSkipsShortParts(parts: seq<PartValue>, idx: nat)
    ensures LayerContours(parts, idx) == Some(Concat(TakenAt(parts, idx)))
    decreases |parts|
  {
    if parts != [] {
      var front := parts[..|parts| - 1];
      NonNegativeIndexSkipsShortParts(front, idx);
      var css := TakenAt(parts, idx);
      assert css[..|parts| - 1] == TakenAt(front, idx);
      assert Concat(css) == Concat(TakenAt(front, idx)) + css[|parts| - 1];
      var ls := parts[|parts| - 1].layers;
      if idx < |ls| {
        assert PyIndex(|ls|, idx) == idx;
      } else {
        assert Concat(TakenAt(front, idx)) + [] == Concat(TakenAt(front, idx));
      }
    }
  }

  /** The concatenation of a list of contour lists. */
  function Concat(css: seq<seq<Contour>>): seq<Contour>
    decreases |css|
  {
    if css == [] then [] else Concat(css[..|css| - 1]) + css[|css| - 1]
  }

  /** `np.vstack` of the contours: all their points, in order. */
  function Points(cs: seq<Contour>): seq<Point2>
    decreases |cs|
  {
    if cs == [] then [] else Points(cs[..|cs| - 1]) + cs[|cs| - 1]
  }

  lemma {:induction false} PointsContainContours(cs: seq<Contour>, k: nat, j: nat)
    requires k < |cs| && j < |cs[k]|
    ensures cs[k][j] in Points(cs)
    decreases |cs|
  {
    if k < |cs| - 1 {
      PointsContainContours(cs[..|cs| - 1], k, j);
    } else {
      assert Points(cs) == Points(cs[..|cs| - 1]) + cs[k];
      assert Points(cs)[|Points(cs[..|cs| - 1])| + j] == cs[k][j];
    }
  }

  /** There is a point to frame exactly when some contour is non-empty. */
  lemma {:induction false} PointsEmptyIff(cs: seq<Contour>)
    ensures Points(cs) == [] <==> forall k :: 0 <= k < |cs| ==> cs[k] == []
    decreases |cs|
  {
    if cs != [] {
      PointsEmptyIff(cs[..|cs| - 1]);
      assert forall k :: 0 <= k < |cs| - 1 ==> cs[..|cs| - 1][k] == cs[k];
    }
  }

  /** The contours drawn: those with at least two points. */
  function Drawn(cs: seq<Contour>): seq<Contour>
    decreases |cs|
  {
    if cs == [] then []
    else Drawn(cs[..|cs| - 1]) + (if |cs[|cs| - 1]| >= 2 then [cs[|cs| - 1]] else [])
  }

  lemma {:induction false} DrawnAreContours(cs: seq<Contour>)
    ensures forall c :: c in Drawn(cs) ==> c in cs && |c| >= 2
    decreases |cs|
  {
    if cs != [] {
      DrawnAreContours(cs[..|cs| - 1]);
    }
  }

  /** The points as space coordinates at height zero, so that the mesh bounds apply. */
  function Lift(pts: seq<Point2>): (vs: seq<Vec3>)
    ensures |vs| == |pts|
    ensures forall i :: 0 <= i < |pts| ==> vs[i] == Vec3(pts[i].x, pts[i].y, 0.0)
  {
    seq(|pts|, i requires 0 <= i < |pts| => Vec3(pts[i].x, pts[i].y, 0.0))
  }

  datatype Rect = Rect(x: real, y: real, w: real, h: real)

  /** The margin around the drawing, in mm. */
  const Margin: real := 2.0

  /** The bounding box of the points widened by the margin on every side. */
  function Frame(pts: seq<Point2>): Rect
    requires pts != []
  {
    var xMin := MinCoord(Lift(pts), 0);
    var yMin := MinCoord(Lift(pts), 1);
    var xMax := MaxCoord(Lift(pts), 0);
    var yMax := MaxCoord(Lift(pts), 1);
    Rect(xMin - Margin, yMin - Margin, xMax - xMin + 2.0 * Margin, yMax - yMin + 2.0 * Margin)
  }

  /** The file written: the view box, the size (three times the view box), the background
      rectangle and the polylines. */
  datatype SvgDoc = SvgDoc(viewBox: Rect, width: real, height: real, background: Rect, polylines: seq<Contour>)

  /** What `export_layer_svg` does: raise, write nothing (`False`), or write a document (`True`). */
  function Preview(parts: seq<PartValue>, idx: int): Result<Option<SvgDoc>, SvgError>
  {
    if parts == [] then Success(None)
    else
      match LayerContours(parts, idx)
      case None => Failure(IndexError)
      case Some(cs) =>
        if cs == [] || Points(cs) == [] then Success(None)
        else
          var f := Frame(Points(cs));
          Success(Some(SvgDoc(f, f.w * 3.0, f.h * 3.0, f, Drawn(cs))))
  }

  /** A document is written exactly when there are parts, the index is in reach of all of
      them, and the chosen layers hold a non-empty contour. */
  lemma PreviewWrittenIff(parts: seq<PartValue>, idx: int)
    ensures (Preview(parts, idx).Success? && Preview(parts, idx).value.Some?) <==>
            parts != [] && LayerContours(parts, idx).Some? &&
            exists k :: 0 <= k < |LayerContours(parts, idx).value| && LayerContours(parts, idx).value[k] != []
  {
    if parts != [] && LayerContours(parts, idx).Some? {
      PointsEmptyIff(LayerContours(parts, idx).value);
    }
  }

  /** Every point of every drawn polyline lies inside the view box, at least the margin away
      from each edge; the box is no larger, as some point touches each inner edge. */
  lemma PreviewFramesEveryPoint(parts: seq<PartValue>, idx: int)
    requires Preview(parts, idx).Success? && Preview(parts, idx).value.Some?
    ensures var d := Preview(parts, idx).value.value;
            var b := d.viewBox;
            d.background == b && d.width == 3.0 * b.w && d.height == 3.0 * b.h &&
            b.w >= 2.0 * Margin && b.h >= 2.0 * Margin &&
            (forall c, p :: c in d.polylines && p in c ==>
               b.x + Margin <= p.x <= b.x + b.w - Margin && b.y + Margin <= p.y <= b.y + b.h - Margin) &&
            (exists c, p :: c in LayerContours(parts, idx).value && p in c && p.x == b.x + Margin) &&
            (exists c, p :: c in LayerContours(parts, idx).value && p in c && p.y == b.y + Margin) &&
            (exists c, p :: c in LayerContours(parts, idx).value && p in c && p.x == b.x + b.w - Margin) &&
            (exists c, p :: c in LayerContours(parts, idx).value && p in c && p.y == b.y + b.h - Margin)
  {
    var cs := LayerContours(parts, idx).value;
    FrameHoldsContours(cs);
    DrawnAreContours(cs);
  }

  /** The frame of the contours' points holds every point of every contour, the margin away
      from each edge, and some point touches each inner edge. */
  lemma FrameHoldsContours(cs: seq<Contour>)
    requires Points(cs) != []
    ensures var b := Frame(Points(cs));
            b.w >= 2.0 * Margin && b.h >= 2.0 * Margin &&
            (forall c, p :: c in cs && p in c ==>
               b.x + Margin <= p.x <= b.x + b.w - Margin && b.y + Margin <= p.y <= b.y + b.h - Margin) &&
            (exists c, p :: c in cs && p in c && p.x == b.x + Margin) &&
            (exists c, p :: c in cs && p in c && p.y == b.y + Margin) &&
            (exists c, p :: c in cs && p in c && p.x == b.x + b.w - Margin) &&
            (exists c, p :: c in cs && p in c && p.y == b.y + b.h - Margin)
  {
    var pts := Points(cs);
    var vs := Lift(pts);
    MinCoordIsLeast(vs, 0);
    MinCoordIsLeast(vs, 1);
    MaxCoordIsGreatest(vs, 0);
    MaxCoordIsGreatest(vs, 1);
    var b := Frame(pts);
    assert vs[0].Get(0) == vs[0].x && vs[0].Get(1) == vs[0].y;
    forall c, p | c in cs && p in c
      ensures b.x + Margin <= p.x <= b.x + b.w - Margin && b.y + Margin <= p.y <= b.y + b.h - Margin
    {
      var k :| 0 <= k < |cs| && cs[k] == c;
      var j :| 0 <= j < |c| && c[j] == p;
      PointsContainContours(cs, k, j);
      var i :| 0 <= i < |pts| && pts[i] == p;
      assert vs[i].Get(0) == p.x && vs[i].Get(1) == p.y;
    }
    var ix :| 0 <= ix < |vs| && MinCoord(vs, 0) == vs[ix].Get(0);
    var iy :| 0 <= iy < |vs| && MinCoord(vs, 1) == vs[iy].Get(1);
    var jx :| 0 <= jx < |vs| && MaxCoord(vs, 0) == vs[jx].Get(0);
    var jy :| 0 <= jy < |vs| && MaxCoord(vs, 1) == vs[jy].Get(1);
    PointOfPoints(cs, ix);
    PointOfPoints(cs, iy);
    PointOfPoints(cs, jx);
    PointOfPoints(cs, jy);
  }

  /** Every point of `Points(cs)` comes from one of the contours. */
  lemma {:induction false} PointOfPoints(cs: seq<Contour>, i: nat)
    requires i < |Points(cs)|
    ensures exists c :: c in cs && Points(cs)[i] in c
    decreases |cs|
  {
    var front := cs[..|cs| - 1];
    var last := cs[|cs| - 1];
    assert Points(cs) == Points(front) + last;
    if i < |Points(front)| {
      PointOfPoints(front, i);
      var c :| c in front && Points(front)[i] in c;
      assert c in cs;
    } else {
      assert Points(cs)[i] == last[i - |Points(front)|];
      assert last in cs;
    }
  }
}
