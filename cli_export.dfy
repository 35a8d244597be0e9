/** The simplified ASCII Common Layer Interface file written from a slicing run, as a list
    of records (one per line of the file), and a reader that recovers from such a list the
    layer thickness and the layers with their non-empty contours. */
module CliExport {
  import opened Wrappers
  import opened Geometry
  import opened Models

  /** One line of the file.  The number formatting (`:.4f`) is not modelled: the records
      carry the values themselves. */
  datatype CliLine =
    | HeaderStart                    // $$HEADERSTART
    | Ascii                          // $$ASCII
    | Units                          // $$UNITS/1.0  ;; mm
    | LayerThickness(t: real)        // $$LAYER_THICKNESS/t
    | HeaderEnd                      // $$HEADEREND
    | Blank                          // the empty line after the header
    | PartComment(name: string)      // ;; Part: name
    | LayerStart(z: real)            // $$LAYER/z
    | Polyline(id: int, direction: int, count: nat, coords: seq<real>)  // $$POLYLINE/id,dir,n,x0,y0,...
    | End                            // $$END

  /** `contour.flatten()`: the coordinates x0, y0, x1, y1, ... */
  function Flatten(c: Contour): (r: seq<real>)
    ensures |r| == 2 * |c|
  {
    if c == [] then [] else [c[0].x, c[0].y] + Flatten(c[1..])
  }

  /** Pairs the coordinates back into points; a trailing odd value is dropped. */
  function Unflatten(coords: seq<real>): Contour
    decreases |coords|
  {
    if |coords| < 2 then [] else [Point2(coords[0], coords[1])] + Unflatten(coords[2..])
  }

  /** Flattening loses nothing: the points come back in order. */
  lemma {:induction false} UnflattenFlatten(c: Contour)
    ensures Unflatten(Flatten(c)) == c
  {
    if c != [] {
      UnflattenFlatten(c[1..]);
      assert Flatten(c)[2..] == Flatten(c[1..]);
    }
  }

  /** The header: start marker, format, units, the thickness when one is given, end marker
      and a blank line. */
  function Header(thickness: Option<real>): seq<CliLine>
  {
    [HeaderStart, Ascii, Units] +
    (if thickness.Some? then [LayerThickness(thickness.value)] else []) +
    [HeaderEnd, Blank]
  }

  /** The header opens with its start marker, closes with its end marker and a blank line,
      and holds a thickness line exactly when a thickness is given, carrying that value. */
  lemma HeaderShape(thickness: Option<real>)
    ensures var h := Header(thickness);
            |h| >= 5 && h[0] == HeaderStart && h[|h| - 2] == HeaderEnd && h[|h| - 1] == Blank &&
            ((exists i :: 0 <= i < |h| && h[i].LayerThickness?) <==> thickness.Some?) &&
            (forall i :: 0 <= i < |h| && h[i].LayerThickness? ==> h[i].t == thickness.value)
  {
    var h := Header(thickness);
    if thickness.Some? {
      assert h[3].LayerThickness?;
    }
  }

  /** The line written for one contour: none for an empty contour. */
  function ContourLine(c: Contour): seq<CliLine>
  {
    if |c| > 0 then [Polyline(1, 1, |c|, Flatten(c))] else []
  }

  function ContourLines(cs: seq<Contour>): seq<CliLine>
    decreases |cs|
  {
    if cs == [] then [] else ContourLines(cs[..|cs| - 1]) + ContourLine(cs[|cs| - 1])
  }

  function LayerLines(l: Layer): seq<CliLine>
  {
    [LayerStart(l.zHeight)] + ContourLines(l.contours)
  }

  function LayersLines(ls: seq<Layer>): seq<CliLine>
    decreases |ls|
  {
    if ls == [] then [] else LayersLines(ls[..|ls| - 1]) + LayerLines(ls[|ls| - 1])
  }

  function PartLines(p: PartValue): seq<CliLine>
  {
    [PartComment(p.name)] + LayersLines(p.layers)
  }

  function PartsLines(ps: seq<PartValue>): seq<CliLine>
    decreases |ps|
  {
    if ps == [] then [] else PartsLines(ps[..|ps| - 1]) + PartLines(ps[|ps| - 1])
  }

  /** The whole file: header, every part with every layer, and the end marker. */
  function CliDocument(ps: seq<PartValue>, thickness: Option<real>): seq<CliLine>
  {
    Header(thickness) + PartsLines(ps) + [End]
  }

  // ---------------------------------------------------------------------------
  //  Reading a file back
  // ---------------------------------------------------------------------------

  /** What a reader has gathered so far. */
  datatype Reading = Reading(thickness: Option<real>, parts: seq<PartValue>)

  predicate HasLayer(r: Reading)
  {
    r.parts != [] && r.parts[|r.parts| - 1].layers != []
  }

  /** Appends layers to the last part read. */
  function AddLayers(r: Reading, ls: seq<Layer>): Reading
    requires r.parts != []
  {
    var n := |r.parts|;
    var p := r.parts[n - 1];
    r.(parts := r.parts[..n - 1] + [p.(layers := p.layers + ls)])
  }

  /** Appends contours to the last layer of the last part read. */
  function AddContours(r: Reading, cs: seq<Contour>): Reading
    requires HasLayer(r)
  {
    var n := |r.parts|;
    var p := r.parts[n - 1];
    var m := |p.layers|;
    var l := p.layers[m - 1];
    r.(parts := r.parts[..n - 1] + [p.(layers := p.layers[..m - 1] + [l.(contours := l.contours + cs)])])
  }

  /** One line read: a part comment opens a part, a layer line opens a layer in it, and a
      polyline adds a contour to that layer; anything out of place is ignored. */
  function Step(r: Reading, line: CliLine): Reading
  {
    match line
    case LayerThickness(t) => r.(thickness := Some(t))
    case PartComment(name) => r.(parts := r.parts + [PartValue(name, [])])
    case LayerStart(z) => if r.parts == [] then r else AddLayers(r, [EmptyLayer(z)])
    case Polyline(_, _, _, coords) => if HasLayer(r) then AddContours(r, [Unflatten(coords)]) else r
    case _ => r
  }

  function ReadFrom(r: Reading, lines: seq<CliLine>): Reading
    decreases |lines|
  {
    if lines == [] then r else ReadFrom(Step(r, lines[0]), lines[1..])
  }

  function ReadCli(lines: seq<CliLine>): Reading
  {
    ReadFrom(Reading(None, []), lines)
  }

  /** The contours a file keeps: the non-empty ones. */
  function NonEmpty(cs: seq<Contour>): seq<Contour>
    decreases |cs|
  {
    if cs == [] then []
    else NonEmpty(cs[..|cs| - 1]) + (if |cs[|cs| - 1]| > 0 then [cs[|cs| - 1]] else [])
  }

  /** What the file keeps of a layer: its height and its non-empty contours, not its hatches. */
  function Stripped(l: Layer): Layer
  {
    LayerOf(l.zHeight, NonEmpty(l.contours))
  }

  function StrippedLayers(ls: seq<Layer>): (r: seq<Layer>)
    ensures |r| == |ls|
    ensures forall i :: 0 <= i < |ls| ==> r[i] == Stripped(ls[i])
  {
    seq(|ls|, i requires 0 <= i < |ls| => Stripped(ls[i]))
  }

  function StrippedParts(ps: seq<PartValue>): (r: seq<PartValue>)
    ensures |r| == |ps|
    ensures forall i :: 0 <= i < |ps| ==> r[i] == PartValue(ps[i].name, StrippedLayers(ps[i].layers))
  {
    seq(|ps|, i requires 0 <= i < |ps| => PartValue(ps[i].name, StrippedLayers(ps[i].layers)))
  }

  lemma {:induction false} ReadFromAppend(r: Reading, a: seq<CliLine>, b: seq<CliLine>)
    ensures ReadFrom(r, a + b) == ReadFrom(ReadFrom(r, a), b)
    decreases |a|
  {
    if a == [] {
      assert a + b == b;
    } else {
      assert (a + b)[0] == a[0];
      assert (a + b)[1..] == a[1..] + b;
      ReadFromAppend(Step(r, a[0]), a[1..], b);
    }
  }

  lemma ReadOne(r: Reading, line: CliLine)
    ensures ReadFrom(r, [line]) == Step(r, line)
  {
    assert [line][1..] == [];
  }

  lemma AddContoursTwice(r: Reading, a: seq<Contour>, b: seq<Contour>)
    requires HasLayer(r)
    ensures HasLayer(AddContours(r, a))
    ensures AddContours(AddContours(r, a), b) == AddContours(r, a + b)
  {
    var n := |r.parts|;
    var p := r.parts[n - 1];
    var m := |p.layers|;
    var l := p.layers[m - 1];
    var r1 := AddContours(r, a);
    var p1 := p.(layers := p.layers[..m - 1] + [l.(contours := l.contours + a)]);
    assert r1.parts == r.parts[..n - 1] + [p1];
    assert r1.parts[..n - 1] == r.parts[..n - 1];
    assert p1.layers[..m - 1] == p.layers[..m - 1];
    assert l.contours + a + b == l.contours + (a + b);
  }

  lemma AddContoursNone(r: Reading)
    requires HasLayer(r)
    ensures AddContours(r, []) == r
  {
    var p := r.parts[|r.parts| - 1];
    var l := p.layers[|p.layers| - 1];
    assert l.(contours := l.contours + []) == l;
    assert p.layers[..|p.layers| - 1] + [l] == p.layers;
    assert r.parts[..|r.parts| - 1] + [p] == r.parts;
  }

  lemma AddLayersTwice(r: Reading, a: seq<Layer>, b: seq<Layer>)
    requires r.parts != []
    ensures AddLayers(AddLayers(r, a), b) == AddLayers(r, a + b)
  {
    var n := |r.parts|;
    var p := r.parts[n - 1];
    var r1 := AddLayers(r, a);
    assert r1.parts[..n - 1] == r.parts[..n - 1];
    assert p.layers + a + b == p.layers + (a + b);
  }

  lemma AddLayersNone(r: Reading)
    requires r.parts != []
    ensures AddLayers(r, []) == r
  {
    var p := r.parts[|r.parts| - 1];
    assert p.(layers := p.layers + []) == p;
    assert r.parts[..|r.parts| - 1] + [p] == r.parts;
  }

  lemma {:induction false} ReadContourLines(r: Reading, cs: seq<Contour>)
    requires HasLayer(r)
    ensures ReadFrom(r, ContourLines(cs)) == AddContours(r, NonEmpty(cs))
    decreases |cs|
  {
    if cs == [] {
      AddContoursNone(r);
    } else {
      var front := cs[..|cs| - 1];
      var c := cs[|cs| - 1];
      ReadContourLines(r, front);
      var mid := AddContours(r, NonEmpty(front));
      ReadFromAppend(r, ContourLines(front), ContourLine(c));
      AddContoursTwice(r, NonEmpty(front), if |c| > 0 then [c] else []);
      if |c| > 0 {
        UnflattenFlatten(c);
        ReadOne(mid, Polyline(1, 1, |c|, Flatten(c)));
      } else {
        AddContoursNone(mid);
        assert NonEmpty(front) + [] == NonEmpty(front);
      }
    }
  }

  lemma AddContoursToNewLayer(r: Reading, z: real, cs: seq<Contour>)
    requires r.parts != []
    ensures HasLayer(AddLayers(r, [EmptyLayer(z)]))
    ensures AddContours(AddLayers(r, [EmptyLayer(z)]), cs) == AddLayers(r, [LayerOf(z, cs)])
  {
    var n := |r.parts|;
    var p := r.parts[n - 1];
    var q := p.(layers := p.layers + [EmptyLayer(z)]);
    var started := AddLayers(r, [EmptyLayer(z)]);
    assert started.parts == r.parts[..n - 1] + [q];
    assert started.parts[..n - 1] == r.parts[..n - 1];
    assert started.parts[n - 1] == q;
    assert q.layers[..|q.layers| - 1] == p.layers;
    assert q.layers[|q.layers| - 1] == EmptyLayer(z);
    assert EmptyLayer(z).(contours := [] + cs) == LayerOf(z, cs);
  }

  lemma ReadLayerLines(r: Reading, l: Layer)
    requires r.parts != []
    ensures ReadFrom(r, LayerLines(l)) == AddLayers(r, [Stripped(l)])
  {
    var started := AddLayers(r, [EmptyLayer(l.zHeight)]);
    ReadFromAppend(r, [LayerStart(l.zHeight)], ContourLines(l.contours));
    ReadOne(r, LayerStart(l.zHeight));
    assert ReadFrom(r, [LayerStart(l.zHeight)]) == started;
    AddContoursToNewLayer(r, l.zHeight, NonEmpty(l.contours));
    ReadContourLines(started, l.contours);
  }

  lemma {:induction false} ReadLayersLines(r: Reading, ls: seq<Layer>)
    requires r.parts != []
    ensures ReadFrom(r, LayersLines(ls)) == AddLayers(r, StrippedLayers(ls))
    decreases |ls|
  {
    if ls == [] {
      AddLayersNone(r);
    } else {
      var front := ls[..|ls| - 1];
      ReadLayersLines(r, front);
      var mid := AddLayers(r, StrippedLayers(front));
      ReadFromAppend(r, LayersLines(front), LayerLines(ls[|ls| - 1]));
      ReadLayerLines(mid, ls[|ls| - 1]);
      AddLayersTwice(r, StrippedLayers(front), [Stripped(ls[|ls| - 1])]);
      assert StrippedLayers(front) + [Stripped(ls[|ls| - 1])] == StrippedLayers(ls);
    }
  }

  lemma ReadPartLines(r: Reading, p: PartValue)
    ensures ReadFrom(r, PartLines(p)) == r.(parts := r.parts + [PartValue(p.name, StrippedLayers(p.layers))])
  {
    ReadFromAppend(r, [PartComment(p.name)], LayersLines(p.layers));
    ReadOne(r, PartComment(p.name));
    var started := r.(parts := r.parts + [PartValue(p.name, [])]);
    ReadLayersLines(started, p.layers);
    var n := |started.parts|;
    assert started.parts[..n - 1] == r.parts;
    assert started.parts[n - 1] == PartValue(p.name, []);
    assert [] + StrippedLayers(p.layers) == StrippedLayers(p.layers);
  }

  lemma {:induction false} ReadPartsLines(r: Reading, ps: seq<PartValue>)
    ensures ReadFrom(r, PartsLines(ps)) == r.(parts := r.parts + StrippedParts(ps))
    decreases |ps|
  {
    if ps == [] {
      assert r.parts + [] == r.parts;
    } else {
      var front := ps[..|ps| - 1];
      var p := ps[|ps| - 1];
      ReadPartsLines(r, front);
      var mid := r.(parts := r.parts + StrippedParts(front));
      ReadFromAppend(r, PartsLines(front), PartLines(p));
      ReadPartLines(mid, p);
      assert StrippedParts(front) + [PartValue(p.name, StrippedLayers(p.layers))] == StrippedParts(ps);
    }
  }

  lemma ReadHeader(thickness: Option<real>)
    ensures ReadFrom(Reading(None, []), Header(thickness)) == Reading(thickness, [])
  {
    var r0 := Reading(None, []);
    var h := Header(thickness);
    var tail := [HeaderEnd, Blank];
    assert ReadFrom(r0, tail) == r0 by {
      assert tail[1..] == [Blank];
      ReadOne(r0, Blank);
    }
    var r1 := Reading(thickness, []);
    assert ReadFrom(r1, tail) == r1 by {
      assert tail[1..] == [Blank];
      ReadOne(r1, Blank);
    }
    var front := [HeaderStart, Ascii, Units];
    assert ReadFrom(r0, front) == r0 by {
      assert front[1..] == [Ascii, Units];
      assert front[1..][1..] == [Units];
      ReadOne(r0, Units);
    }
    if thickness.Some? {
      var mid := [LayerThickness(thickness.value)];
      assert h == front + mid + tail;
      ReadFromAppend(r0, front + mid, tail);
      ReadFromAppend(r0, front, mid);
      ReadOne(r0, LayerThickness(thickness.value));
    } else {
      assert h == front + tail;
      ReadFromAppend(r0, front, tail);
    }
  }

  /** Reading back a written file gives the thickness of its header and every part with every
      layer at its height, holding the layer's non-empty contours in their order. */
  lemma CliRoundTrip(ps: seq<PartValue>, thickness: Option<real>)
    ensures ReadCli(CliDocument(ps, thickness)) == Reading(thickness, StrippedParts(ps))
  {
    var start := Reading(None, []);
    var h := Header(thickness);
    ReadFromAppend(start, h + PartsLines(ps), [End]);
    ReadFromAppend(start, h, PartsLines(ps));
    var afterHeader := Reading(thickness, []);
    ReadHeader(thickness);
    ReadPartsLines(afterHeader, ps);
    assert [] + StrippedParts(ps) == StrippedParts(ps);
    var final := ReadFrom(afterHeader, PartsLines(ps));
    ReadOne(final, End);
  }
}
