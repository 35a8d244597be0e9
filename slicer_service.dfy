/** The slicing service the GUI calls: the material and profile presets, and an object that
    slices a list of meshes, keeps the last result, and exports it as a CLI file or as an
    SVG preview of one layer. */
module SlicingService {
  import opened Wrappers
  import opened Numeric
  import opened Geometry
  import opened Models
  import opened Slicing
  import opened CliExport
  import opened SvgPreview

  /** Laser parameters per material; the layer thickness is not part of them. */
  const MaterialPresets: map<string, Params> := map[
    "Ti-6Al-4V" := map["laser_power" := 200.0, "scan_speed" := 1000.0,
                       "hatch_spacing" := 0.10, "hatch_angle_increment" := 67.0],
    "316L Stainless" := map["laser_power" := 175.0, "scan_speed" := 800.0,
                            "hatch_spacing" := 0.12, "hatch_angle_increment" := 67.0],
    "AlSi10Mg" := map["laser_power" := 350.0, "scan_speed" := 1300.0,
                      "hatch_spacing" := 0.15, "hatch_angle_increment" := 67.0],
    "IN718" := map["laser_power" := 285.0, "scan_speed" := 960.0,
                   "hatch_spacing" := 0.11, "hatch_angle_increment" := 67.0]
  ]

  /** Layer thickness in mm per print profile. */
  const ProfilePresets: map<string, real> := map[
    "Fine (20 \U{00b5}m)" := 0.020,
    "Normal (30 \U{00b5}m)" := 0.030,
    "Draft (50 \U{00b5}m)" := 0.050
  ]

  /** Slicing with a material preset alone uses that material's laser settings and the
      default thickness of 0.03 mm; every preset is a valid positive-step run. */
  lemma MaterialPresetStyle(material: string)
    requires material in MaterialPresets
    ensures var s := StyleOf(MaterialPresets[material]);
            s.layerThickness == 0.03 &&
            s.laserPower == MaterialPresets[material]["laser_power"] &&
            s.scanSpeed == MaterialPresets[material]["scan_speed"] &&
            s.hatchSpacing == MaterialPresets[material]["hatch_spacing"] &&
            s.hatchAngleIncrement == 67.0
  {
  }

  /** The names and layers of a list of parts, read from the heap. */
  function PartValues(parts: seq<SLMPart>): (vs: seq<PartValue>)
    reads set p | p in parts
    ensures |vs| == |parts|
    decreases |parts|
  {
    if parts == [] then []
    else PartValues(parts[..|parts| - 1]) + [PartValue(parts[|parts| - 1].name, parts[|parts| - 1].layers)]
  }

  /** The meshes a list of parts were made from, read from the heap. */
  function PartMeshes(parts: seq<SLMPart>): (ms: seq<Mesh>)
    reads set p | p in parts
    ensures |ms| == |parts|
    decreases |parts|
  {
    if parts == [] then [] else PartMeshes(parts[..|parts| - 1]) + [parts[|parts| - 1].meshData]
  }

  function ItemMeshes(items: seq<MeshItem>): (ms: seq<Mesh>)
    ensures |ms| == |items|
    ensures forall i :: 0 <= i < |items| ==> ms[i] == items[i].mesh
  {
    seq(|items|, i requires 0 <= i < |items| => items[i].mesh)
  }

  /** What one more item adds to the layer count, the reports, the parts, the meshes and the
      summaries of a run. */
  lemma ItemStep(items: seq<MeshItem>, section: Section, t: real, expected: int, k: nat)
    requires k < |items|
    ensures var n := |PartLayers(section, items[k].mesh, t)|;
            var before := LayersBefore(items, k, t);
            && LayersBefore(items, k + 1, t) == before + n
            && ItemsEvents(items, k + 1, t, expected) ==
               ItemsEvents(items, k, t, expected) +
               [Progress(Fraction(before, expected), SlicingItem(items[k].name, k + 1, |items|))] +
               LayerEvents(items[k].name, n, n, before, expected)
            && SlicedParts(items, t, section)[..k + 1] ==
               SlicedParts(items, t, section)[..k] + [PartValue(items[k].name, PartLayers(section, items[k].mesh, t))]
            && ItemMeshes(items)[..k + 1] == ItemMeshes(items)[..k] + [items[k].mesh]
            && Summaries(items, t)[..k + 1] ==
               Summaries(items, t)[..k] + [PartSummary(items[k].name, n, (Lo(items[k].mesh).z, Hi(items[k].mesh).z))]
  {
    PrefixStep(SlicedParts(items, t, section), k);
    PrefixStep(ItemMeshes(items), k);
    PrefixStep(Summaries(items, t), k);
  }

  /** Appending a part appends its values and its mesh. */
  lemma PartsSnoc(parts: seq<SLMPart>, p: SLMPart)
    ensures PartValues(parts + [p]) == PartValues(parts) + [PartValue(p.name, p.layers)]
    ensures PartMeshes(parts + [p]) == PartMeshes(parts) + [p.meshData]
  {
    assert (parts + [p])[..|parts|] == parts;
  }

  lemma PrefixStep<T>(s: seq<T>, i: nat)
    requires i < |s|
    ensures s[..i + 1] == s[..i] + [s[i]]
  {
  }

  /** `export_cli` on an empty result raises `RuntimeError`. */
  datatype CliError = NoSliceData

  /** The thickness line of the CLI header: present when a summary is kept. */
  function HeaderThickness(result: Option<SliceSummary>): Option<real>
  {
    if result.Some? then Some(result.value.layerThickness) else None
  }

  class SlicerService {
    var lastResult: Option<SliceSummary>
    var lastParts: seq<SLMPart>

    constructor ()
      ensures lastResult == None && lastParts == []
    {
      lastResult := None;
      lastParts := [];
    }

    /** Slices every item: one part per item, one layer per height of its Z range, the
        progress reports in order, and the summary, which is also kept with the parts.  A
        zero thickness fails before anything is reported or kept.  `elapsed` stands for the
        clock, `section` for the mesh library and `sqrt` for `** 0.5`. */
    method Slice(items: seq<MeshItem>, params: Params, section: Section, elapsed: real, sqrt: real -> real)
      returns (r: Result<SliceSummary, SliceError>, events: seq<Progress>)
      requires IsSqrt(sqrt)
      modifies this`lastParts, this`lastResult
      ensures r == SliceOutcome(items, params, elapsed, sqrt)
      ensures r.Failure? ==> events == [] && lastResult == old(lastResult) && lastParts == old(lastParts)
      ensures r.Success? ==> events == ProgressTrace(items, StyleOf(params).layerThickness, elapsed)
      ensures r.Success? ==> lastResult == Some(r.value)
      ensures r.Success? ==> PartValues(lastParts) == SlicedParts(items, StyleOf(params).layerThickness, section)
      ensures r.Success? ==> PartMeshes(lastParts) == ItemMeshes(items)
      ensures r.Success? ==> r.value.totalLayers == TotalLayers(PartValues(lastParts))
    {
      var t := StyleOf(params).layerThickness;
      var expected := CountExpected(items, t);
      if expected.Failure? {
        assert SliceOutcome(items, params, elapsed, sqrt) == Failure(LayerCountConversion);
        r := Failure(LayerCountConversion);
        events := [];
        return;
      }
      var allParts, summaries, total, itemEvents := SliceItems(items, section, t, expected.value);
      SlicedPartsHoldAllLayers(items, t, section, |items|);
      assert SlicedParts(items, t, section)[..|items|] == SlicedParts(items, t, section);
      var est := EstimateBuildTime(params, total, Some(items), sqrt);
      events := [Progress(0.0, Starting)] + itemEvents + [Progress(1.0, Complete(total, elapsed))];
      var summary := SliceSummary(total, summaries, Round(elapsed, 3), Round(est, 2), t, params);
      r := Success(summary);
      Keep(allParts, summary);
    }

    /** `last_parts` and `last_result` are replaced together at the end of a run. */
    method Keep(parts: seq<SLMPart>, summary: SliceSummary)
      modifies this`lastParts, this`lastResult
      ensures lastParts == parts && lastResult == Some(summary)
      ensures PartValues(lastParts) == old(PartValues(parts))
      ensures PartMeshes(lastParts) == old(PartMeshes(parts))
    {
      lastParts := parts;
      lastResult := Some(summary);
    }

    /** The first pass of `Slice`: the layer count it expects, used to scale the progress;
        dividing by a zero thickness raises at the first item. */
    method CountExpected(items: seq<MeshItem>, t: real) returns (expected: Result<int, SliceError>)
      ensures expected.Failure? <==> t == 0.0 && items != []
      ensures expected.Success? ==> expected.value == ExpectedTotal(items, |items|, t)
    {
      var n := 0;
      var i := 0;
      while i < |items|
        invariant 0 <= i <= |items|
        invariant n == ExpectedTotal(items, i, t)
        invariant t == 0.0 ==> i == 0
      {
        if t == 0.0 {
          return Failure(LayerCountConversion);
        }
        var m := items[i].mesh;
        n := n + MaxInt(1, Trunc((Hi(m).z - Lo(m).z) / t));
        i := i + 1;
      }
      return Success(n);
    }

    /** The second pass of `Slice`: every item in order becomes a new part, with its summary
        and its progress reports. */
    method SliceItems(items: seq<MeshItem>, section: Section, t: real, expected: int)
      returns (allParts: seq<SLMPart>, summaries: seq<PartSummary>, total: nat, events: seq<Progress>)
      ensures PartValues(allParts) == SlicedParts(items, t, section)
      ensures PartMeshes(allParts) == ItemMeshes(items)
      ensures summaries == Summaries(items, t)
      ensures total == LayersBefore(items, |items|, t)
      ensures events == ItemsEvents(items, |items|, t, expected)
    {
      var processed := 0;
      events := [];
      total := 0;
      summaries := [];
      allParts := [];
      ghost var target := SlicedParts(items, t, section);

      var mi := 0;
      while mi < |items|
        invariant 0 <= mi <= |items|
        invariant |allParts| == mi
        invariant PartMeshes(allParts) == ItemMeshes(items)[..mi]
        invariant PartValues(allParts) == target[..mi]
        invariant processed == total == LayersBefore(items, mi, t)
        invariant events == ItemsEvents(items, mi, t, expected)
        invariant summaries == Summaries(items, t)[..mi]
      {
        var item := items[mi];
        ItemStep(items, section, t, expected, mi);
        var zMin, zMax := Lo(item.mesh).z, Hi(item.mesh).z;
        events := events + [Progress(Fraction(processed, expected), SlicingItem(item.name, mi + 1, |items|))];
        var part, layerEvents := SliceItem(item, section, t, expected, processed);
        processed := processed + |part.layers|;
        events := events + layerEvents;
        total := total + |part.layers|;
        PartsSnoc(allParts, part);
        allParts := allParts + [part];
        summaries := summaries + [PartSummary(item.name, |part.layers|, (zMin, zMax))];
        mi := mi + 1;
      }
      assert target[..|items|] == target;
      assert ItemMeshes(items)[..|items|] == ItemMeshes(items);
      assert Summaries(items, t)[..|items|] == Summaries(items, t);
    }

    /** One item of `Slice`: a new part holding one layer per height, in order, with the
        section's contours there, and a report after every twentieth layer starting with the
        first; `before` layers were processed before this item. */
    method SliceItem(item: MeshItem, section: Section, t: real, expected: int, before: nat)
      returns (part: SLMPart, layerEvents: seq<Progress>)
      ensures fresh(part)
      ensures part.name == item.name && part.meshData == item.mesh
      ensures part.layers == PartLayers(section, item.mesh, t)
      ensures layerEvents == LayerEvents(item.name, |part.layers|, |part.layers|, before, expected)
    {
      part := new SLMPart(item.name, item.mesh);
      var heights := Heights(Lo(item.mesh).z, Hi(item.mesh).z, t);
      var processed := before;
      layerEvents := [];
      var zi := 0;
      while zi < |heights|
        invariant 0 <= zi <= |heights|
        invariant part.name == item.name && part.meshData == item.mesh
        invariant part.layers == PartLayers(section, item.mesh, t)[..zi]
        invariant processed == before + zi
        invariant layerEvents == LayerEvents(item.name, zi, |heights|, before, expected)
      {
        var z := heights[zi];
        var outcome := section(item.mesh, z);
        var contours := if outcome.Sectioned? then outcome.contours else [];
        part.AddLayer(LayerOf(z, contours));
        processed := processed + 1;
        if zi % 20 == 0 {
          layerEvents := layerEvents + [Progress(Fraction(processed, expected), SlicingLayer(item.name, zi + 1, |heights|))];
        }
        zi := zi + 1;
      }
    }

    /** `export_cli`: fails when no run has produced parts; otherwise the file holds the
        header, with the kept thickness if there is a summary, every layer of every part in
        order, and the end marker, and the count returned is the number of layers written. */
    method ExportCli() returns (r: Result<nat, CliError>, lines: seq<CliLine>)
      ensures lastParts == [] ==> r == Failure(NoSliceData) && lines == []
      ensures lastParts != [] ==> r == Success(TotalLayers(PartValues(lastParts)))
      ensures lastParts != [] ==> lines == CliDocument(PartValues(lastParts), HeaderThickness(lastResult))
    {
      if lastParts == [] {
        return Failure(NoSliceData), [];
      }
      var thickness := HeaderThickness(lastResult);
      var header := WriteHeader(thickness);
      var body, written := WriteParts(PartValues(lastParts));
      lines := header + body + [End];
      r := Success(written);
    }

    /** `export_layer_svg`: nothing is written without parts, when a negative index reaches
        past the start of some part's layers the indexing raises, and otherwise a document is
        written exactly when the chosen layers hold a point. */
    method ExportLayerSvg(layerIndex: int) returns (r: Result<bool, SvgError>, doc: Option<SvgDoc>)
      ensures r.Failure? ==> doc == None && Preview(PartValues(lastParts), layerIndex) == Failure(r.error)
      ensures r.Success? ==> Preview(PartValues(lastParts), layerIndex) == Success(doc) && r.value == doc.Some?
    {
      if lastParts == [] {
        return Success(false), None;
      }
      var collected := CollectLayer(PartValues(lastParts), layerIndex);
      if collected.None? {
        return Failure(IndexError), None;
      }
      var contours := collected.value;
      if contours == [] {
        return Success(false), None;
      }
      var pts := Points(contours);
      if pts == [] {
        return Success(false), None;
      }
      var frame := Frame(pts);
      var drawn: seq<Contour> := [];
      var ci := 0;
      while ci < |contours|
        invariant 0 <= ci <= |contours|
        invariant drawn == Drawn(contours[..ci])
      {
        var c := contours[ci];
        if |c| >= 2 {
          drawn := drawn + [c];
        }
        assert contours[..ci + 1][..ci] == contours[..ci];
        ci := ci + 1;
      }
      assert contours[..|contours|] == contours;
      doc := Some(SvgDoc(frame, frame.w * 3.0, frame.h * 3.0, frame, drawn));
      r := Success(true);
    }
  }

  /** The header records, with the thickness line when one is given. */
  method WriteHeader(thickness: Option<real>) returns (lines: seq<CliLine>)
    ensures lines == Header(thickness)
  {
    lines := [HeaderStart, Ascii, Units];
    if thickness.Some? {
      lines := lines + [LayerThickness(thickness.value)];
    }
    lines := lines + [HeaderEnd, Blank];
  }

  /** The records of every part in order, with the number of layers written. */
  method WriteParts(pvs: seq<PartValue>) returns (lines: seq<CliLine>, written: nat)
    ensures lines == PartsLines(pvs) && written == TotalLayers(pvs)
  {
    lines := [];
    written := 0;
    var pi := 0;
    while pi < |pvs|
      invariant 0 <= pi <= |pvs|
      invariant lines == PartsLines(pvs[..pi]) && written == TotalLayers(pvs[..pi])
    {
      var part := pvs[pi];
      var partLines, count := WriteLayers(part.layers);
      PartsStep(pvs, pi);
      lines := lines + ([PartComment(part.name)] + partLines);
      written := written + count;
      pi := pi + 1;
    }
    assert pvs[..|pvs|] == pvs;
  }

  /** The contours of the chosen layer of every part, in part order; `None` when indexing
      some part raises. */
  method CollectLayer(pvs: seq<PartValue>, idx: int) returns (r: Option<seq<Contour>>)
    ensures r == LayerContours(pvs, idx)
  {
    var contours: seq<Contour> := [];
    var pi := 0;
    while pi < |pvs|
      invariant 0 <= pi <= |pvs|
      invariant LayerContours(pvs[..pi], idx) == Some(contours)
    {
      var layers := pvs[pi].layers;
      assert pvs[..pi + 1][..pi] == pvs[..pi];
      if idx < |layers| {
        if idx < -|layers| {
          LayerContoursStaysFailed(pvs, pi + 1, idx);
          return None;
        }
        contours := contours + layers[PyIndex(|layers|, idx)].contours;
      }
      pi := pi + 1;
    }
    assert pvs[..|pvs|] == pvs;
    r := Some(contours);
  }

  lemma PartsStep(pvs: seq<PartValue>, i: nat)
    requires i < |pvs|
    ensures PartsLines(pvs[..i + 1]) == PartsLines(pvs[..i]) + PartLines(pvs[i])
    ensures TotalLayers(pvs[..i + 1]) == TotalLayers(pvs[..i]) + |pvs[i].layers|
  {
    assert pvs[..i + 1][..i] == pvs[..i];
  }

  /** The records of one part's layers, with the number of layers written. */
  method WriteLayers(layers: seq<Layer>) returns (lines: seq<CliLine>, count: nat)
    ensures lines == LayersLines(layers) && count == |layers|
  {
    lines := [];
    count := 0;
    var li := 0;
    while li < |layers|
      invariant 0 <= li <= |layers|
      invariant lines == LayersLines(layers[..li]) && count == li
    {
      var layer := layers[li];
      var contourLines := WriteContours(layer.contours);
      lines := lines + [LayerStart(layer.zHeight)] + contourLines;
      count := count + 1;
      assert layers[..li + 1][..li] == layers[..li];
      li := li + 1;
    }
    assert layers[..|layers|] == layers;
  }

  /** The polylines of one layer: one per non-empty contour, in order. */
  method WriteContours(contours: seq<Contour>) returns (lines: seq<CliLine>)
    ensures lines == ContourLines(contours)
  {
    lines := [];
    var ci := 0;
    while ci < |contours|
      invariant 0 <= ci <= |contours|
      invariant lines == ContourLines(contours[..ci])
    {
      var c := contours[ci];
      if |c| > 0 {
        lines := lines + [Polyline(1, 1, |c|, Flatten(c))];
      }
      assert contours[..ci + 1][..ci] == contours[..ci];
      ci := ci + 1;
    }
    assert contours[..|contours|] == contours;
  }

  lemma LayerContoursStaysFailed(parts: seq<PartValue>, k: nat, idx: int)
    requires k <= |parts| && LayerContours(parts[..k], idx).None?
    ensures LayerContours(parts, idx).None?
  {
    LayerContoursFailsIff(parts[..k], idx);
    LayerContoursFailsIff(parts, idx);
    var i :| 0 <= i < k && idx < -|parts[..k][i].layers|;
    assert parts[i] == parts[..k][i];
  }
}
