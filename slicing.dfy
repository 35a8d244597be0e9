/** What one slicing run computes, stated as functions of its inputs: the build style read
    from the parameter dictionary, the layer heights of each part, the layers themselves,
    the progress reports, the build-time estimate and the summary the run returns. */
module Slicing {
  import opened Wrappers
  import opened Numeric
  import opened Geometry
  import opened Models

  /** The GUI's parameter dictionary. */
  type Params = map<string, real>

  /** `params.get(key, default)`. */
  function Param(params: Params, key: string, default: real): (v: real)
    ensures key in params ==> v == params[key]
    ensures key !in params ==> v == default
  {
    if key in params then params[key] else default
  }

  /** The style a run slices with: each of the five numbers is taken from the dictionary
      when present and otherwise falls back to its default. */
  function StyleOf(params: Params): (s: BuildStyle)
    ensures s.name == "GUI_Style"
    ensures s.layerThickness == (if "layer_thickness" in params then params["layer_thickness"] else 0.03)
    ensures s.laserPower == (if "laser_power" in params then params["laser_power"] else 200.0)
    ensures s.scanSpeed == (if "scan_speed" in params then params["scan_speed"] else 1000.0)
    ensures s.hatchSpacing == (if "hatch_spacing" in params then params["hatch_spacing"] else 0.10)
    ensures s.hatchAngleIncrement ==
            (if "hatch_angle_increment" in params then params["hatch_angle_increment"] else 67.0)
  {
    BuildStyle("GUI_Style",
               Param(params, "layer_thickness", 0.03),
               Param(params, "laser_power", 200.0),
               Param(params, "scan_speed", 1000.0),
               Param(params, "hatch_spacing", 0.10),
               Param(params, "hatch_angle_increment", 67.0))
  }

  // ---------------------------------------------------------------------------
  //  Layer heights
  // ---------------------------------------------------------------------------

  /** The length of `np.arange(zMin, zMax, t)`: the number of steps of `t` from `zMin`
      that stay below `zMax`, none when `t` points away from `zMax`.  A zero step never
      gets here: the run fails on it first. */
  function LayerCount(zMin: real, zMax: real, t: real): nat
  {
    if t == 0.0 then 0 else MaxInt(0, Ceil((zMax - zMin) / t))
  }

  /** `np.arange(zMin, zMax, t)`. */
  function Heights(zMin: real, zMax: real, t: real): (hs: seq<real>)
    ensures |hs| == LayerCount(zMin, zMax, t)
    ensures forall i :: 0 <= i < |hs| ==> hs[i] == zMin + i as real * t
  {
    seq(LayerCount(zMin, zMax, t), i => zMin + i as real * t)
  }

  lemma MulLess(a: real, b: real, t: real)
    requires a < b && t > 0.0
    ensures a * t < b * t
  {
    MulPositive(b - a, t);
  }

  /** The height of layer `i` lies in `[zMin, zMax)`. */
  lemma HeightInRange(zMin: real, zMax: real, t: real, i: nat)
    requires t > 0.0 && i < LayerCount(zMin, zMax, t)
    ensures zMin <= zMin + i as real * t < zMax
  {
    var q := (zMax - zMin) / t;
    assert q * t == zMax - zMin;
    assert i as real < q;
    MulNonNegative(i as real, t);
    MulLess(i as real, q, t);
  }

  /** A later layer is higher. */
  lemma HeightsIncrease(zMin: real, t: real, i: nat, j: nat)
    requires i < j && t > 0.0
    ensures zMin + i as real * t < zMin + j as real * t
  {
    MulLess(i as real, j as real, t);
  }

  /** The step after the last layer reaches `zMax`, and there is no layer when `zMax` is not
      above `zMin`. */
  lemma LayerCountReachesTop(zMin: real, zMax: real, t: real)
    requires t > 0.0
    ensures zMin < zMax ==> zMax <= zMin + LayerCount(zMin, zMax, t) as real * t
    ensures zMax <= zMin ==> LayerCount(zMin, zMax, t) == 0
  {
    var n := LayerCount(zMin, zMax, t);
    var q := (zMax - zMin) / t;
    assert q * t == zMax - zMin;
    if zMin < zMax {
      assert q > 0.0;
      assert q <= n as real;
      if q < n as real {
        MulLess(q, n as real, t);
      }
    } else {
      assert q <= 0.0 by {
        if q > 0.0 {
          MulPositive(q, t);
        }
      }
    }
  }

  /** With a positive step the heights climb from `zMin`, stay below `zMax`, and the step
      after the last one reaches `zMax`: the layers cover the part and no more. */
  lemma HeightsCoverRange(zMin: real, zMax: real, t: real)
    requires t > 0.0
    ensures forall i :: 0 <= i < |Heights(zMin, zMax, t)| ==> zMin <= Heights(zMin, zMax, t)[i] < zMax
    ensures forall i, j :: 0 <= i < j < |Heights(zMin, zMax, t)| ==>
              Heights(zMin, zMax, t)[i] < Heights(zMin, zMax, t)[j]
    ensures zMin < zMax ==> zMax <= zMin + |Heights(zMin, zMax, t)| as real * t
    ensures zMax <= zMin ==> Heights(zMin, zMax, t) == []
  {
    var hs := Heights(zMin, zMax, t);
    forall i | 0 <= i < |hs|
      ensures zMin <= hs[i] < zMax
    {
      HeightInRange(zMin, zMax, t, i);
    }
    HeightsClimb(zMin, zMax, t);
    LayerCountReachesTop(zMin, zMax, t);
  }

  /** With a positive step the heights strictly increase. */
  lemma HeightsClimb(zMin: real, zMax: real, t: real)
    requires t > 0.0
    ensures forall i, j :: 0 <= i < j < |Heights(zMin, zMax, t)| ==>
              Heights(zMin, zMax, t)[i] < Heights(zMin, zMax, t)[j]
  {
    var hs := Heights(zMin, zMax, t);
    forall i, j | 0 <= i < j < |hs|
      ensures hs[i] < hs[j]
    {
      HeightsIncrease(zMin, t, i, j);
      assert hs[i] == zMin + i as real * t;
      assert hs[j] == zMin + j as real * t;
    }
  }

  /** A negative step never reaches a top above the bottom: `np.arange` is empty. */
  lemma NegativeStepHasNoHeights(zMin: real, zMax: real, t: real)
    requires t < 0.0 && zMin <= zMax
    ensures Heights(zMin, zMax, t) == []
  {
    var q := (zMax - zMin) / t;
    assert q * t == zMax - zMin;
    assert q <= 0.0 by {
      if q > 0.0 {
        MulPositive(q, -t);
      }
    }
  }

  // ---------------------------------------------------------------------------
  //  Sectioning and the layers of a part
  // ---------------------------------------------------------------------------

  /** What `mesh.section(...)` followed by `to_planar()` yields at one height: it raises,
      finds nothing, or gives the planar outlines found there. */
  datatype SectionOutcome = Raised | NoSection | Sectioned(contours: seq<Contour>)

  /** The mesh library's cross-section at a height; a parameter of the model. */
  type Section = (Mesh, real) -> SectionOutcome

  /** The contours kept for one layer: an exception or a missing section leaves none. */
  function ContoursAt(section: Section, m: Mesh, z: real): (cs: seq<Contour>)
    ensures section(m, z).Sectioned? ==> cs == section(m, z).contours
    ensures !section(m, z).Sectioned? ==> cs == []
  {
    match section(m, z)
    case Sectioned(contours) => contours
    case _ => []
  }

  function ItemLayerCount(item: MeshItem, t: real): nat
  {
    LayerCount(Lo(item.mesh).z, Hi(item.mesh).z, t)
  }

  /** The layers a part receives: one per height of its Z range, in order. */
  function PartLayers(section: Section, m: Mesh, t: real): (ls: seq<Layer>)
    ensures |ls| == LayerCount(Lo(m).z, Hi(m).z, t)
  {
    var hs := Heights(Lo(m).z, Hi(m).z, t);
    seq(|hs|, i requires 0 <= i < |hs| => LayerOf(hs[i], ContoursAt(section, m, hs[i])))
  }

  /** Every layer of a part lies within the part's Z range, the layers climb strictly,
      and each carries exactly the section contours at its height and no hatches. */
  lemma PartLayersAreOrdered(section: Section, m: Mesh, t: real)
    requires t > 0.0
    ensures forall i :: 0 <= i < |PartLayers(section, m, t)| ==>
              Lo(m).z <= PartLayers(section, m, t)[i].zHeight < Hi(m).z &&
              PartLayers(section, m, t)[i].zHeight == Lo(m).z + i as real * t &&
              PartLayers(section, m, t)[i].contours == ContoursAt(section, m, Lo(m).z + i as real * t) &&
              PartLayers(section, m, t)[i].hatches == []
    ensures forall i, j :: 0 <= i < j < |PartLayers(section, m, t)| ==>
              PartLayers(section, m, t)[i].zHeight < PartLayers(section, m, t)[j].zHeight
  {
    HeightsCoverRange(Lo(m).z, Hi(m).z, t);
  }

  /** The parts a run produces, one per item in the items' order. */
  function SlicedParts(items: seq<MeshItem>, t: real, section: Section): (ps: seq<PartValue>)
    ensures |ps| == |items|
    ensures forall i :: 0 <= i < |items| ==> ps[i].name == items[i].name
  {
    seq(|items|, i requires 0 <= i < |items| => PartValue(items[i].name, PartLayers(section, items[i].mesh, t)))
  }

  /** The number of layers held by a list of parts. */
  function TotalLayers(parts: seq<PartValue>): nat
    decreases |parts|
  {
    if parts == [] then 0 else TotalLayers(parts[..|parts| - 1]) + |parts[|parts| - 1].layers|
  }

  /** The number of layers the first `k` items receive. */
  function LayersBefore(items: seq<MeshItem>, k: nat, t: real): nat
    requires k <= |items|
  {
    if k == 0 then 0 else LayersBefore(items, k - 1, t) + ItemLayerCount(items[k - 1], t)
  }

  /** However the section behaves, the parts hold as many layers as the heights count. */
  lemma {:induction false} SlicedPartsHoldAllLayers(items: seq<MeshItem>, t: real, section: Section, k: nat)
    requires k <= |items|
    ensures TotalLayers(SlicedParts(items, t, section)[..k]) == LayersBefore(items, k, t)
  {
    if k > 0 {
      SlicedPartsHoldAllLayers(items, t, section, k - 1);
      var ps := SlicedParts(items, t, section);
      assert ps[..k][..k - 1] == ps[..k - 1];
    }
  }

  // ---------------------------------------------------------------------------
  //  Progress reports
  // ---------------------------------------------------------------------------

  /** `int((z_max - z_min) / t)` floored at one: the estimate used to scale progress. */
  function ExpectedLayers(item: MeshItem, t: real): (n: int)
    ensures n >= 1
  {
    if t == 0.0 then 1 else MaxInt(1, Trunc((Hi(item.mesh).z - Lo(item.mesh).z) / t))
  }

  function ExpectedTotal(items: seq<MeshItem>, k: nat, t: real): (n: int)
    requires k <= |items|
    ensures n >= k
  {
    if k == 0 then 0 else ExpectedTotal(items, k - 1, t) + ExpectedLayers(items[k - 1], t)
  }

  /** The estimate is at most one layer short of the real count: `int` truncates where
      `np.arange` rounds up. */
  lemma ExpectedLayersIsCloseBelow(item: MeshItem, t: real)
    requires t > 0.0
    ensures ItemLayerCount(item, t) <= ExpectedLayers(item, t) + 1
  {
    var d := Hi(item.mesh).z - Lo(item.mesh).z;
    var e := Extents(item.mesh);
    assert d == e.z;
    var q := d / t;
    assert q * t == d;
    assert q >= 0.0 by {
      if q < 0.0 {
        MulPositive(-q, t);
      }
    }
  }

  /** The text of a progress report, as its parts. */
  datatype ProgressMessage =
    | Starting
    | SlicingItem(name: string, ordinal: nat, count: nat)
    | SlicingLayer(partName: string, layerNo: nat, layerCount: nat)
    | Complete(totalLayers: nat, elapsed: real)

  datatype Progress = Progress(fraction: real, message: ProgressMessage)

  /** `processed / max(1, expected)`. */
  function Fraction(processed: nat, expected: int): (f: real)
    ensures f >= 0.0
  {
    processed as real / MaxInt(1, expected) as real
  }

  lemma FractionMonotone(p: nat, q: nat, expected: int)
    requires p <= q
    ensures Fraction(p, expected) <= Fraction(q, expected)
  {
    var d := MaxInt(1, expected) as real;
    assert Fraction(q, expected) - Fraction(p, expected) == (q - p) as real / d;
  }

  /** The reports made while slicing the first `k` layers of a part with `n` layers, after
      `before` layers of earlier parts: one after every twentieth layer, starting with the first. */
  function LayerEvents(name: string, k: nat, n: nat, before: nat, expected: int): seq<Progress>
  {
    if k == 0 then []
    else
      LayerEvents(name, k - 1, n, before, expected) +
      (if (k - 1) % 20 == 0 then [Progress(Fraction(before + k, expected), SlicingLayer(name, k, n))] else [])
  }

  /** The reports made for the first `k` items: one as each item starts, then its layer reports. */
  function ItemsEvents(items: seq<MeshItem>, k: nat, t: real, expected: int): seq<Progress>
    requires k <= |items|
  {
    if k == 0 then []
    else
      var item := items[k - 1];
      var before := LayersBefore(items, k - 1, t);
      var n := ItemLayerCount(item, t);
      ItemsEvents(items, k - 1, t, expected) +
      [Progress(Fraction(before, expected), SlicingItem(item.name, k, |items|))] +
      LayerEvents(item.name, n, n, before, expected)
  }

  /** Every report a successful run makes, in order: it opens at 0.0 and closes at 1.0. */
  function ProgressTrace(items: seq<MeshItem>, t: real, elapsed: real): (tr: seq<Progress>)
    ensures |tr| >= 2 + |items|
    ensures tr[0] == Progress(0.0, Starting)
    ensures tr[|tr| - 1] == Progress(1.0, Complete(LayersBefore(items, |items|, t), elapsed))
  {
    ItemsEventsCount(items, |items|, t, ExpectedTotal(items, |items|, t));
    [Progress(0.0, Starting)] +
    ItemsEvents(items, |items|, t, ExpectedTotal(items, |items|, t)) +
    [Progress(1.0, Complete(LayersBefore(items, |items|, t), elapsed))]
  }

  /** A part with `n` layers reports ceil(n / 20) times. */
  lemma {:induction false} LayerEventsCount(name: string, k: nat, n: nat, before: nat, expected: int)
    ensures |LayerEvents(name, k, n, before, expected)| == (k + 19) / 20
  {
    if k > 0 {
      LayerEventsCount(name, k - 1, n, before, expected);
    }
  }

  lemma {:induction false} ItemsEventsCount(items: seq<MeshItem>, k: nat, t: real, expected: int)
    requires k <= |items|
    ensures |ItemsEvents(items, k, t, expected)| >= k
  {
    if k > 0 {
      ItemsEventsCount(items, k - 1, t, expected);
    }
  }

  /** The layer reports of one part rise, and lie strictly after the part's start. */
  lemma {:induction false} LayerEventsRise(name: string, k: nat, n: nat, before: nat, expected: int)
    ensures forall i, j :: 0 <= i <= j < |LayerEvents(name, k, n, before, expected)| ==>
              Fraction(before, expected) <= LayerEvents(name, k, n, before, expected)[i].fraction
                                         <= LayerEvents(name, k, n, before, expected)[j].fraction
                                         <= Fraction(before + k, expected)
  {
    if k > 0 {
      LayerEventsRise(name, k - 1, n, before, expected);
      FractionMonotone(before + k - 1, before + k, expected);
      FractionMonotone(before, before + k, expected);
    }
  }

  /** The reports made before the final one never go backwards, and stay between 0 and
      the share of layers processed so far. */
  lemma {:induction false} ItemsEventsRise(items: seq<MeshItem>, k: nat, t: real, expected: int)
    requires k <= |items|
    ensures forall i, j :: 0 <= i <= j < |ItemsEvents(items, k, t, expected)| ==>
              ItemsEvents(items, k, t, expected)[i].fraction <= ItemsEvents(items, k, t, expected)[j].fraction
                                                             <= Fraction(LayersBefore(items, k, t), expected)
  {
    if k > 0 {
      ItemsEventsRise(items, k - 1, t, expected);
      var before := LayersBefore(items, k - 1, t);
      var n := ItemLayerCount(items[k - 1], t);
      LayerEventsRise(items[k - 1].name, n, n, before, expected);
      FractionMonotone(before, before + n, expected);
      var prev := ItemsEvents(items, k - 1, t, expected);
      var mid := [Progress(Fraction(before, expected), SlicingItem(items[k - 1].name, k, |items|))];
      var tail := LayerEvents(items[k - 1].name, n, n, before, expected);
      var ev := ItemsEvents(items, k, t, expected);
      assert ev == prev + mid + tail;
      forall i, j | 0 <= i <= j < |ev|
        ensures ev[i].fraction <= ev[j].fraction <= Fraction(before + n, expected)
      {
        if j < |prev| {
          assert ev[i] == prev[i] && ev[j] == prev[j];
        } else if j == |prev| {
          assert ev[j] == mid[0];
          if i < |prev| {
            assert ev[i] == prev[i];
          }
        } else {
          assert ev[j] == tail[j - |prev| - 1];
          if i < |prev| {
            assert ev[i] == prev[i];
          } else if i == |prev| {
            assert ev[i] == mid[0];
          } else {
            assert ev[i] == tail[i - |prev| - 1];
          }
        }
      }
    }
  }

  // ---------------------------------------------------------------------------
  //  Build-time estimate
  // ---------------------------------------------------------------------------

  /** The summed footprints `extents.x * extents.y` of the items. */
  function FootprintArea(items: seq<MeshItem>): (a: real)
    ensures a >= 0.0
  {
    if items == [] then 0.0
    else
      var e := Extents(items[0].mesh);
      MulNonNegative(e.x, e.y);
      e.x * e.y + FootprintArea(items[1..])
  }

  /** Seconds of laser scanning per layer: the area is swept by lines `hatch_spacing` apart
      (at least 0.01 mm), each as long as the square root of the area (at least 1 mm), at
      `scan_speed` (at least 1 mm/s).  Without items the area is taken as 2500 mm². */
  function ScanSecondsPerLayer(params: Params, meshes: Option<seq<MeshItem>>, sqrt: real -> real): (s: real)
    requires IsSqrt(sqrt)
    ensures s >= 0.0
  {
    var speed := Param(params, "scan_speed", 1000.0);
    var spacing := Param(params, "hatch_spacing", 0.10);
    var area := if meshes.Some? && meshes.value != [] then FootprintArea(meshes.value) else 2500.0;
    var lines := area / Max(spacing, 0.01);
    var avg := Max(sqrt(area), 1.0);
    MulNonNegative(lines, avg);
    (lines * avg) / Max(speed, 1.0)
  }

  /** The recoater's seconds per layer. */
  const RecoatSeconds: real := 8.0

  /** `estimate_build_time`: hours for `totalLayers` layers, each one scan plus one recoat. */
  function EstimateBuildTime(params: Params, totalLayers: int, meshes: Option<seq<MeshItem>>,
                             sqrt: real -> real): real
    requires IsSqrt(sqrt)
  {
    (ScanSecondsPerLayer(params, meshes, sqrt) + RecoatSeconds) * totalLayers as real / 3600.0
  }

  /** The estimate is never negative and covers at least the recoat time of every layer. */
  lemma EstimateAtLeastRecoat(params: Params, totalLayers: nat, meshes: Option<seq<MeshItem>>,
                              sqrt: real -> real)
    requires IsSqrt(sqrt)
    ensures EstimateBuildTime(params, totalLayers, meshes, sqrt) >= RecoatSeconds * totalLayers as real / 3600.0 >= 0.0
    ensures totalLayers == 0 ==> EstimateBuildTime(params, totalLayers, meshes, sqrt) == 0.0
  {
    var s := ScanSecondsPerLayer(params, meshes, sqrt);
    MulNonNegative(s, totalLayers as real);
    MulNonNegative(RecoatSeconds, totalLayers as real);
    assert (s + RecoatSeconds) * totalLayers as real == s * totalLayers as real + RecoatSeconds * totalLayers as real;
  }

  /** The estimate is linear in the layer count: two runs take as long as their sum. */
  lemma EstimateAdditive(params: Params, a: int, b: int, meshes: Option<seq<MeshItem>>, sqrt: real -> real)
    requires IsSqrt(sqrt)
    ensures EstimateBuildTime(params, a + b, meshes, sqrt) ==
            EstimateBuildTime(params, a, meshes, sqrt) + EstimateBuildTime(params, b, meshes, sqrt)
  {
    var c := ScanSecondsPerLayer(params, meshes, sqrt) + RecoatSeconds;
    assert c * (a + b) as real == c * a as real + c * b as real;
  }

  /** More layers never take less time. */
  lemma EstimateMonotone(params: Params, a: int, b: int, meshes: Option<seq<MeshItem>>, sqrt: real -> real)
    requires IsSqrt(sqrt) && a <= b
    ensures EstimateBuildTime(params, a, meshes, sqrt) <= EstimateBuildTime(params, b, meshes, sqrt)
  {
    EstimateAdditive(params, a, b - a, meshes, sqrt);
    EstimateAtLeastRecoat(params, b - a, meshes, sqrt);
  }

  /** With the default parameters and no items (none given, or an empty list), a layer costs
      1250 s of scanning (2500 mm² swept by 25000 lines of 50 mm at 1000 mm/s) plus 8 s of
      recoating. */
  lemma DefaultEstimate(totalLayers: int, meshes: Option<seq<MeshItem>>, sqrt: real -> real)
    requires IsSqrt(sqrt) && (meshes.None? || meshes.value == [])
    ensures EstimateBuildTime(map[], totalLayers, meshes, sqrt) == 1258.0 * totalLayers as real / 3600.0
  {
    var s := sqrt(2500.0);
    assert s >= 0.0 && s * s == 2500.0;
    if s > 50.0 {
      MulLess(50.0, s, s);
      MulLess(50.0, s, 50.0);
    } else if s < 50.0 {
      if s > 0.0 {
        MulLess(s, 50.0, s);
      }
      MulLess(s, 50.0, 50.0);
    }
    assert ScanSecondsPerLayer(map[], meshes, sqrt) == 1250.0;
  }

  // ---------------------------------------------------------------------------
  //  The run's summary
  // ---------------------------------------------------------------------------

  datatype PartSummary = PartSummary(name: string, layers: nat, zRange: (real, real))

  /** `last_result`: what a successful run returns and keeps. */
  datatype SliceSummary = SliceSummary(
    totalLayers: nat,
    parts: seq<PartSummary>,
    elapsedS: real,
    estBuildTimeH: real,
    layerThickness: real,
    params: Params)

  /** With a zero layer thickness the expected-layer pre-pass divides a float by zero, which
      gives an infinity (or not-a-number for a flat part) that `int()` cannot convert; the run
      fails before anything is reported. */
  datatype SliceError = LayerCountConversion

  function SummaryOf(item: MeshItem, t: real): PartSummary
  {
    PartSummary(item.name, ItemLayerCount(item, t), (Lo(item.mesh).z, Hi(item.mesh).z))
  }

  function Summaries(items: seq<MeshItem>, t: real): (ps: seq<PartSummary>)
    ensures |ps| == |items|
    ensures forall i :: 0 <= i < |items| ==> ps[i] == SummaryOf(items[i], t)
  {
    seq(|items|, i requires 0 <= i < |items| => SummaryOf(items[i], t))
  }

  function SummaryLayers(ps: seq<PartSummary>): nat
  {
    if ps == [] then 0 else SummaryLayers(ps[..|ps| - 1]) + ps[|ps| - 1].layers
  }

  /** What `slice` returns: the failure raised by a zero thickness, or the summary. */
  function SliceOutcome(items: seq<MeshItem>, params: Params, elapsed: real, sqrt: real -> real)
    : (r: Result<SliceSummary, SliceError>)
    requires IsSqrt(sqrt)
    ensures r.Failure? <==> StyleOf(params).layerThickness == 0.0 && items != []
    ensures r.Success? ==>
              var t := StyleOf(params).layerThickness;
              && r.value.totalLayers == SummaryLayers(r.value.parts) == LayersBefore(items, |items|, t)
              && |r.value.parts| == |items|
              && (forall i :: 0 <= i < |items| ==>
                    r.value.parts[i] == PartSummary(items[i].name, LayerCount(Lo(items[i].mesh).z, Hi(items[i].mesh).z, t),
                                                    (Lo(items[i].mesh).z, Hi(items[i].mesh).z)))
              && r.value.layerThickness == t
              && r.value.params == params
              && r.value.elapsedS == Round(elapsed, 3)
              && -0.0005 <= r.value.elapsedS - elapsed <= 0.0005
              && r.value.estBuildTimeH == Round(EstimateBuildTime(params, r.value.totalLayers, Some(items), sqrt), 2)
  {
    var t := StyleOf(params).layerThickness;
    if t == 0.0 && items != [] then Failure(LayerCountConversion)
    else
      var total := LayersBefore(items, |items|, t);
      SummariesAddUp(items, t, |items|);
      assert Summaries(items, t)[..|items|] == Summaries(items, t);
      RoundThreeDigits(elapsed);
      Success(SliceSummary(total, Summaries(items, t), Round(elapsed, 3),
                           Round(EstimateBuildTime(params, total, Some(items), sqrt), 2), t, params))
  }

  lemma {:induction false} SummariesAddUp(items: seq<MeshItem>, t: real, k: nat)
    requires k <= |items|
    ensures SummaryLayers(Summaries(items, t)[..k]) == LayersBefore(items, k, t)
  {
    if k > 0 {
      SummariesAddUp(items, t, k - 1);
      var ps := Summaries(items, t);
      assert ps[..k][..k - 1] == ps[..k - 1];
    }
  }
}
