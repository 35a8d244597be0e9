/**
 * The values the scene manager works with: scene objects, the recent-files
 * list, mirror axes, build-volume issues, the arrange grid, the project
 * snapshot and the list handed to the slicer. Each is a function of values
 * here; `SceneManagement.SceneManager` applies them to its state.
 */
module SceneObjects {
  import opened Wrappers
  import opened Numeric
  import opened Geometry
  import opened Transforms
  import opened Models

  type Uid = string

  /** One placed mesh: the mesh is in local coordinates, `transform` places it. */
  datatype SceneObject = SceneObject(
    uid: Uid,
    name: string,
    mesh: Mesh,
    transform: Transform,
    visible: bool,
    selected: bool,
    sourcePath: string)

  /** The geometry library's `mesh.copy()` followed by `apply_transform(transform.to_matrix())`. */
  type Placement = (Mesh, Transform) -> Mesh

  /** `transformed_mesh`: a world-space copy, the stored mesh is untouched. */
  function WorldMesh(o: SceneObject, place: Placement): Mesh
  {
    place(o.mesh, o.transform)
  }

  predicate NoDup<T(==)>(s: seq<T>)
  {
    forall i, j :: 0 <= i < j < |s| ==> s[i] != s[j]
  }

  // ---------------------------------------------------------------------------
  // Recent files
  // ---------------------------------------------------------------------------

  const RecentLimit := 10

  /** The position of the first occurrence of `x` in `s`. */
  function IndexOf<T(==)>(s: seq<T>, x: T): (i: nat)
    requires x in s
    ensures i < |s| && s[i] == x && x !in s[..i]
  {
    if s[0] == x then 0 else 1 + IndexOf(s[1..], x)
  }

  /** Python's `list.remove(x)`: the first occurrence of `x` goes, the rest keep their order. */
  function RemoveFirst<T(==)>(s: seq<T>, x: T): (r: seq<T>)
    requires x in s
    ensures |r| == |s| - 1
  {
    var i := IndexOf(s, x);
    s[..i] + s[i + 1..]
  }

  /** In a list without repeats, removing `x` leaves a list without repeats and without `x`. */
  lemma RemoveFirstNoDup<T>(s: seq<T>, x: T)
    requires x in s && NoDup(s)
    ensures NoDup(RemoveFirst(s, x))
    ensures forall y :: y in RemoveFirst(s, x) <==> y in s && y != x
  {
    var i := IndexOf(s, x);
    var r := RemoveFirst(s, x);
    forall y | y in s && y != x ensures y in r {
      var j :| 0 <= j < |s| && s[j] == y;
      if j < i { assert r[j] == y; } else { assert r[j - 1] == y; }
    }
    forall a, b | 0 <= a < b < |r| ensures r[a] != r[b] {
      var a' := if a < i then a else a + 1;
      var b' := if b < i then b else b + 1;
      assert r[a] == s[a'] && r[b] == s[b'];
    }
  }

  /** `_add_recent`: `path` moves to the front, the list is cut to ten entries. */
  function AddRecent(files: seq<string>, path: string): (r: seq<string>)
    ensures |r| == MinInt(RecentLimit, if path in files then |files| else |files| + 1)
    ensures r[0] == path
    ensures var rest := if path in files then RemoveFirst(files, path) else files;
      r[1..] == rest[..|r| - 1]
  {
    var rest := if path in files then RemoveFirst(files, path) else files;
    var r := [path] + rest;
    if |r| > RecentLimit then r[..RecentLimit] else r
  }

  /** In a list of distinct paths, the added path ends up exactly once, no path
      repeats, and nothing else is added. */
  lemma AddRecentOnce(files: seq<string>, path: string)
    requires NoDup(files)
    ensures NoDup(AddRecent(files, path))
    ensures path !in AddRecent(files, path)[1..]
    ensures forall p :: p in AddRecent(files, path) ==> p == path || p in files
  {
    var r := AddRecent(files, path);
    var rest := if path in files then RemoveFirst(files, path) else files;
    if path in files {
      RemoveFirstNoDup(files, path);
    }
    assert r[1..] == rest[..|r| - 1];
    assert forall q :: q in r[1..] ==> q in rest;
    forall a, b | 0 <= a < b < |r| ensures r[a] != r[b] {
      if a == 0 {
        assert r[b] == r[1..][b - 1];
      } else {
        assert r[a] == rest[a - 1] && r[b] == rest[b - 1];
      }
    }
  }

  // ---------------------------------------------------------------------------
  // Mirror
  // ---------------------------------------------------------------------------

  function LowerChar(c: char): char
  {
    if 'A' <= c <= 'Z' then (c as int + 32) as char else c
  }

  function UpperChar(c: char): char
  {
    if 'a' <= c <= 'z' then (c as int - 32) as char else c
  }

  function Lower(s: string): string
  {
    seq(|s|, i requires 0 <= i < |s| => LowerChar(s[i]))
  }

  function Upper(s: string): string
  {
    seq(|s|, i requires 0 <= i < |s| => UpperChar(s[i]))
  }

  /** `{"x": 0, "y": 1, "z": 2}.get(axis.lower(), 0)`: an axis name in any case, anything else is x. */
  function AxisIndex(axis: string): (i: nat)
    ensures i < 3
    ensures i == 1 <==> Lower(axis) == "y"
    ensures i == 2 <==> Lower(axis) == "z"
  {
    var a := Lower(axis);
    if a == "y" then 1 else if a == "z" then 2 else 0
  }

  /** The undo label of a mirror along `axis`. */
  function MirrorLabel(axis: string): string
  {
    "Mirror " + Upper(axis)
  }

  /** Mirroring negates one scale component and nothing else. */
  function Mirrored(t: Transform, i: nat): (u: Transform)
    requires i < 3
    ensures u.translation == t.translation && u.rotationDeg == t.rotationDeg
    ensures u.scale.Get(i) == -t.scale.Get(i)
    ensures forall j :: 0 <= j < 3 && j != i ==> u.scale.Get(j) == t.scale.Get(j)
  {
    t.(scale := t.scale.With(i, -1.0 * t.scale.Get(i)))
  }

  /** Mirroring twice along the same axis gives back the original transform. */
  lemma MirrorTwice(t: Transform, i: nat)
    requires i < 3
    ensures Mirrored(Mirrored(t, i), i) == t
  {
  }

  // ---------------------------------------------------------------------------
  // Build-volume validation
  // ---------------------------------------------------------------------------

  datatype Reason = OutsidePlateRadius(name: string) | BelowPlate(name: string, z: real)

  /** One entry of `check_build_volume`'s result. */
  datatype Issue = Issue(uid: Uid, reason: Reason)

  /** The message text of a reason; `fmt2` renders a float with two decimals. */
  function ReasonText(r: Reason, fmt2: real -> string): string
  {
    match r
    case OutsidePlateRadius(name) => name + ": extends outside build plate radius"
    case BelowPlate(name, z) => name + ": extends below build plate (Z=" + fmt2(z) + ")"
  }

  /** `sqrt(cx² + cy²) > r`, decided without a square root. */
  predicate OutsideRadius(cx: real, cy: real, r: real)
  {
    r < 0.0 || cx * cx + cy * cy > r * r
  }

  /** The test above is exactly the source's test with a square root. */
  lemma OutsideRadiusIsSqrtTest(sqrt: real -> real, cx: real, cy: real, r: real)
    requires IsSqrt(sqrt)
    ensures sqrt(cx * cx + cy * cy) > r <==> OutsideRadius(cx, cy, r)
  {
    var a := cx * cx + cy * cy;
    assert 0.0 <= a;
    var s := sqrt(a);
    assert 0.0 <= s && s * s == a;
    if 0.0 <= r {
      assert s * s - r * r == (s - r) * s + r * (s - r);
      if s > r {
        MulPositive(s - r, s);
        MulNonNegative(r, s - r);
      } else {
        MulNonNegative(r - s, s);
        MulNonNegative(r, r - s);
      }
    }
  }

  /** The four horizontal corners of a bounding box, in the source's order. */
  function Corners(lo: Vec3, hi: Vec3): seq<(real, real)>
  {
    [(lo.x, lo.y), (lo.x, hi.y), (hi.x, lo.y), (hi.x, hi.y)]
  }

  predicate AnyOutside(cs: seq<(real, real)>, r: real)
  {
    exists j :: 0 <= j < |cs| && OutsideRadius(cs[j].0, cs[j].1, r)
  }

  /** Minimum Z below which an object is reported as under the plate. */
  const ZTolerance: real := -0.01

  /** What `check_build_volume` reports for one object whose world mesh is `w`. */
  function ObjectIssues(o: SceneObject, place: Placement, r: real): (found: seq<Issue>)
    ensures |found| <= 2
    ensures !o.visible ==> found == []
    ensures forall i :: 0 <= i < |found| ==> found[i].uid == o.uid && found[i].reason.name == o.name
    ensures forall i :: 0 <= i < |found| && found[i].reason.BelowPlate? ==>
      found[i].reason.z == Lo(WorldMesh(o, place)).z
    ensures (exists i :: 0 <= i < |found| && found[i].reason.OutsidePlateRadius?) <==>
      o.visible && AnyOutside(Corners(Lo(WorldMesh(o, place)), Hi(WorldMesh(o, place))), r)
    ensures (exists i :: 0 <= i < |found| && found[i].reason.BelowPlate?) <==>
      o.visible && Lo(WorldMesh(o, place)).z < ZTolerance
    ensures |found| == 2 ==> found[0].reason.OutsidePlateRadius? && found[1].reason.BelowPlate?
  {
    if !o.visible then []
    else
      var w := WorldMesh(o, place);
      var radial := if AnyOutside(Corners(Lo(w), Hi(w)), r) then [Issue(o.uid, OutsidePlateRadius(o.name))] else [];
      var below := if Lo(w).z < ZTolerance then [Issue(o.uid, BelowPlate(o.name, Lo(w).z))] else [];
      var found := radial + below;
      assert forall i :: 0 <= i < |found| ==> found[i] in radial || found[i] in below;
      assert radial != [] ==> found[0] == radial[0];
      assert below != [] ==> found[|found| - 1] == below[0];
      found
  }

  /** `check_build_volume` over objects in scene order. */
  function VolumeIssues(objs: seq<SceneObject>, place: Placement, r: real): seq<Issue>
  {
    if objs == [] then [] else VolumeIssues(objs[..|objs| - 1], place, r) + ObjectIssues(objs[|objs| - 1], place, r)
  }

  /** Every reported issue names a visible object of the scene. */
  lemma {:induction false} IssuesNameVisibleObjects(objs: seq<SceneObject>, place: Placement, r: real)
    ensures forall x :: x in VolumeIssues(objs, place, r) ==>
      exists o :: o in objs && o.visible && o.uid == x.uid
    decreases |objs|
  {
    if objs != [] {
      var init := objs[..|objs| - 1];
      IssuesNameVisibleObjects(init, place, r);
      forall x | x in VolumeIssues(objs, place, r)
        ensures exists o :: o in objs && o.visible && o.uid == x.uid
      {
        if x in VolumeIssues(init, place, r) {
          var o :| o in init && o.visible && o.uid == x.uid;
          assert o in objs;
        } else {
          var found := ObjectIssues(objs[|objs| - 1], place, r);
          var i :| 0 <= i < |found| && found[i] == x;
          assert objs[|objs| - 1] in objs;
        }
      }
    }
  }

  /** |(a + b) / 2| never exceeds the larger of |a| and |b|. */
  lemma MidpointSquare(a: real, b: real)
    ensures ((a + b) / 2.0) * ((a + b) / 2.0) <= a * a || ((a + b) / 2.0) * ((a + b) / 2.0) <= b * b
  {
    var m := (a + b) / 2.0;
    var am := Abs(m);
    var big := if Abs(a) >= Abs(b) then Abs(a) else Abs(b);
    assert am <= big;
    assert m * m == am * am;
    assert am * am <= big * am;
    assert big * am <= big * big;
    assert big * big == a * a || big * big == b * b;
  }

  /** An object whose footprint centre lies outside the plate radius has a corner
      outside it, so it is reported. */
  lemma CentreOutsideIsReported(lo: Vec3, hi: Vec3, r: real)
    requires OutsideRadius((lo.x + hi.x) / 2.0, (lo.y + hi.y) / 2.0, r)
    ensures AnyOutside(Corners(lo, hi), r)
  {
    var cs := Corners(lo, hi);
    MidpointSquare(lo.x, hi.x);
    MidpointSquare(lo.y, hi.y);
    var mx := (lo.x + hi.x) / 2.0;
    var my := (lo.y + hi.y) / 2.0;
    var x := if mx * mx <= lo.x * lo.x then lo.x else hi.x;
    var y := if my * my <= lo.y * lo.y then lo.y else hi.y;
    var j := if x == lo.x && y == lo.y then 0 else if x == lo.x then 1 else if y == lo.y then 2 else 3;
    assert cs[j] == (x, y);
    assert OutsideRadius(cs[j].0, cs[j].1, r);
  }

  // ---------------------------------------------------------------------------
  // Auto-arrange
  // ---------------------------------------------------------------------------

  /** A whole number is at most its square. */
  lemma AtMostSquare(x: nat)
    ensures x <= x * x
  {
    if x > 0 {
      assert x * x == x * (x - 1) + x;
    }
  }

  /** `ceil(sqrt(n))` for a whole number: the least c with c·c ≥ n. */
  function CeilSqrt(n: nat): (c: nat)
    ensures c * c >= n
    ensures c > 0 ==> (c - 1) * (c - 1) < n
  {
    CeilSqrtFrom(n, 0)
  }

  function CeilSqrtFrom(n: nat, c: nat): (r: nat)
    requires c == 0 || (c - 1) * (c - 1) < n
    ensures r * r >= n
    ensures r > 0 ==> (r - 1) * (r - 1) < n
    decreases n - c
  {
    if c * c >= n then c
    else
      AtMostSquare(c);
      CeilSqrtFrom(n, c + 1)
  }

  /** The number of grid columns for `n` objects. */
  function Columns(n: nat): (cols: nat)
    ensures cols >= 1
  {
    MaxInt(1, CeilSqrt(n))
  }

  /** At least one object goes in every column. */
  lemma ColumnsFit(n: nat)
    requires n >= 1
    ensures Columns(n) <= n
  {
    var c := CeilSqrt(n);
    assert c > 0;
    AtMostSquare(c - 1);
  }

  /** The (x, y) grid position of the `i`-th of `n` arranged objects; rows are
      centred by `n // cols`, as in the source. */
  function Slot(i: nat, n: nat, cols: nat, spacing: real): (real, real)
    requires cols >= 1
  {
    var col := i % cols;
    var row := i / cols;
    ((col as real - (cols - 1) as real / 2.0) * spacing,
     (row as real - (n / cols - 1) as real / 2.0) * spacing)
  }

  /** Objects in different columns get different X positions. */
  lemma DistinctColumns(i: nat, j: nat, n: nat, cols: nat, spacing: real)
    requires cols >= 1 && spacing != 0.0 && i % cols != j % cols
    ensures Slot(i, n, cols, spacing).0 != Slot(j, n, cols, spacing).0
  {
    var a := (i % cols) as real - (cols - 1) as real / 2.0;
    var b := (j % cols) as real - (cols - 1) as real / 2.0;
    assert a - b != 0.0;
    assert (a - b) * spacing != 0.0;
    assert a * spacing - b * spacing == (a - b) * spacing;
  }

  /** The move `auto_arrange` makes: X and Y are overwritten, Z, rotation and scale stay. */
  function ArrangedAt(t: Transform, slot: (real, real)): (u: Transform)
    ensures u.translation.x == slot.0 && u.translation.y == slot.1
    ensures u.translation.z == t.translation.z && u.rotationDeg == t.rotationDeg && u.scale == t.scale
  {
    t.(translation := Vec3(slot.0, slot.1, t.translation.z))
  }

  /** The uids of the visible objects, in scene order. */
  function VisibleUids(order: seq<Uid>, objects: map<Uid, SceneObject>): (vs: seq<Uid>)
    requires forall k :: k in order ==> k in objects
    ensures forall k :: k in vs <==> k in order && objects[k].visible
    ensures NoDup(order) ==> NoDup(vs)
    ensures |vs| <= |order|
  {
    if order == [] then []
    else
      var init := VisibleUids(order[..|order| - 1], objects);
      var k := order[|order| - 1];
      assert forall x :: x in order[..|order| - 1] ==> x in order;
      assert forall x :: x in order ==> x in order[..|order| - 1] || x == k;
      if objects[k].visible then init + [k] else init
  }

  // ---------------------------------------------------------------------------
  // Project snapshot
  // ---------------------------------------------------------------------------

  datatype ObjectRecord = ObjectRecord(uid: Uid, name: string, sourcePath: string, transform: TransformDict, visible: bool)

  datatype SceneDocument = SceneDocument(version: string, diameterMm: real, heightMm: real, objects: seq<ObjectRecord>)

  const SnapshotVersion := "1.0"

  function RecordOf(o: SceneObject): (r: ObjectRecord)
    ensures FromDict(r.transform) == Success(o.transform)
  {
    FromToDict(o.transform);
    ObjectRecord(o.uid, o.name, o.sourcePath, ToDict(o.transform), o.visible)
  }

  /** `serialize()`: the plate and one record per object, in scene order. */
  function Document(plate: BuildPlate, objs: seq<SceneObject>): (d: SceneDocument)
    ensures d.version == SnapshotVersion && d.diameterMm == plate.diameterMm && d.heightMm == plate.heightMm
    ensures |d.objects| == |objs|
    ensures forall i :: 0 <= i < |objs| ==>
      (d.objects[i].uid == objs[i].uid && d.objects[i].name == objs[i].name &&
       d.objects[i].sourcePath == objs[i].sourcePath && d.objects[i].visible == objs[i].visible &&
       FromDict(d.objects[i].transform) == Success(objs[i].transform))
  {
    SceneDocument(SnapshotVersion, plate.diameterMm, plate.heightMm, seq(|objs|, i requires 0 <= i < |objs| => RecordOf(objs[i])))
  }

  // ---------------------------------------------------------------------------
  // Slicing handoff
  // ---------------------------------------------------------------------------

  function ItemOf(o: SceneObject, place: Placement): MeshItem
  {
    MeshItem(o.uid, o.name, WorldMesh(o, place))
  }

  /** `collect_for_slicing()`: the visible objects, in scene order, with their world meshes. */
  function SlicingItems(objs: seq<SceneObject>, place: Placement): (items: seq<MeshItem>)
    ensures |items| <= |objs|
    ensures forall i :: 0 <= i < |items| ==> exists o :: o in objs && o.visible && items[i] == ItemOf(o, place)
    ensures forall o :: o in objs && o.visible ==> ItemOf(o, place) in items
  {
    if objs == [] then []
    else
      var init := SlicingItems(objs[..|objs| - 1], place);
      var o := objs[|objs| - 1];
      assert forall x :: x in objs[..|objs| - 1] ==> x in objs;
      assert forall x :: x in objs ==> x in objs[..|objs| - 1] || x == o;
      if o.visible then init + [ItemOf(o, place)] else init
  }
}
