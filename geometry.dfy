/**
 * Vectors, 2-D points and the mesh abstraction. A mesh is the part of a
 * triangulated surface that this core reads: its vertices (whose componentwise
 * minimum and maximum are the mesh's bounds) and its centroid, which the
 * geometry library computes and which moves with the mesh under translation.
 */
module Geometry {

  /** A 3-vector of millimetres, degrees or scale factors. */
  datatype Vec3 = Vec3(x: real, y: real, z: real)
  {
    /** Component `i` (0 = x, 1 = y, 2 = z). */
    function Get(i: nat): real
      requires i < 3
    {
      if i == 0 then x else if i == 1 then y else z
    }

    /** This vector with component `i` replaced by `v`. */
    function With(i: nat, v: real): (r: Vec3)
      requires i < 3
      ensures r.Get(i) == v
      ensures forall j :: 0 <= j < 3 && j != i ==> r.Get(j) == Get(j)
    {
      if i == 0 then Vec3(v, y, z) else if i == 1 then Vec3(x, v, z) else Vec3(x, y, v)
    }

    function Plus(o: Vec3): Vec3
    {
      Vec3(x + o.x, y + o.y, z + o.z)
    }

    function Minus(o: Vec3): Vec3
    {
      Vec3(x - o.x, y - o.y, z - o.z)
    }

    function Neg(): Vec3
    {
      Vec3(-x, -y, -z)
    }
  }

  const Zero3 := Vec3(0.0, 0.0, 0.0)
  const Ones3 := Vec3(1.0, 1.0, 1.0)

  /** A point of a planar section. */
  datatype Point2 = Point2(x: real, y: real)

  /** One polyline of a planar section, in drawing order. */
  type Contour = seq<Point2>

  datatype MeshData = MeshData(vertices: seq<Vec3>, centroid: Vec3)

  /** A mesh has at least one vertex, so it has bounds. */
  type Mesh = m: MeshData | |m.vertices| > 0 witness MeshData([Zero3], Zero3)

  /** The least value of coordinate `i` over `vs`. */
  function MinCoord(vs: seq<Vec3>, i: nat): real
    requires |vs| > 0 && i < 3
    decreases |vs|
  {
    if |vs| == 1 then vs[0].Get(i)
    else
      var rest := MinCoord(vs[1..], i);
      if vs[0].Get(i) <= rest then vs[0].Get(i) else rest
  }

  /** The greatest value of coordinate `i` over `vs`. */
  function MaxCoord(vs: seq<Vec3>, i: nat): real
    requires |vs| > 0 && i < 3
    decreases |vs|
  {
    if |vs| == 1 then vs[0].Get(i)
    else
      var rest := MaxCoord(vs[1..], i);
      if vs[0].Get(i) >= rest then vs[0].Get(i) else rest
  }

  /** `MinCoord` is a lower bound attained by some vertex. */
  lemma {:induction false} MinCoordIsLeast(vs: seq<Vec3>, i: nat)
    requires |vs| > 0 && i < 3
    ensures forall k :: 0 <= k < |vs| ==> MinCoord(vs, i) <= vs[k].Get(i)
    ensures exists k :: 0 <= k < |vs| && MinCoord(vs, i) == vs[k].Get(i)
    decreases |vs|
  {
    if |vs| > 1 {
      MinCoordIsLeast(vs[1..], i);
      assert forall k :: 1 <= k < |vs| ==> vs[k] == vs[1..][k - 1];
      var j :| 0 <= j < |vs[1..]| && MinCoord(vs[1..], i) == vs[1..][j].Get(i);
      assert vs[1..][j] == vs[j + 1];
      if vs[0].Get(i) <= MinCoord(vs[1..], i) {
        assert MinCoord(vs, i) == vs[0].Get(i);
      } else {
        assert MinCoord(vs, i) == vs[j + 1].Get(i);
      }
    } else {
      assert MinCoord(vs, i) == vs[0].Get(i);
    }
  }

  /** `MaxCoord` is an upper bound attained by some vertex. */
  lemma {:induction false} MaxCoordIsGreatest(vs: seq<Vec3>, i: nat)
    requires |vs| > 0 && i < 3
    ensures forall k :: 0 <= k < |vs| ==> vs[k].Get(i) <= MaxCoord(vs, i)
    ensures exists k :: 0 <= k < |vs| && MaxCoord(vs, i) == vs[k].Get(i)
    decreases |vs|
  {
    if |vs| > 1 {
      MaxCoordIsGreatest(vs[1..], i);
      assert forall k :: 1 <= k < |vs| ==> vs[k] == vs[1..][k - 1];
      var j :| 0 <= j < |vs[1..]| && MaxCoord(vs[1..], i) == vs[1..][j].Get(i);
      assert vs[1..][j] == vs[j + 1];
      if vs[0].Get(i) >= MaxCoord(vs[1..], i) {
        assert MaxCoord(vs, i) == vs[0].Get(i);
      } else {
        assert MaxCoord(vs, i) == vs[j + 1].Get(i);
      }
    } else {
      assert MaxCoord(vs, i) == vs[0].Get(i);
    }
  }

  /** `mesh.bounds[0]`: the componentwise minimum corner. */
  function Lo(m: Mesh): Vec3
  {
    Vec3(MinCoord(m.vertices, 0), MinCoord(m.vertices, 1), MinCoord(m.vertices, 2))
  }

  /** `mesh.bounds[1]`: the componentwise maximum corner. */
  function Hi(m: Mesh): Vec3
  {
    Vec3(MaxCoord(m.vertices, 0), MaxCoord(m.vertices, 1), MaxCoord(m.vertices, 2))
  }

  /** `mesh.extents`: the size of the bounding box along each axis. */
  function Extents(m: Mesh): (e: Vec3)
    ensures e.x >= 0.0 && e.y >= 0.0 && e.z >= 0.0
  {
    MinCoordIsLeast(m.vertices, 0);
    MinCoordIsLeast(m.vertices, 1);
    MinCoordIsLeast(m.vertices, 2);
    MaxCoordIsGreatest(m.vertices, 0);
    MaxCoordIsGreatest(m.vertices, 1);
    MaxCoordIsGreatest(m.vertices, 2);
    assert m.vertices[0].Get(0) == m.vertices[0].x;
    assert m.vertices[0].Get(1) == m.vertices[0].y;
    assert m.vertices[0].Get(2) == m.vertices[0].z;
    Hi(m).Minus(Lo(m))
  }

  /** `mesh.apply_translation(d)`: every vertex and the centroid move by `d`. */
  function Translate(m: Mesh, d: Vec3): (r: Mesh)
    ensures |r.vertices| == |m.vertices|
    ensures forall k :: 0 <= k < |m.vertices| ==> r.vertices[k] == m.vertices[k].Plus(d)
    ensures r.centroid == m.centroid.Plus(d)
  {
    MeshData(seq(|m.vertices|, k requires 0 <= k < |m.vertices| => m.vertices[k].Plus(d)), m.centroid.Plus(d))
  }

  /** Translating a mesh shifts its minimum along every axis by the translation. */
  lemma {:induction false} TranslateMin(vs: seq<Vec3>, ws: seq<Vec3>, d: Vec3, i: nat)
    requires |vs| > 0 && i < 3 && |ws| == |vs|
    requires forall k :: 0 <= k < |vs| ==> ws[k] == vs[k].Plus(d)
    ensures MinCoord(ws, i) == MinCoord(vs, i) + d.Get(i)
    decreases |vs|
  {
    if |vs| > 1 {
      TranslateMin(vs[1..], ws[1..], d, i);
    }
  }

  /** Translating twice is translating once by the sum. */
  lemma TranslateTwice(m: Mesh, a: Vec3, b: Vec3)
    ensures Translate(Translate(m, a), b) == Translate(m, a.Plus(b))
  {
    var lhs := Translate(Translate(m, a), b);
    var rhs := Translate(m, a.Plus(b));
    assert lhs.vertices == rhs.vertices;
  }

  /** The two-step re-centring of a newly added mesh: the full 3-D centroid is
      subtracted, then the new minimum Z. */
  function RestOnPlate(m: Mesh): (r: Mesh)
    ensures r.centroid.x == 0.0 && r.centroid.y == 0.0
    ensures Lo(r).z == 0.0
  {
    DropToPlate(Translate(m, m.centroid.Neg()))
  }

  /** The mesh moved along Z so that its minimum Z is zero. */
  function DropToPlate(m: Mesh): (r: Mesh)
    ensures r.centroid.x == m.centroid.x && r.centroid.y == m.centroid.y
    ensures Lo(r).z == 0.0
  {
    var d := Vec3(0.0, 0.0, -Lo(m).z);
    var r := Translate(m, d);
    TranslateMin(m.vertices, r.vertices, d, 2);
    r
  }

  /** The two steps amount to one translation: by minus the centroid's X and Y,
      and by minus the original minimum Z (the centroid's Z cancels out). */
  lemma RestOnPlateIsOneTranslation(m: Mesh)
    ensures RestOnPlate(m) == Translate(m, Vec3(-m.centroid.x, -m.centroid.y, -Lo(m).z))
  {
    var a := m.centroid.Neg();
    var centred := Translate(m, a);
    var b := Vec3(0.0, 0.0, -Lo(centred).z);
    assert RestOnPlate(m) == Translate(centred, b);
    assert a.Plus(b) == Vec3(-m.centroid.x, -m.centroid.y, -Lo(m).z) by {
      TranslateMin(m.vertices, centred.vertices, a, 2);
    }
    TranslateTwice(m, a, b);
  }
}
