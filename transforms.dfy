/** The placement of one scene object and the build plate it sits on. */
module Transforms {
  import opened Wrappers
  import opened Geometry

  /** Translation (mm), rotation (degrees, about x, y then z) and per-axis scale;
      a negative scale component mirrors along that axis. */
  datatype Transform = Transform(translation: Vec3, rotationDeg: Vec3, scale: Vec3)
  {
    /** The partial update of `set_transform`: only the supplied fields change. */
    function Set(t: Option<Vec3>, r: Option<Vec3>, s: Option<Vec3>): (u: Transform)
      ensures u.translation == (if t.Some? then t.value else translation)
      ensures u.rotationDeg == (if r.Some? then r.value else rotationDeg)
      ensures u.scale == (if s.Some? then s.value else scale)
    {
      var u := if t.Some? then this.(translation := t.value) else this;
      var u := if r.Some? then u.(rotationDeg := r.value) else u;
      if s.Some? then u.(scale := s.value) else u
    }
  }

  /** `Transform()`: no translation, no rotation, unit scale. */
  const IdentityTransform := Transform(Zero3, Zero3, Ones3)

  /** The serialised form: three lists of floats under fixed keys. */
  type TransformDict = map<string, seq<real>>

  function VecList(v: Vec3): seq<real>
  {
    [v.x, v.y, v.z]
  }

  function ToDict(t: Transform): (d: TransformDict)
    ensures d.Keys == {"translation", "rotation_deg", "scale"}
    ensures forall k :: k in d ==> |d[k]| == 3
  {
    map["translation" := VecList(t.translation),
        "rotation_deg" := VecList(t.rotationDeg),
        "scale" := VecList(t.scale)]
  }

  datatype DictError = MissingKey(key: string) | NotAVector(key: string)

  function VecAt(d: TransformDict, key: string): (r: Result<Vec3, DictError>)
    ensures r.Success? <==> key in d && |d[key]| == 3
    ensures r.Success? ==> VecList(r.value) == d[key]
  {
    if key !in d then Failure(MissingKey(key))
    else if |d[key]| != 3 then Failure(NotAVector(key))
    else Success(Vec3(d[key][0], d[key][1], d[key][2]))
  }

  /** `Transform.from_dict`: a missing key raises; a list that is not a 3-vector is refused. */
  function FromDict(d: TransformDict): (r: Result<Transform, DictError>)
    ensures r.Success? <==> forall k :: k in {"translation", "rotation_deg", "scale"} ==> k in d && |d[k]| == 3
  {
    match VecAt(d, "translation")
    case Failure(e) => Failure(e)
    case Success(t) =>
      match VecAt(d, "rotation_deg")
      case Failure(e) => Failure(e)
      case Success(r) =>
        match VecAt(d, "scale")
        case Failure(e) => Failure(e)
        case Success(s) => Success(Transform(t, r, s))
  }

  /** Loading what was saved gives back the same transform. */
  lemma FromToDict(t: Transform)
    ensures FromDict(ToDict(t)) == Success(t)
  {
  }

  /** Saving what was loaded gives back the same three lists (other keys are dropped). */
  lemma ToFromDict(d: TransformDict)
    requires FromDict(d).Success?
    ensures forall k :: k in ToDict(FromDict(d).value) ==> k in d && ToDict(FromDict(d).value)[k] == d[k]
  {
  }

  /** A cylindrical build plate whose top surface is the plane Z = 0. */
  datatype BuildPlate = BuildPlate(diameterMm: real, heightMm: real, origin: Vec3)
  {
    function Radius(): real
    {
      diameterMm / 2.0
    }
  }

  /** `BuildPlate()`: 120 mm across, 20 mm high, at the origin. */
  const DefaultPlate := BuildPlate(120.0, 20.0, Zero3)
}
