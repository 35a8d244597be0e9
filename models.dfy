/** The domain records of a slicing run: hatch paths, layers, build styles and parts. */
module Models {
  import opened Geometry

  /** A frozen record: the scan vectors of one hatch region with their laser settings. */
  datatype HatchPath = HatchPath(points: seq<(Point2, Point2)>, laserPower: real, scanSpeed: real)

  /** One horizontal cross-section of a part. */
  datatype Layer = Layer(zHeight: real, contours: seq<Contour>, hatches: seq<HatchPath>)

  /** `Layer(z_height=z, contours=cs)`: the hatch list takes its default, empty. */
  function LayerOf(z: real, cs: seq<Contour>): (l: Layer)
    ensures l.zHeight == z && l.contours == cs && l.hatches == []
  {
    Layer(z, cs, [])
  }

  /** `Layer(z_height=z)`: both lists take their defaults. */
  function EmptyLayer(z: real): (l: Layer)
    ensures l.zHeight == z && l.contours == [] && l.hatches == []
  {
    LayerOf(z, [])
  }

  /** The process parameters of a build: a name and five numbers. */
  datatype BuildStyle = BuildStyle(
    name: string,
    layerThickness: real,       // mm
    laserPower: real,           // W
    scanSpeed: real,            // mm/s
    hatchSpacing: real,         // mm
    hatchAngleIncrement: real)  // degrees

  /** One entry of the list handed from the scene to the slicer: an object's id,
      its name and its world-space mesh. */
  datatype MeshItem = MeshItem(uid: string, name: string, mesh: Mesh)

  /** What a part holds once slicing has finished with it. */
  datatype PartValue = PartValue(name: string, layers: seq<Layer>)

  /** The root aggregate of a part being sliced: its layer list only grows. */
  class SLMPart {
    var name: string
    var meshData: Mesh
    var layers: seq<Layer>
    var metadata: map<string, string>

    constructor (name: string, meshData: Mesh)
      ensures this.name == name && this.meshData == meshData
      ensures layers == [] && metadata == map[]
    {
      this.name := name;
      this.meshData := meshData;
      layers := [];
      metadata := map[];
    }

    /** Appends `layer` after every layer already held. */
    method AddLayer(layer: Layer)
      modifies this`layers
      ensures layers == old(layers) + [layer]
      ensures |layers| == |old(layers)| + 1 && layers[..|old(layers)|] == old(layers)
    {
      layers := layers + [layer];
    }

    function Value(): PartValue
      reads this
    {
      PartValue(name, layers)
    }
  }
}
