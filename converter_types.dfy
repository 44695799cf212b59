/**
 * Value types of the IFC-to-fragment data converter: instances, geometries,
 * the buckets of merged geometry and the fragments produced.
 * three.js buffers and matrices are opaque: a geometry is known by a handle,
 * its vertex count and the matrices applied to it; a matrix by its origin and
 * by how many times the unit normaliser has been applied to it.
 */
module ConverterTypes {
  import opened Optional

  type ItemId = int
  type MatId = string

  /** A key of the bucket table: a category or floor lookup that found a number, or `undefined`. */
  datatype Key = Defined(value: int) | Undefined

  /** `dict[id]` on a JavaScript object whose missing entries read as `undefined`. */
  function Lookup(dict: map<ItemId, int>, id: ItemId): Key
  {
    if id in dict then Defined(dict[id]) else Undefined
  }

  datatype MatrixSource = IdentityMatrix | Placement(handle: nat)

  /**
   * A 4x4 transform. Its numbers are not modelled; `unitsApplied` records how
   * many times `Units.apply` has composed the unit scale into it in place.
   */
  datatype Transform = Transform(source: MatrixSource, unitsApplied: nat)

  /** `new THREE.Matrix4()`. */
  const Identity: Transform := Transform(IdentityMatrix, 0)

  /** `Units.apply(matrix)`: an in-place update whose effect is left abstract and only counted. */
  function ApplyUnits(t: Transform): Transform
  {
    t.(unitsApplied := t.unitsApplied + 1)
  }

  /** The transform after `n` applications of the unit normaliser. */
  function ApplyUnitsTimes(t: Transform, n: nat): Transform
  {
    t.(unitsApplied := t.unitsApplied + n)
  }

  datatype Instance = Instance(id: ItemId, matrix: Transform, voids: bool)

  /** A triangle-mesh buffer: a handle, `position.count`, and the matrices `applyMatrix4` has baked in, oldest first. */
  datatype Geometry = Geometry(mesh: nat, count: nat, applied: seq<Transform>)

  /** One entry of `geometriesByMaterial`, in the object's enumeration order. */
  datatype MaterialGeometries = MaterialGeometries(matId: MatId, geometries: seq<Geometry>)

  /** One logical element: its instances and, per material, its geometries. */
  datatype FragmentData = FragmentData(instances: seq<Instance>, byMaterial: seq<MaterialGeometries>)

  /** The materials of an element form a dictionary: no material id repeats. */
  predicate DistinctMaterials(mats: seq<MaterialGeometries>)
  {
    forall i, j :: 0 <= i < j < |mats| ==> mats[i].matId != mats[j].matId
  }

  /** A geometry pushed into a merge bucket, with `userData.id` set to its item id. */
  datatype Tagged = Tagged(id: ItemId, geometry: Geometry)

  type Bucket = seq<Tagged>

  /** `_uniqueItems`: category -> floor -> material -> geometries. */
  type Table = map<Key, map<Key, map<MatId, Bucket>>>

  datatype Material = Material(transparent: bool)

  /** What `fragment.setInstance(i, {ids, transform})` records. */
  datatype FragmentInstance = FragmentInstance(ids: seq<ItemId>, transform: Transform)

  /**
   * A produced fragment: the geometries merged into its mesh, the per-vertex
   * `blockID` attribute (merged fragments only), its material list and its instances.
   */
  datatype Fragment = Fragment(parts: seq<Geometry>, blockIds: Option<seq<nat>>,
                               materials: seq<MatId>, instances: seq<FragmentInstance>)

  /**
   * `getTransformHelper(geometries).matrix.elements`, optionally composed with
   * an instance transform. The oriented box itself is abstract: the entry
   * records exactly which geometries it was computed from.
   */
  datatype BoundingEntry = BoundingEntry(geometries: seq<Geometry>, placement: Option<Transform>)

  /** The geometries of all material groups, concatenated in iteration order. */
  function Concat<T>(groups: seq<seq<T>>): seq<T>
    decreases |groups|
  {
    if groups == [] then [] else Concat(groups[..|groups| - 1]) + groups[|groups| - 1]
  }

  function MaterialIds(mats: seq<MaterialGeometries>): seq<MatId>
  {
    seq(|mats|, i requires 0 <= i < |mats| => mats[i].matId)
  }

  function GeometryLists(mats: seq<MaterialGeometries>): seq<seq<Geometry>>
  {
    seq(|mats|, i requires 0 <= i < |mats| => mats[i].geometries)
  }

  function Untagged(s: seq<Tagged>): seq<Geometry>
  {
    seq(|s|, i requires 0 <= i < |s| => s[i].geometry)
  }
}
