/**
 * `FragmentEdges`: one instanced line object per fragment, kept in
 * `edgesList` under the fragment id. Generating the edges of a fragment
 * releases the previous line object, stages one translation, rotation and
 * scale per instance, builds the instance attributes from the staging
 * arrays, writes each instance's decomposed matrix into its slot, and
 * stores the new object, hidden, in the scene.
 *
 * `Matrix4.decompose` is a parameter of the model; the edge extraction of
 * `EdgesGeometry`, the line material and its shader are not modelled.
 */
module FragmentEdges {
  import opened ObjectKeys

  /** A 4x4 instance matrix, by its sixteen entries. */
  datatype Matrix = Matrix(elements: seq<real>)

  datatype Vector = Vector(x: real, y: real, z: real)
  datatype Quaternion = Quaternion(x: real, y: real, z: real, w: real)

  /** The position, quaternion and scale of an `Object3D`. */
  datatype Trs = Trs(position: Vector, quaternion: Quaternion, scale: Vector)

  /** A fresh `Object3D`: at the origin, unrotated, unit scale. */
  const InitialTrs: Trs := Trs(Vector(0.0, 0.0, 0.0), Quaternion(0.0, 0.0, 0.0, 1.0), Vector(1.0, 1.0, 1.0))

  /** What the edges are generated from: the fragment's id and the matrices of its `mesh.count` instances. */
  datatype FragmentInput = FragmentInput(id: string, matrices: seq<Matrix>)

  /** The three numbers pushed to or stored in `instT` for one instance. */
  function PositionOf(t: Trs): seq<real>
  {
    [t.position.x, t.position.y, t.position.z]
  }

  /** The four numbers of `instR` for one instance. */
  function QuaternionOf(t: Trs): seq<real>
  {
    [t.quaternion.x, t.quaternion.y, t.quaternion.z, t.quaternion.w]
  }

  /** The three numbers of `instS` for one instance. */
  function ScaleOf(t: Trs): seq<real>
  {
    [t.scale.x, t.scale.y, t.scale.z]
  }

  /** `n` copies of `chunk`, one after another. */
  function Repeated(chunk: seq<real>, n: nat): seq<real>
  {
    if n == 0 then [] else Repeated(chunk, n - 1) + chunk
  }

  lemma {:induction false} RepeatedLength(chunk: seq<real>, n: nat)
    ensures |Repeated(chunk, n)| == |chunk| * n
  {
    if n > 0 {
      RepeatedLength(chunk, n - 1);
    }
  }

  /** The chunks laid end to end. */
  function Flatten(chunks: seq<seq<real>>): seq<real>
  {
    if chunks == [] then [] else Flatten(chunks[..|chunks| - 1]) + chunks[|chunks| - 1]
  }

  lemma {:induction false} FlattenLength(chunks: seq<seq<real>>, size: nat)
    requires forall k :: 0 <= k < |chunks| ==> |chunks[k]| == size
    ensures |Flatten(chunks)| == size * |chunks|
  {
    if chunks != [] {
      FlattenLength(chunks[..|chunks| - 1], size);
    }
  }

  lemma {:induction false} MulMonotone(a: nat, b: nat, c: nat)
    requires b <= c
    ensures a * b <= a * c
    decreases c - b
  {
    if b < c {
      MulMonotone(a, b, c - 1);
      assert a * c == a * (c - 1) + a;
    }
  }

  /** With chunks of one size, chunk `i` sits at offset `size * i`: slot `i` holds chunk `i`. */
  lemma {:induction false} FlattenAt(chunks: seq<seq<real>>, size: nat, i: nat, j: nat)
    requires forall k :: 0 <= k < |chunks| ==> |chunks[k]| == size
    requires i < |chunks| && j < size
    ensures size * i + j < |Flatten(chunks)|
    ensures Flatten(chunks)[size * i + j] == chunks[i][j]
  {
    var n := |chunks| - 1;
    FlattenLength(chunks[..n], size);
    FlattenLength(chunks, size);
    if i < n {
      FlattenAt(chunks[..n], size, i, j);
      MulMonotone(size, i + 1, n);
    } else {
      assert size * i == |Flatten(chunks[..n])|;
    }
  }

  /** The whole of slot `i`: `size` numbers from offset `size * i`. */
  lemma FlattenSlot(chunks: seq<seq<real>>, size: nat, i: nat)
    requires forall k :: 0 <= k < |chunks| ==> |chunks[k]| == size
    requires i < |chunks|
    ensures size * i + size <= |Flatten(chunks)|
    ensures Flatten(chunks)[size * i..size * i + size] == chunks[i]
  {
    var flat := Flatten(chunks);
    var lo := size * i;
    FlattenLength(chunks, size);
    MulMonotone(size, i + 1, |chunks|);
    assert size * (i + 1) == lo + size;
    var slot := flat[lo..lo + size];
    forall j | 0 <= j < size
      ensures slot[j] == chunks[i][j]
    {
      FlattenAt(chunks, size, i, j);
      assert slot[j] == flat[lo + j];
    }
  }

  /** The decomposed instance matrices, in instance order. */
  function Decomposed(decompose: Matrix -> Trs, matrices: seq<Matrix>): seq<Trs>
  {
    seq(|matrices|, i requires 0 <= i < |matrices| => decompose(matrices[i]))
  }

  function Positions(ts: seq<Trs>): seq<seq<real>>
  {
    seq(|ts|, i requires 0 <= i < |ts| => PositionOf(ts[i]))
  }

  function Quaternions(ts: seq<Trs>): seq<seq<real>>
  {
    seq(|ts|, i requires 0 <= i < |ts| => QuaternionOf(ts[i]))
  }

  function Scales(ts: seq<Trs>): seq<seq<real>>
  {
    seq(|ts|, i requires 0 <= i < |ts| => ScaleOf(ts[i]))
  }

  /**
   * `setXYZ` / `setXYZW` on the typed array of an attribute: the values go
   * to consecutive cells from `start`; a cell past the end is not written,
   * as a typed array ignores out-of-range stores.
   */
  function Written(s: seq<real>, start: nat, values: seq<real>): seq<real>
  {
    seq(|s|, p requires 0 <= p < |s| => if start <= p < start + |values| then values[p - start] else s[p])
  }

  /** Chunk `k` written at offset `size * k`, for every chunk in order. */
  function Placed(s: seq<real>, size: nat, chunks: seq<seq<real>>): seq<real>
  {
    if chunks == [] then s
    else
      var n := |chunks| - 1;
      Written(Placed(s, size, chunks[..n]), size * n, chunks[n])
  }

  /** Writing into the cells right after a prefix replaces that many cells of the rest. */
  lemma WrittenAfter(a: seq<real>, b: seq<real>, values: seq<real>)
    requires |values| <= |b|
    ensures Written(a + b, |a|, values) == a + values + b[|values|..]
  {
  }

  /**
   * Writing one chunk per slot over a buffer of exactly that many slots
   * leaves nothing of the buffer: every slot holds its own chunk, whatever
   * the buffer held before.
   */
  lemma {:induction false} PlacedFills(s: seq<real>, size: nat, chunks: seq<seq<real>>)
    requires forall k :: 0 <= k < |chunks| ==> |chunks[k]| == size
    requires size * |chunks| <= |s|
    ensures Placed(s, size, chunks) == Flatten(chunks) + s[size * |chunks|..]
  {
    if chunks != [] {
      var n := |chunks| - 1;
      assert size * n + size == size * |chunks|;
      PlacedFills(s, size, chunks[..n]);
      FlattenLength(chunks[..n], size);
      WrittenAfter(Flatten(chunks[..n]), s[size * n..], chunks[n]);
      assert s[size * n..][size..] == s[size * |chunks|..];
    }
  }

  /** Slot writes over buffers staged with one transform per instance leave only the written transforms. */
  lemma AttributesFilled(stale: Trs, ts: seq<Trs>)
    ensures Placed(Repeated(PositionOf(stale), |ts|), 3, Positions(ts)) == Flatten(Positions(ts))
    ensures Placed(Repeated(QuaternionOf(stale), |ts|), 4, Quaternions(ts)) == Flatten(Quaternions(ts))
    ensures Placed(Repeated(ScaleOf(stale), |ts|), 3, Scales(ts)) == Flatten(Scales(ts))
  {
    RepeatedLength(PositionOf(stale), |ts|);
    RepeatedLength(QuaternionOf(stale), |ts|);
    RepeatedLength(ScaleOf(stale), |ts|);
    PlacedFills(Repeated(PositionOf(stale), |ts|), 3, Positions(ts));
    PlacedFills(Repeated(QuaternionOf(stale), |ts|), 4, Quaternions(ts));
    PlacedFills(Repeated(ScaleOf(stale), |ts|), 3, Scales(ts));
  }

  lemma RemoveThenStore<K, V>(m: map<K, V>, k: K, v: V)
    ensures (m - {k})[k := v] == m[k := v]
  {
  }

  /**
   * What `updateInstancedEdges` promises per instance: slot `i` of `instT`,
   * `instR` and `instS` holds instance `i`'s position, quaternion and scale.
   */
  lemma SlotsHold(g: LineGeometry, ts: seq<Trs>, i: nat)
    requires g.Holds(ts) && i < |ts|
    ensures 3 * i + 3 <= g.instT.buffer.Length && g.instT.buffer[3 * i..3 * i + 3] == PositionOf(ts[i])
    ensures 4 * i + 4 <= g.instR.buffer.Length && g.instR.buffer[4 * i..4 * i + 4] == QuaternionOf(ts[i])
    ensures 3 * i + 3 <= g.instS.buffer.Length && g.instS.buffer[3 * i..3 * i + 3] == ScaleOf(ts[i])
  {
    FlattenSlot(Positions(ts), 3, i);
    FlattenSlot(Quaternions(ts), 4, i);
    FlattenSlot(Scales(ts), 3, i);
    assert g.instT.buffer[3 * i..3 * i + 3] == g.instT.buffer[..][3 * i..3 * i + 3];
    assert g.instR.buffer[4 * i..4 * i + 4] == g.instR.buffer[..][4 * i..4 * i + 4];
    assert g.instS.buffer[3 * i..3 * i + 3] == g.instS.buffer[..][3 * i..3 * i + 3];
  }

  /** `InstancedBufferAttribute`: a typed array read `itemSize` numbers per instance. */
  class Attribute {
    const itemSize: nat
    const buffer: array<real>
    var needsUpdate: bool

    /** `new InstancedBufferAttribute(new Float32Array(values), itemSize)`. */
    constructor(values: seq<real>, itemSize: nat)
      ensures this.itemSize == itemSize && fresh(buffer) && buffer[..] == values && !needsUpdate
    {
      this.itemSize := itemSize;
      buffer := new real[|values|](i requires 0 <= i < |values| => values[i]);
      needsUpdate := false;
    }

    /** `setXYZ(index, x, y, z)`. */
    method SetXYZ(index: nat, x: real, y: real, z: real)
      modifies buffer
      ensures buffer[..] == Written(old(buffer[..]), index * itemSize, [x, y, z])
    {
      var start := index * itemSize;
      if start < buffer.Length { buffer[start] := x; }
      if start + 1 < buffer.Length { buffer[start + 1] := y; }
      if start + 2 < buffer.Length { buffer[start + 2] := z; }
    }

    /** `setXYZW(index, x, y, z, w)`. */
    method SetXYZW(index: nat, x: real, y: real, z: real, w: real)
      modifies buffer
      ensures buffer[..] == Written(old(buffer[..]), index * itemSize, [x, y, z, w])
    {
      var start := index * itemSize;
      if start < buffer.Length { buffer[start] := x; }
      if start + 1 < buffer.Length { buffer[start + 1] := y; }
      if start + 2 < buffer.Length { buffer[start + 2] := z; }
      if start + 3 < buffer.Length { buffer[start + 3] := w; }
    }
  }

  /** `InstancedBufferGeometry`, by the three instance attributes the edges use. */
  class LineGeometry {
    var instT: Attribute?
    var instR: Attribute?
    var instS: Attribute?
    var disposed: bool

    constructor()
      ensures instT == null && instR == null && instS == null && !disposed
    {
      instT, instR, instS := null, null, null;
      disposed := false;
    }

    /** The three attributes exist, are read 3, 4 and 3 numbers per instance, and are separate buffers. */
    ghost predicate HasAttributes()
      reads this
    {
      && instT != null && instR != null && instS != null
      && instT.itemSize == 3 && instR.itemSize == 4 && instS.itemSize == 3
      && instT.buffer != instR.buffer && instT.buffer != instS.buffer && instR.buffer != instS.buffer
    }

    /** The typed arrays behind the attributes that exist. */
    ghost function Buffers(): set<object>
      reads this
    {
      (if instT != null then {instT.buffer} else {})
      + (if instR != null then {instR.buffer} else {})
      + (if instS != null then {instS.buffer} else {})
    }

    /** The attributes hold, slot by slot, the position, quaternion and scale of each of `ts`. */
    ghost predicate Holds(ts: seq<Trs>)
      reads this, Buffers()
    {
      && HasAttributes()
      && instT.buffer[..] == Flatten(Positions(ts))
      && instR.buffer[..] == Flatten(Quaternions(ts))
      && instS.buffer[..] == Flatten(Scales(ts))
    }
  }

  /** `LineSegments`: the edge object of one fragment. */
  class EdgeLines {
    var geometry: LineGeometry?
    var visible: bool
    var inScene: bool
    var frustumCulled: bool

    /** `new LineSegments(geometry, material)`: visible, culled, not yet in a scene. */
    constructor(geometry: LineGeometry)
      ensures this.geometry == geometry && visible && !inScene && frustumCulled
    {
      this.geometry := geometry;
      visible, inScene, frustumCulled := true, false, true;
    }

    /** `disposer.dispose(edges, true)`: out of the scene, geometry disposed. */
    method Release()
      requires geometry != null
      modifies this`inScene, geometry
      ensures !inScene && geometry.disposed
    {
      inScene := false;
      geometry.disposed := true;
    }
  }

  class Edges {
    var edgesList: map<string, EdgeLines>
    var edgesToUpdate: set<string>
    var threshold: int
    /** The position, quaternion and scale of `_dummy`. */
    var dummy: Trs
    var pos: seq<real>
    var rot: seq<real>
    var scl: seq<real>
    var materialDisposed: bool
    /** `Matrix4.decompose`. */
    const decompose: Matrix -> Trs

    /** The stored edge objects. */
    ghost function Entries(): set<EdgeLines>
      reads this
    {
      edgesList.Values
    }

    /**
     * Between calls the staging arrays are empty, every stored object has
     * a geometry, and no two fragment ids share an object or a geometry.
     */
    ghost predicate Valid()
      reads this, Entries()
    {
      && pos == [] && rot == [] && scl == []
      && (forall id :: id in edgesList ==> edgesList[id].geometry != null)
      && (forall a, b :: a in edgesList && b in edgesList && a != b ==>
            edgesList[a] != edgesList[b] && edgesList[a].geometry != edgesList[b].geometry)
    }

    /** The object and geometry `generate` releases for `id`, if any. */
    ghost function Released(id: string): set<object>
      reads this, Entries()
    {
      if id in edgesList && edgesList[id].geometry != null then {edgesList[id], edgesList[id].geometry}
      else if id in edgesList then {edgesList[id]}
      else {}
    }

    constructor(decompose: Matrix -> Trs)
      ensures Valid() && this.decompose == decompose
      ensures edgesList == map[] && edgesToUpdate == {} && threshold == 80 && dummy == InitialTrs
      ensures !materialDisposed
    {
      this.decompose := decompose;
      edgesList := map[];
      edgesToUpdate := {};
      threshold := 80;
      dummy := InitialTrs;
      pos, rot, scl := [], [], [];
      materialDisposed := false;
    }

    /**
     * `getInstanceTransforms`: per instance, three, four and three numbers
     * are pushed. `getInstance` writes the instance matrix into
     * `_dummy.matrix`, but `updateMatrix` then recomposes that matrix from the
     * dummy's position, quaternion and scale, which it does not touch: every
     * instance pushes the dummy's current, stale, transform.
     */
    method GetInstanceTransforms(fragment: FragmentInput)
      modifies this`pos, this`rot, this`scl
      ensures pos == old(pos) + Repeated(PositionOf(dummy), |fragment.matrices|)
      ensures rot == old(rot) + Repeated(QuaternionOf(dummy), |fragment.matrices|)
      ensures scl == old(scl) + Repeated(ScaleOf(dummy), |fragment.matrices|)
    {
      for i := 0 to |fragment.matrices|
        invariant pos == old(pos) + Repeated(PositionOf(dummy), i)
        invariant rot == old(rot) + Repeated(QuaternionOf(dummy), i)
        invariant scl == old(scl) + Repeated(ScaleOf(dummy), i)
      {
        pos := pos + [dummy.position.x, dummy.position.y, dummy.position.z];
        rot := rot + [dummy.quaternion.x, dummy.quaternion.y, dummy.quaternion.z, dummy.quaternion.w];
        scl := scl + [dummy.scale.x, dummy.scale.y, dummy.scale.z];
      }
    }

    /**
     * `setAttributes`: the staging arrays become the attributes `instT`,
     * `instR` and `instS`, read 3, 4 and 3 numbers per instance, and are
     * then truncated to length 0.
     */
    method SetAttributes(lineGeom: LineGeometry)
      modifies this`pos, this`rot, this`scl, lineGeom
      ensures lineGeom.HasAttributes()
      ensures fresh(lineGeom.instT) && fresh(lineGeom.instR) && fresh(lineGeom.instS)
      ensures fresh(lineGeom.instT.buffer) && fresh(lineGeom.instR.buffer) && fresh(lineGeom.instS.buffer)
      ensures lineGeom.instT.buffer[..] == old(pos) && lineGeom.instR.buffer[..] == old(rot) && lineGeom.instS.buffer[..] == old(scl)
      ensures !lineGeom.instT.needsUpdate && !lineGeom.instR.needsUpdate && !lineGeom.instS.needsUpdate
      ensures lineGeom.disposed == old(lineGeom.disposed)
      ensures pos == [] && rot == [] && scl == []
    {
      lineGeom.instT := new Attribute(pos, 3);
      lineGeom.instR := new Attribute(rot, 4);
      lineGeom.instS := new Attribute(scl, 3);
      pos, rot, scl := [], [], [];
    }

    /** `linesTRS(index, o, lineGeom)`: the three attributes get `o`'s numbers in slot `index` and are flagged for upload. */
    method LinesTRS(index: nat, o: Trs, lineGeom: LineGeometry)
      requires lineGeom.HasAttributes()
      modifies lineGeom.instT, lineGeom.instR, lineGeom.instS
      modifies lineGeom.instT.buffer, lineGeom.instR.buffer, lineGeom.instS.buffer
      ensures lineGeom.instT.buffer[..] == Written(old(lineGeom.instT.buffer[..]), 3 * index, PositionOf(o))
      ensures lineGeom.instR.buffer[..] == Written(old(lineGeom.instR.buffer[..]), 4 * index, QuaternionOf(o))
      ensures lineGeom.instS.buffer[..] == Written(old(lineGeom.instS.buffer[..]), 3 * index, ScaleOf(o))
      ensures lineGeom.instT.needsUpdate && lineGeom.instR.needsUpdate && lineGeom.instS.needsUpdate
    {
      lineGeom.instT.SetXYZ(index, o.position.x, o.position.y, o.position.z);
      lineGeom.instT.needsUpdate := true;
      lineGeom.instR.SetXYZW(index, o.quaternion.x, o.quaternion.y, o.quaternion.z, o.quaternion.w);
      lineGeom.instR.needsUpdate := true;
      lineGeom.instS.SetXYZ(index, o.scale.x, o.scale.y, o.scale.z);
      lineGeom.instS.needsUpdate := true;
    }

    /**
     * `updateInstancedEdges`: instance `i`'s matrix is decomposed into the
     * dummy and written into slot `i` of each attribute, for every instance
     * in order; the dummy keeps the last instance's transform.
     */
    method UpdateInstancedEdges(fragment: FragmentInput, lineGeom: LineGeometry)
      requires lineGeom.HasAttributes()
      modifies this`dummy, lineGeom.instT, lineGeom.instR, lineGeom.instS
      modifies lineGeom.instT.buffer, lineGeom.instR.buffer, lineGeom.instS.buffer
      ensures var ts := Decomposed(decompose, fragment.matrices);
              && lineGeom.instT.buffer[..] == Placed(old(lineGeom.instT.buffer[..]), 3, Positions(ts))
              && lineGeom.instR.buffer[..] == Placed(old(lineGeom.instR.buffer[..]), 4, Quaternions(ts))
              && lineGeom.instS.buffer[..] == Placed(old(lineGeom.instS.buffer[..]), 3, Scales(ts))
      ensures dummy == if fragment.matrices == [] then old(dummy) else decompose(fragment.matrices[|fragment.matrices| - 1])
    {
      ghost var ts := Decomposed(decompose, fragment.matrices);
      ghost var t0, r0, s0 := lineGeom.instT.buffer[..], lineGeom.instR.buffer[..], lineGeom.instS.buffer[..];
      for i := 0 to |fragment.matrices|
        invariant lineGeom.instT.buffer[..] == Placed(t0, 3, Positions(ts[..i]))
        invariant lineGeom.instR.buffer[..] == Placed(r0, 4, Quaternions(ts[..i]))
        invariant lineGeom.instS.buffer[..] == Placed(s0, 3, Scales(ts[..i]))
        invariant dummy == if i == 0 then old(dummy) else decompose(fragment.matrices[i - 1])
      {
        dummy := decompose(fragment.matrices[i]);
        assert Positions(ts[..i + 1])[..i] == Positions(ts[..i]);
        assert Quaternions(ts[..i + 1])[..i] == Quaternions(ts[..i]);
        assert Scales(ts[..i + 1])[..i] == Scales(ts[..i]);
        LinesTRS(i, dummy, lineGeom);
      }
      assert ts[..|fragment.matrices|] == ts;
    }

    /**
     * The release at the start of `generate`: a previous object for `id`
     * is taken out of the scene, its geometry disposed and dropped, and the
     * entry deleted.
     */
    method ReleasePrevious(id: string)
      requires Valid()
      modifies this`edgesList, Released(id)
      ensures Valid()
      ensures edgesList == old(edgesList) - {id}
      ensures forall other :: other in edgesList ==>
                edgesList[other] == old(edgesList[other]) && unchanged(edgesList[other])
      ensures id in old(edgesList) ==>
                var previous := old(edgesList[id]);
                !previous.inScene && previous.geometry == null && old(previous.geometry).disposed
                && previous.visible == old(previous.visible)
    {
      if id in edgesList {
        var previous := edgesList[id];
        previous.inScene := false;
        previous.geometry.disposed := true;
        previous.geometry := null;
        edgesList := edgesList - {id};
      }
    }

    /** `this.edgesList[fragment.id] = lines` for a new object with a new geometry. */
    method Store(id: string, lines: EdgeLines)
      requires Valid() && id !in edgesList
      requires lines !in Entries() && lines.geometry != null
      requires forall other :: other in edgesList ==> edgesList[other].geometry != lines.geometry
      modifies this`edgesList
      ensures Valid()
      ensures edgesList == old(edgesList)[id := lines]
    {
      edgesList := edgesList[id := lines];
    }

    /**
     * Lines 79-85 of `generate`: the staging arrays are filled from the
     * dummy's current transform, one copy per instance, and become the
     * attributes of a new line geometry; the staging arrays end empty.
     */
    method BuildLineGeometry(fragment: FragmentInput) returns (lineGeom: LineGeometry)
      requires pos == [] && rot == [] && scl == []
      modifies this`pos, this`rot, this`scl
      ensures fresh(lineGeom) && lineGeom.HasAttributes() && !lineGeom.disposed
      ensures fresh(lineGeom.instT) && fresh(lineGeom.instR) && fresh(lineGeom.instS)
      ensures fresh(lineGeom.instT.buffer) && fresh(lineGeom.instR.buffer) && fresh(lineGeom.instS.buffer)
      ensures lineGeom.instT.buffer[..] == Repeated(PositionOf(dummy), |fragment.matrices|)
      ensures lineGeom.instR.buffer[..] == Repeated(QuaternionOf(dummy), |fragment.matrices|)
      ensures lineGeom.instS.buffer[..] == Repeated(ScaleOf(dummy), |fragment.matrices|)
      ensures lineGeom.instT.buffer.Length == 3 * |fragment.matrices|
      ensures lineGeom.instR.buffer.Length == 4 * |fragment.matrices|
      ensures lineGeom.instS.buffer.Length == 3 * |fragment.matrices|
      ensures pos == [] && rot == [] && scl == []
    {
      GetInstanceTransforms(fragment);
      lineGeom := new LineGeometry();
      SetAttributes(lineGeom);
      RepeatedLength(PositionOf(dummy), |fragment.matrices|);
      RepeatedLength(QuaternionOf(dummy), |fragment.matrices|);
      RepeatedLength(ScaleOf(dummy), |fragment.matrices|);
    }

    /**
     * Lines 79-96 of `generate` for the new object: its geometry gets the
     * staged attributes, it is taken out of frustum culling and added to
     * the scene, every instance's decomposed matrix is written into its
     * slot, replacing the stale staged values, and it is hidden. (The source
     * stores the object in `edgesList` before the slot writes and the
     * hiding; nothing reads the dictionary in between, so the model stores
     * it afterwards.)
     */
    method NewEdges(fragment: FragmentInput) returns (lines: EdgeLines)
      requires pos == [] && rot == [] && scl == []
      modifies this`pos, this`rot, this`scl, this`dummy
      ensures fresh(lines) && fresh(lines.geometry) && lines.geometry != null
      ensures !lines.visible && lines.inScene && !lines.frustumCulled
      ensures !lines.geometry.disposed && lines.geometry.Holds(Decomposed(decompose, fragment.matrices))
      ensures pos == [] && rot == [] && scl == []
      ensures dummy == if fragment.matrices == [] then old(dummy) else decompose(fragment.matrices[|fragment.matrices| - 1])
    {
      var lineGeom := BuildLineGeometry(fragment);
      lines := new EdgeLines(lineGeom);
      lines.frustumCulled := false;
      lines.inScene := true;
      WriteInstances(fragment, lineGeom);
      lines.visible := false;
    }

    /** `updateInstancedEdges` over attributes staged from one stale transform: every slot ends up written. */
    method WriteInstances(fragment: FragmentInput, lineGeom: LineGeometry)
      requires lineGeom.HasAttributes()
      requires exists stale: Trs ::
                 && lineGeom.instT.buffer[..] == Repeated(PositionOf(stale), |fragment.matrices|)
                 && lineGeom.instR.buffer[..] == Repeated(QuaternionOf(stale), |fragment.matrices|)
                 && lineGeom.instS.buffer[..] == Repeated(ScaleOf(stale), |fragment.matrices|)
      modifies this`dummy, lineGeom.instT, lineGeom.instR, lineGeom.instS
      modifies lineGeom.instT.buffer, lineGeom.instR.buffer, lineGeom.instS.buffer
      ensures var ts := Decomposed(decompose, fragment.matrices);
              && lineGeom.instT.buffer[..] == Flatten(Positions(ts))
              && lineGeom.instR.buffer[..] == Flatten(Quaternions(ts))
              && lineGeom.instS.buffer[..] == Flatten(Scales(ts))
      ensures dummy == if fragment.matrices == [] then old(dummy) else decompose(fragment.matrices[|fragment.matrices| - 1])
    {
      ghost var stale: Trs :| && lineGeom.instT.buffer[..] == Repeated(PositionOf(stale), |fragment.matrices|)
                              && lineGeom.instR.buffer[..] == Repeated(QuaternionOf(stale), |fragment.matrices|)
                              && lineGeom.instS.buffer[..] == Repeated(ScaleOf(stale), |fragment.matrices|);
      UpdateInstancedEdges(fragment, lineGeom);
      AttributesFilled(stale, Decomposed(decompose, fragment.matrices));
    }

    /**
     * `generate(fragment)`. A previous object for the fragment id is taken
     * out of the scene and its geometry disposed and dropped before the new
     * object replaces it; the new object is hidden, in the scene, not culled,
     * and its attributes hold, slot by slot, the decomposed instance
     * matrices. Other ids keep their objects untouched.
     */
    method Generate(fragment: FragmentInput) returns (lines: EdgeLines)
      requires Valid()
      modifies this`edgesList, this`pos, this`rot, this`scl, this`dummy, Released(fragment.id)
      ensures Valid()
      ensures edgesList == old(edgesList)[fragment.id := lines]
      ensures fresh(lines) && fresh(lines.geometry) && lines.geometry != null
      ensures !lines.visible && lines.inScene && !lines.frustumCulled
      ensures !lines.geometry.disposed && lines.geometry.Holds(Decomposed(decompose, fragment.matrices))
      ensures fragment.id in old(edgesList) ==>
                var previous := old(edgesList[fragment.id]);
                !previous.inScene && previous.geometry == null && old(previous.geometry).disposed
      ensures forall id :: id in old(edgesList) && id != fragment.id ==> unchanged(edgesList[id])
    {
      ReleasePrevious(fragment.id);
      lines := NewEdges(fragment);
      Store(fragment.id, lines);
      RemoveThenStore(old(edgesList), fragment.id, lines);
    }

    /**
     * `dispose()`: every stored object leaves the scene and has its geometry
     * disposed, the shared line material is disposed, and both the
     * dictionary and the update set end empty.
     */
    method Dispose()
      requires Valid()
      modifies this`edgesList, this`edgesToUpdate, this`materialDisposed, Entries(), set id | id in edgesList :: edgesList[id].geometry
      ensures Valid()
      ensures edgesList == map[] && edgesToUpdate == {} && materialDisposed
      ensures forall id :: id in old(edgesList) ==>
                !old(edgesList[id]).inScene && old(edgesList[id]).geometry == old(edgesList[id].geometry)
                && old(edgesList[id].geometry).disposed
    {
      var guids := EnumerateKeys(edgesList);
      for i := 0 to |guids|
        invariant edgesList == old(edgesList)
        invariant forall id :: id in edgesList ==> edgesList[id].geometry != null
        invariant forall j :: 0 <= j < i ==> !edgesList[guids[j]].inScene && edgesList[guids[j]].geometry.disposed
        invariant forall id :: id in edgesList ==> edgesList[id].geometry == old(edgesList[id].geometry)
      {
        edgesList[guids[i]].Release();
      }
      materialDisposed := true;
      edgesList := map[];
      edgesToUpdate := {};
    }
  }
}
