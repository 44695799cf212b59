/**
 * `DataConverter`: turns the loaded IFC elements into fragments. An element
 * with several instances, of an instanced category or with voids becomes an
 * instanced fragment of its own; any other element has its geometries, placed
 * and tagged with its item id, appended to the merge bucket of its category,
 * floor and material. Each (category, floor) pair of buckets later becomes one
 * merged fragment with a per-vertex block-id buffer. Every item id receives a
 * bounding entry, in `_transparentBoundingBoxes` for transparent or voided
 * instanced elements and in `_boundingBoxes` otherwise.
 */
module DataConverter {
  import opened Optional
  import opened ConverterTypes
  import opened BlockIds
  import opened BucketTable
  import opened ObjectKeys

  /** `instancedCategories.has(categoryID)`; a category that reads `undefined` is not in the set. */
  predicate IsInstancedCategory(k: Key, instanced: set<int>)
  {
    k.Defined? && k.value in instanced
  }

  /**
   * What `setFragmentInstances` records: instance `i` gets the id list
   * `[instances[i].id]` and the instance's matrix after `Units.apply`.
   */
  function InstanceRecords(instances: seq<Instance>): (r: seq<FragmentInstance>)
    ensures |r| == |instances|
    ensures forall i :: 0 <= i < |r| ==>
              r[i].ids == [instances[i].id] && r[i].transform == ApplyUnits(instances[i].matrix)
    decreases |instances|
  {
    if instances == [] then []
    else
      var n := |instances| - 1;
      InstanceRecords(instances[..n]) + [FragmentInstance([instances[n].id], ApplyUnits(instances[n].matrix))]
  }

  /** The fragment `processInstancedItems` pushes: all geometries merged, one instance per element instance. */
  function InstancedFragment(data: FragmentData): Fragment
  {
    Fragment(Concat(GeometryLists(data.byMaterial)), None, MaterialIds(data.byMaterial), InstanceRecords(data.instances))
  }

  /**
   * The bounding entries the instance loop of `processInstancedItems` writes:
   * instance `i`'s id maps to the box of the fragment geometry placed by its
   * transform, written in instance order.
   */
  function InstanceEntries(parts: seq<Geometry>, instances: seq<Instance>): map<ItemId, BoundingEntry>
    decreases |instances|
  {
    if instances == [] then map[]
    else
      var n := |instances| - 1;
      InstanceEntries(parts, instances[..n])[instances[n].id := BoundingEntry(parts, Some(ApplyUnits(instances[n].matrix)))]
  }

  /** Exactly the instances' ids get an entry. */
  lemma {:induction false} InstanceEntriesKeys(parts: seq<Geometry>, instances: seq<Instance>)
    ensures forall i :: 0 <= i < |instances| ==> instances[i].id in InstanceEntries(parts, instances)
    ensures forall x :: x in InstanceEntries(parts, instances) ==> exists i :: 0 <= i < |instances| && instances[i].id == x
    decreases |instances|
  {
    if instances != [] {
      var n := |instances| - 1;
      var p := instances[..n];
      InstanceEntriesKeys(parts, p);
      assert forall i :: 0 <= i < n ==> p[i] == instances[i];
    }
  }

  /** When two instances share an id, the later write wins: an id's entry comes from its last instance. */
  lemma {:induction false} InstanceEntriesLast(parts: seq<Geometry>, instances: seq<Instance>, i: nat)
    requires i < |instances|
    requires forall j :: i < j < |instances| ==> instances[j].id != instances[i].id
    ensures instances[i].id in InstanceEntries(parts, instances)
    ensures InstanceEntries(parts, instances)[instances[i].id] == BoundingEntry(parts, Some(ApplyUnits(instances[i].matrix)))
    decreases |instances|
  {
    var n := |instances| - 1;
    if i < n {
      var p := instances[..n];
      assert forall j :: i < j < n ==> p[j] == instances[j];
      InstanceEntriesLast(parts, p, i);
    }
  }

  lemma UnionUpdate<K, V>(a: map<K, V>, b: map<K, V>, k: K, v: V)
    ensures (a + b)[k := v] == a + b[k := v]
  {
  }

  /** Splitting a bucket by item id: the geometries of `id`, in bucket order. */
  function OwnGeometries(s: seq<Tagged>, id: ItemId): seq<Geometry>
    decreases |s|
  {
    if s == [] then []
    else
      var n := |s| - 1;
      OwnGeometries(s[..n], id) + if s[n].id == id then [s[n].geometry] else []
  }

  /** The split keeps exactly the geometries tagged `id`, and no more geometries than the bucket has. */
  lemma {:induction false} OwnGeometriesMembers(s: seq<Tagged>, id: ItemId)
    ensures |OwnGeometries(s, id)| <= |s|
    ensures forall g :: g in OwnGeometries(s, id) <==> Tagged(id, g) in s
    decreases |s|
  {
    if s != [] {
      var n := |s| - 1;
      assert s == s[..n] + [s[n]];
      OwnGeometriesMembers(s[..n], id);
    }
  }

  /** An item of the bucket owns at least one geometry; any other id owns none. */
  lemma {:induction false} OwnGeometriesNonEmpty(s: seq<Tagged>, id: ItemId)
    ensures OwnGeometries(s, id) != [] <==> id in IdSet(s)
    decreases |s|
  {
    if s != [] {
      OwnGeometriesNonEmpty(s[..|s| - 1], id);
    }
  }

  /** The bounding entries of a merged bucket: one per distinct id, from that id's own geometries. */
  function UniqueEntries(s: seq<Tagged>): map<ItemId, BoundingEntry>
  {
    map id | id in IdSet(s) :: BoundingEntry(OwnGeometries(s, id), None)
  }

  /** `Object.values(bucketsOfFloor)` in the key order `order`. */
  function BucketGroups(buckets: map<MatId, Bucket>, order: seq<MatId>): (r: seq<Bucket>)
    requires forall i :: 0 <= i < |order| ==> order[i] in buckets
    ensures |r| == |order| && forall i :: 0 <= i < |r| ==> r[i] == buckets[order[i]]
  {
    seq(|order|, i requires 0 <= i < |order| => buckets[order[i]])
  }

  /** Every geometry of every bucket named in `order`, and nothing else, is in `Object.values` concatenated. */
  lemma BucketGroupsContents(buckets: map<MatId, Bucket>, order: seq<MatId>)
    requires forall m :: m in order <==> m in buckets
    ensures forall t :: t in Concat(BucketGroups(buckets, order)) <==> exists m :: m in buckets && t in buckets[m]
  {
    var groups := BucketGroups(buckets, order);
    forall t | t in Concat(groups)
      ensures exists m :: m in buckets && t in buckets[m]
    {
      ConcatMemberInv(groups, t);
      var i :| 0 <= i < |groups| && t in groups[i];
      assert order[i] in buckets && t in buckets[order[i]];
    }
    forall t, m | m in buckets && t in buckets[m]
      ensures t in Concat(groups)
    {
      var i :| 0 <= i < |order| && order[i] == m;
      var k :| 0 <= k < |buckets[m]| && buckets[m][k] == t;
      ConcatMember(groups, i, k);
    }
  }

  /** In the concatenation, a value comes from one of the groups. */
  lemma {:induction false} ConcatMemberInv<T>(groups: seq<seq<T>>, x: T)
    requires x in Concat(groups)
    ensures exists i :: 0 <= i < |groups| && x in groups[i]
    decreases |groups|
  {
    var n := |groups| - 1;
    if x !in groups[n] {
      var p := groups[..n];
      ConcatMemberInv(p, x);
      var i :| 0 <= i < n && x in p[i];
      assert p[i] == groups[i];
    }
  }

  /** Sum of `position.count` over untagged geometries. */
  function VertexCount(gs: seq<Geometry>): nat
    decreases |gs|
  {
    if gs == [] then 0 else VertexCount(gs[..|gs| - 1]) + gs[|gs| - 1].count
  }

  /**
   * What the push loop of `applyTransformToMergedGeometries` adds to a
   * bucket: geometries of item `id` only (none when the material has no
   * geometry), with as many vertices as the material's geometries, since
   * `applyMatrix4` moves vertices and adds none.
   */
  lemma {:induction false} TagContents(id: ItemId, gs: seq<Geometry>, matrix: Transform)
    ensures IdSet(Tag(id, gs, matrix)) == if gs == [] then {} else {id}
    ensures TotalCount(Tag(id, gs, matrix)) == VertexCount(gs)
    decreases |gs|
  {
    if gs != [] {
      var n := |gs| - 1;
      assert Tag(id, gs, matrix)[..n] == Tag(id, gs[..n], matrix);
      TagContents(id, gs[..n], matrix);
    }
  }

  /**
   * The fragment `newMergedFragment` builds from a bucket: all geometries
   * merged, the block-id buffer, the bucket's materials and a single instance
   * at the identity whose ids are the bucket's ids in first-appearance order.
   */
  function MergedFragment(groups: seq<Bucket>, mats: seq<MatId>): Fragment
  {
    var flat := Concat(groups);
    Fragment(Untagged(flat), Some(Runs(flat, FirstAppearance(flat))), mats,
             [FragmentInstance(FirstAppearance(flat), Identity)])
  }

  /**
   * The merged fragment's two id records agree: the block id stored at every
   * vertex of geometry `k` indexes, in the single instance's id list, exactly
   * the item id geometry `k` was tagged with. The instance lists every id of
   * the bucket once, and block ids run over 0 .. (number of ids) - 1.
   */
  lemma MergedFragmentIds(groups: seq<Bucket>, mats: seq<MatId>)
    ensures var f := MergedFragment(groups, mats);
            var flat := Concat(groups);
            && f.blockIds.Some? && |f.blockIds.value| == TotalCount(flat)
            && |f.instances| == 1 && f.instances[0].transform == Identity
            && Distinct(f.instances[0].ids)
            && (forall x :: x in f.instances[0].ids <==> x in IdSet(flat))
            && (forall p :: 0 <= p < |f.blockIds.value| ==> f.blockIds.value[p] < |f.instances[0].ids|)
            && (forall k, p :: 0 <= k < |flat| && Offset(flat, k) <= p < Offset(flat, k) + flat[k].geometry.count ==>
                 f.instances[0].ids[f.blockIds.value[p]] == flat[k].id)
  {
    var flat := Concat(groups);
    var ids := FirstAppearance(flat);
    RunsPartition(flat, ids);
    var runs := Runs(flat, ids);
    forall p | 0 <= p < |runs|
      ensures runs[p] < |ids|
    {
      var k := RangeOf(flat, p);
    }
  }

  /** The id split after the geometries `done`: one list per id seen, each in bucket order. */
  ghost predicate Grouped(byId: map<ItemId, seq<Geometry>>, done: seq<Tagged>)
  {
    byId.Keys == IdSet(done) && forall id :: id in byId ==> byId[id] == OwnGeometries(done, id)
  }

  /** `items[id].push(geometry)`, creating the list for a new id first. */
  function AddGeometry(byId: map<ItemId, seq<Geometry>>, t: Tagged): map<ItemId, seq<Geometry>>
  {
    byId[t.id := (if t.id in byId then byId[t.id] else []) + [t.geometry]]
  }

  lemma GroupedStep(byId: map<ItemId, seq<Geometry>>, done: seq<Tagged>, t: Tagged)
    requires Grouped(byId, done)
    ensures Grouped(AddGeometry(byId, t), done + [t])
  {
    AppendOne(done, t);
    assert (done + [t])[..|done|] == done;
    if t.id !in byId {
      OwnGeometriesNonEmpty(done, t.id);
    }
  }

  /** One step of the id split, as `processUniqueItem` writes it. */
  method AddOne(byId: map<ItemId, seq<Geometry>>, geom: Tagged) returns (byId': map<ItemId, seq<Geometry>>)
    ensures byId' == AddGeometry(byId, geom)
  {
    byId' := byId;
    if geom.id !in byId' {
      byId' := byId'[geom.id := []];
    }
    byId' := byId'[geom.id := byId'[geom.id] + [geom.geometry]];
  }

  /** The inner loop of the id split in `processUniqueItem`: the geometries of one material. */
  method GroupOne(group: seq<Tagged>, byId: map<ItemId, seq<Geometry>>, ghost done: seq<Tagged>)
    returns (byId': map<ItemId, seq<Geometry>>)
    requires Grouped(byId, done)
    ensures Grouped(byId', done + group)
  {
    byId' := byId;
    assert done + group[..0] == done;
    for j := 0 to |group|
      invariant Grouped(byId', done + group[..j])
    {
      PrefixStep(done, group, j);
      GroupedStep(byId', done + group[..j], group[j]);
      byId' := AddOne(byId', group[j]);
    }
    assert group[..|group|] == group;
  }

  /**
   * The id split of `processUniqueItem`: `items[id]` collects, in bucket
   * order, the geometries tagged `id`; exactly the bucket's ids get a list.
   */
  method GroupById(groups: seq<Bucket>) returns (byId: map<ItemId, seq<Geometry>>)
    ensures byId.Keys == IdSet(Concat(groups))
    ensures forall id :: id in byId ==> byId[id] == OwnGeometries(Concat(groups), id)
  {
    byId := map[];
    for gi := 0 to |groups|
      invariant Grouped(byId, Concat(groups[..gi]))
    {
      ConcatStep(groups, gi);
      byId := GroupOne(groups[gi], byId, Concat(groups[..gi]));
    }
    ConcatAll(groups);
  }

  /** Every (category, floor) pair of the table has both keys defined. */
  predicate AllDefined(t: Table)
  {
    forall c, l :: c in t && l in t[c] ==> c.Defined? && l.Defined?
  }

  /** One (category, floor) pair with an undefined key is enough to fail the unique-item pass. */
  lemma UndefinedPair(t: Table, c: Key, l: Key)
    requires c in t && l in t[c] && !(c.Defined? && l.Defined?)
    ensures !AllDefined(t)
  {
  }

  /** A geometry of the bucket carries one of the bucket's ids. */
  lemma {:induction false} MemberId(s: seq<Tagged>, t: Tagged)
    requires t in s
    ensures t.id in IdSet(s)
    decreases |s|
  {
    var n := |s| - 1;
    if t != s[n] {
      assert s == s[..n] + [s[n]];
      MemberId(s[..n], t);
    }
  }

  /** Every geometry of every group is in the concatenation. */
  lemma {:induction false} ConcatMember<T>(groups: seq<seq<T>>, i: nat, k: nat)
    requires i < |groups| && k < |groups[i]|
    ensures groups[i][k] in Concat(groups)
    decreases |groups|
  {
    var n := |groups| - 1;
    if i < n {
      var p := groups[..n];
      assert p[i] == groups[i];
      ConcatMember(p, i, k);
    } else {
      assert Concat(groups) == Concat(groups[..n]) + groups[n];
      assert groups[i][k] == Concat(groups)[|Concat(groups[..n])| + k];
    }
  }

  /** Every geometry of a floor's buckets carries an id of their concatenation. */
  lemma BucketIds(buckets: map<MatId, Bucket>, order: seq<MatId>)
    requires forall m :: m in order <==> m in buckets
    ensures forall m, k :: m in buckets && 0 <= k < |buckets[m]| ==> buckets[m][k].id in IdSet(Concat(BucketGroups(buckets, order)))
  {
    var groups := BucketGroups(buckets, order);
    forall m, k | m in buckets && 0 <= k < |buckets[m]|
      ensures buckets[m][k].id in IdSet(Concat(groups))
    {
      var i :| 0 <= i < |order| && order[i] == m;
      ConcatMember(groups, i, k);
      MemberId(Concat(groups), groups[i][k]);
    }
  }

  /**
   * With the table keyed, the merged fragment of floor `l` of category `c`
   * lists only items whose category and floor read `c` and `l`.
   */
  lemma MergedFragmentKeyed(t: Table, categories: map<ItemId, int>, floors: map<ItemId, int>,
                            c: Key, l: Key, order: seq<MatId>)
    requires Keyed(t, categories, floors) && c in t && l in t[c]
    requires forall m :: m in order <==> m in t[c][l]
    ensures forall x :: x in MergedFragment(BucketGroups(t[c][l], order), order).instances[0].ids ==>
              Lookup(categories, x) == c && Lookup(floors, x) == l
  {
    var flat := Concat(BucketGroups(t[c][l], order));
    BucketGroupsContents(t[c][l], order);
    IdSetMembers(flat);
    forall x | x in FirstAppearance(flat)
      ensures Lookup(categories, x) == c && Lookup(floors, x) == l
    {
      var i :| 0 <= i < |flat| && flat[i].id == x;
      assert flat[i] in flat;
      var m :| m in t[c][l] && flat[i] in t[c][l][m];
      var k :| 0 <= k < |t[c][l][m]| && t[c][l][m][k] == flat[i];
      assert HasBucket(t, c, l, m);
    }
  }

  /** The boxes the helper loop of `processUniqueItem` writes: one per id, from that id's geometries. */
  function BoxesOf(byId: map<ItemId, seq<Geometry>>): map<ItemId, BoundingEntry>
  {
    map id | id in byId :: BoundingEntry(byId[id], None)
  }

  class Converter {
    /** `_categories`: item id -> IFC category. */
    const categories: map<ItemId, int>
    /** `_spatialStructure.itemsByFloor`: item id -> floor. */
    const itemsByFloor: map<ItemId, int>
    /** `_settings.instancedCategories`. */
    const instancedCategories: set<int>
    /** `_materials`. */
    const materials: map<MatId, Material>
    /** `Object.values(_items)`, in enumeration order. */
    const items: seq<FragmentData>

    /** `_uniqueItems`. */
    var uniqueItems: Table
    var boundingBoxes: map<ItemId, BoundingEntry>
    var transparentBoundingBoxes: map<ItemId, BoundingEntry>
    /** `_model.fragments`. */
    var fragments: seq<Fragment>

    /**
     * Every merged geometry sits in the bucket of its item's category and
     * floor; so each merged fragment lists only items of its pair
     * (`ProcessUniqueItem`).
     */
    ghost predicate Valid()
      reads this
    {
      Keyed(uniqueItems, categories, itemsByFloor)
    }

    constructor(categories: map<ItemId, int>, itemsByFloor: map<ItemId, int>, instancedCategories: set<int>,
                materials: map<MatId, Material>, items: seq<FragmentData>)
      ensures Valid()
      ensures this.categories == categories && this.itemsByFloor == itemsByFloor
      ensures this.instancedCategories == instancedCategories && this.materials == materials && this.items == items
      ensures uniqueItems == map[] && boundingBoxes == map[] && transparentBoundingBoxes == map[] && fragments == []
    {
      this.categories := categories;
      this.itemsByFloor := itemsByFloor;
      this.instancedCategories := instancedCategories;
      this.materials := materials;
      this.items := items;
      uniqueItems := map[];
      boundingBoxes := map[];
      transparentBoundingBoxes := map[];
      fragments := [];
    }

    /** `reset()`: a new fragment group and empty tables. */
    method Reset()
      modifies this
      ensures Valid()
      ensures uniqueItems == map[] && boundingBoxes == map[] && transparentBoundingBoxes == map[] && fragments == []
    {
      fragments := [];
      uniqueItems := map[];
      boundingBoxes := map[];
      transparentBoundingBoxes := map[];
    }

    /** The instanced-or-merged rule of `processFragmentData`, simplified. */
    predicate GoesInstanced(data: FragmentData)
      requires |data.instances| > 0
    {
      |data.instances| != 1 || IsInstancedCategory(Lookup(categories, data.instances[0].id), instancedCategories)
      || data.instances[0].voids
    }

    /** Every material of the element is in `_materials`. */
    predicate KnownMaterials(mats: seq<MaterialGeometries>)
    {
      forall i :: 0 <= i < |mats| ==> mats[i].matId in materials
    }

    predicate AnyTransparent(mats: seq<MaterialGeometries>)
      requires KnownMaterials(mats)
    {
      exists i :: 0 <= i < |mats| && materials[mats[i].matId].transparent
    }

    /** Where `processInstancedItems` puts the element's boxes: transparent or voided goes to the second map. */
    predicate TransparentRoute(data: FragmentData)
      requires KnownMaterials(data.byMaterial)
    {
      AnyTransparent(data.byMaterial) || (|data.instances| == 1 && data.instances[0].voids)
    }

    /** `initializeItem(category, level, matID)`. */
    method InitializeItem(c: Key, l: Key, m: MatId)
      modifies this`uniqueItems
      ensures uniqueItems == Initialized(old(uniqueItems), c, l, m)
    {
      if c !in uniqueItems {
        uniqueItems := uniqueItems[c := map[]];
      }
      if l !in uniqueItems[c] {
        uniqueItems := uniqueItems[c := uniqueItems[c][l := map[]]];
      }
      if m !in uniqueItems[c][l] {
        uniqueItems := uniqueItems[c := uniqueItems[c][l := uniqueItems[c][l][m := []]]];
      }
    }

    /**
     * `applyTransformToMergedGeometries(data, category, level, matID)` for
     * material `k` of the element; `matrix` is the element's instance matrix
     * as earlier materials left it. The unit scale is applied to it once more
     * and every geometry of the material, tagged with the item id and placed
     * with that matrix, is pushed onto the bucket.
     */
    method ApplyTransformToMergedGeometries(data: FragmentData, c: Key, l: Key, k: nat, matrix: Transform)
      returns (placed: Transform)
      requires |data.instances| > 0 && k < |data.byMaterial|
      requires HasBucket(uniqueItems, c, l, data.byMaterial[k].matId)
      modifies this`uniqueItems
      ensures placed == ApplyUnits(matrix)
      ensures uniqueItems == Appended(old(uniqueItems), c, l, data.byMaterial[k].matId,
                                      Tag(data.instances[0].id, data.byMaterial[k].geometries, placed))
    {
      var m := data.byMaterial[k].matId;
      var geometries := data.byMaterial[k].geometries;
      var id := data.instances[0].id;
      placed := ApplyUnits(matrix);
      ghost var tagged := Tag(id, geometries, placed);
      assert tagged[..0] == [];
      AppendedNothing(uniqueItems, c, l, m);
      for i := 0 to |geometries|
        invariant HasBucket(uniqueItems, c, l, m)
        invariant uniqueItems == Appended(old(uniqueItems), c, l, m, tagged[..i])
      {
        assert tagged[..i + 1] == tagged[..i] + [tagged[i]];
        AppendedTwice(old(uniqueItems), c, l, m, tagged[..i], [tagged[i]]);
        uniqueItems := Appended(uniqueItems, c, l, m, [Tagged(id, Baked(geometries[i], placed))]);
      }
      assert tagged[..|geometries|] == tagged;
    }

    /**
     * `processMergedItems(data)`: for each material of the element, in order,
     * initialise its bucket under the category and floor its item id reads,
     * then append the material's geometries.
     */
    method ProcessMergedItems(data: FragmentData)
      requires |data.instances| > 0
      requires Valid()
      modifies this`uniqueItems
      ensures Valid()
      ensures var inst := data.instances[0];
              uniqueItems == Merged(old(uniqueItems), Lookup(categories, inst.id), Lookup(itemsByFloor, inst.id),
                                    inst.id, inst.matrix, data.byMaterial)
    {
      var inst := data.instances[0];
      var c := Lookup(categories, inst.id);
      var l := Lookup(itemsByFloor, inst.id);
      var mats := data.byMaterial;
      var matrix := inst.matrix;
      assert mats[..0] == [];
      for k := 0 to |mats|
        invariant uniqueItems == Merged(old(uniqueItems), c, l, inst.id, inst.matrix, mats[..k])
        invariant matrix == ApplyUnitsTimes(inst.matrix, k)
      {
        MergedStep(old(uniqueItems), c, l, inst.id, inst.matrix, mats, k);
        ghost var before := uniqueItems;
        InitializeItem(c, l, mats[k].matId);
        ghost var init := uniqueItems;
        matrix := ApplyTransformToMergedGeometries(data, c, l, k, matrix);
        assert matrix == ApplyUnitsTimes(inst.matrix, k + 1);
        assert uniqueItems == Appended(init, c, l, mats[k].matId, Tag(inst.id, mats[k].geometries, ApplyUnitsTimes(inst.matrix, k + 1)));
      }
      assert mats[..|mats|] == mats;
      MergedKeyed(old(uniqueItems), c, l, inst.id, inst.matrix, mats, categories, itemsByFloor);
    }

    /** `setFragmentInstances(data, fragment)`: one record per instance, in order. */
    method SetFragmentInstances(instances: seq<Instance>) returns (records: seq<FragmentInstance>)
      ensures records == InstanceRecords(instances)
    {
      records := [];
      for i := 0 to |instances|
        invariant records == InstanceRecords(instances[..i])
      {
        assert instances[..i + 1][..i] == instances[..i];
        var inst := instances[i];
        records := records + [FragmentInstance([inst.id], ApplyUnits(inst.matrix))];
      }
      assert instances[..|instances|] == instances;
    }

    /**
     * The material scan of `processInstancedItems`: reading `.transparent` of
     * a material missing from `_materials` throws, otherwise the element is
     * transparent when any of its materials is.
     */
    method HasTransparentMaterial(mats: seq<MaterialGeometries>) returns (ok: bool, transparent: bool)
      ensures ok <==> KnownMaterials(mats)
      ensures ok ==> (transparent <==> AnyTransparent(mats))
    {
      transparent := false;
      for i := 0 to |mats|
        invariant KnownMaterials(mats[..i])
        invariant transparent <==> exists j :: 0 <= j < i && materials[mats[j].matId].transparent
      {
        if mats[i].matId !in materials {
          return false, transparent;
        }
        if materials[mats[i].matId].transparent {
          transparent := true;
        }
      }
      ok := true;
      assert mats[..|mats|] == mats;
    }

    /**
     * The instance loop of `processInstancedItems`: instance `i`'s id gets
     * the box of the fragment placed by instance `i`'s transform, in the map
     * the element's route chooses.
     */
    method RecordBoxes(parts: seq<Geometry>, instances: seq<Instance>, records: seq<FragmentInstance>, toTransparent: bool)
      requires records == InstanceRecords(instances)
      modifies this`boundingBoxes, this`transparentBoundingBoxes
      ensures toTransparent ==>
                transparentBoundingBoxes == old(transparentBoundingBoxes) + InstanceEntries(parts, instances)
                && boundingBoxes == old(boundingBoxes)
      ensures !toTransparent ==>
                boundingBoxes == old(boundingBoxes) + InstanceEntries(parts, instances)
                && transparentBoundingBoxes == old(transparentBoundingBoxes)
    {
      for i := 0 to |records|
        invariant toTransparent ==>
                    transparentBoundingBoxes == old(transparentBoundingBoxes) + InstanceEntries(parts, instances[..i])
                    && boundingBoxes == old(boundingBoxes)
        invariant !toTransparent ==>
                    boundingBoxes == old(boundingBoxes) + InstanceEntries(parts, instances[..i])
                    && transparentBoundingBoxes == old(transparentBoundingBoxes)
      {
        assert instances[..i + 1][..i] == instances[..i];
        var id := records[i].ids[0];
        var entry := BoundingEntry(parts, Some(records[i].transform));
        assert InstanceEntries(parts, instances[..i + 1]) == InstanceEntries(parts, instances[..i])[id := entry];
        UnionUpdate(if toTransparent then transparentBoundingBoxes else boundingBoxes,
                    InstanceEntries(parts, instances[..i]), id, entry);
        if toTransparent {
          transparentBoundingBoxes := transparentBoundingBoxes[id := entry];
        } else {
          boundingBoxes := boundingBoxes[id := entry];
        }
      }
      assert instances[..|records|] == instances;
    }

    /**
     * `processInstancedItems(data)`: push the instanced fragment, then give
     * every instance's id a bounding entry in exactly one of the two maps.
     * A missing material throws after the fragment was pushed and before any
     * entry is written.
     */
    method ProcessInstancedItems(data: FragmentData) returns (ok: bool)
      modifies this`fragments, this`boundingBoxes, this`transparentBoundingBoxes
      ensures fragments == old(fragments) + [InstancedFragment(data)]
      ensures ok <==> KnownMaterials(data.byMaterial)
      ensures !ok ==> boundingBoxes == old(boundingBoxes) && transparentBoundingBoxes == old(transparentBoundingBoxes)
      ensures ok && TransparentRoute(data) ==>
                transparentBoundingBoxes == old(transparentBoundingBoxes) + InstanceEntries(InstancedFragment(data).parts, data.instances)
                && boundingBoxes == old(boundingBoxes)
      ensures ok && !TransparentRoute(data) ==>
                boundingBoxes == old(boundingBoxes) + InstanceEntries(InstancedFragment(data).parts, data.instances)
                && transparentBoundingBoxes == old(transparentBoundingBoxes)
    {
      var records := SetFragmentInstances(data.instances);
      var fragment := Fragment(Concat(GeometryLists(data.byMaterial)), None, MaterialIds(data.byMaterial), records);
      fragments := fragments + [fragment];

      var hasVoids := false;
      if |data.instances| == 1 { hasVoids := data.instances[0].voids; }

      var isTransparent;
      ok, isTransparent := HasTransparentMaterial(data.byMaterial);
      if !ok {
        return;
      }
      RecordBoxes(fragment.parts, data.instances, records, isTransparent || hasVoids);
    }

    /**
     * `processFragmentData(data)`. Reading `instances[0]` of an element
     * without instances throws. Otherwise the element goes to the instanced
     * path exactly when it has other than one instance, its category is
     * instanced, or its single instance has voids; else to the merged path.
     */
    method ProcessFragmentData(data: FragmentData) returns (ok: bool)
      requires Valid()
      modifies this`fragments, this`boundingBoxes, this`transparentBoundingBoxes, this`uniqueItems
      ensures Valid()
      ensures |data.instances| == 0 ==> !ok && unchanged(this)
      ensures |data.instances| > 0 && GoesInstanced(data) ==>
                && uniqueItems == old(uniqueItems)
                && fragments == old(fragments) + [InstancedFragment(data)]
                && (ok <==> KnownMaterials(data.byMaterial))
                && (old(boundingBoxes).Keys <= boundingBoxes.Keys)
                && (old(transparentBoundingBoxes).Keys <= transparentBoundingBoxes.Keys)
      ensures |data.instances| > 0 && !GoesInstanced(data) ==>
                && ok
                && fragments == old(fragments) && boundingBoxes == old(boundingBoxes)
                && transparentBoundingBoxes == old(transparentBoundingBoxes)
                && uniqueItems == Merged(old(uniqueItems), Lookup(categories, data.instances[0].id),
                                         Lookup(itemsByFloor, data.instances[0].id),
                                         data.instances[0].id, data.instances[0].matrix, data.byMaterial)
    {
      if |data.instances| == 0 {
        return false;
      }
      var id := data.instances[0].id;
      var categoryId := Lookup(categories, id);
      var isUnique := |data.instances| == 1;
      var isInstanced := IsInstancedCategory(categoryId, instancedCategories);
      if (!isUnique || isInstanced) || (isUnique && data.instances[0].voids) {
        ok := ProcessInstancedItems(data);
      } else {
        ProcessMergedItems(data);
        ok := true;
      }
    }

    /**
     * `processAllFragmentsData()`: every element in order; an element that
     * throws ends the pass.
     */
    method ProcessAllFragmentsData() returns (ok: bool)
      requires Valid()
      modifies this`fragments, this`boundingBoxes, this`transparentBoundingBoxes, this`uniqueItems
      ensures Valid()
      ensures Extends(old(uniqueItems), uniqueItems)
      ensures old(fragments) <= fragments
      ensures old(boundingBoxes).Keys <= boundingBoxes.Keys
      ensures old(transparentBoundingBoxes).Keys <= transparentBoundingBoxes.Keys
      ensures ok ==> forall i :: 0 <= i < |items| ==> |items[i].instances| > 0
    {
      for i := 0 to |items|
        invariant Valid()
        invariant Extends(old(uniqueItems), uniqueItems)
        invariant old(fragments) <= fragments
        invariant old(boundingBoxes).Keys <= boundingBoxes.Keys
        invariant old(transparentBoundingBoxes).Keys <= transparentBoundingBoxes.Keys
        invariant forall j :: 0 <= j < i ==> |items[j].instances| > 0
      {
        ghost var before := uniqueItems;
        ok := ProcessFragmentData(items[i]);
        if !ok {
          return;
        }
        var inst := items[i].instances[0];
        MergedExtends(before, Lookup(categories, inst.id), Lookup(itemsByFloor, inst.id), inst.id, inst.matrix, items[i].byMaterial);
        ExtendsTransitive(old(uniqueItems), before, uniqueItems);
      }
      ok := true;
    }

    /** `for (const id in items) this._boundingBoxes[id] = getTransformHelper(items[id]).matrix.elements`. */
    method RecordUniqueBoxes(byId: map<ItemId, seq<Geometry>>)
      modifies this`boundingBoxes
      ensures boundingBoxes == old(boundingBoxes) + BoxesOf(byId)
    {
      var ids := EnumerateKeys(byId);
      ghost var written: set<ItemId> := {};
      for i := 0 to |ids|
        invariant written <= byId.Keys
        invariant forall j :: 0 <= j < i ==> ids[j] in written
        invariant forall id :: id in written ==> exists j :: 0 <= j < i && ids[j] == id
        invariant boundingBoxes.Keys == old(boundingBoxes).Keys + written
        invariant forall id :: id in boundingBoxes ==>
                    boundingBoxes[id] == if id in written then BoundingEntry(byId[id], None) else old(boundingBoxes)[id]
      {
        var id := ids[i];
        boundingBoxes := boundingBoxes[id := BoundingEntry(byId[id], None)];
        written := written + {id};
      }
      assert written == byId.Keys;
      assert boundingBoxes.Keys == (old(boundingBoxes) + BoxesOf(byId)).Keys;
      forall id | id in boundingBoxes
        ensures boundingBoxes[id] == (old(boundingBoxes) + BoxesOf(byId))[id]
      {
      }
    }

    /**
     * `processUniqueItem(category, level)` for the parsed keys of one
     * (category, floor) pair. A key that reads `undefined` parses to NaN,
     * the lookup misses and the call throws before changing anything.
     * Otherwise the floor's buckets, in the key order `order` the engine
     * enumerates them in, become one merged fragment, and every item id of
     * those buckets gets a bounding entry in `_boundingBoxes` only, built
     * from that item's own geometries.
     */
    method ProcessUniqueItem(c: Key, l: Key) returns (ok: bool, order: seq<MatId>)
      requires c in uniqueItems && l in uniqueItems[c]
      modifies this`fragments, this`boundingBoxes
      ensures ok <==> c.Defined? && l.Defined?
      ensures !ok ==> fragments == old(fragments) && boundingBoxes == old(boundingBoxes)
      ensures ok ==> (forall i, j :: 0 <= i < j < |order| ==> order[i] != order[j])
                     && (forall m :: m in order <==> m in uniqueItems[c][l])
      ensures ok ==> fragments == old(fragments) + [MergedFragment(BucketGroups(uniqueItems[c][l], order), order)]
      ensures ok ==> boundingBoxes == old(boundingBoxes) + UniqueEntries(Concat(BucketGroups(uniqueItems[c][l], order)))
      ensures ok && Valid() ==> forall x :: x in fragments[|fragments| - 1].instances[0].ids ==>
                                  Lookup(categories, x) == c && Lookup(itemsByFloor, x) == l
    {
      if c.Undefined? || l.Undefined? {
        return false, [];
      }
      var buckets := uniqueItems[c][l];
      order := EnumerateKeys(buckets);
      var geometries := BucketGroups(buckets, order);
      var buffer, ids := ProcessIdsAndBuffer(geometries);
      var mats := order;
      var byId := GroupById(geometries);
      assert BoxesOf(byId) == UniqueEntries(Concat(geometries));
      RecordUniqueBoxes(byId);
      var merged := Untagged(Concat(geometries));
      fragments := fragments + [Fragment(merged, Some(buffer), mats, [FragmentInstance(ids, Identity)])];
      ok := true;
      if Valid() {
        MergedFragmentKeyed(uniqueItems, categories, itemsByFloor, c, l, order);
      }
    }

    /** The level loop of `processAllUniqueItems` for one category key. */
    method ProcessCategory(c: Key) returns (ok: bool)
      requires c in uniqueItems
      modifies this`fragments, this`boundingBoxes
      ensures ok <==> forall l :: l in uniqueItems[c] ==> c.Defined? && l.Defined?
      ensures old(fragments) <= fragments
      ensures old(boundingBoxes).Keys <= boundingBoxes.Keys
      ensures ok ==> forall l, m, k :: HasBucket(uniqueItems, c, l, m) && 0 <= k < |uniqueItems[c][l][m]| ==>
                       uniqueItems[c][l][m][k].id in boundingBoxes
    {
      var levels := EnumerateKeys(uniqueItems[c]);
      for i := 0 to |levels|
        invariant old(fragments) <= fragments
        invariant old(boundingBoxes).Keys <= boundingBoxes.Keys
        invariant forall j :: 0 <= j < i ==> c.Defined? && levels[j].Defined?
        invariant forall j, m, k :: 0 <= j < i && HasBucket(uniqueItems, c, levels[j], m) && 0 <= k < |uniqueItems[c][levels[j]][m]| ==>
                    uniqueItems[c][levels[j]][m][k].id in boundingBoxes
      {
        ok := ProcessLevel(c, levels[i]);
        if !ok {
          return;
        }
      }
      ok := true;
    }

    /** One (category, floor) pair of `processAllUniqueItems`: on success every item id of its buckets has a bounding entry. */
    method ProcessLevel(c: Key, l: Key) returns (ok: bool)
      requires c in uniqueItems && l in uniqueItems[c]
      modifies this`fragments, this`boundingBoxes
      ensures ok <==> c.Defined? && l.Defined?
      ensures old(fragments) <= fragments
      ensures old(boundingBoxes).Keys <= boundingBoxes.Keys
      ensures ok ==> forall m, k :: HasBucket(uniqueItems, c, l, m) && 0 <= k < |uniqueItems[c][l][m]| ==>
                       uniqueItems[c][l][m][k].id in boundingBoxes
    {
      var order;
      ok, order := ProcessUniqueItem(c, l);
      if ok {
        BucketIds(uniqueItems[c][l], order);
      }
    }

    /**
     * `processAllUniqueItems()`. The guard `level !== undefined && category
     * !== undefined` compares `parseInt` results, which are never
     * `undefined`, so every (category, floor) pair is processed; a pair with
     * a key that reads `undefined` throws and ends the pass. The pass
     * therefore succeeds exactly when every such pair has both keys defined,
     * and then every item id in any bucket has a bounding entry.
     */
    method ProcessAllUniqueItems() returns (ok: bool)
      modifies this`fragments, this`boundingBoxes
      ensures ok <==> AllDefined(uniqueItems)
      ensures old(fragments) <= fragments
      ensures old(boundingBoxes).Keys <= boundingBoxes.Keys
      ensures ok ==> forall c, l, m, k :: HasBucket(uniqueItems, c, l, m) && 0 <= k < |uniqueItems[c][l][m]| ==>
                       uniqueItems[c][l][m][k].id in boundingBoxes
    {
      var categories := EnumerateKeys(uniqueItems);
      for i := 0 to |categories|
        invariant old(fragments) <= fragments
        invariant old(boundingBoxes).Keys <= boundingBoxes.Keys
        invariant forall j, l :: 0 <= j < i && l in uniqueItems[categories[j]] ==> categories[j].Defined? && l.Defined?
        invariant forall j, l, m, k :: 0 <= j < i && HasBucket(uniqueItems, categories[j], l, m) && 0 <= k < |uniqueItems[categories[j]][l][m]| ==>
                    uniqueItems[categories[j]][l][m][k].id in boundingBoxes
      {
        ok := ProcessCategory(categories[i]);
        if !ok {
          var c := categories[i];
          var l :| l in uniqueItems[c] && !(c.Defined? && l.Defined?);
          UndefinedPair(uniqueItems, c, l);
          return;
        }
      }
      ok := true;
    }
  }
}
