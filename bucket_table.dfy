/**
 * The table of merge buckets (`_uniqueItems`): category -> floor -> material
 * -> tagged geometries, and what the merged path does to it
 * (`initializeItem`, `applyTransformToMergedGeometries`, `processMergedItems`).
 */
module BucketTable {
  import opened ConverterTypes

  predicate HasBucket(t: Table, c: Key, l: Key, m: MatId)
  {
    c in t && l in t[c] && m in t[c][l]
  }

  /** Every bucket of `t` is still in `t'` and has only grown at its end. */
  ghost predicate Extends(t: Table, t': Table)
  {
    forall c, l, m :: HasBucket(t, c, l, m) ==> HasBucket(t', c, l, m) && t[c][l][m] <= t'[c][l][m]
  }

  /** Every geometry of bucket `[c][l][m]` belongs to an item whose category and floor read `c` and `l`. */
  ghost predicate Keyed(t: Table, categories: map<ItemId, int>, floors: map<ItemId, int>)
  {
    forall c, l, m, k :: HasBucket(t, c, l, m) && 0 <= k < |t[c][l][m]| ==>
      Lookup(categories, t[c][l][m][k].id) == c && Lookup(floors, t[c][l][m][k].id) == l
  }

  lemma ExtendsTransitive(t1: Table, t2: Table, t3: Table)
    requires Extends(t1, t2) && Extends(t2, t3)
    ensures Extends(t1, t3)
  {
  }

  /**
   * `initializeItem(category, level, matID)`: get-or-insert at each level.
   * Afterwards bucket `[c][l][m]` exists; a bucket that was there keeps its
   * geometries, a new one is empty; nothing else changes.
   */
  function Initialized(t: Table, c: Key, l: Key, m: MatId): (r: Table)
    ensures HasBucket(r, c, l, m)
    ensures r[c][l][m] == if HasBucket(t, c, l, m) then t[c][l][m] else []
  {
    var t1 := if c in t then t else t[c := map[]];
    var t2 := if l in t1[c] then t1 else t1[c := t1[c][l := map[]]];
    if m in t2[c][l] then t2 else t2[c := t2[c][l := t2[c][l][m := []]]]
  }

  /** Initialising keeps every other bucket and creates none but `[c][l][m]`. */
  lemma InitializedFrame(t: Table, c: Key, l: Key, m: MatId)
    ensures forall c', l', m' :: HasBucket(t, c', l', m') ==>
              HasBucket(Initialized(t, c, l, m), c', l', m') && Initialized(t, c, l, m)[c'][l'][m'] == t[c'][l'][m']
    ensures forall c', l', m' :: HasBucket(Initialized(t, c, l, m), c', l', m') ==> HasBucket(t, c', l', m') || (c', l', m') == (c, l, m)
  {
  }

  /** Initialising twice is initialising once. */
  lemma InitializedIdempotent(t: Table, c: Key, l: Key, m: MatId)
    ensures Initialized(Initialized(t, c, l, m), c, l, m) == Initialized(t, c, l, m)
  {
  }

  lemma InitializedExtends(t: Table, c: Key, l: Key, m: MatId)
    ensures Extends(t, Initialized(t, c, l, m))
  {
  }

  /** A new empty bucket adds no geometry, so the keying invariant survives. */
  lemma InitializedKeyed(t: Table, c: Key, l: Key, m: MatId, categories: map<ItemId, int>, floors: map<ItemId, int>)
    requires Keyed(t, categories, floors)
    ensures Keyed(Initialized(t, c, l, m), categories, floors)
  {
    InitializedFrame(t, c, l, m);
  }

  /** `_uniqueItems[c][l][m].push(...)` of the geometries `s`, in order. */
  function Appended(t: Table, c: Key, l: Key, m: MatId, s: seq<Tagged>): (r: Table)
    requires HasBucket(t, c, l, m)
    ensures HasBucket(r, c, l, m) && r[c][l][m] == t[c][l][m] + s
  {
    t[c := t[c][l := t[c][l][m := t[c][l][m] + s]]]
  }

  /** Appending to one bucket leaves every other bucket as it was and creates none. */
  lemma AppendedFrame(t: Table, c: Key, l: Key, m: MatId, s: seq<Tagged>)
    requires HasBucket(t, c, l, m)
    ensures forall c', l', m' :: HasBucket(t, c', l', m') && (c', l', m') != (c, l, m) ==>
              HasBucket(Appended(t, c, l, m, s), c', l', m') && Appended(t, c, l, m, s)[c'][l'][m'] == t[c'][l'][m']
    ensures forall c', l', m' :: HasBucket(Appended(t, c, l, m, s), c', l', m') ==> HasBucket(t, c', l', m')
  {
  }

  lemma AppendedNothing(t: Table, c: Key, l: Key, m: MatId)
    requires HasBucket(t, c, l, m)
    ensures Appended(t, c, l, m, []) == t
  {
    assert t[c][l][m] + [] == t[c][l][m];
    assert t[c][l][m := t[c][l][m]] == t[c][l];
    assert t[c][l := t[c][l]] == t[c];
  }

  lemma AppendedTwice(t: Table, c: Key, l: Key, m: MatId, s1: seq<Tagged>, s2: seq<Tagged>)
    requires HasBucket(t, c, l, m)
    ensures Appended(Appended(t, c, l, m, s1), c, l, m, s2) == Appended(t, c, l, m, s1 + s2)
  {
    var inner := t[c][l];
    var x := inner[m] + s1 + s2;
    assert x == inner[m] + (s1 + s2);
    var a1 := Appended(t, c, l, m, s1);
    assert a1[c][l] == inner[m := inner[m] + s1];
    assert a1[c][l][m := x] == inner[m := x];
    assert a1[c][l := inner[m := x]] == t[c][l := inner[m := x]];
  }

  lemma AppendedExtends(t: Table, c: Key, l: Key, m: MatId, s: seq<Tagged>)
    requires HasBucket(t, c, l, m)
    ensures Extends(t, Appended(t, c, l, m, s))
  {
    var r: Table := Appended(t, c, l, m, s);
    forall c': Key, l': Key, m': MatId | HasBucket(t, c', l', m')
      ensures HasBucket(r, c', l', m') && t[c'][l'][m'] <= r[c'][l'][m']
    {
      if (c', l', m') == (c, l, m) {
        assert r[c][l][m] == t[c][l][m] + s;
      }
    }
  }

  /** Appending geometries of items keyed `c`, `l` keeps the table keyed. */
  lemma AppendedKeyed(t: Table, c: Key, l: Key, m: MatId, s: seq<Tagged>, categories: map<ItemId, int>, floors: map<ItemId, int>)
    requires HasBucket(t, c, l, m) && Keyed(t, categories, floors)
    requires forall k :: 0 <= k < |s| ==> Lookup(categories, s[k].id) == c && Lookup(floors, s[k].id) == l
    ensures Keyed(Appended(t, c, l, m, s), categories, floors)
  {
    var r: Table := Appended(t, c, l, m, s);
    forall c': Key, l': Key, m': MatId, k: int | HasBucket(r, c', l', m') && 0 <= k < |r[c'][l'][m']|
      ensures Lookup(categories, r[c'][l'][m'][k].id) == c' && Lookup(floors, r[c'][l'][m'][k].id) == l'
    {
      if (c', l', m') == (c, l, m) && k >= |t[c][l][m]| {
        assert r[c][l][m][k] == s[k - |t[c][l][m]|];
      }
    }
  }

  /** `geometry.applyMatrix4(matrix)`: the matrix is baked into the buffer. */
  function Baked(g: Geometry, matrix: Transform): Geometry
  {
    g.(applied := g.applied + [matrix])
  }

  /** The geometries of one material as pushed: `userData.id = id`, then the placement baked in. */
  function Tag(id: ItemId, geoms: seq<Geometry>, matrix: Transform): (r: seq<Tagged>)
    ensures |r| == |geoms|
    ensures forall k :: 0 <= k < |r| ==> r[k].id == id && r[k].geometry == Baked(geoms[k], matrix)
  {
    seq(|geoms|, k requires 0 <= k < |geoms| => Tagged(id, Baked(geoms[k], matrix)))
  }

  /**
   * `processMergedItems` for an element whose one instance has item id `id`
   * and placement `matrix`, read as category `c` and floor `l`: for each
   * material in turn, initialise its bucket, apply the unit scale to the
   * instance's matrix once more, and append the material's geometries tagged
   * with `id` and placed with the matrix as it now is.
   */
  function Merged(t: Table, c: Key, l: Key, id: ItemId, matrix: Transform, mats: seq<MaterialGeometries>): Table
    decreases |mats|
  {
    if mats == [] then t
    else
      var k := |mats| - 1;
      var before := Merged(t, c, l, id, matrix, mats[..k]);
      Appended(Initialized(before, c, l, mats[k].matId), c, l, mats[k].matId,
               Tag(id, mats[k].geometries, ApplyUnitsTimes(matrix, k + 1)))
  }

  /** One more material: the merged path over `mats[..k + 1]` is one more initialise-and-append. */
  lemma MergedStep(t: Table, c: Key, l: Key, id: ItemId, matrix: Transform, mats: seq<MaterialGeometries>, k: nat)
    requires k < |mats|
    ensures Merged(t, c, l, id, matrix, mats[..k + 1])
            == Appended(Initialized(Merged(t, c, l, id, matrix, mats[..k]), c, l, mats[k].matId), c, l, mats[k].matId,
                        Tag(id, mats[k].geometries, ApplyUnitsTimes(matrix, k + 1)))
  {
    assert mats[..k + 1][..k] == mats[..k];
  }

  lemma {:induction false} MergedExtends(t: Table, c: Key, l: Key, id: ItemId, matrix: Transform, mats: seq<MaterialGeometries>)
    ensures Extends(t, Merged(t, c, l, id, matrix, mats))
    decreases |mats|
  {
    if mats != [] {
      var k := |mats| - 1;
      var before := Merged(t, c, l, id, matrix, mats[..k]);
      MergedExtends(t, c, l, id, matrix, mats[..k]);
      InitializedExtends(before, c, l, mats[k].matId);
      var init := Initialized(before, c, l, mats[k].matId);
      AppendedExtends(init, c, l, mats[k].matId, Tag(id, mats[k].geometries, ApplyUnitsTimes(matrix, k + 1)));
      ExtendsTransitive(t, before, init);
      ExtendsTransitive(t, init, Merged(t, c, l, id, matrix, mats));
    }
  }

  /** The merged path only adds geometries of `id` under the keys `id` reads. */
  lemma {:induction false} MergedKeyed(t: Table, c: Key, l: Key, id: ItemId, matrix: Transform, mats: seq<MaterialGeometries>,
                                       categories: map<ItemId, int>, floors: map<ItemId, int>)
    requires Keyed(t, categories, floors)
    requires Lookup(categories, id) == c && Lookup(floors, id) == l
    ensures Keyed(Merged(t, c, l, id, matrix, mats), categories, floors)
    decreases |mats|
  {
    if mats != [] {
      var k := |mats| - 1;
      var before := Merged(t, c, l, id, matrix, mats[..k]);
      MergedKeyed(t, c, l, id, matrix, mats[..k], categories, floors);
      InitializedKeyed(before, c, l, mats[k].matId, categories, floors);
      AppendedKeyed(Initialized(before, c, l, mats[k].matId), c, l, mats[k].matId,
                    Tag(id, mats[k].geometries, ApplyUnitsTimes(matrix, k + 1)), categories, floors);
    }
  }

  /** Initialising and filling one bucket leaves any other bucket as it was. */
  lemma StepKeeps(t: Table, c: Key, l: Key, m: MatId, s: seq<Tagged>, c': Key, l': Key, m': MatId)
    requires HasBucket(t, c', l', m') && (c', l', m') != (c, l, m)
    ensures HasBucket(Appended(Initialized(t, c, l, m), c, l, m, s), c', l', m')
    ensures Appended(Initialized(t, c, l, m), c, l, m, s)[c'][l'][m'] == t[c'][l'][m']
  {
    InitializedFrame(t, c, l, m);
    AppendedFrame(Initialized(t, c, l, m), c, l, m, s);
  }

  /** Initialising and filling one bucket creates no other bucket. */
  lemma StepCreates(t: Table, c: Key, l: Key, m: MatId, s: seq<Tagged>, c': Key, l': Key, m': MatId)
    requires HasBucket(Appended(Initialized(t, c, l, m), c, l, m, s), c', l', m') && !HasBucket(t, c', l', m')
    ensures (c', l', m') == (c, l, m)
  {
    InitializedFrame(t, c, l, m);
    AppendedFrame(Initialized(t, c, l, m), c, l, m, s);
  }

  /** Bucket `[c][l][m]` after the merged path, for a material `m` the element does not have. */
  lemma {:induction false} MergedOthers(t: Table, c: Key, l: Key, id: ItemId, matrix: Transform, mats: seq<MaterialGeometries>,
                                        c': Key, l': Key, m': MatId)
    requires HasBucket(t, c', l', m') && (c' != c || l' != l || m' !in MaterialIds(mats))
    ensures HasBucket(Merged(t, c, l, id, matrix, mats), c', l', m')
    ensures Merged(t, c, l, id, matrix, mats)[c'][l'][m'] == t[c'][l'][m']
    decreases |mats|
  {
    if mats != [] {
      var n := |mats| - 1;
      var p := mats[..n];
      if c' == c && l' == l {
        forall i | 0 <= i < |p|
          ensures MaterialIds(p)[i] != m'
        {
          assert MaterialIds(mats)[i] == MaterialIds(p)[i];
        }
      }
      MergedOthers(t, c, l, id, matrix, p, c', l', m');
      assert (c', l', m') != (c, l, mats[n].matId) by {
        assert MaterialIds(mats)[n] == mats[n].matId;
      }
      StepKeeps(Merged(t, c, l, id, matrix, p), c, l, mats[n].matId,
                Tag(id, mats[n].geometries, ApplyUnitsTimes(matrix, n + 1)), c', l', m');
    }
  }

  /** The merged path creates buckets only under `c`, `l` and the element's materials. */
  lemma {:induction false} MergedNew(t: Table, c: Key, l: Key, id: ItemId, matrix: Transform, mats: seq<MaterialGeometries>,
                                     c': Key, l': Key, m': MatId)
    requires HasBucket(Merged(t, c, l, id, matrix, mats), c', l', m') && !HasBucket(t, c', l', m')
    ensures c' == c && l' == l && m' in MaterialIds(mats)
    decreases |mats|
  {
    var n := |mats| - 1;
    var p := mats[..n];
    if HasBucket(Merged(t, c, l, id, matrix, p), c', l', m') {
      MergedNew(t, c, l, id, matrix, p, c', l', m');
      var i :| 0 <= i < |p| && MaterialIds(p)[i] == m';
      assert MaterialIds(mats)[i] == m';
    } else {
      StepCreates(Merged(t, c, l, id, matrix, p), c, l, mats[n].matId,
                  Tag(id, mats[n].geometries, ApplyUnitsTimes(matrix, n + 1)), c', l', m');
      assert MaterialIds(mats)[n] == m';
    }
  }

  /** The bucket of the last material: what it held before the element, then the element's geometries. */
  lemma MergedLast(t: Table, c: Key, l: Key, id: ItemId, matrix: Transform, mats: seq<MaterialGeometries>)
    requires DistinctMaterials(mats) && mats != []
    ensures HasBucket(Merged(t, c, l, id, matrix, mats), c, l, mats[|mats| - 1].matId)
    ensures Merged(t, c, l, id, matrix, mats)[c][l][mats[|mats| - 1].matId]
            == (if HasBucket(t, c, l, mats[|mats| - 1].matId) then t[c][l][mats[|mats| - 1].matId] else [])
               + Tag(id, mats[|mats| - 1].geometries, ApplyUnitsTimes(matrix, |mats|))
  {
    var n := |mats| - 1;
    var p := mats[..n];
    forall i | 0 <= i < |p|
      ensures MaterialIds(p)[i] != mats[n].matId
    {
      assert p[i] == mats[i];
    }
    if HasBucket(t, c, l, mats[n].matId) {
      MergedOthers(t, c, l, id, matrix, p, c, l, mats[n].matId);
    } else if HasBucket(Merged(t, c, l, id, matrix, p), c, l, mats[n].matId) {
      MergedNew(t, c, l, id, matrix, p, c, l, mats[n].matId);
    }
  }

  /**
   * What the merged path leaves in each bucket: the bucket of material `k`
   * of the element holds what it held before (or nothing) followed by that
   * material's geometries, tagged with the item id and placed with the
   * instance matrix after `k + 1` applications of the unit scale, because
   * `Units.apply` runs once per material on the same matrix. Buckets of other
   * materials and other keys are untouched.
   */
  lemma {:induction false} MergedBuckets(t: Table, c: Key, l: Key, id: ItemId, matrix: Transform, mats: seq<MaterialGeometries>)
    requires DistinctMaterials(mats)
    ensures forall k :: 0 <= k < |mats| ==>
              HasBucket(Merged(t, c, l, id, matrix, mats), c, l, mats[k].matId)
              && Merged(t, c, l, id, matrix, mats)[c][l][mats[k].matId]
                 == (if HasBucket(t, c, l, mats[k].matId) then t[c][l][mats[k].matId] else [])
                    + Tag(id, mats[k].geometries, ApplyUnitsTimes(matrix, k + 1))
    ensures forall c', l', m' :: HasBucket(t, c', l', m') && (c' != c || l' != l || m' !in MaterialIds(mats)) ==>
              HasBucket(Merged(t, c, l, id, matrix, mats), c', l', m')
              && Merged(t, c, l, id, matrix, mats)[c'][l'][m'] == t[c'][l'][m']
    decreases |mats|
  {
    if mats != [] {
      var n := |mats| - 1;
      var p := mats[..n];
      assert DistinctMaterials(p);
      MergedBuckets(t, c, l, id, matrix, p);
      var before := Merged(t, c, l, id, matrix, p);
      var s := Tag(id, mats[n].geometries, ApplyUnitsTimes(matrix, n + 1));
      forall k | 0 <= k < |mats|
        ensures HasBucket(Merged(t, c, l, id, matrix, mats), c, l, mats[k].matId)
        ensures Merged(t, c, l, id, matrix, mats)[c][l][mats[k].matId]
                == (if HasBucket(t, c, l, mats[k].matId) then t[c][l][mats[k].matId] else [])
                   + Tag(id, mats[k].geometries, ApplyUnitsTimes(matrix, k + 1))
      {
        if k < n {
          assert p[k] == mats[k];
          StepKeeps(before, c, l, mats[n].matId, s, c, l, mats[k].matId);
        } else {
          MergedLast(t, c, l, id, matrix, mats);
        }
      }
    }
    forall c': Key, l': Key, m': MatId | HasBucket(t, c', l', m') && (c' != c || l' != l || m' !in MaterialIds(mats))
      ensures HasBucket(Merged(t, c, l, id, matrix, mats), c', l', m')
      ensures Merged(t, c, l, id, matrix, mats)[c'][l'][m'] == t[c'][l'][m']
    {
      MergedOthers(t, c, l, id, matrix, mats, c', l', m');
    }
  }
}
