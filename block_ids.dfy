/**
 * The per-vertex `blockID` attribute of a merged fragment
 * (`processIDsAndBuffer`, `processBuffer`, `updateBufferIDs`).
 *
 * A bucket holds, per material, a list of tagged geometries. The buffer has
 * one slot per vertex of all of them; the slots of each geometry form one run
 * filled with a dense renumbering of its item id: ids are numbered 0, 1, 2, ...
 * in order of first appearance.
 */
module BlockIds {
  import opened ConverterTypes

  // ---------------------------------------------------------------------------
  // Specification
  // ---------------------------------------------------------------------------

  /** Sum of `position.count` over the geometries. */
  function TotalCount(s: seq<Tagged>): nat
    decreases |s|
  {
    if s == [] then 0 else TotalCount(s[..|s| - 1]) + s[|s| - 1].geometry.count
  }

  /** Where the run of geometry `k` starts: the vertices of all geometries before it. */
  function Offset(s: seq<Tagged>, k: nat): (r: nat)
    requires k <= |s|
    ensures r <= TotalCount(s)
    ensures k < |s| ==> r + s[k].geometry.count <= TotalCount(s)
  {
    TotalCountPrefix(s, k);
    TotalCount(s[..k])
  }

  lemma {:induction false} TotalCountPrefix(s: seq<Tagged>, k: nat)
    requires k <= |s|
    ensures TotalCount(s[..k]) <= TotalCount(s)
    ensures k < |s| ==> TotalCount(s[..k]) + s[k].geometry.count <= TotalCount(s)
    decreases |s|
  {
    if k == |s| {
      assert s[..k] == s;
    } else {
      var p := s[..|s| - 1];
      assert p[..k] == s[..k];
      if k < |p| {
        TotalCountPrefix(p, k);
      } else {
        assert s[..k] == p;
      }
    }
  }

  /** The item ids carried by the geometries. */
  function IdSet(s: seq<Tagged>): set<ItemId>
    decreases |s|
  {
    if s == [] then {} else IdSet(s[..|s| - 1]) + {s[|s| - 1].id}
  }

  predicate Distinct(xs: seq<ItemId>)
  {
    forall i, j :: 0 <= i < j < |xs| ==> xs[i] != xs[j]
  }

  /** Every geometry's id occurs in `order`. */
  predicate Covers(order: seq<ItemId>, s: seq<Tagged>)
  {
    forall t :: t in s ==> t.id in order
  }

  /**
   * The distinct ids in order of first appearance: what a JavaScript `Set`
   * filled by `add` in iteration order enumerates.
   */
  function FirstAppearance(s: seq<Tagged>): (r: seq<ItemId>)
    ensures Distinct(r)
    ensures Covers(r, s)
    ensures forall x :: x in r <==> x in IdSet(s)
    decreases |s|
  {
    if s == [] then []
    else
      var p := FirstAppearance(s[..|s| - 1]);
      var x := s[|s| - 1].id;
      assert s == s[..|s| - 1] + [s[|s| - 1]];
      if x in p then p else p + [x]
  }

  /** The position of `x` in `xs`: its block id when `xs` is the first-appearance order. */
  function IndexOf(xs: seq<ItemId>, x: ItemId): (r: nat)
    requires x in xs
    ensures r < |xs| && xs[r] == x
    ensures forall j :: 0 <= j < r ==> xs[j] != x
  {
    if xs[0] == x then 0 else 1 + IndexOf(xs[1..], x)
  }

  function Repeat(v: nat, n: nat): (r: seq<nat>)
  {
    seq(n, _ => v)
  }

  /** The runs of block ids, one per geometry, each as long as that geometry's vertex count. */
  function Runs(s: seq<Tagged>, order: seq<ItemId>): seq<nat>
    requires Covers(order, s)
    decreases |s|
  {
    if s == [] then []
    else
      Runs(s[..|s| - 1], order) + Repeat(IndexOf(order, s[|s| - 1].id), s[|s| - 1].geometry.count)
  }

  /** A `Uint32Array(size)` whose leading slots were filled with `r` and whose others stay 0. */
  function Clamped(size: nat, r: seq<nat>): seq<nat>
  {
    seq(size, p requires 0 <= p < size => if p < |r| then r[p] else 0)
  }

  // ---------------------------------------------------------------------------
  // Lemmas
  // ---------------------------------------------------------------------------

  lemma IdSetMembers(s: seq<Tagged>)
    ensures forall i :: 0 <= i < |s| ==> s[i].id in IdSet(s)
    ensures forall x :: x in IdSet(s) ==> exists i :: 0 <= i < |s| && s[i].id == x
    decreases |s|
  {
    if s != [] {
      var p := s[..|s| - 1];
      IdSetMembers(p);
      assert forall i :: 0 <= i < |p| ==> p[i] == s[i];
    }
  }

  /** The ids of a first-appearance list are exactly the ids of the geometries, each once. */
  lemma FirstAppearanceIds(s: seq<Tagged>)
    ensures forall x :: x in FirstAppearance(s) <==> x in IdSet(s)
    ensures |FirstAppearance(s)| == |IdSet(s)|
  {
    IdSetMembers(s);
    var fa := FirstAppearance(s);
    var fs := set x | x in fa;
    assert fs == IdSet(s);
    DistinctCard(fa);
  }

  lemma {:induction false} DistinctCard(xs: seq<ItemId>)
    requires Distinct(xs)
    ensures |set x | x in xs| == |xs|
    decreases |xs|
  {
    if xs != [] {
      var p := xs[..|xs| - 1];
      assert Distinct(p);
      DistinctCard(p);
      assert (set x | x in xs) == (set x | x in p) + {xs[|xs| - 1]};
      assert xs[|xs| - 1] !in (set x | x in p);
    }
  }

  /** Processing more geometries only appends to the first-appearance list. */
  lemma {:induction false} FirstAppearanceMonotone(a: seq<Tagged>, b: seq<Tagged>)
    requires a <= b
    ensures FirstAppearance(a) <= FirstAppearance(b)
    decreases |b|
  {
    if |a| < |b| {
      var p := b[..|b| - 1];
      assert a <= p;
      FirstAppearanceMonotone(a, p);
    } else {
      assert a == b;
    }
  }

  lemma RunsLength(s: seq<Tagged>, order: seq<ItemId>)
    requires Covers(order, s)
    ensures |Runs(s, order)| == TotalCount(s)
    decreases |s|
  {
    if s != [] {
      RunsLength(s[..|s| - 1], order);
    }
  }

  lemma {:induction false} RunsPrefix(s: seq<Tagged>, order: seq<ItemId>, j: nat)
    requires Covers(order, s) && j <= |s|
    ensures Covers(order, s[..j])
    ensures Runs(s[..j], order) <= Runs(s, order)
    decreases |s| - j
  {
    if j == |s| {
      assert s[..j] == s;
    } else {
      var p := s[..|s| - 1];
      assert p[..j] == s[..j];
      RunsPrefix(p, order, j);
    }
  }

  lemma OffsetStep(s: seq<Tagged>, k: nat)
    requires k < |s|
    ensures Offset(s, k + 1) == Offset(s, k) + s[k].geometry.count
  {
    assert s[..k + 1][..k] == s[..k];
  }

  lemma {:induction false} OffsetMonotone(s: seq<Tagged>, i: nat, j: nat)
    requires i <= j <= |s|
    ensures Offset(s, i) <= Offset(s, j)
    decreases j - i
  {
    if i < j {
      OffsetStep(s, j - 1);
      OffsetMonotone(s, i, j - 1);
    }
  }

  /**
   * The buffer is partitioned into runs: run `k` starts where run `k - 1` ends,
   * the first starts at 0, the last ends at the buffer's length, and every slot
   * of run `k` holds the block id of geometry `k`'s item.
   */
  lemma RunsPartition(s: seq<Tagged>, order: seq<ItemId>)
    requires Covers(order, s)
    ensures |Runs(s, order)| == TotalCount(s)
    ensures Offset(s, 0) == 0 && Offset(s, |s|) == TotalCount(s)
    ensures forall k :: 0 <= k < |s| ==> Offset(s, k + 1) == Offset(s, k) + s[k].geometry.count
    ensures forall k, p :: 0 <= k < |s| && Offset(s, k) <= p < Offset(s, k) + s[k].geometry.count ==>
              Runs(s, order)[p] == IndexOf(order, s[k].id)
  {
    RunsLength(s, order);
    assert s[..|s|] == s;
    forall k | 0 <= k < |s| ensures Offset(s, k + 1) == Offset(s, k) + s[k].geometry.count {
      OffsetStep(s, k);
    }
    forall k, p | 0 <= k < |s| && Offset(s, k) <= p < Offset(s, k) + s[k].geometry.count
      ensures Runs(s, order)[p] == IndexOf(order, s[k].id)
    {
      RunsPrefix(s, order, k + 1);
      RunsPrefix(s, order, k);
      assert s[..k + 1][..k] == s[..k];
      RunsLength(s[..k], order);
    }
  }

  /** Every slot of the buffer lies in the run of some geometry. */
  lemma {:induction false} RangeOf(s: seq<Tagged>, p: nat) returns (k: nat)
    requires p < TotalCount(s)
    ensures k < |s| && Offset(s, k) <= p < Offset(s, k) + s[k].geometry.count
    decreases |s|
  {
    var q := s[..|s| - 1];
    if p >= TotalCount(q) {
      k := |s| - 1;
      assert s[..k] == q;
    } else {
      k := RangeOf(q, p);
      assert q[..k] == s[..k];
    }
  }

  /** Runs of different geometries do not overlap: an earlier run ends before a later one starts. */
  lemma RunsDisjoint(s: seq<Tagged>, k1: nat, k2: nat)
    requires k1 < k2 < |s|
    ensures Offset(s, k1) + s[k1].geometry.count <= Offset(s, k2)
  {
    OffsetStep(s, k1);
    OffsetMonotone(s, k1 + 1, k2);
  }

  /** The block id `processBuffer` gives item `x`: its rank in first-appearance order. */
  function BlockId(s: seq<Tagged>, x: ItemId): nat
    requires x in IdSet(s)
  {
    IndexOf(FirstAppearance(s), x)
  }

  /**
   * The block ids are a bijection from the distinct item ids onto 0 .. n-1,
   * where n is the number of distinct ids (`ids.size`).
   */
  lemma BlockIdsDense(s: seq<Tagged>)
    ensures forall x :: x in IdSet(s) ==> BlockId(s, x) < |IdSet(s)|
    ensures forall x, y :: x in IdSet(s) && y in IdSet(s) && BlockId(s, x) == BlockId(s, y) ==> x == y
    ensures |FirstAppearance(s)| == |IdSet(s)|
    ensures forall b :: 0 <= b < |FirstAppearance(s)| ==>
              FirstAppearance(s)[b] in IdSet(s) && BlockId(s, FirstAppearance(s)[b]) == b
  {
    FirstAppearanceIds(s);
  }

  /**
   * First-appearance numbering: a geometry whose id has not been seen before
   * gets the next unused block id (the number of distinct ids seen so far);
   * a repeated id keeps the block id it got the first time.
   */
  lemma BlockIdOfGeometry(s: seq<Tagged>, k: nat)
    requires k < |s|
    ensures s[k].id !in IdSet(s[..k]) ==> IndexOf(FirstAppearance(s), s[k].id) == |IdSet(s[..k])|
    ensures s[k].id in IdSet(s[..k]) ==>
              s[k].id in FirstAppearance(s[..k]) &&
              IndexOf(FirstAppearance(s), s[k].id) == IndexOf(FirstAppearance(s[..k]), s[k].id)
  {
    var fa := FirstAppearance(s);
    var before := FirstAppearance(s[..k]);
    var upto := FirstAppearance(s[..k + 1]);
    assert s[..k + 1][..k] == s[..k];
    FirstAppearanceMonotone(s[..k + 1], s);
    FirstAppearanceIds(s[..k]);
    var x := s[k].id;
    if x !in IdSet(s[..k]) {
      assert upto == before + [x];
      assert fa[|before|] == x;
    } else {
      assert upto == before;
      FirstAppearanceMonotone(s[..k], s);
      var j := IndexOf(before, x);
      assert fa[j] == x;
    }
  }

  lemma {:induction false} ConcatPrefix<T>(groups: seq<seq<T>>, i: nat)
    requires i <= |groups|
    ensures Concat(groups[..i]) <= Concat(groups)
    decreases |groups| - i
  {
    if i == |groups| {
      assert groups[..i] == groups;
    } else {
      var p := groups[..|groups| - 1];
      assert p[..i] == groups[..i];
      ConcatPrefix(p, i);
    }
  }

  lemma ConcatStep<T>(groups: seq<seq<T>>, i: nat)
    requires i < |groups|
    ensures Concat(groups[..i + 1]) == Concat(groups[..i]) + groups[i]
  {
    assert groups[..i + 1][..i] == groups[..i];
  }

  lemma AppendOne(done: seq<Tagged>, g: Tagged)
    ensures TotalCount(done + [g]) == TotalCount(done) + g.geometry.count
    ensures IdSet(done + [g]) == IdSet(done) + {g.id}
    ensures FirstAppearance(done + [g]) ==
            if g.id in FirstAppearance(done) then FirstAppearance(done) else FirstAppearance(done) + [g.id]
  {
    assert (done + [g])[..|done|] == done;
  }

  lemma PrefixStep<T>(done: seq<T>, group: seq<T>, j: nat)
    requires j < |group|
    ensures done + group[..j + 1] == (done + group[..j]) + [group[j]]
    ensures done + group[..j + 1] <= done + group
  {
    assert group[..j + 1] == group[..j] + [group[j]];
  }

  lemma ConcatAll<T>(groups: seq<seq<T>>)
    ensures Concat(groups[..|groups|]) == Concat(groups)
  {
    assert groups[..|groups|] == groups;
  }

  lemma ClampedExtend(size: nat, r: seq<nat>, v: nat, c: nat, buf: seq<nat>)
    requires buf == Filled(Clamped(size, r), v, |r|, |r| + c)
    ensures buf == Clamped(size, r + Repeat(v, c))
  {
    var want := Clamped(size, r + Repeat(v, c));
    forall p | 0 <= p < size ensures buf[p] == want[p] {
      if |r| <= p < |r| + c {
        assert (r + Repeat(v, c))[p] == Repeat(v, c)[p - |r|];
      }
    }
  }

  // ---------------------------------------------------------------------------
  // The converter's packing passes
  // ---------------------------------------------------------------------------

  /** `buf` with the slots `start <= p < end` that exist set to `v`. */
  function Filled(buf: seq<nat>, v: nat, start: nat, end: nat): seq<nat>
  {
    seq(|buf|, p requires 0 <= p < |buf| => if start <= p < end then v else buf[p])
  }

  /** `TypedArray.prototype.fill(v, start, end)`: indices past the end are clamped to the length. */
  method Fill(a: array<nat>, v: nat, start: nat, end: nat)
    modifies a
    ensures a[..] == Filled(old(a[..]), v, start, end)
  {
    var hi := if end < a.Length then end else a.Length;
    var i := if start < hi then start else hi;
    while i < hi
      invariant (if start < hi then start else hi) <= i <= hi
      invariant a[..] == Filled(old(a[..]), v, start, i)
    {
      a[i] := v;
      i := i + 1;
    }
    assert Filled(old(a[..]), v, start, i) == Filled(old(a[..]), v, start, end);
  }

  /** `getBufferTempData()`: the id table, the running offset and the next free block id. */
  datatype TempData = TempData(currentIds: map<ItemId, nat>, offset: nat, blockId: nat)

  /** `updateBufferIDs(data, geom)`: give an id not seen before the next block id. */
  function UpdateBufferIds(d: TempData, id: ItemId): TempData
  {
    if id in d.currentIds then d
    else d.(currentIds := d.currentIds[id := d.blockId], blockId := d.blockId + 1)
  }

  /**
   * The id table after ids `fa` (in first-appearance order, as a set `seen`)
   * were numbered, where `order` is the final id order.
   */
  ghost predicate IdTable(fa: seq<ItemId>, seen: set<ItemId>, order: seq<ItemId>, d: TempData)
  {
    && fa <= order
    && Distinct(order)
    && d.currentIds.Keys == seen
    && (forall x :: x in d.currentIds ==> x in order && d.currentIds[x] == IndexOf(order, x))
    && d.blockId == |fa|
  }

  /** The id half of `processBuffer`'s loop state after the geometries `done`. */
  ghost predicate IdsSoFar(done: seq<Tagged>, order: seq<ItemId>, d: TempData)
  {
    IdTable(FirstAppearance(done), IdSet(done), order, d)
  }

  /** The buffer half: the runs of `done` are filled, the rest of the buffer is still 0. */
  ghost predicate BufferSoFar(done: seq<Tagged>, order: seq<ItemId>, offset: nat, buf: seq<nat>)
  {
    && Covers(order, done)
    && offset == TotalCount(done)
    && buf == Clamped(|buf|, Runs(done, order))
  }

  ghost predicate PackedSoFar(done: seq<Tagged>, order: seq<ItemId>, d: TempData, buf: seq<nat>)
  {
    IdsSoFar(done, order, d) && BufferSoFar(done, order, d.offset, buf)
  }

  /** Numbering one more id keeps the id table in step with the first-appearance order. */
  lemma IdTableStep(fa: seq<ItemId>, seen: set<ItemId>, order: seq<ItemId>, d: TempData, id: ItemId)
    requires IdTable(fa, seen, order, d)
    requires forall x :: x in fa <==> x in seen
    requires (if id in fa then fa else fa + [id]) <= order
    ensures IdTable(if id in fa then fa else fa + [id], seen + {id}, order, UpdateBufferIds(d, id))
    ensures id in order && UpdateBufferIds(d, id).currentIds[id] == IndexOf(order, id)
  {
    if id !in seen {
      var fa' := fa + [id];
      assert order[d.blockId] == fa'[d.blockId] == id;
      var k := IndexOf(order, id);
      assert order[k] == order[d.blockId];
      var m := d.currentIds[id := d.blockId];
      assert m.Keys == seen + {id};
      forall x | x in m
        ensures x in order && m[x] == IndexOf(order, x)
      {
        if x != id {
          assert x in d.currentIds;
        }
      }
    } else {
      assert seen + {id} == seen;
    }
  }

  lemma IdsStep(done: seq<Tagged>, order: seq<ItemId>, d: TempData, g: Tagged)
    requires IdsSoFar(done, order, d)
    requires FirstAppearance(done + [g]) <= order
    ensures IdsSoFar(done + [g], order, UpdateBufferIds(d, g.id))
    ensures g.id in order && UpdateBufferIds(d, g.id).currentIds[g.id] == IndexOf(order, g.id)
  {
    AppendOne(done, g);
    IdTableStep(FirstAppearance(done), IdSet(done), order, d, g.id);
  }

  lemma BufferStep(done: seq<Tagged>, order: seq<ItemId>, offset: nat, buf: seq<nat>, g: Tagged, buf': seq<nat>)
    requires BufferSoFar(done, order, offset, buf)
    requires g.id in order
    requires buf' == Filled(buf, IndexOf(order, g.id), offset, offset + g.geometry.count)
    ensures BufferSoFar(done + [g], order, offset + g.geometry.count, buf')
  {
    AppendOne(done, g);
    assert (done + [g])[..|done|] == done;
    RunsLength(done, order);
    ClampedExtend(|buf|, Runs(done, order), IndexOf(order, g.id), g.geometry.count, buf');
  }

  /** One pass of `processBuffer`'s inner loop: number the geometry's id and fill its vertex range. */
  method FillOne(buffer: array<nat>, d: TempData, geom: Tagged, ghost done: seq<Tagged>, ghost order: seq<ItemId>)
    returns (d': TempData)
    requires PackedSoFar(done, order, d, buffer[..])
    requires FirstAppearance(done + [geom]) <= order
    modifies buffer
    ensures PackedSoFar(done + [geom], order, d', buffer[..])
  {
    ghost var before := buffer[..];
    IdsStep(done, order, d, geom);
    d' := UpdateBufferIds(d, geom.id);
    var size := geom.geometry.count;
    var currentBlockId := d'.currentIds[geom.id];
    Fill(buffer, currentBlockId, d'.offset, d'.offset + size);
    d' := d'.(offset := d'.offset + size);
    BufferStep(done, order, d.offset, before, geom, buffer[..]);
  }

  /** The inner loop of `processBuffer`: the geometries of one material, in order. */
  method FillGroup(buffer: array<nat>, d: TempData, group: seq<Tagged>, ghost done: seq<Tagged>, ghost order: seq<ItemId>)
    returns (d': TempData)
    requires PackedSoFar(done, order, d, buffer[..])
    requires FirstAppearance(done + group) <= order
    modifies buffer
    ensures PackedSoFar(done + group, order, d', buffer[..])
  {
    d' := d;
    assert done + group[..0] == done;
    for j := 0 to |group|
      invariant PackedSoFar(done + group[..j], order, d', buffer[..])
    {
      PrefixStep(done, group, j);
      FirstAppearanceMonotone(done + group[..j + 1], done + group);
      d' := FillOne(buffer, d', group[j], done + group[..j], order);
    }
    assert group[..|group|] == group;
  }

  /**
   * `processBuffer(geometries, size)`: a zeroed `Uint32Array(size)` in which
   * each geometry's vertex range, taken in iteration order from a running
   * offset, is filled with its item's block id.
   */
  method ProcessBuffer(groups: seq<seq<Tagged>>, size: nat) returns (buffer: seq<nat>)
    ensures buffer == Clamped(size, Runs(Concat(groups), FirstAppearance(Concat(groups))))
  {
    ghost var flat := Concat(groups);
    ghost var order := FirstAppearance(flat);
    var data := new nat[size];
    forall p | 0 <= p < size { data[p] := 0; }
    var temp := TempData(map[], 0, 0);
    assert data[..] == Clamped(size, []);
    for gi := 0 to |groups|
      invariant PackedSoFar(Concat(groups[..gi]), order, temp, data[..])
    {
      ConcatStep(groups, gi);
      ConcatPrefix(groups, gi + 1);
      FirstAppearanceMonotone(Concat(groups[..gi + 1]), flat);
      temp := FillGroup(data, temp, groups[gi], Concat(groups[..gi]), order);
    }
    ConcatAll(groups);
    buffer := data[..];
  }

  /** The inner loop of `processIDsAndBuffer`: the geometries of one material, in order. */
  method CountGroup(group: seq<Tagged>, size: nat, ids: seq<ItemId>, ghost done: seq<Tagged>)
    returns (size': nat, ids': seq<ItemId>)
    requires size == TotalCount(done) && ids == FirstAppearance(done)
    ensures size' == TotalCount(done + group) && ids' == FirstAppearance(done + group)
  {
    size', ids' := size, ids;
    assert done + group[..0] == done;
    for j := 0 to |group|
      invariant size' == TotalCount(done + group[..j]) && ids' == FirstAppearance(done + group[..j])
    {
      PrefixStep(done, group, j);
      size', ids' := CountOne(size', ids', group[j], done + group[..j]);
    }
    assert group[..|group|] == group;
  }

  /** One geometry of the inner loop: its vertices are counted and its item id added when new. */
  method CountOne(size: nat, ids: seq<ItemId>, geom: Tagged, ghost done: seq<Tagged>)
    returns (size': nat, ids': seq<ItemId>)
    requires size == TotalCount(done) && ids == FirstAppearance(done)
    ensures size' == TotalCount(done + [geom]) && ids' == FirstAppearance(done + [geom])
  {
    AppendOne(done, geom);
    size' := size + geom.geometry.count;
    ids' := ids;
    if geom.id !in ids' {
      ids' := ids' + [geom.id];
    }
  }

  /** What `processIDsAndBuffer` promises, from the first-appearance and run lemmas. */
  lemma PackedBucket(flat: seq<Tagged>, buffer: seq<nat>, ids: seq<ItemId>)
    requires ids == FirstAppearance(flat)
    requires buffer == Clamped(TotalCount(flat), Runs(flat, ids))
    ensures Covers(ids, flat) && buffer == Runs(flat, ids)
    ensures |buffer| == TotalCount(flat)
    ensures Distinct(ids) && (forall x :: x in ids <==> x in IdSet(flat))
    ensures Covers(ids, flat)
    ensures forall k, p :: 0 <= k < |flat| && Offset(flat, k) <= p < Offset(flat, k) + flat[k].geometry.count
              ==> buffer[p] == IndexOf(ids, flat[k].id)
  {
    FirstAppearanceIds(flat);
    RunsPartition(flat, ids);
    assert buffer == Runs(flat, ids);
  }

  /**
   * `processIDsAndBuffer(geometries)`: the buffer covers exactly the vertices
   * of the bucket, `ids` holds each item id once in first-appearance order
   * (a `Set`'s enumeration order), and every vertex of geometry `k` carries the
   * position of geometry `k`'s id in `ids`.
   */
  method ProcessIdsAndBuffer(groups: seq<seq<Tagged>>) returns (buffer: seq<nat>, ids: seq<ItemId>)
    ensures ids == FirstAppearance(Concat(groups)) && buffer == Runs(Concat(groups), ids)
    ensures |buffer| == TotalCount(Concat(groups))
    ensures Distinct(ids) && (forall x :: x in ids <==> x in IdSet(Concat(groups)))
    ensures Covers(ids, Concat(groups))
    ensures forall k, p :: 0 <= k < |Concat(groups)| &&
              Offset(Concat(groups), k) <= p < Offset(Concat(groups), k) + Concat(groups)[k].geometry.count
              ==> buffer[p] == IndexOf(ids, Concat(groups)[k].id)
  {
    var size: nat := 0;
    ids := [];
    for gi := 0 to |groups|
      invariant size == TotalCount(Concat(groups[..gi])) && ids == FirstAppearance(Concat(groups[..gi]))
    {
      ConcatStep(groups, gi);
      size, ids := CountGroup(groups[gi], size, ids, Concat(groups[..gi]));
    }
    ConcatAll(groups);
    buffer := ProcessBuffer(groups, size);
    PackedBucket(Concat(groups), buffer, ids);
  }
}
