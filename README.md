# Fragment bookkeeping of the IFC viewer components, in Dafny

This project models three stateful parts of the components library. The rest
of that library hands a geometry to three.js.

- **`DataConverter`** turns the elements loaded from an IFC file into
  fragments.
  - An element with several instances, an instanced category or voids
    becomes an instanced fragment of its own.
  - Every other element has its geometries tagged with its item id, placed
    by its instance matrix, and appended to a merge bucket. A bucket is
    keyed by category, floor and material.
  - Each (category, floor) pair of buckets later becomes one merged
    fragment. That fragment has a per-vertex `blockID` buffer numbering the
    item ids 0, 1, 2, ... in order of first appearance.
  - Every item id gets a bounding entry, either opaque or
    transparent/voided. The oriented-box search behind a bounding entry
    keeps the first of fifteen candidate frames of strictly smallest volume.
- **`FragmentGrouper`** keeps a three-level dictionary: system → group →
  fragment guid → item ids. It supports `add`, `remove`, `get` and
  `dispose`.
- **`FragmentEdges`** keeps one instanced line object per fragment id.
  - `generate` releases the previous object.
  - It stages one position, quaternion and scale per instance, then turns
    them into instance attributes.
  - It writes every instance's decomposed matrix into that instance's slot.
  - It stores the new object in the scene, hidden.

Files:
- `optional.dfy`: `Option`.
- `object_keys.dfy`: enumerating an object's keys (`for ... in`, `Object.keys`).
- `converter_types.dfy`: the converter's value types.
- `bucket_table.dfy`: the bucket table and the merged path as functions.
- `block_ids.dfy`: the block-id buffer, its specification, and the
  imperative `processBuffer` / `processIDsAndBuffer`.
- `bounding_volume.dfy`: the extents scan and the frame selection of
  `getTransformHelper`.
- `data_converter.dfy`: the class `Converter`.
- `fragment_grouper.dfy`: the class `Grouper`.
- `fragment_edges.dfy`: the classes `Edges`, `EdgeLines`, `LineGeometry`
  and `Attribute`.

How the model is built:
- Each class keeps the source's fields and updates them in place.
- A loop of the source is a `while`/`for` loop of the model. Each loop is
  proved against a specification function. The properties the source
  promises are lemmas about those functions.
- Values three.js computes are either parameters (`Matrix4.decompose`) or
  opaque records. An opaque geometry records its vertex count and the
  matrices applied to it.

Where the code and its description disagree, the model follows the code:
- **The guard at line 420.** `level !== undefined && category !== undefined`
  compares `parseInt` results, so it is always true. A pair whose key reads
  `undefined` is therefore processed, and it throws. `ProcessAllUniqueItems`
  fails exactly when such a pair exists.
- **Empty geometry.** A helper over no vertices keeps the ±1e10 sentinels.
  Its box then spans -2e10 per axis, with volume -8e30, and the first frame
  is chosen (`EmptyGeometry`).
- **`getInstanceTransforms` stages a stale transform.** `updateMatrix`
  recomposes the dummy's matrix from its position, quaternion and scale, and
  those were never read from the instance. So every staged triple is the
  dummy's current transform. The slot writes that follow overwrite every
  staged value (`AttributesFilled`), so the attributes still end up with
  the instances' own transforms.
- **A material without geometries still yields a bucket.** `initializeItem`
  creates the bucket before the push loop, so a material whose geometry list
  is empty leaves an empty bucket (`Initialized`, `MergedBuckets`). That
  material and its empty group then go into the floor's merged fragment
  through `getUniqueItemMaterial` and `Object.values`. It is not skipped.
- **Units are applied once per material.** On the merged path,
  `Units.apply` runs on the same instance matrix once for each material.
  Material `k` is placed with the matrix after `k + 1` applications.

## Model

| member | source | states |
|---|---|---|
| ObjectKeys.EnumerateKeys | library/src/fragment/fragment-ifc-importer/data-converter.ts:415 | the enumeration lists every key of the dictionary exactly once and nothing else |
| BucketTable.Initialized | library/src/fragment/fragment-ifc-importer/data-converter.ts:150-160 | get-or-insert: bucket [c][l][m] exists afterwards; an existing bucket keeps its geometries, and a new one is empty |
| BucketTable.InitializedFrame | library/src/fragment/fragment-ifc-importer/data-converter.ts:150-160 | every other bucket is kept with its contents, and no bucket other than [c][l][m] is created |
| BucketTable.InitializedIdempotent | library/src/fragment/fragment-ifc-importer/data-converter.ts:150-160 | initialising twice equals initialising once |
| BucketTable.InitializedExtends | library/src/fragment/fragment-ifc-importer/data-converter.ts:150-160 | an existing bucket is neither replaced nor shortened |
| BucketTable.InitializedKeyed | library/src/fragment/fragment-ifc-importer/data-converter.ts:150-160 | initialising keeps every geometry in the bucket of its item's category and floor |
| BucketTable.Appended | library/src/fragment/fragment-ifc-importer/data-converter.ts:145 | after the push, the bucket holds its old geometries followed by the pushed ones |
| BucketTable.AppendedFrame | library/src/fragment/fragment-ifc-importer/data-converter.ts:145 | a push touches no other bucket and creates none |
| BucketTable.AppendedNothing | library/src/fragment/fragment-ifc-importer/data-converter.ts:143-147 | pushing no geometries leaves the table as it was |
| BucketTable.AppendedTwice | library/src/fragment/fragment-ifc-importer/data-converter.ts:143-147 | two successive pushes equal one push of the concatenation, so the loop's pushes add up |
| BucketTable.AppendedExtends | library/src/fragment/fragment-ifc-importer/data-converter.ts:145 | every bucket only grows at its end |
| BucketTable.AppendedKeyed | library/src/fragment/fragment-ifc-importer/data-converter.ts:144-145 | pushing geometries of an item keyed (c, l) into bucket [c][l][m] keeps the table keyed |
| DataConverter.TagContents | library/src/fragment/fragment-ifc-importer/data-converter.ts:143-147 | the geometries one material pushes all carry the item id (none when the material has no geometry), and they have as many vertices as the material's geometries |
| BucketTable.MergedStep | library/src/fragment/fragment-ifc-importer/data-converter.ts:125-131 | one more material of the element means one more initialise-and-append |
| BucketTable.MergedExtends | library/src/fragment/fragment-ifc-importer/data-converter.ts:124-148 | the merged path only lengthens buckets |
| BucketTable.MergedKeyed | library/src/fragment/fragment-ifc-importer/data-converter.ts:124-148 | the merged path adds geometries only under the category and floor their item id reads |
| BucketTable.StepKeeps | library/src/fragment/fragment-ifc-importer/data-converter.ts:129-130 | one initialise-and-append leaves every other bucket unchanged |
| BucketTable.StepCreates | library/src/fragment/fragment-ifc-importer/data-converter.ts:129-130 | one initialise-and-append creates no bucket but its own |
| BucketTable.MergedOthers | library/src/fragment/fragment-ifc-importer/data-converter.ts:124-148 | a bucket of another key or another material is unchanged |
| BucketTable.MergedNew | library/src/fragment/fragment-ifc-importer/data-converter.ts:124-148 | the only buckets created are under (c, l) and one of the element's materials |
| BucketTable.MergedLast | library/src/fragment/fragment-ifc-importer/data-converter.ts:124-148 | the last material's bucket holds its old contents, then the material's geometries placed after one unit application per material |
| BucketTable.MergedBuckets | library/src/fragment/fragment-ifc-importer/data-converter.ts:124-148 | material k's bucket holds its old geometries (or none), then material k's geometries tagged with the id and placed with the matrix after k + 1 unit applications; everything else is unchanged |
| BucketTable.Merged | library/src/fragment/fragment-ifc-importer/data-converter.ts:124-132 | `processMergedItems` on the table, as a reference function; its contents are stated by `MergedBuckets`, `MergedOthers` and `MergedNew` |
| BlockIds.Offset | library/src/fragment/fragment-ifc-importer/data-converter.ts:474-477 | a geometry's run starts inside the buffer and ends within it |
| BlockIds.TotalCountPrefix | library/src/fragment/fragment-ifc-importer/data-converter.ts:494-501 | the vertex count of a prefix, plus the next geometry's count, stays within the total |
| BlockIds.FirstAppearance | library/src/fragment/fragment-ifc-importer/data-converter.ts:495-500 | the `Set` of ids in first-appearance order: no repeats, and exactly the bucket's ids |
| BlockIds.IndexOf | library/src/fragment/fragment-ifc-importer/data-converter.ts:484-486 | the block id of an item is its first position in the order |
| BlockIds.FirstAppearanceIds | library/src/fragment/fragment-ifc-importer/data-converter.ts:493-504 | `ids` is exactly the set of item ids, one entry per id |
| BlockIds.DistinctCard | library/src/fragment/fragment-ifc-importer/data-converter.ts:499 | a repeat-free list has as many entries as distinct values |
| BlockIds.FirstAppearanceMonotone | library/src/fragment/fragment-ifc-importer/data-converter.ts:483-487 | ids seen earlier keep their numbers as more geometries arrive |
| BlockIds.RunsLength | library/src/fragment/fragment-ifc-importer/data-converter.ts:468-481 | the runs cover exactly the total vertex count |
| BlockIds.RunsPrefix | library/src/fragment/fragment-ifc-importer/data-converter.ts:471-479 | the runs of a prefix of the bucket are a prefix of the runs |
| BlockIds.OffsetStep | library/src/fragment/fragment-ifc-importer/data-converter.ts:477 | the next run starts where this one ends (`data.offset += size`) |
| BlockIds.OffsetMonotone | library/src/fragment/fragment-ifc-importer/data-converter.ts:477 | run starts are in iteration order |
| BlockIds.RunsPartition | library/src/fragment/fragment-ifc-importer/data-converter.ts:468-481 | the runs are contiguous, start at 0, end at the total, and every slot of geometry k holds k's block id |
| BlockIds.RangeOf | library/src/fragment/fragment-ifc-importer/data-converter.ts:468-481 | every slot of the buffer lies in the run of some geometry |
| BlockIds.RunsDisjoint | library/src/fragment/fragment-ifc-importer/data-converter.ts:474-477 | the runs of two different geometries do not overlap |
| BlockIds.BlockIdsDense | library/src/fragment/fragment-ifc-importer/data-converter.ts:483-487 | block ids are below the number of ids, distinct ids get distinct block ids, and every number below that count is used |
| BlockIds.BlockIdOfGeometry | library/src/fragment/fragment-ifc-importer/data-converter.ts:483-487 | an id first seen at geometry k gets the next free number; an id seen before keeps its number |
| BlockIds.ClampedExtend | library/src/fragment/fragment-ifc-importer/data-converter.ts:468-477 | filling the next run of a `Uint32Array(size)` extends the filled prefix; fills past the end are dropped |
| BlockIds.Fill | library/src/fragment/fragment-ifc-importer/data-converter.ts:476 | `buffer.fill(v, start, end)` with clamping to the array's length |
| BlockIds.IdTableStep | library/src/fragment/fragment-ifc-importer/data-converter.ts:483-487 | `updateBufferIDs` keeps the map from id to block id equal to the first-appearance numbering, and `blockID` equal to the number of ids seen |
| BlockIds.UpdateBufferIds | library/src/fragment/fragment-ifc-importer/data-converter.ts:483-487 | `updateBufferIDs` on the temporary data; `IdTableStep` and `IdsStep` prove it numbers ids in first-appearance order |
| BlockIds.IdsStep | library/src/fragment/fragment-ifc-importer/data-converter.ts:483-487 | one geometry further, the id table is still the first-appearance numbering |
| BlockIds.BufferStep | library/src/fragment/fragment-ifc-importer/data-converter.ts:474-477 | one geometry further, the buffer holds the runs so far and the offset is their total |
| BlockIds.FillOne | library/src/fragment/fragment-ifc-importer/data-converter.ts:472-478 | one iteration of the inner loop of `processBuffer` keeps the packing invariant |
| BlockIds.FillGroup | library/src/fragment/fragment-ifc-importer/data-converter.ts:471-479 | one material's geometries keep the packing invariant |
| BlockIds.ProcessBuffer | library/src/fragment/fragment-ifc-importer/data-converter.ts:468-481 | the buffer is the first-appearance runs of the bucket, clamped to `size` |
| BlockIds.CountOne | library/src/fragment/fragment-ifc-importer/data-converter.ts:498-499 | one geometry adds its vertex count, and its id when new |
| BlockIds.CountGroup | library/src/fragment/fragment-ifc-importer/data-converter.ts:496-501 | the counting loop computes the total vertex count and the first-appearance ids |
| BlockIds.PackedBucket | library/src/fragment/fragment-ifc-importer/data-converter.ts:493-504 | with `size` the exact total, nothing is clamped and every slot of geometry k holds k's block id |
| BlockIds.ProcessIdsAndBuffer | library/src/fragment/fragment-ifc-importer/data-converter.ts:493-504 | buffer length is the total vertex count; `ids` is exactly the bucket's ids, once each, in first-appearance order; every vertex of geometry k carries the index of k's id in `ids` |
| BoundingVolume.UpperIsMax | library/src/fragment/fragment-ifc-importer/data-converter.ts:288-311 | `mab` bounds every coordinate and is one of them, or the -1e10 sentinel |
| BoundingVolume.LowerIsMin | library/src/fragment/fragment-ifc-importer/data-converter.ts:291-314 | `mib` is below every coordinate and is one of them, or the 1e10 sentinel |
| BoundingVolume.Extents | library/src/fragment/fragment-ifc-importer/data-converter.ts:288-317 | the scan computes the maximum and minimum with their sentinels |
| BoundingVolume.MeasureCandidate | library/src/fragment/fragment-ifc-importer/data-converter.ts:319-335 | the candidate's volume, box size and centre shift |
| BoundingVolume.SelectFrame | library/src/fragment/fragment-ifc-importer/data-converter.ts:255-337 | the kept frame follows the selection rule `Chosen`: none iff no volume is below 1e13, otherwise the first of strictly smallest volume, with its size and shift |
| BoundingVolume.ChosenUnique | library/src/fragment/fragment-ifc-importer/data-converter.ts:255-337 | the selection rule leaves no choice: two frames that both follow it are equal |
| BoundingVolume.EmptyGeometry | library/src/fragment/fragment-ifc-importer/data-converter.ts:288-323 | with no vertices every volume is -8e30, so the kept frame is candidate 0 with size -2e10 per axis and zero shift |
| DataConverter.InstanceRecords | library/src/fragment/fragment-ifc-importer/data-converter.ts:389-398 | instance i records the id list [instances[i].id] and its matrix after one unit application |
| DataConverter.InstancedFragment | library/src/fragment/fragment-ifc-importer/data-converter.ts:400-405 | `createInstancedFragment` with `setFragmentInstances`: all geometries merged, the material ids, one record per instance (`InstanceRecords`) |
| DataConverter.InstanceEntriesKeys | library/src/fragment/fragment-ifc-importer/data-converter.ts:182-195 | exactly the instances' ids get a bounding entry |
| DataConverter.InstanceEntriesLast | library/src/fragment/fragment-ifc-importer/data-converter.ts:182-195 | an id's entry is the box placed by its last instance |
| DataConverter.InstanceEntries | library/src/fragment/fragment-ifc-importer/data-converter.ts:182-195 | the boxes of the instance loop; `InstanceEntriesKeys` and `InstanceEntriesLast` state which ids get one and which write wins |
| DataConverter.UnionUpdate | library/src/fragment/fragment-ifc-importer/data-converter.ts:191-194 | writing into the map equals adding the write to the entries so far |
| DataConverter.OwnGeometriesMembers | library/src/fragment/fragment-ifc-importer/data-converter.ts:431-441 | the split keeps exactly the geometries tagged with the id |
| DataConverter.OwnGeometriesNonEmpty | library/src/fragment/fragment-ifc-importer/data-converter.ts:436-439 | an id gets a non-empty list iff it occurs in the bucket |
| DataConverter.BucketGroupsContents | library/src/fragment/fragment-ifc-importer/data-converter.ts:428 | `Object.values` of the floor's buckets, concatenated, holds every geometry of every bucket and nothing else |
| DataConverter.MergedFragmentIds | library/src/fragment/fragment-ifc-importer/data-converter.ts:455-504 | the merged fragment has one identity instance listing each bucket id once; the block id at every vertex of geometry k indexes k's id in that list; block ids are below the number of ids |
| DataConverter.MergedFragment | library/src/fragment/fragment-ifc-importer/data-converter.ts:455-466 | `newMergedFragment` of a floor's buckets; `MergedFragmentIds` and `MergedFragmentKeyed` state its id records |
| DataConverter.MergedFragmentKeyed | library/src/fragment/fragment-ifc-importer/data-converter.ts:427-466 | with the table keyed, the merged fragment of a floor lists only items whose category and floor read that pair |
| DataConverter.GroupedStep | library/src/fragment/fragment-ifc-importer/data-converter.ts:435-439 | one push keeps every id's list equal to its own geometries so far, with one list per id seen |
| DataConverter.AddOne | library/src/fragment/fragment-ifc-importer/data-converter.ts:436-439 | `if (!items[id]) items[id] = []; items[id].push(geom)` is one step of the split |
| DataConverter.GroupOne | library/src/fragment/fragment-ifc-importer/data-converter.ts:434-440 | the inner loop keeps the split invariant over one material's geometries |
| DataConverter.GroupById | library/src/fragment/fragment-ifc-importer/data-converter.ts:431-441 | `items` has a list exactly for the bucket's ids, and each list holds that id's geometries in bucket order |
| DataConverter.UndefinedPair | library/src/fragment/fragment-ifc-importer/data-converter.ts:417-421 | one pair with an undefined key makes "every pair is defined" false |
| DataConverter.MemberId | library/src/fragment/fragment-ifc-importer/data-converter.ts:435 | a geometry of a bucket carries one of the bucket's ids |
| DataConverter.ConcatMember | library/src/fragment/fragment-ifc-importer/data-converter.ts:428-434 | every geometry of every material group is in the concatenation |
| DataConverter.BucketIds | library/src/fragment/fragment-ifc-importer/data-converter.ts:443-447 | every geometry of the floor's buckets carries an id that gets a box |
| DataConverter.Converter.constructor | library/src/fragment/fragment-ifc-importer/data-converter.ts:19-42 | empty tables and fragment list, with the given inputs |
| DataConverter.Converter.Reset | library/src/fragment/fragment-ifc-importer/data-converter.ts:44-49 | `reset()` empties the model, the buckets and both bounding maps |
| DataConverter.Converter.InitializeItem | library/src/fragment/fragment-ifc-importer/data-converter.ts:150-160 | the new table is the get-or-insert `Initialized` of the old one |
| DataConverter.Converter.ApplyTransformToMergedGeometries | library/src/fragment/fragment-ifc-importer/data-converter.ts:134-148 | the matrix gets one more unit application, and the bucket gets every geometry of the material, in order, tagged with the id and placed with that matrix |
| DataConverter.Converter.ProcessMergedItems | library/src/fragment/fragment-ifc-importer/data-converter.ts:124-132 | the table becomes `Merged` of the old one under the category and floor the id reads, and stays keyed |
| DataConverter.Converter.SetFragmentInstances | library/src/fragment/fragment-ifc-importer/data-converter.ts:389-398 | the records are `InstanceRecords` of the instances |
| DataConverter.Converter.HasTransparentMaterial | library/src/fragment/fragment-ifc-importer/data-converter.ts:172-179 | fails iff some material is unknown; else transparent iff some material is transparent |
| DataConverter.Converter.RecordBoxes | library/src/fragment/fragment-ifc-importer/data-converter.ts:182-195 | each instance's id gets its box in exactly the routed map; the other map is unchanged |
| DataConverter.Converter.ProcessInstancedItems | library/src/fragment/fragment-ifc-importer/data-converter.ts:162-207 | the instanced fragment is pushed; boxes go to the transparent map iff a material is transparent or the single instance has voids, else to the opaque map, never both |
| DataConverter.Converter.ProcessFragmentData | library/src/fragment/fragment-ifc-importer/data-converter.ts:112-122 | no instances throws; the instanced path is taken iff the instance count is not 1, or the category is instanced, or the single instance has voids; otherwise the merged path |
| DataConverter.Converter.GoesInstanced | library/src/fragment/fragment-ifc-importer/data-converter.ts:113-117 | the routing condition of `processFragmentData`; `ProcessFragmentData` proves each side takes its path |
| DataConverter.Converter.ProcessAllFragmentsData | library/src/fragment/fragment-ifc-importer/data-converter.ts:105-110 | buckets only grow, the fragment list only grows, bounding keys are kept, and the pass succeeds only if every element has an instance |
| DataConverter.Converter.RecordUniqueBoxes | library/src/fragment/fragment-ifc-importer/data-converter.ts:443-447 | each id of the split gets the box of its own geometries; other entries are unchanged |
| DataConverter.Converter.ProcessUniqueItem | library/src/fragment/fragment-ifc-importer/data-converter.ts:427-453 | an undefined key throws with nothing changed; otherwise one merged fragment is pushed, each distinct id gets exactly one entry, in `_boundingBoxes` only, and with the table keyed the fragment lists only items of the pair |
| DataConverter.Converter.ProcessLevel | library/src/fragment/fragment-ifc-importer/data-converter.ts:418-422 | one pair succeeds iff both keys are defined, and then every id of its buckets has a box |
| DataConverter.Converter.ProcessCategory | library/src/fragment/fragment-ifc-importer/data-converter.ts:417-423 | the level loop succeeds iff every floor key of the category is defined, and then every id of its buckets has a box |
| DataConverter.Converter.ProcessAllUniqueItems | library/src/fragment/fragment-ifc-importer/data-converter.ts:414-425 | succeeds iff every (category, floor) pair has both keys defined (the line-420 guard filters nothing); then every bucket id has a box |
| FragmentGrouper.AddedProperties | library/src/fragment/fragment-grouper.ts:30-44 | each named (system, group) maps the guid to the given list, overwriting; systems and groups are the old ones plus the named ones; other guids and unnamed groups are unchanged |
| FragmentGrouper.Added | library/src/fragment/fragment-grouper.ts:30-44 | `add` on the dictionary, as a reference function; its contents are stated by `AddedProperties` |
| FragmentGrouper.AddedStep | library/src/fragment/fragment-grouper.ts:31-43 | adding one more system's lists is one more update of that system |
| FragmentGrouper.AddedSystemStep | library/src/fragment/fragment-grouper.ts:37-42 | one more group name is one get-or-insert-then-overwrite |
| FragmentGrouper.AddedSystemNothing | library/src/fragment/fragment-grouper.ts:37-42 | no group names leave the system as it was |
| FragmentGrouper.RemovedProperties | library/src/fragment/fragment-grouper.ts:55-63 | no group holds the guid; every system and group stays, even if empty; other guids keep their lists |
| FragmentGrouper.Removed | library/src/fragment/fragment-grouper.ts:55-63 | `remove` on the dictionary, as a reference function; its contents are stated by `RemovedProperties` |
| FragmentGrouper.RemovedIdempotent | library/src/fragment/fragment-grouper.ts:55-63 | removing twice equals removing once |
| FragmentGrouper.RemoveUndoesAdd | library/src/fragment/fragment-grouper.ts:30-63 | removing a guid just added restores every old group |
| FragmentGrouper.CollectLists | library/src/fragment/fragment-grouper.ts:71-76 | after the push loop, a guid's entry is its old list followed by the group's list for it |
| FragmentGrouper.CollectStep | library/src/fragment/fragment-grouper.ts:72-75 | one more guid of the group is one push |
| FragmentGrouper.CollectNothing | library/src/fragment/fragment-grouper.ts:70 | a missing group contributes nothing (`if (found)`) |
| FragmentGrouper.GatheredPrefix | library/src/fragment/fragment-grouper.ts:67-78 | one more filter entry is one more collection from its group |
| FragmentGrouper.Gathered | library/src/fragment/fragment-grouper.ts:65-80 | what `get` returns when every filter name is a system; its contents are stated by `GatheredPerGuid` |
| FragmentGrouper.ListsInLast | library/src/fragment/fragment-grouper.ts:67-78 | a guid's lists over the selected groups end with the last group's list |
| FragmentGrouper.ContributionLast | library/src/fragment/fragment-grouper.ts:67-78 | the reference concatenation, one filter entry further |
| FragmentGrouper.GatheredPerGuid | library/src/fragment/fragment-grouper.ts:65-80 | a guid has an entry iff some selected group lists it; the entry is the concatenation, in filter order, of its lists in the selected groups |
| FragmentGrouper.GatheredSkipsMissing | library/src/fragment/fragment-grouper.ts:69-70 | a filter value naming no group changes nothing |
| FragmentGrouper.Push | library/src/fragment/fragment-grouper.ts:72-75 | `if (!models[guid]) models[guid] = []; models[guid].push(...ids)` appends the ids to the guid's entry |
| FragmentGrouper.Absorb | library/src/fragment/fragment-grouper.ts:71-76 | the push loop over one group equals `Collect` |
| FragmentGrouper.AddGroup | library/src/fragment/fragment-grouper.ts:38-41 | get-or-insert the group, then overwrite the guid's list |
| FragmentGrouper.AddGroups | library/src/fragment/fragment-grouper.ts:35-42 | the inner loop of `add` equals `AddedSystem` |
| FragmentGrouper.GatherOne | library/src/fragment/fragment-grouper.ts:68-77 | one filter entry: collect the group if it exists, else nothing |
| FragmentGrouper.Grouper.constructor | library/src/fragment/fragment-grouper.ts:15-18 | exactly the systems `category` and `floor`, each without groups |
| FragmentGrouper.Grouper.Dispose | library/src/fragment/fragment-grouper.ts:26-28 | the dictionary becomes empty |
| FragmentGrouper.Grouper.Add | library/src/fragment/fragment-grouper.ts:30-44 | the dictionary becomes `Added` of the old one |
| FragmentGrouper.Grouper.RemoveFromSystem | library/src/fragment/fragment-grouper.ts:57-61 | one system loses the guid in every group; nothing else changes |
| FragmentGrouper.Grouper.Remove | library/src/fragment/fragment-grouper.ts:55-63 | the dictionary becomes `Removed` of the old one |
| FragmentGrouper.Grouper.Get | library/src/fragment/fragment-grouper.ts:65-80 | throws iff some filter name is not a system; otherwise returns the selected groups' lists, gathered in the filter's enumeration order |
| FragmentEdges.RepeatedLength | library/src/fragment/fragment-edges.ts:137-158 | staging n instances of k numbers each gives n * k numbers |
| FragmentEdges.FlattenLength | library/src/fragment/fragment-edges.ts:101-114 | n slots of size k span n * k cells |
| FragmentEdges.FlattenAt | library/src/fragment/fragment-edges.ts:101-114 | cell k * i + j holds number j of instance i |
| FragmentEdges.FlattenSlot | library/src/fragment/fragment-edges.ts:101-114 | slot i is exactly instance i's numbers |
| FragmentEdges.WrittenAfter | library/src/fragment/fragment-edges.ts:160-178 | writing right after a prefix replaces that many cells |
| FragmentEdges.PlacedFills | library/src/fragment/fragment-edges.ts:101-114 | writing every slot in order leaves only the written values, whatever the buffer held |
| FragmentEdges.AttributesFilled | library/src/fragment/fragment-edges.ts:79-94 | the stale staged transforms are all overwritten by the slot writes |
| FragmentEdges.RemoveThenStore | library/src/fragment/fragment-edges.ts:76-92 | delete-then-store equals a plain store |
| FragmentEdges.SlotsHold | library/src/fragment/fragment-edges.ts:101-178 | slot i of `instT`, `instR` and `instS` holds instance i's position, quaternion and scale |
| FragmentEdges.Attribute.constructor | library/src/fragment/fragment-edges.ts:117-130 | a fresh typed array holding the staged numbers, with the item size |
| FragmentEdges.Attribute.SetXYZ | library/src/fragment/fragment-edges.ts:161-176 | three numbers written at index * itemSize; cells past the end are ignored |
| FragmentEdges.Attribute.SetXYZW | library/src/fragment/fragment-edges.ts:168-174 | four numbers written at index * itemSize; cells past the end are ignored |
| FragmentEdges.LineGeometry.constructor | library/src/fragment/fragment-edges.ts:82 | a geometry with no instance attributes, not disposed |
| FragmentEdges.EdgeLines.constructor | library/src/fragment/fragment-edges.ts:87 | a new object: visible, frustum-culled, not in a scene |
| FragmentEdges.EdgeLines.Release | library/src/fragment/fragment-edges.ts:63 | out of the scene, geometry disposed |
| FragmentEdges.Edges.constructor | library/src/fragment/fragment-edges.ts:17-25 | empty dictionary and update set, threshold 80, the dummy at the origin, material not disposed, empty staging arrays |
| FragmentEdges.Edges.GetInstanceTransforms | library/src/fragment/fragment-edges.ts:137-158 | 3, 4 and 3 numbers of the dummy's transform appended per instance |
| FragmentEdges.Edges.SetAttributes | library/src/fragment/fragment-edges.ts:116-135 | attributes of item size 3, 4, 3 holding the staged arrays; the staging arrays end empty |
| FragmentEdges.Edges.LinesTRS | library/src/fragment/fragment-edges.ts:160-178 | o's position, quaternion and scale written into slot `index`; each attribute is flagged for upload |
| FragmentEdges.Edges.UpdateInstancedEdges | library/src/fragment/fragment-edges.ts:101-114 | every instance's decomposed matrix is written into its slot in order; the dummy keeps the last one |
| FragmentEdges.Edges.ReleasePrevious | library/src/fragment/fragment-edges.ts:71-77 | a previous object is removed from the scene, its geometry disposed and dropped, and its entry deleted; other entries are untouched |
| FragmentEdges.Edges.Store | library/src/fragment/fragment-edges.ts:92 | the dictionary maps the id to the new object |
| FragmentEdges.Edges.BuildLineGeometry | library/src/fragment/fragment-edges.ts:79-85 | a new geometry whose attributes are 3N, 4N and 3N long, staged from the dummy; staging ends empty |
| FragmentEdges.Edges.WriteInstances | library/src/fragment/fragment-edges.ts:94-114 | over stale staged attributes, every slot ends with its instance's transform |
| FragmentEdges.Edges.NewEdges | library/src/fragment/fragment-edges.ts:79-96 | a new object, hidden, in the scene, not culled; its geometry holds every instance's transform in its slot |
| FragmentEdges.Edges.Generate | library/src/fragment/fragment-edges.ts:70-99 | `edgesList[f.id]` is the new object; a previous one was released first; other entries are unchanged; the new object is hidden and in the scene, and holds each instance's transform in its slot |
| FragmentEdges.Edges.Dispose | library/src/fragment/fragment-edges.ts:60-68 | every stored object leaves the scene with its geometry disposed; the material is disposed; the dictionary and the update set end empty |

## Left out

- Floating point.
  - All numbers are mathematical integers or reals.
  - Float32 rounding in the attributes is not modelled.
  - The centroid, cross and dot products, `normalize`, `setLength`, and the
    matrix `set`/`transpose` of `getTransformHelper` need square roots.
    They stay outside the model: the coordinates along each candidate's
    axes are inputs.
- three.js and bim-fragment calls are opaque:
  - `GeometryUtils.merge` is modelled as the list of merged geometries.
  - `applyMatrix4` is recorded on the geometry.
  - `computeBoundingBox`, `Fragment`, `getInstance` and `getItemID` are not
    modelled.
  - `EdgesGeometry` and `InstancedBufferGeometry.copy` are not modelled.
  - `Matrix4.decompose` is a parameter of `Edges`.
  - The line material and its shader are a disposed flag.
  - `Disposer.dispose` is modelled as leaving the scene plus a disposed
    geometry.
  - `scene.add` is an in-scene flag.
- `Units.apply`: its source is not part of this model. It is counted on the
  transform instead of being computed.
- `SpatialStructure` and `IfcCategories`: their sources are not part of this
  model. Their maps are constructor inputs.
- Not modelled because they are I/O, debugging or plain field copies:
  - `generateFragmentData`, with its voxel and global-box diagnostics and
    `console.log`.
  - The `_bounds` Box3 accumulation.
  - `saveModelData`, `setupCategories`, `cleanUp`.
  - The loader ifc-fragment-loader.ts and fragments.ts.
- `FragmentGrouper.setVisibility` calls into `Fragment.setVisibility`, which
  is not part of this model.
- The grouper's `_fragments` field is not modelled.
- Key order of JavaScript objects and `Set`s.
  - Every `for ... in` and `Object.keys` lists each key once, in an order the
    model leaves open (`EnumerateKeys`). The engine's integer-keys-first
    rule is not modelled.
  - The elements and the materials of an element are given as sequences,
    in their enumeration order.
- Aliasing of arrays.
  - `add` stores the caller's id arrays, and `existingGroups` aliases
    `groupSystems[system]`. With value maps the model stores copies and
    writes the system back.
  - `get` copies lists with `push(...)`, so it has no aliasing to model.
- `FragmentEdges.Edges.NewEdges`: the source stores the new object in
  `edgesList` before the slot writes and before hiding it. The model stores
  it afterwards. Nothing reads the dictionary in between.
- `FragmentEdges`:
  - The `_mat4` and `_dummy.matrix` scratch values are not state of the
    model; `updateMatrix` overwrites the matrix anyway.
  - `lineGeom.instanceCount = Infinity` is not modelled.
  - `edgesToUpdate` and `threshold` are never read by the modelled code.
    They appear only in the constructor and in `dispose`.
- `BlockIds.ProcessBuffer`: block ids are unbounded naturals, not wrapped to
  32 bits. Overflow would need more than 2^32 item ids in one bucket.
- `DataConverter.Converter.ProcessAllFragmentsData` states how the tables
  grow, not their exact contents. The exact effect of each element is stated
  by `ProcessFragmentData`.
- `DataConverter.Converter.ProcessFragmentData` states on the instanced path
  only that the bounding keys grow. The exact entries are stated by
  `ProcessInstancedItems`.
- `DataConverter.Converter.ProcessLevel` states only that every bucket id
  has a box. The exact fragment and entries are stated by
  `ProcessUniqueItem`.
- `DataConverter.Converter.ProcessCategory` states only the coverage of the
  category's ids by boxes. It does not state the exact fragments pushed.
- `DataConverter.Converter.ProcessAllUniqueItems` states only the coverage
  of all bucket ids by boxes. It does not state the exact fragments pushed.
- `getUniqueItemMaterial`: the merged fragment's material list is the
  bucket key order. `_materials` lookups for it are not modelled.
- Some `_materials` lookups are not modelled: the material list of an
  instanced fragment is its material ids (`getMaterials`).
