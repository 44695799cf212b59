/**
 * `FragmentGrouper`: a three-level dictionary `groupSystems`, from system
 * name (`category`, `floor`, ...) to group name to fragment guid to the item
 * ids of that fragment in that group. `add` files one fragment's ids under
 * every group it names, `remove` deletes one fragment from every group, and
 * `get` collects, per fragment, the ids of the groups a filter selects.
 */
module FragmentGrouper {
  import opened Optional
  import opened ObjectKeys

  /** The item ids of one fragment in one group. */
  type Ids = seq<string>
  /** One group: fragment guid -> item ids. */
  type Group = map<string, Ids>
  /** One system: group name -> group. */
  type System = map<string, Group>
  /** `GroupSystems`: system name -> group name -> fragment guid -> item ids. */
  type Systems = map<string, System>
  /** `ItemGroupSystems`: what one fragment contributes, system name -> group name -> item ids. */
  type ItemGroups = map<string, map<string, Ids>>

  /** The system `s`, read as empty when it does not exist yet. */
  function SystemOf(gs: Systems, s: string): System
  {
    if s in gs then gs[s] else map[]
  }

  /** The group `n`, read as empty when it does not exist yet. */
  function GroupOf(sys: System, n: string): Group
  {
    if n in sys then sys[n] else map[]
  }

  /**
   * The inner loop of `add` on one system: every group `lists` names is
   * created when missing and then maps `guid` to that group's id list.
   */
  function AddedSystem(sys: System, guid: string, lists: map<string, Ids>): System
  {
    map n | n in sys.Keys + lists.Keys :: if n in lists then GroupOf(sys, n)[guid := lists[n]] else sys[n]
  }

  /** `add(guid, groupsSystems)` on the whole dictionary. */
  function Added(gs: Systems, guid: string, g: ItemGroups): Systems
  {
    map s | s in gs.Keys + g.Keys :: if s in g then AddedSystem(SystemOf(gs, s), guid, g[s]) else gs[s]
  }

  /**
   * What `add(guid, groupsSystems)` promises: every (system, group) pair the
   * argument names exists afterwards and maps `guid` to the argument's list,
   * overwriting a previous list; the systems and groups are the old ones
   * plus the named ones; every other guid of a named group keeps its list;
   * and every group the argument does not name is left as it was.
   */
  lemma AddedProperties(gs: Systems, guid: string, g: ItemGroups)
    ensures Added(gs, guid, g).Keys == gs.Keys + g.Keys
    ensures forall s :: s in g ==> Added(gs, guid, g)[s].Keys == SystemOf(gs, s).Keys + g[s].Keys
    ensures forall s, n :: s in g && n in g[s] ==> Added(gs, guid, g)[s][n] == GroupOf(SystemOf(gs, s), n)[guid := g[s][n]]
    ensures forall s, n, other :: s in g && n in g[s] && other != guid ==>
              (other in Added(gs, guid, g)[s][n] <==> other in GroupOf(SystemOf(gs, s), n))
    ensures forall s :: s in gs ==> forall n :: n in gs[s] ==> n in Added(gs, guid, g)[s]
    ensures forall s, n :: s in gs && n in gs[s] && !(s in g && n in g[s]) ==> Added(gs, guid, g)[s][n] == gs[s][n]
  {
    var r := Added(gs, guid, g);
    forall s | s in g
      ensures r[s] == AddedSystem(SystemOf(gs, s), guid, g[s])
    {
    }
    forall s | s in gs && s !in g
      ensures r[s] == gs[s]
    {
    }
  }

  /** Adding one more system's lists is adding the others, then that system on its own. */
  lemma AddedStep(gs: Systems, guid: string, g: ItemGroups, s: string, lists: map<string, Ids>)
    requires s !in g
    ensures Added(gs, guid, g[s := lists]) == Added(gs, guid, g)[s := AddedSystem(SystemOf(gs, s), guid, lists)]
  {
    var before := Added(gs, guid, g);
    var after := Added(gs, guid, g[s := lists]);
    assert after.Keys == before.Keys + {s};
    forall t | t in after
      ensures after[t] == before[s := AddedSystem(SystemOf(gs, s), guid, lists)][t]
    {
      if t != s {
        assert t in g <==> t in g[s := lists];
      }
    }
  }

  /** `if (!existingGroups[n]) existingGroups[n] = {}; existingGroups[n][guid] = ids`. */
  function AddedGroup(sys: System, guid: string, n: string, ids: Ids): System
  {
    sys[n := GroupOf(sys, n)[guid := ids]]
  }

  /** Creating group `n` if missing and overwriting the guid's entry is one step of `AddedSystem`. */
  lemma AddedSystemStep(sys: System, guid: string, lists: map<string, Ids>, n: string, ids: Ids)
    requires n !in lists
    ensures AddedSystem(sys, guid, lists[n := ids]) == AddedGroup(AddedSystem(sys, guid, lists), guid, n, ids)
  {
    var before := AddedSystem(sys, guid, lists);
    var after := AddedSystem(sys, guid, lists[n := ids]);
    assert GroupOf(before, n) == GroupOf(sys, n);
    assert after.Keys == before.Keys + {n};
    forall t | t in after
      ensures after[t] == AddedGroup(before, guid, n, ids)[t]
    {
    }
  }

  /** `remove` on one system, for the groups in `names` only. */
  function Strip(sys: System, guid: string, names: set<string>): System
  {
    map n | n in sys :: if n in names then sys[n] - {guid} else sys[n]
  }

  /** `remove` for the systems in `names` only. */
  function StripAll(gs: Systems, guid: string, names: set<string>): Systems
  {
    map s | s in gs :: if s in names then Strip(gs[s], guid, gs[s].Keys) else gs[s]
  }

  /** `remove(guid)` on the whole dictionary. */
  function Removed(gs: Systems, guid: string): Systems
  {
    StripAll(gs, guid, gs.Keys)
  }

  /**
   * What `remove(guid)` promises: no group of any system holds `guid` any
   * more; every system and every group stays, even one left empty; and
   * every other guid keeps its list.
   */
  lemma RemovedProperties(gs: Systems, guid: string)
    ensures Removed(gs, guid).Keys == gs.Keys
    ensures forall s :: s in gs ==> Removed(gs, guid)[s].Keys == gs[s].Keys
    ensures forall s, n :: s in gs && n in gs[s] ==> Removed(gs, guid)[s][n] == gs[s][n] - {guid}
    ensures forall s, n :: s in gs && n in gs[s] ==> guid !in Removed(gs, guid)[s][n]
    ensures forall s, n, other :: s in gs && n in gs[s] && other != guid && other in gs[s][n] ==>
              other in Removed(gs, guid)[s][n] && Removed(gs, guid)[s][n][other] == gs[s][n][other]
  {
    var r := Removed(gs, guid);
    forall s | s in gs
      ensures r[s] == Strip(gs[s], guid, gs[s].Keys)
    {
    }
  }

  /** Removing `guid` twice is removing it once. */
  lemma RemovedIdempotent(gs: Systems, guid: string)
    ensures Removed(Removed(gs, guid), guid) == Removed(gs, guid)
  {
    RemovedProperties(gs, guid);
    var r := Removed(gs, guid);
    RemovedProperties(r, guid);
    var rr := Removed(r, guid);
    forall s | s in r
      ensures rr[s] == r[s]
    {
      forall n | n in r[s]
        ensures rr[s][n] == r[s][n]
      {
      }
    }
  }

  /**
   * Removing a guid just added gives back the dictionary as it was, group
   * by group, when the guid was in no group before; only the missing
   * systems and groups `add` created remain, empty of it.
   */
  lemma RemoveUndoesAdd(gs: Systems, guid: string, g: ItemGroups)
    requires forall s, n :: s in gs && n in gs[s] ==> guid !in gs[s][n]
    ensures forall s, n :: s in gs && n in gs[s] ==> Removed(Added(gs, guid, g), guid)[s][n] == gs[s][n]
  {
    var a := Added(gs, guid, g);
    var r := Removed(a, guid);
    forall s, n | s in gs && n in gs[s]
      ensures r[s][n] == gs[s][n]
    {
      assert r[s] == Strip(a[s], guid, a[s].Keys);
      if s in g {
        assert a[s] == AddedSystem(gs[s], guid, g[s]);
      }
      assert a[s][n] == gs[s][n] || a[s][n] == gs[s][n][guid := g[s][n]];
      assert r[s][n] == a[s][n] - {guid};
    }
  }

  /** One filter entry, in filter order: a system name and the group name asked of it. */
  type Query = seq<(string, string)>

  /** `this.groupSystems[name][value]`, read as empty when the group does not exist (`if (found)`). */
  function Found(gs: Systems, name: string, value: string): Group
    requires name in gs
  {
    GroupOf(gs[name], value)
  }

  /** The list `m` holds for `guid`, read as empty when it has none. */
  function Lists(m: Group, guid: string): Ids
  {
    if guid in m then m[guid] else []
  }

  /** The inner loop of `get`: every guid of `found` has its list pushed onto its entry in `models`. */
  function Collect(models: Group, found: Group): Group
  {
    map guid | guid in models.Keys + found.Keys :: Lists(models, guid) + Lists(found, guid)
  }

  /** A guid has an entry after the push loop when it had one or the group lists it, and that entry grew by its list. */
  lemma CollectLists(models: Group, found: Group, guid: string)
    ensures guid in Collect(models, found) <==> guid in models || guid in found
    ensures Lists(Collect(models, found), guid) == Lists(models, guid) + Lists(found, guid)
  {
  }

  /** `if (!models[guid]) models[guid] = []; models[guid].push(...ids)`. */
  function Pushed(models: Group, guid: string, ids: Ids): Group
  {
    models[guid := Lists(models, guid) + ids]
  }

  /** The push loop, one guid further. */
  lemma CollectStep(models: Group, found: Group, guid: string, ids: Ids)
    requires guid !in found
    ensures Collect(models, found[guid := ids]) == Pushed(Collect(models, found), guid, ids)
  {
    var before := Collect(models, found);
    var after := Collect(models, found[guid := ids]);
    assert after.Keys == before.Keys + {guid};
    forall t | t in after
      ensures after[t] == Pushed(before, guid, ids)[t]
    {
      if t == guid {
        assert Lists(before, guid) == Lists(models, guid) + [];
      } else {
        assert Lists(found[guid := ids], t) == Lists(found, t);
      }
    }
  }

  /** A group that is not there adds nothing. */
  lemma CollectNothing(models: Group)
    ensures Collect(models, map[]) == models
  {
    var r := Collect(models, map[]);
    forall guid | guid in r
      ensures r[guid] == models[guid]
    {
      CollectLists(models, map[], guid);
      assert Lists(r, guid) == Lists(models, guid) + [];
    }
  }

  /** What `get` returns when every name of the query is a system: the groups' lists gathered in query order. */
  function Gathered(gs: Systems, query: Query): Group
    requires forall k :: 0 <= k < |query| ==> query[k].0 in gs
    decreases |query|
  {
    if query == [] then map[]
    else
      var n := |query| - 1;
      Collect(Gathered(gs, query[..n]), Found(gs, query[n].0, query[n].1))
  }

  /** Gathering one more entry of the query. */
  lemma GatheredPrefix(gs: Systems, query: Query, i: nat)
    requires i < |query|
    requires forall k :: 0 <= k <= i ==> query[k].0 in gs
    ensures Gathered(gs, query[..i + 1]) == Collect(Gathered(gs, query[..i]), Found(gs, query[i].0, query[i].1))
  {
    assert query[..i + 1][..i] == query[..i];
  }

  /** The groups the query selects, in query order. */
  function Selected(gs: Systems, query: Query): seq<Group>
    requires forall k :: 0 <= k < |query| ==> query[k].0 in gs
  {
    seq(|query|, k requires 0 <= k < |query| => Found(gs, query[k].0, query[k].1))
  }

  /** The lists `groups` hold for `guid`, front to back. */
  function ListsIn(groups: seq<Group>, guid: string): Ids
  {
    if groups == [] then [] else Lists(groups[0], guid) + ListsIn(groups[1..], guid)
  }

  lemma {:induction false} ListsInLast(groups: seq<Group>, guid: string)
    requires groups != []
    ensures ListsIn(groups, guid) == ListsIn(groups[..|groups| - 1], guid) + Lists(groups[|groups| - 1], guid)
    decreases |groups|
  {
    var n := |groups| - 1;
    if n > 0 {
      var rest := groups[1..];
      ListsInLast(rest, guid);
      var prefix := groups[..n];
      assert prefix[0] == groups[0] && prefix[1..] == rest[..n - 1];
    }
  }

  /** The reference reading of `get` for one guid: its lists in every selected group, in query order. */
  function Contribution(gs: Systems, query: Query, guid: string): Ids
    requires forall k :: 0 <= k < |query| ==> query[k].0 in gs
  {
    ListsIn(Selected(gs, query), guid)
  }

  lemma ContributionLast(gs: Systems, query: Query, guid: string)
    requires query != []
    requires forall k :: 0 <= k < |query| ==> query[k].0 in gs
    ensures var n := |query| - 1;
            Contribution(gs, query, guid) == Contribution(gs, query[..n], guid) + Lists(Found(gs, query[n].0, query[n].1), guid)
  {
    var n := |query| - 1;
    assert Selected(gs, query)[..n] == Selected(gs, query[..n]);
    ListsInLast(Selected(gs, query), guid);
  }

  /**
   * `get` per guid: a guid has an entry exactly when some selected group
   * lists it, and the entry is the concatenation, in filter order, of its
   * lists in the selected groups.
   */
  lemma {:induction false} GatheredPerGuid(gs: Systems, query: Query, guid: string)
    requires forall k :: 0 <= k < |query| ==> query[k].0 in gs
    ensures Lists(Gathered(gs, query), guid) == Contribution(gs, query, guid)
    ensures guid in Gathered(gs, query) <==> exists k :: 0 <= k < |query| && guid in Found(gs, query[k].0, query[k].1)
    decreases |query|
  {
    if query != [] {
      var n := |query| - 1;
      GatheredPerGuid(gs, query[..n], guid);
      ContributionLast(gs, query, guid);
      if guid in Gathered(gs, query[..n]) {
        var k :| 0 <= k < n && guid in Found(gs, query[..n][k].0, query[..n][k].1);
        assert query[..n][k] == query[k];
      }
      if k :| 0 <= k < |query| && guid in Found(gs, query[k].0, query[k].1) {
        if k < n {
          assert query[..n][k] == query[k];
        }
      }
    }
  }

  /** A filter entry naming a group its system does not have changes nothing. */
  lemma GatheredSkipsMissing(gs: Systems, query: Query, name: string, value: string)
    requires forall k :: 0 <= k < |query| ==> query[k].0 in gs
    requires name in gs && value !in gs[name]
    ensures Gathered(gs, query + [(name, value)]) == Gathered(gs, query)
  {
    assert (query + [(name, value)])[..|query|] == query;
    CollectNothing(Gathered(gs, query));
  }

  /** `query` lists every entry of the filter once, with the group name the filter gives. */
  ghost predicate Enumerates(query: Query, filter: map<string, string>)
  {
    && (forall i, j :: 0 <= i < j < |query| ==> query[i].0 != query[j].0)
    && (forall k :: 0 <= k < |query| ==> query[k].0 in filter && query[k].1 == filter[query[k].0])
    && (forall name :: name in filter ==> exists k :: 0 <= k < |query| && query[k].0 == name)
  }

  /** One push of `get`. */
  method Push(models: Group, guid: string, ids: Ids) returns (models': Group)
    ensures models' == Pushed(models, guid, ids)
  {
    models' := models;
    if guid !in models' {
      models' := models'[guid := []];
    }
    models' := models'[guid := models'[guid] + ids];
  }

  /** The push loop of `get` for one found group. */
  method Absorb(models: Group, found: Group) returns (models': Group)
    ensures models' == Collect(models, found)
  {
    models' := models;
    CollectNothing(models);
    var guids := EnumerateKeys(found);
    ghost var seen: Group := map[];
    for j := 0 to |guids|
      invariant forall guid :: guid in seen ==> guid in found && seen[guid] == found[guid]
      invariant forall k :: 0 <= k < j ==> guids[k] in seen
      invariant forall guid :: guid in seen ==> exists k :: 0 <= k < j && guids[k] == guid
      invariant models' == Collect(models, seen)
    {
      var guid := guids[j];
      CollectStep(models, seen, guid, found[guid]);
      models' := Push(models', guid, found[guid]);
      seen := seen[guid := found[guid]];
    }
    assert seen == found;
  }

  /** Nothing to add leaves a system as it was. */
  lemma AddedSystemNothing(sys: System, guid: string)
    ensures AddedSystem(sys, guid, map[]) == sys
  {
  }

  /** One pass of the inner loop of `add`. */
  method AddGroup(existingGroups: System, guid: string, groupName: string, ids: Ids) returns (groups: System)
    ensures groups == AddedGroup(existingGroups, guid, groupName, ids)
  {
    groups := existingGroups;
    if groupName !in groups {
      groups := groups[groupName := map[]];
    }
    groups := groups[groupName := groups[groupName][guid := ids]];
  }

  /**
   * The inner loop of `add` for one system: `existingGroups`, the system's
   * group map, gets every named group created when missing and the guid's
   * list stored. The source writes through `existingGroups`, an alias of
   * `this.groupSystems[system]`; with value maps the result is stored back.
   */
  method AddGroups(existingGroups: System, guid: string, currentGroups: map<string, Ids>) returns (groups: System)
    ensures groups == AddedSystem(existingGroups, guid, currentGroups)
  {
    groups := existingGroups;
    AddedSystemNothing(existingGroups, guid);
    var names := EnumerateKeys(currentGroups);
    ghost var done: map<string, Ids> := map[];
    for j := 0 to |names|
      invariant forall n :: n in done ==> n in currentGroups && done[n] == currentGroups[n]
      invariant forall k :: 0 <= k < j ==> names[k] in done
      invariant forall n :: n in done ==> exists k :: 0 <= k < j && names[k] == n
      invariant groups == AddedSystem(existingGroups, guid, done)
    {
      var groupName := names[j];
      AddedSystemStep(existingGroups, guid, done, groupName, currentGroups[groupName]);
      groups := AddGroup(groups, guid, groupName, currentGroups[groupName]);
      done := done[groupName := currentGroups[groupName]];
    }
    assert done == currentGroups;
  }

  /** One filter entry of `get`: `found = this.groupSystems[name][value]`, pushed only `if (found)`. */
  method GatherOne(gs: Systems, models: Group, name: string, value: string) returns (models': Group)
    requires name in gs
    ensures models' == Collect(models, Found(gs, name, value))
  {
    if value in gs[name] {
      models' := Absorb(models, gs[name][value]);
    } else {
      CollectNothing(models);
      models' := models;
    }
  }

  class Grouper {
    var groupSystems: Systems

    /** The initial `groupSystems`: the systems `category` and `floor`, both without groups. */
    constructor()
      ensures groupSystems == map["category" := map[], "floor" := map[]]
    {
      groupSystems := map["category" := map[], "floor" := map[]];
    }

    /** `dispose()`. */
    method Dispose()
      modifies this
      ensures groupSystems == map[]
    {
      groupSystems := map[];
    }

    /** `add(guid, groupsSystems)`. */
    method Add(guid: string, groupsSystems: ItemGroups)
      modifies this
      ensures groupSystems == Added(old(groupSystems), guid, groupsSystems)
    {
      ghost var gs := old(groupSystems);
      assert Added(gs, guid, map[]) == gs;
      var systems := EnumerateKeys(groupsSystems);
      ghost var done: ItemGroups := map[];
      for i := 0 to |systems|
        invariant forall s :: s in done ==> s in groupsSystems && done[s] == groupsSystems[s]
        invariant forall k :: 0 <= k < i ==> systems[k] in done
        invariant forall s :: s in done ==> exists k :: 0 <= k < i && systems[k] == s
        invariant groupSystems == Added(gs, guid, done)
      {
        var system := systems[i];
        AddedStep(gs, guid, done, system, groupsSystems[system]);
        assert SystemOf(groupSystems, system) == SystemOf(gs, system);
        var existingGroups := if system in groupSystems then groupSystems[system] else map[];
        existingGroups := AddGroups(existingGroups, guid, groupsSystems[system]);
        groupSystems := groupSystems[system := existingGroups];
        done := done[system := groupsSystems[system]];
      }
      assert done == groupsSystems;
    }

    /** The inner loop of `remove` for one system: `delete group[guid]` in each of its groups. */
    method RemoveFromSystem(systemName: string, guid: string)
      requires systemName in groupSystems
      modifies this
      ensures groupSystems == old(groupSystems)[systemName := Strip(old(groupSystems)[systemName], guid, old(groupSystems)[systemName].Keys)]
    {
      ghost var sys := groupSystems[systemName];
      assert sys == Strip(sys, guid, {});
      var names := EnumerateKeys(groupSystems[systemName]);
      ghost var done: set<string> := {};
      for j := 0 to |names|
        invariant done <= sys.Keys
        invariant forall k :: 0 <= k < j ==> names[k] in done
        invariant forall n :: n in done ==> exists k :: 0 <= k < j && names[k] == n
        invariant groupSystems == old(groupSystems)[systemName := Strip(sys, guid, done)]
      {
        var groupName := names[j];
        ghost var next := Strip(sys, guid, done + {groupName});
        assert next == Strip(sys, guid, done)[groupName := sys[groupName] - {guid}];
        groupSystems := groupSystems[systemName := groupSystems[systemName][groupName := groupSystems[systemName][groupName] - {guid}]];
        done := done + {groupName};
      }
      assert done == sys.Keys;
    }

    /** `remove(guid)`. */
    method Remove(guid: string)
      modifies this
      ensures groupSystems == Removed(old(groupSystems), guid)
    {
      ghost var gs := groupSystems;
      assert gs == StripAll(gs, guid, {});
      var systems := EnumerateKeys(groupSystems);
      ghost var done: set<string> := {};
      for i := 0 to |systems|
        invariant done <= gs.Keys
        invariant forall k :: 0 <= k < i ==> systems[k] in done
        invariant forall s :: s in done ==> exists k :: 0 <= k < i && systems[k] == s
        invariant groupSystems == StripAll(gs, guid, done)
      {
        var systemName := systems[i];
        assert StripAll(gs, guid, done + {systemName}) == StripAll(gs, guid, done)[systemName := Strip(gs[systemName], guid, gs[systemName].Keys)];
        RemoveFromSystem(systemName, guid);
        done := done + {systemName};
      }
      assert done == gs.Keys;
    }

    /**
     * `get(filter)`. The filter's entries are visited in an order the model
     * leaves open, recorded in `query`. A name that is not a system makes
     * `this.groupSystems[name][value]` throw, whatever came before; otherwise
     * the result gathers the selected groups' lists per guid.
     */
    method Get(filter: map<string, string>) returns (models: Option<Group>, ghost query: Query)
      ensures Enumerates(query, filter)
      ensures models.None? <==> exists name :: name in filter && name !in groupSystems
      ensures models.Some? ==> (forall k :: 0 <= k < |query| ==> query[k].0 in groupSystems)
                               && models.value == Gathered(groupSystems, query)
    {
      var names := EnumerateKeys(filter);
      query := seq(|names|, k requires 0 <= k < |names| => (names[k], filter[names[k]]));
      forall name | name in filter
        ensures exists k :: 0 <= k < |query| && query[k].0 == name
      {
        var k :| 0 <= k < |names| && names[k] == name;
        assert query[k].0 == name;
      }
      var acc: Group := map[];
      for i := 0 to |names|
        invariant forall k :: 0 <= k < i ==> query[k].0 in groupSystems
        invariant acc == Gathered(groupSystems, query[..i])
      {
        var name := names[i];
        var value := filter[name];
        if name !in groupSystems {
          return None, query;
        }
        GatheredPrefix(groupSystems, query, i);
        acc := GatherOne(groupSystems, acc, name, value);
      }
      assert query[..|names|] == query;
      models := Some(acc);
    }
  }
}
