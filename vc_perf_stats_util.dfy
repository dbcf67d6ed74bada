/**
 The nested counter index: the same catalog filed as a three-level table
 group -> counter name -> rollup type -> counter id, and how it agrees with
 the flat index keyed by full name.
 */
module VcPerfStatsUtil {
  import opened CounterCatalog
  import VsphereOperations

  type RollupToId = map<string, int>
  type NameToRollups = map<string, RollupToId>
  /** group -> counter name -> rollup type -> counter id */
  type CounterIdTable = map<string, NameToRollups>

  /** The id filed under a (group, name, rollup) triple, if any. */
  function Lookup(t: CounterIdTable, group: string, name: string, rollup: string): Option<int>
  {
    if group in t && name in t[group] && rollup in t[group][name]
    then Some(t[group][name][rollup])
    else None
  }

  /** Files one record: the inner tables for its group and its name are
      created only when missing, and the id is stored under its rollup. */
  function Insert(t: CounterIdTable, info: CounterInfo): (r: CounterIdTable)
    ensures Lookup(r, info.group, info.name, info.rollup) == Some(info.id)
    ensures forall g, n, u :: (g, n, u) != Triple(info) ==> Lookup(r, g, n, u) == Lookup(t, g, n, u)
    ensures r.Keys == t.Keys + {info.group}
    ensures forall g :: g in t && g != info.group ==> g in r && r[g] == t[g]
    ensures r[info.group].Keys == (if info.group in t then t[info.group].Keys else {}) + {info.name}
    ensures forall n :: info.group in t && n in t[info.group] && n != info.name ==>
              r[info.group][n] == t[info.group][n]
    ensures r[info.group][info.name].Keys ==
              (if info.group in t && info.name in t[info.group]
               then t[info.group][info.name].Keys else {}) + {info.rollup}
  {
    var names := if info.group in t then t[info.group] else map[];
    var rollups := if info.name in names then names[info.name] else map[];
    t[info.group := names[info.name := rollups[info.rollup := info.id]]]
  }

  /** The table after filing the records in order. */
  function NestedIndex(infos: seq<CounterInfo>): CounterIdTable
    decreases |infos|
  {
    if infos == [] then map[]
    else Insert(NestedIndex(infos[..|infos| - 1]), infos[|infos| - 1])
  }

  /** Builds the nested table from the decoded catalog, one record at a
      time, creating the inner tables when they are absent. */
  method QueryPerfCounterIds(infos: seq<CounterInfo>) returns (perfCounterIdMap: CounterIdTable)
    ensures perfCounterIdMap == NestedIndex(infos)
  {
    perfCounterIdMap := map[];
    for i := 0 to |infos|
      invariant perfCounterIdMap == NestedIndex(infos[..i])
    {
      var info := infos[i];
      ghost var before := perfCounterIdMap;
      if info.group !in perfCounterIdMap {
        perfCounterIdMap := perfCounterIdMap[info.group := map[]];
      }
      var nameMap := perfCounterIdMap[info.group];
      if info.name !in nameMap {
        nameMap := nameMap[info.name := map[]];
      }
      var rollupTypeToIdMap := nameMap[info.name];
      rollupTypeToIdMap := rollupTypeToIdMap[info.rollup := info.id];
      // The inner tables are shared with the outer ones; write them back.
      nameMap := nameMap[info.name := rollupTypeToIdMap];
      perfCounterIdMap := perfCounterIdMap[info.group := nameMap];
      assert nameMap == (if info.group in before then before[info.group] else map[])[info.name := rollupTypeToIdMap];
      assert perfCounterIdMap == Insert(before, info);
      assert infos[..i + 1][..i] == infos[..i];
    }
    assert infos[..|infos|] == infos;
  }

  // ---------------------------------------------------------------------
  // Key sets
  // ---------------------------------------------------------------------

  function Groups(infos: seq<CounterInfo>): set<string>
  {
    set i | 0 <= i < |infos| :: infos[i].group
  }

  function NamesIn(infos: seq<CounterInfo>, group: string): set<string>
  {
    set i | 0 <= i < |infos| && infos[i].group == group :: infos[i].name
  }

  function RollupsIn(infos: seq<CounterInfo>, group: string, name: string): set<string>
  {
    set i | 0 <= i < |infos| && infos[i].group == group && infos[i].name == name :: infos[i].rollup
  }

  /** The keys of every level are exactly what occurs in the catalog. */
  ghost predicate ExactKeys(t: CounterIdTable, infos: seq<CounterInfo>)
  {
    && t.Keys == Groups(infos)
    && (forall g :: g in t ==> t[g].Keys == NamesIn(infos, g))
    && (forall g, n :: g in t && n in t[g] ==> t[g][n].Keys == RollupsIn(infos, g, n))
  }

  lemma KeySetsSnoc(infos: seq<CounterInfo>, x: CounterInfo)
    ensures Groups(infos + [x]) == Groups(infos) + {x.group}
    ensures forall g :: NamesIn(infos + [x], g) ==
              NamesIn(infos, g) + (if g == x.group then {x.name} else {})
    ensures forall g, n :: RollupsIn(infos + [x], g, n) ==
              RollupsIn(infos, g, n) + (if g == x.group && n == x.name then {x.rollup} else {})
  {
    var s := infos + [x];
    assert s[|infos|] == x;
    assert forall i :: 0 <= i < |infos| ==> s[i] == infos[i];
    assert Groups(s) == Groups(infos) + {x.group};
    forall g ensures NamesIn(s, g) == NamesIn(infos, g) + (if g == x.group then {x.name} else {}) {
    }
    forall g, n ensures RollupsIn(s, g, n) ==
        RollupsIn(infos, g, n) + (if g == x.group && n == x.name then {x.rollup} else {}) {
    }
  }

  /** Group keys, name keys under a group and rollup keys under a (group,
      name) pair are exactly the ones that occur together in the catalog. */
  lemma {:induction false} NestedIndexExactKeys(infos: seq<CounterInfo>)
    ensures ExactKeys(NestedIndex(infos), infos)
    decreases |infos|
  {
    if infos != [] {
      var p, x := infos[..|infos| - 1], infos[|infos| - 1];
      assert p + [x] == infos;
      NestedIndexExactKeys(p);
      KeySetsSnoc(p, x);
    }
  }

  /** Every record is present: its (group, name, rollup) path is defined. */
  lemma {:induction false} EveryRecordPresent(infos: seq<CounterInfo>, i: int)
    requires 0 <= i < |infos|
    ensures Lookup(NestedIndex(infos), infos[i].group, infos[i].name, infos[i].rollup).Some?
  {
    NestedIndexExactKeys(infos);
    var t, x := NestedIndex(infos), infos[i];
    assert x.group in Groups(infos);
    assert x.name in NamesIn(infos, x.group);
    assert x.rollup in RollupsIn(infos, x.group, x.name);
  }

  /** Last record wins: a triple maps to the id of the last record with
      that triple. */
  lemma {:induction false} NestedLastRecordWins(infos: seq<CounterInfo>, j: int)
    requires 0 <= j < |infos|
    requires forall k :: j < k < |infos| ==> Triple(infos[k]) != Triple(infos[j])
    ensures Lookup(NestedIndex(infos), infos[j].group, infos[j].name, infos[j].rollup) == Some(infos[j].id)
    decreases |infos|
  {
    var p := infos[..|infos| - 1];
    if j < |infos| - 1 {
      assert p[j] == infos[j];
      forall k | j < k < |p| ensures Triple(p[k]) != Triple(p[j]) {
        assert p[k] == infos[k];
      }
      NestedLastRecordWins(p, j);
    }
  }

  /** An empty catalog gives an empty table. */
  lemma NestedIndexEmpty()
    ensures NestedIndex([]) == map[]
  {
  }

  // ---------------------------------------------------------------------
  // Agreement with the flat index
  // ---------------------------------------------------------------------

  /** When no group, name or rollup contains `:`, the nested table and the
      flat index agree on every counter of the catalog. */
  lemma {:induction false} AgreesWithFlatIndex(infos: seq<CounterInfo>, i: int)
    requires forall k :: 0 <= k < |infos| ==> WellFormedInfo(infos[k])
    requires 0 <= i < |infos|
    ensures InfoFullName(infos[i]) in VsphereOperations.FlatIndex(infos)
    ensures Lookup(NestedIndex(infos), infos[i].group, infos[i].name, infos[i].rollup)
            == Some(VsphereOperations.FlatIndex(infos)[InfoFullName(infos[i])])
    decreases |infos|
  {
    var p, x, y := infos[..|infos| - 1], infos[|infos| - 1], infos[i];
    if Triple(y) != Triple(x) {
      FullNameInjective(x, y);
      assert i < |p| && p[i] == y;
      forall k | 0 <= k < |p| ensures WellFormedInfo(p[k]) {
        assert p[k] == infos[k];
      }
      AgreesWithFlatIndex(p, i);
    }
  }
}
