/**
 The vSphere operations layer: the flat counter index, which files every
 counter of the catalog under its full name `group:name:rollup`, and the
 construction of a real-time performance query for one virtual machine and
 one counter.
 */
module VsphereOperations {
  import opened CounterCatalog

  /** Real-time statistics are sampled every 20 seconds. */
  const RealTimeSamplingInterval: int := 20

  /** Instance selector that asks for the aggregate value of a counter. */
  const AggregateInstance: string := ""
  /** Instance selector that asks for every instance of a counter. */
  const AllInstances: string := "*"

  const VirtualMachineType: string := "VirtualMachine"

  /** Map from a counter's full name to its counter id. */
  type FullNameToId = map<string, int>

  // ---------------------------------------------------------------------
  // Flat counter index
  // ---------------------------------------------------------------------

  /** The index after filing the records in order, each one overwriting
      whatever an earlier record with the same full name left there. */
  function FlatIndex(infos: seq<CounterInfo>): FullNameToId
    decreases |infos|
  {
    if infos == [] then map[]
    else
      var last := infos[|infos| - 1];
      FlatIndex(infos[..|infos| - 1])[InfoFullName(last) := last.id]
  }

  /** The full names of all records of the catalog. */
  function FullNames(infos: seq<CounterInfo>): set<string>
  {
    set i | 0 <= i < |infos| :: InfoFullName(infos[i])
  }

  /** Builds the index from the decoded catalog, one record at a time. */
  method QueryPerfCounterIds(infos: seq<CounterInfo>) returns (fullNameToId: FullNameToId)
    ensures fullNameToId == FlatIndex(infos)
  {
    fullNameToId := map[];
    for i := 0 to |infos|
      invariant fullNameToId == FlatIndex(infos[..i])
    {
      var info := infos[i];
      var counterFullName := FullName(info.group, info.name, info.rollup);
      fullNameToId := fullNameToId[counterFullName := info.id];
      assert infos[..i + 1][..i] == infos[..i];
    }
    assert infos[..|infos|] == infos;
  }

  lemma FullNamesSnoc(infos: seq<CounterInfo>, x: CounterInfo)
    ensures FullNames(infos + [x]) == FullNames(infos) + {InfoFullName(x)}
  {
    var s := infos + [x];
    forall k | k in FullNames(s) ensures k in FullNames(infos) + {InfoFullName(x)} {
      var i :| 0 <= i < |s| && InfoFullName(s[i]) == k;
      if i < |infos| {
        assert s[i] == infos[i];
      }
    }
    forall k | k in FullNames(infos) ensures k in FullNames(s) {
      var i :| 0 <= i < |infos| && InfoFullName(infos[i]) == k;
      assert s[i] == infos[i];
    }
    assert InfoFullName(s[|infos|]) == InfoFullName(x);
  }

  /** No extra keys, and no record missing: the index's keys are exactly the
      full names of the records. */
  lemma {:induction false} FlatIndexKeys(infos: seq<CounterInfo>)
    ensures FlatIndex(infos).Keys == FullNames(infos)
    decreases |infos|
  {
    if infos != [] {
      var p, x := infos[..|infos| - 1], infos[|infos| - 1];
      FlatIndexKeys(p);
      assert p + [x] == infos;
      FullNamesSnoc(p, x);
    }
  }

  /** Every record of the catalog is indexed. */
  lemma {:induction false} EveryRecordIndexed(infos: seq<CounterInfo>, i: int)
    requires 0 <= i < |infos|
    ensures InfoFullName(infos[i]) in FlatIndex(infos)
  {
    FlatIndexKeys(infos);
  }

  /** Last record wins: a full name maps to the id of the last record that
      carries it. */
  lemma {:induction false} FlatLastRecordWins(infos: seq<CounterInfo>, j: int)
    requires 0 <= j < |infos|
    requires forall k :: j < k < |infos| ==> InfoFullName(infos[k]) != InfoFullName(infos[j])
    ensures InfoFullName(infos[j]) in FlatIndex(infos)
    ensures FlatIndex(infos)[InfoFullName(infos[j])] == infos[j].id
    decreases |infos|
  {
    var p := infos[..|infos| - 1];
    if j < |infos| - 1 {
      assert p[j] == infos[j];
      forall k | j < k < |p| ensures InfoFullName(p[k]) != InfoFullName(p[j]) {
        assert p[k] == infos[k];
      }
      FlatLastRecordWins(p, j);
    }
  }

  /** Every key of the index comes from a record, and its value is the id of
      the last record with that full name. */
  lemma {:induction false} FlatIndexEntries(infos: seq<CounterInfo>, key: string)
    requires key in FlatIndex(infos)
    ensures exists j :: 0 <= j < |infos| && InfoFullName(infos[j]) == key &&
                        FlatIndex(infos)[key] == infos[j].id &&
                        forall k :: j < k < |infos| ==> InfoFullName(infos[k]) != key
    decreases |infos|
  {
    var p, x := infos[..|infos| - 1], infos[|infos| - 1];
    if InfoFullName(x) != key {
      FlatIndexEntries(p, key);
      var j :| 0 <= j < |p| && InfoFullName(p[j]) == key && FlatIndex(p)[key] == p[j].id &&
               forall k :: j < k < |p| ==> InfoFullName(p[k]) != key;
      assert infos[j] == p[j];
      forall k | j < k < |infos| ensures InfoFullName(infos[k]) != key {
        if k < |p| { assert infos[k] == p[k]; }
      }
    }
  }

  /** An empty catalog gives an empty index. */
  lemma FlatIndexEmpty()
    ensures FlatIndex([]) == map[]
  {
  }

  /** When all full names are distinct, there is one entry per record. */
  lemma {:induction false} FlatIndexSize(infos: seq<CounterInfo>)
    requires forall i, j :: 0 <= i < j < |infos| ==> InfoFullName(infos[i]) != InfoFullName(infos[j])
    ensures |FlatIndex(infos)| == |infos|
    decreases |infos|
  {
    if infos != [] {
      var p, x := infos[..|infos| - 1], infos[|infos| - 1];
      forall i, j | 0 <= i < j < |p| ensures InfoFullName(p[i]) != InfoFullName(p[j]) {
        assert p[i] == infos[i] && p[j] == infos[j];
      }
      FlatIndexSize(p);
      FlatIndexKeys(p);
      forall i | 0 <= i < |p| ensures InfoFullName(p[i]) != InfoFullName(x) {
        assert p[i] == infos[i];
      }
      assert InfoFullName(x) !in FlatIndex(p);
    }
  }

  /** The two-record catalog `a/b/c -> 1`, `x/y/z -> 2` gives `a:b:c -> 1`
      and `x:y:z -> 2`. */
  lemma TwoRecordCatalog()
    ensures FlatIndex([CounterInfo("a", "b", "c", 1), CounterInfo("x", "y", "z", 2)])
            == map["a:b:c" := 1, "x:y:z" := 2]
  {
    var infos := [CounterInfo("a", "b", "c", 1), CounterInfo("x", "y", "z", 2)];
    assert infos[..1] == [CounterInfo("a", "b", "c", 1)];
    assert infos[..1][..0] == [];
    assert InfoFullName(infos[0]) == "a:b:c";
    assert InfoFullName(infos[1]) == "x:y:z";
  }

  // ---------------------------------------------------------------------
  // Real-time performance query
  // ---------------------------------------------------------------------

  /** A typed reference to a managed object of the endpoint. */
  datatype ManagedObjectReference = ManagedObjectReference(typeName: string, value: string)

  /** One counter of one entity, restricted to the instances the selector names. */
  datatype PerfMetricId = PerfMetricId(counterId: int, instance: string)

  datatype PerfQuerySpec = PerfQuerySpec(entity: ManagedObjectReference,
                                         metricId: seq<PerfMetricId>,
                                         intervalId: int)

  /** The instance selector: empty for an aggregate counter, `*` for a
      counter reported per instance. */
  function InstanceSelector(isCounterAggregate: bool): (instance: string)
    ensures instance == AggregateInstance <==> isCounterAggregate
    ensures instance == AllInstances <==> !isCounterAggregate
  {
    if isCounterAggregate then AggregateInstance else AllInstances
  }

  /** The query for the real-time statistics of one counter of one
      virtual machine. */
  function RealtimeQuerySpec(entityMoid: string, counterId: int, isCounterAggregate: bool): (spec: PerfQuerySpec)
    ensures spec.entity.typeName == "VirtualMachine" && spec.entity.value == entityMoid
    ensures |spec.metricId| == 1
    ensures spec.metricId[0].counterId == counterId
    ensures spec.metricId[0].instance == (if isCounterAggregate then "" else "*")
    ensures spec.intervalId == 20
  {
    PerfQuerySpec(ManagedObjectReference(VirtualMachineType, entityMoid),
                  [PerfMetricId(counterId, InstanceSelector(isCounterAggregate))],
                  RealTimeSamplingInterval)
  }

  /** What a real-time query of a single virtual machine asks for: the
      machine, the counter and whether the aggregate is wanted; `None` for a
      spec of any other shape. */
  function RealtimeQueryOf(spec: PerfQuerySpec): Option<(string, int, bool)>
  {
    if spec.entity.typeName == VirtualMachineType && |spec.metricId| == 1
       && spec.intervalId == RealTimeSamplingInterval
       && spec.metricId[0].instance in {AggregateInstance, AllInstances}
    then Some((spec.entity.value, spec.metricId[0].counterId,
               spec.metricId[0].instance == AggregateInstance))
    else None
  }

  /** The query carries exactly the caller's arguments, and every query of
      that shape is the one built for its arguments. */
  lemma RealtimeQueryRoundTrip(entityMoid: string, counterId: int, isCounterAggregate: bool, spec: PerfQuerySpec)
    ensures RealtimeQueryOf(RealtimeQuerySpec(entityMoid, counterId, isCounterAggregate))
            == Some((entityMoid, counterId, isCounterAggregate))
    ensures RealtimeQueryOf(spec) == Some((entityMoid, counterId, isCounterAggregate))
            ==> spec == RealtimeQuerySpec(entityMoid, counterId, isCounterAggregate)
  {
    if RealtimeQueryOf(spec) == Some((entityMoid, counterId, isCounterAggregate)) {
      assert spec.metricId == [spec.metricId[0]];
    }
  }

  /** Builds the metric id and the query spec field by field; the request
      is then handed to the remote `QueryPerf` call, which is not modelled. */
  method QueryRealtimePerfStats(entityMoid: string, counterId: int, isCounterAggregate: bool)
    returns (querySpec: PerfQuerySpec)
    ensures querySpec == RealtimeQuerySpec(entityMoid, counterId, isCounterAggregate)
  {
    var instance: string;
    if isCounterAggregate {
      instance := "";
    } else {
      instance := "*";
    }
    var metricId := PerfMetricId(counterId, instance);
    var entity := ManagedObjectReference("VirtualMachine", entityMoid);
    querySpec := PerfQuerySpec(entity, [metricId], RealTimeSamplingInterval);
  }
}
