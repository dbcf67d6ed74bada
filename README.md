# vSphere performance-counter catalog and real-time query model

This project models the part of the ceilometer VMware inspector that turns the
vCenter performance-counter catalog into lookup tables, and the part that builds
a real-time performance query for one virtual machine.

- A vCenter identifies a performance counter by three parts: its group, its
  name and its rollup type. Each counter also has an integer id that changes
  from one vCenter to another. The catalog arrives as a list of counter-info
  records. Here it is a `seq<CounterInfo>` (module `CounterCatalog`).
- `VsphereOperations.QueryPerfCounterIds` folds the catalog into the flat index
  `group:name:rollup -> id`. Each record overwrites an earlier one with the
  same full name.
- `VcPerfStatsUtil.QueryPerfCounterIds` folds the same catalog into the nested
  table `group -> name -> rollup -> id`. It creates an inner table only when
  that table is missing.
- `VsphereOperations.QueryRealtimePerfStats` builds the `PerfQuerySpec`:
  - the entity is a `VirtualMachine` reference;
  - the metric list holds exactly one metric id;
  - the instance selector is `""` for an aggregate counter and `"*"` for a
    per-instance counter;
  - the interval is the 20-second real-time interval.

Both loops are methods with `for` loops. Each is proved equal to a
specification function (`FlatIndex`, `NestedIndex`) that files the records in
input order. The properties are proved as lemmas about those functions:
- exact key sets;
- last record wins;
- an empty catalog gives an empty table;
- one entry per record when full names are distinct;
- the flat and nested indexes agree.

The full-name format `group:name:rollup` is modelled together with a
Python-style split on `:`. Splitting a full name gives back the three parts
when none of them contains `:`. Otherwise two different counters can share a
full name (`FullNameCollision`).

Files:
- `counter_catalog.dfy`: the record, the full name, split and join.
- `vsphere_operations.dfy`: the flat index and the query spec.
- `vc_perf_stats_util.dfy`: the nested index and its agreement with the flat
  index.

## Model

| member | source | states |
|---|---|---|
| `CounterCatalog.Split` | ceilometer/compute/virt/vmware/vsphere_operations.py:22-29 | Splitting on `:` yields at least one part. No part contains `:`. Joining the parts with `:` gives back the input. |
| `CounterCatalog.FullNameRoundTrip` | ceilometer/compute/virt/vmware/vsphere_operations.py:68-69 | If group, name and rollup contain no `:`, splitting `group:name:rollup` on `:` gives exactly `[group, name, rollup]`. |
| `CounterCatalog.FullNameInjective` | ceilometer/compute/virt/vmware/vsphere_operations.py:22-29 | For records whose parts contain no `:`, two full names are equal exactly when the (group, name, rollup) triples are equal. |
| `CounterCatalog.FullNameCollision` | ceilometer/compute/virt/vmware/vsphere_operations.py:68-69 | Without that condition, two different triples (`a:b`,`c`,`d`) and (`a`,`b:c`,`d`) give the same full name `a:b:c:d`. |
| `VsphereOperations.QueryPerfCounterIds` | ceilometer/compute/virt/vmware/vsphere_operations.py:60-72 | The loop returns exactly `FlatIndex(infos)`: each record, in input order, stored under its full name with its counter id. |
| `VsphereOperations.FlatIndexKeys` | ceilometer/compute/virt/vmware/vsphere_operations.py:60-72 | The index's keys are exactly the full names of the input records: none missing, none extra. |
| `VsphereOperations.EveryRecordIndexed` | ceilometer/compute/virt/vmware/vsphere_operations.py:63-70 | For every input record, its full name `g:n:r` is a key of the index. |
| `VsphereOperations.FlatLastRecordWins` | ceilometer/compute/virt/vmware/vsphere_operations.py:61-70 | If no later record has the same full name as record `j`, the index maps that full name to record `j`'s id. |
| `VsphereOperations.FlatIndexEntries` | ceilometer/compute/virt/vmware/vsphere_operations.py:60-72 | Every key of the index comes from some record. Its value is the id of the last record with that full name. |
| `VsphereOperations.FlatIndexEmpty` | ceilometer/compute/virt/vmware/vsphere_operations.py:60-72 | An empty catalog gives an empty index. |
| `VsphereOperations.FlatIndexSize` | ceilometer/compute/virt/vmware/vsphere_operations.py:60-72 | When all full names are pairwise distinct, the index has exactly as many entries as there are records. |
| `VsphereOperations.TwoRecordCatalog` | ceilometer/tests/compute/virt/vmware/test_vsphere_operations.py:75-89 | Records (`a`,`b`,`c`,1) and (`x`,`y`,`z`,2) give exactly `{a:b:c -> 1, x:y:z -> 2}`. |
| `VsphereOperations.InstanceSelector` | ceilometer/compute/virt/vmware/vsphere_operations.py:93-96 | The selector is `""` if and only if the counter is aggregate. It is `*` if and only if the counter is not aggregate. |
| `VsphereOperations.RealtimeQuerySpec` | ceilometer/compute/virt/vmware/vsphere_operations.py:91-101 | The spec's entity is (`VirtualMachine`, moid). It has exactly one metric id, which carries the counter id and the selector rule. Its interval id is 20. |
| `VsphereOperations.RealtimeQueryRoundTrip` | ceilometer/compute/virt/vmware/vsphere_operations.py:91-101 | From the built spec, the machine, the counter and the aggregate flag can be read back. Any spec that reads back to those arguments is the built one. |
| `VsphereOperations.QueryRealtimePerfStats` | ceilometer/compute/virt/vmware/vsphere_operations.py:88-101 | Filling the metric id and the query spec field by field, with the if/else on the selector, gives `RealtimeQuerySpec` of the arguments. |
| `VcPerfStatsUtil.Insert` | ceilometer/compute/virt/vmware/vc_perf_stats_util.py:44-52 | After filing one record, its triple maps to its id. Every other triple keeps its old lookup. Each level gains at most this record's key. Other groups' and other names' inner tables are unchanged. |
| `VcPerfStatsUtil.QueryPerfCounterIds` | ceilometer/compute/virt/vmware/vc_perf_stats_util.py:36-54 | The loop returns exactly `NestedIndex(infos)`: each record, in input order, filed by `Insert`. |
| `VcPerfStatsUtil.NestedIndexExactKeys` | ceilometer/compute/virt/vmware/vc_perf_stats_util.py:44-52 | Group keys are exactly the groups in the input. The name keys under `g` are exactly the names that occur with `g`. The rollup keys under (`g`,`n`) are exactly the rollups that occur with (`g`,`n`). |
| `VcPerfStatsUtil.EveryRecordPresent` | ceilometer/compute/virt/vmware/vc_perf_stats_util.py:37-52 | For every input record, `table[g][n][r]` is defined. |
| `VcPerfStatsUtil.NestedLastRecordWins` | ceilometer/compute/virt/vmware/vc_perf_stats_util.py:52 | If no later record has the same triple as record `j`, then `table[g][n][r]` is record `j`'s id. |
| `VcPerfStatsUtil.NestedIndexEmpty` | ceilometer/compute/virt/vmware/vc_perf_stats_util.py:36-54 | An empty catalog gives `{}`. |
| `VcPerfStatsUtil.AgreesWithFlatIndex` | ceilometer/compute/virt/vmware/vc_perf_stats_util.py:36-54 | When no part of any record contains `:`, for every input record, `nested[g][n][r] == flat["g:n:r"]`. |

## Left out

- Remote calls: `RetrievePropertiesEx`, `invoke_api(... 'QueryPerf' ...)`, `service_content`, `client_factory.create` and the `vim_util.build_*_spec` helpers. Their code is not part of this model. The decoded catalog `result.objects[0].propSet[0].val.PerfCounterInfo` is taken as an input sequence instead.
  - A response with no objects, which would raise an index error in Python, is not modelled.
- `VsphereOperations.QueryRealtimePerfStats`: returns the query spec it builds. It does not issue the `QueryPerf` call, nor return that call's result.
- `get_moref` is taken to be the plain record `ManagedObjectReference(typeName, value)`.
- Request-payload details beyond the query spec are not modelled: the `PERF_MANAGER_TYPE` and `PERF_COUNTER_PROPERTY` constants and `maxObjects = 1`. `PERF_MANAGER_TYPE` is spelled `PerformanceManager` in one file and `performanceManager` in the other. That difference matters only to the remote endpoint.
- `VcPerfStatsUtil.QueryPerfCounterIds`: the Python inner dictionaries are updated in place through aliases (`name_map`, `rollup_type_to_id_map`). The model treats them as map values and writes them back explicitly. The final table is the same, but the aliasing itself is not modelled.
- `query_perf_stats` in `vc_perf_stats_util.py` has only comments in its body, so it has no behaviour to model.
- `get_perf_counter_id`, `get_vm_moid`, `query_vm_property` and `query_vm_current_stat_value` are not in the modelled files and are left out. So are the counter-id and VM-id caches, pagination, and the last-sample and sum extraction that they would implement.
- `TestVcConnection.py` is a manual network script with no logic of its own.
- Counter ids are unbounded integers. The source takes them from the endpoint unchanged and does no arithmetic on them.
- The split on `:` does not appear in the source. It formalises the `Group Name:Counter Name:Rollup Type` format that the docstring defines, with Python `str.split` semantics.
