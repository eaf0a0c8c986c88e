# Best-possible-state calculation, modelled in Dafny

This project models the controller's decision step of the cluster manager:
the stage `BestPossibleStateCalcStage`. For every partition of every resource
group it computes the target map from instance to state. It works from:

- the ideal states,
- the state-model definitions,
- the live instances,
- the current state that the instances report.

For one partition the steps are:

1. Every instance that reports the partition but is no longer in the
   preference list becomes `DROPPED`. When there is no preference list, every
   reporting instance becomes `DROPPED` and nothing else happens.
2. The states of the state model are then handled from the highest priority
   down. Each state's count specifier is resolved: `"N"` is the number of live
   instances, `"R"` is the length of the preference list, and anything else is
   parsed as a 32-bit integer. A specifier that cannot be resolved leaves the
   count at -1, and a negative count skips the state.
3. For each state that is not skipped, the preference list is scanned in
   order. Every live instance whose index is not yet assigned and that does
   not report `ERROR` takes the state, until the count is reached. An index is
   assigned at most once, guarded by the `assigned[]` flags.

The one-element preference list `[""]` stands for all live instances, in the
order of the live-instance list. The state model is found by a linear search
by id. A resource group whose ideal state was deleted takes its state-model
name from the current-state output. A `CUSTOMIZED` ideal state's declared map
is passed through unchanged.

Modules:

- `Wrappers` (wrappers.dfy): `Option` and `Result`, which stand for Java's
  null and thrown exceptions, and `Get`, which models `Map.get`.
- `StateModel` (state_model.dfy): the state-model record and the count
  specifier, decoded once into `AllLive | Replica | Exact(n) | Invalid`.
  `Integer.parseInt` is modelled with its 32-bit range check. This module also
  holds `FindStateModel`, the lookup by id.
- `Assignment` (assignment.dfy): the computation for one partition, as a
  specification, and the lemmas about it. `Pass` holds the target map built so
  far and, for each preference index, the priority index of the state that
  index took: the `assigned[]` flags, with the state remembered. `ScanFrom`
  scans for one state, `Step` handles one state, and `PassUpTo` handles the
  first `n` states.
- `CalcStage` (calc_stage.dfy): the stage's own methods.
  `ComputeBestStateForResource` keeps the real `boolean[]` as an `array<bool>`
  and is proved equal to the specification. `LookupStateModel` and
  `GetPreferenceList` are loops, as in the code. `Compute` loops over the
  resource groups and their partitions.
- `Scenarios` (scenarios.dfy): target maps worked out for small partitions.

Behaviour of the code that the model keeps, though a reader may not expect it:

- An absent state model dereferences null at line 152 and throws. It aborts the
  whole computation, not only the one resource. `Compute` returns
  `Err(NullStateModelDefinition)` exactly when some AUTO partition has a
  preference list but its state model cannot be found.
- A count of `0` does not mean "no instance". The check `count == stateCount`
  comes after the increment, so the scan never stops, and every eligible
  instance takes the state. `Assignment.Capacity` states this, and
  `Scenarios.ZeroCount` shows it.
- A negative integer specifier is accepted by the parser and skips the state,
  like an invalid one.
- A `CUSTOMIZED` partition with no declared map gets a null entry in the
  output, modelled as `None`.

## Model

All source paths are under `cluster-manager-core/src/main/java/com/linkedin/clustermanager/controller/stages/`.

| member | source | states |
|---|---|---|
| StateModel.ParseFormat | cluster-manager-core/src/main/java/com/linkedin/clustermanager/controller/stages/BestPossibleStateCalcStage.java:169-176 | Parsing the decimal form of `n` gives `n` back when `n` fits in 32 bits. Otherwise it fails, and the count stays -1. |
| StateModel.Decode | cluster-manager-core/src/main/java/com/linkedin/clustermanager/controller/stages/BestPossibleStateCalcStage.java:157-177 | A specifier decodes to AllLive iff it is `"N"`, to Replica iff it is `"R"`, and to `Exact(n)` iff it parses as the int `n`. |
| StateModel.FindStateModel | cluster-manager-core/src/main/java/com/linkedin/clustermanager/controller/stages/BestPossibleStateCalcStage.java:222-233 | None iff no definition has the id. Otherwise the result is the first definition with that id. |
| Assignment.CountResolution | cluster-manager-core/src/main/java/com/linkedin/clustermanager/controller/stages/BestPossibleStateCalcStage.java:157-178 | `"N"` resolves to the number of live instances and `"R"` to the preference-list length. The decimal form of an int resolves to that int. A missing specifier, one with no digit, or one beyond 32 bits resolves to -1. |
| Assignment.AssignedToState | cluster-manager-core/src/main/java/com/linkedin/clustermanager/controller/stages/BestPossibleStateCalcStage.java:153-196 | Index `i` ends with state `j` iff all of these hold: `j`'s count is at least 0; `i` is eligible and untaken after the higher-priority states; and fewer than `count` open indices precede `i`. With a count of 0 there is no limit. |
| Assignment.PriorityOrder | cluster-manager-core/src/main/java/com/linkedin/clustermanager/controller/stages/BestPossibleStateCalcStage.java:155-196 | If index `i` takes state `j`, then every eligible earlier index took `j` or a higher-priority state. |
| Assignment.SlotHistory | cluster-manager-core/src/main/java/com/linkedin/clustermanager/controller/stages/BestPossibleStateCalcStage.java:187-191 | An assigned index keeps its state through all later states. An index assigned between the first `n` and the first `m` states took one of states `n..m-1`. |
| Assignment.Capacity | cluster-manager-core/src/main/java/com/linkedin/clustermanager/controller/stages/BestPossibleStateCalcStage.java:178-196 | A state with a negative count takes no index. With count `c >= 1` it takes `min(open, c) <= c` indices. With count 0 it takes every open index. |
| Assignment.TargetEntries | cluster-manager-core/src/main/java/com/linkedin/clustermanager/controller/stages/BestPossibleStateCalcStage.java:137-196 | A non-preferred instance has an entry iff it reports the partition, and that entry is DROPPED. A preferred instance has an entry only if it is live, not in ERROR, and one of its indices took a state; the entry is that state. Every assigned index gives its instance an entry. |
| Assignment.DropRule | cluster-manager-core/src/main/java/com/linkedin/clustermanager/controller/stages/BestPossibleStateCalcStage.java:137-150 | Every reporting instance outside the preference list is DROPPED. Without a list, the result is exactly the DROPPED reporters, or empty without a current-state map. The computation faults iff there is a list but no state model. |
| Assignment.Quarantine | cluster-manager-core/src/main/java/com/linkedin/clustermanager/controller/stages/BestPossibleStateCalcStage.java:185-189 | An instance that reports ERROR or is not live gets no state from the scan. If it has an entry, it is not preferred and the entry is DROPPED. |
| CalcStage.LookupStateModel | cluster-manager-core/src/main/java/com/linkedin/clustermanager/controller/stages/BestPossibleStateCalcStage.java:222-233 | The loop returns the first definition whose id equals the reference, or None if there is none. |
| CalcStage.GetPreferenceList | cluster-manager-core/src/main/java/com/linkedin/clustermanager/controller/stages/BestPossibleStateCalcStage.java:203-220 | A declared list `[""]` becomes exactly the live ids, in order. Any other list, or none, is returned as is. |
| CalcStage.DroppedInstances | cluster-manager-core/src/main/java/com/linkedin/clustermanager/controller/stages/BestPossibleStateCalcStage.java:137-146 | The map has an entry exactly for each reporting instance outside the preference list (every reporter when there is no list), and each entry is DROPPED. |
| CalcStage.AssignState | cluster-manager-core/src/main/java/com/linkedin/clustermanager/controller/stages/BestPossibleStateCalcStage.java:180-197 | The scan of one state over the `assigned` array gives the specification's `Step`: the new target map and the new flags. |
| CalcStage.ComputeBestStateForResource | cluster-manager-core/src/main/java/com/linkedin/clustermanager/controller/stages/BestPossibleStateCalcStage.java:127-201 | The method's result equals `BestPossibleState`. It faults iff there is a preference list and no state model. |
| CalcStage.PartitionTargetCases | cluster-manager-core/src/main/java/com/linkedin/clustermanager/controller/stages/BestPossibleStateCalcStage.java:82-121 | A CUSTOMIZED ideal state's declared map is passed through unchanged. A group whose ideal state is gone drops every reporting instance. Only an AUTO partition with a list and no state model faults. |
| CalcStage.Compute | cluster-manager-core/src/main/java/com/linkedin/clustermanager/controller/stages/BestPossibleStateCalcStage.java:58-125 | The result faults iff some scheduled partition faults. Otherwise it has exactly one entry per (group, partition key), and that entry is the partition's target. |
| Scenarios.AllLive | cluster-manager-core/src/main/java/com/linkedin/clustermanager/controller/stages/BestPossibleStateCalcStage.java:155-196 | With A, B, C live and preferred and MASTER(1), SLAVE(R): A is MASTER, B and C are SLAVE. |
| Scenarios.NotLive | cluster-manager-core/src/main/java/com/linkedin/clustermanager/controller/stages/BestPossibleStateCalcStage.java:181-196 | With A, B, C preferred, B not live, and MASTER(1), SLAVE(R): A is MASTER, C is SLAVE, and B has no entry. |
| Scenarios.Deleted | cluster-manager-core/src/main/java/com/linkedin/clustermanager/controller/stages/BestPossibleStateCalcStage.java:79-150 | A group missing from the ideal states takes its state model, MasterSlave, from the current-state output. Its partition has no preference list, so the reporters A and B are both DROPPED. |
| Scenarios.ErrorQuarantined | cluster-manager-core/src/main/java/com/linkedin/clustermanager/controller/stages/BestPossibleStateCalcStage.java:185-196 | A reports ERROR, so A has no entry, B is MASTER and C is SLAVE. |
| Scenarios.MalformedCount | cluster-manager-core/src/main/java/com/linkedin/clustermanager/controller/stages/BestPossibleStateCalcStage.java:167-178 | SLAVE's specifier `"x"` is skipped, so only A is assigned, as MASTER. |
| Scenarios.ZeroCount | cluster-manager-core/src/main/java/com/linkedin/clustermanager/controller/stages/BestPossibleStateCalcStage.java:180-196 | With a count of 0 the scan never stops: A, B and C all take the state. |

## Left out

- `process` (lines 35-56) is left out. It reads the event's attributes and fetches live instances, ideal states and state-model definitions through the data accessor, which is I/O. `Compute` takes those values as parameters, and the missing-attribute exception is not modelled.
- Logging calls are left out.
- `ZNRecordUtil.convertListToMap` is not part of this model. The live instances are given as their ids, and the live-instance map is the set of those ids, so `"N"` counts distinct ids. The ideal states are given as a map from resource-group name.
- `IdealState`, `StateModelDefinition`, `CurrentStateOutput`, `BestPossibleStateOutput`, `ResourceGroup` and `ResourceKey` are not part of this model. They are plain values here: maps from partition key to preference list and to instance-state map, an optional state-model name, and a mode.
    - An ideal state over an empty record is assumed to be in AUTO mode, with no preference lists and no state-model name.
    - The state-model argument of `getPreferenceList` is ignored.
    - The output is a flat map keyed by (group, partition key).
- `Integer.parseInt` also accepts non-ASCII Unicode decimal digits. The model accepts only `'0'..'9'`.
- Null values inside the inputs are not modelled: null instance names, null record ids, and null entries in the lists.
- Iteration order of `HashMap` key sets is not modelled. `Compute` and the DROPPED loop pick keys in an arbitrary order. The result does not depend on that order.
- Assignment.Capacity: counts preference-list positions, not map entries, because a preference list that names an instance twice can give it two positions. The target map then keeps the state of the last write.
- The other files of the repository (the gateway service, the task-assignment stage and the resource-monitor test) are not part of this model. They hold connection, message-dispatch and metrics code, not computation.
