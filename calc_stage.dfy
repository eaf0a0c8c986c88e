/**
 * The best-possible-state calculation stage of the controller: for every
 * partition of every resource group, the target map from instance to state,
 * computed from the ideal states, the state-model definitions, the live
 * instances and the current-state output.
 */
module CalcStage {
  import opened Wrappers
  import opened StateModel
  import opened Assignment

  datatype IdealStateMode = Auto | Customized

  /**
   * An ideal state: the state model it refers to (possibly unset), its mode,
   * the declared preference list per partition and, for CUSTOMIZED mode, the
   * declared instance-state map per partition.
   */
  datatype IdealState = IdealState(
    stateModelDefRef: Option<string>,
    mode: IdealStateMode,
    preferenceLists: map<string, seq<string>>,
    instanceStateMaps: map<string, StateMap>)

  /** The ideal state built over an empty record, standing in for a deleted one. */
  const EmptyIdealState: IdealState := IdealState(None, Auto, map[], map[])

  /** A resource group: the keys of its partitions, in order. */
  datatype ResourceGroup = ResourceGroup(partitions: seq<string>)

  datatype PartitionId = PartitionId(group: string, partition: string)

  /**
   * The current-state output of the earlier stage: the reported instance-state
   * map of each partition that has one, and the state-model name recorded for
   * each resource group.
   */
  datatype CurrentStateOutput = CurrentStateOutput(
    stateMaps: map<PartitionId, StateMap>,
    groupStateModelDefs: map<string, string>)

  /** The stage's output: the target map of each partition (None for a CUSTOMIZED partition with no declared map). */
  type Output = map<PartitionId, Option<StateMap>>

  // ---------------------------------------------------------------------------
  // Specification of the orchestration

  /** The preference list: the live instance ids in place of the one-element list [""], otherwise the declared one. */
  function ResolvePreferenceList(declared: Option<seq<string>>, liveIds: seq<string>): Option<seq<string>>
  {
    if declared == Some([""]) then Some(liveIds) else declared
  }

  /** The state-model name of a group: its ideal state's, or, when the ideal state is gone, the current state's. */
  function StateModelName(group: string, idealStates: map<string, IdealState>,
                          cso: CurrentStateOutput): Option<string>
  {
    if group in idealStates then idealStates[group].stateModelDefRef
    else Get(cso.groupStateModelDefs, group)
  }

  function IdealStateOf(group: string, idealStates: map<string, IdealState>): IdealState
  {
    if group in idealStates then idealStates[group] else EmptyIdealState
  }

  /** The ids of the live instances, as the keys of the live-instance map. */
  function LiveSet(liveIds: seq<string>): set<string>
  {
    set x | x in liveIds
  }

  /** The partition is one of the partitions of a resource group. */
  predicate Scheduled(groups: map<string, ResourceGroup>, id: PartitionId)
  {
    id.group in groups && id.partition in groups[id.group].partitions
  }

  /** The state-model definition of a group, looked up by its state-model name. */
  function ModelOf(group: string, idealStates: map<string, IdealState>, defs: seq<StateModelDef>,
                   cso: CurrentStateOutput): Option<StateModelDef>
  {
    var name := StateModelName(group, idealStates, cso);
    if name.Some? then FindStateModel(name.value, defs) else None
  }

  /** The target map of one partition of a group with the given ideal state and state model. */
  function TargetFor(ideal: IdealState, def: Option<StateModelDef>, partition: string,
                     liveIds: seq<string>, current: Option<StateMap>): Result<Option<StateMap>, Fault>
  {
    if ideal.mode == Customized then Ok(Get(ideal.instanceStateMaps, partition))
    else
      var pref := ResolvePreferenceList(Get(ideal.preferenceLists, partition), liveIds);
      match BestPossibleState(def, pref, LiveSet(liveIds), current)
      case Ok(m) => Ok(Some(m))
      case Err(e) => Err(e)
  }

  /** The target map the stage computes for one partition. */
  function PartitionTarget(idealStates: map<string, IdealState>, defs: seq<StateModelDef>,
                           liveIds: seq<string>, cso: CurrentStateOutput,
                           id: PartitionId): Result<Option<StateMap>, Fault>
  {
    TargetFor(IdealStateOf(id.group, idealStates), ModelOf(id.group, idealStates, defs, cso),
              id.partition, liveIds, Get(cso.stateMaps, id))
  }

  /**
   * The cases of a partition's target: a CUSTOMIZED ideal state's declared map
   * is passed through unchanged; a partition whose ideal state is gone drops
   * every instance that reports it, whatever its state model; and only an
   * AUTO partition with a preference list and no state model faults.
   */
  lemma PartitionTargetCases(idealStates: map<string, IdealState>, defs: seq<StateModelDef>,
                             liveIds: seq<string>, cso: CurrentStateOutput, id: PartitionId)
    ensures var r := PartitionTarget(idealStates, defs, liveIds, cso, id);
            var ideal := IdealStateOf(id.group, idealStates);
            var name := StateModelName(id.group, idealStates, cso);
            && (id.group in idealStates && idealStates[id.group].mode == Customized ==>
                  r == Ok(Get(idealStates[id.group].instanceStateMaps, id.partition)))
            && (id.group !in idealStates ==> r == Ok(Some(Dropped(None, Get(cso.stateMaps, id)))))
            && (r.Err? <==> ideal.mode == Auto
                            && ResolvePreferenceList(Get(ideal.preferenceLists, id.partition), liveIds).Some?
                            && (name.None? || FindStateModel(name.value, defs).None?))
  {
  }

  // ---------------------------------------------------------------------------
  // The stage

  /** `lookupStateModel`: the first definition whose id is `ref`, or None. */
  method LookupStateModel(ref: string, defs: seq<StateModelDef>) returns (r: Option<StateModelDef>)
    ensures r.None? <==> forall i :: 0 <= i < |defs| ==> defs[i].id != ref
    ensures r.Some? ==> exists i :: FirstWithId(defs, ref, i) && r.value == defs[i]
    ensures r == FindStateModel(ref, defs)
  {
    for i := 0 to |defs|
      invariant forall k :: 0 <= k < i ==> defs[k].id != ref
    {
      if defs[i].id == ref {
        assert FirstWithId(defs, ref, i);
        return Some(defs[i]);
      }
    }
    return None;
  }

  /**
   * `getPreferenceList`: a declared list equal to [""] becomes the ids of the
   * live instances, in their order; any other list, or none, is returned as is.
   */
  method GetPreferenceList(ideal: IdealState, partition: string, liveIds: seq<string>)
    returns (list: Option<seq<string>>)
    ensures Get(ideal.preferenceLists, partition) == Some([""]) ==> list == Some(liveIds)
    ensures Get(ideal.preferenceLists, partition) != Some([""]) ==>
              list == Get(ideal.preferenceLists, partition)
  {
    var listField := Get(ideal.preferenceLists, partition);
    if listField.Some? && |listField.value| == 1 && listField.value[0] == "" {
      assert listField.value == [""];
      var ids: seq<string> := [];
      for i := 0 to |liveIds|
        invariant ids == liveIds[..i]
      {
        ids := ids + [liveIds[i]];
      }
      assert ids == liveIds;
      return Some(ids);
    }
    return listField;
  }

  /**
   * The first part of `computeBestStateForResource`: DROPPED for every instance
   * of the current-state map that is not in the preference list, or for every
   * one of them when there is no list.
   */
  method DroppedInstances(instancePreferenceList: Option<seq<string>>, currentStateMap: Option<StateMap>)
    returns (instanceStateMap: StateMap)
    ensures forall k :: k in instanceStateMap <==>
              currentStateMap.Some? && k in currentStateMap.value
              && (instancePreferenceList.None? || k !in instancePreferenceList.value)
    ensures forall k :: k in instanceStateMap ==> instanceStateMap[k] == DROPPED
    ensures instanceStateMap == Dropped(instancePreferenceList, currentStateMap)
  {
    instanceStateMap := map[];
    if currentStateMap.Some? {
      var pending := currentStateMap.value.Keys;
      while pending != {}
        invariant pending <= currentStateMap.value.Keys
        invariant forall k :: k in instanceStateMap <==>
                    k in currentStateMap.value && k !in pending
                    && (instancePreferenceList.None? || k !in instancePreferenceList.value)
        invariant forall k :: k in instanceStateMap ==> instanceStateMap[k] == DROPPED
        decreases |pending|
      {
        var instance :| instance in pending;
        if instancePreferenceList.None? || instance !in instancePreferenceList.value {
          instanceStateMap := instanceStateMap[instance := DROPPED];
        }
        pending := pending - {instance};
      }
    }
  }

  /**
   * The scan of one state in `computeBestStateForResource`: in preference
   * order, every live, unassigned instance not in ERROR takes `state` and is
   * marked assigned, until `stateCount` instances took it.
   */
  method AssignState(ghost ctx: Ctx, ghost j: nat, ghost p0: Pass,
                     list: seq<string>, live: set<string>, currentStateMap: Option<StateMap>,
                     state: string, stateCount: int, isAssigned: array<bool>, instanceStateMap: StateMap)
    returns (result: StateMap, ghost p: Pass)
    requires ctx.pref == list && ctx.live == live && ctx.current == currentStateMap
    requires j < |States(ctx)| && States(ctx)[j] == state && stateCount == StateCount(ctx, j) >= 0
    requires |p0.slots| == |list| == isAssigned.Length && instanceStateMap == p0.target
    requires forall k :: 0 <= k < |list| ==> isAssigned[k] == p0.slots[k].Some?
    modifies isAssigned
    ensures p == Step(ctx, p0, j) && result == p.target
    ensures forall k :: 0 <= k < |list| ==> isAssigned[k] == p.slots[k].Some?
  {
    result := instanceStateMap;
    p := p0;
    var count := 0;
    var i := 0;
    while i < |list|
      invariant i <= |list| && |p.slots| == |list|
      invariant ScanFrom(ctx, p, j, stateCount, i, count) == Step(ctx, p0, j)
      invariant result == p.target
      invariant forall k :: 0 <= k < |list| ==> isAssigned[k] == p.slots[k].Some?
    {
      var instanceName := list[i];
      var notInErrorState := currentStateMap.None?
        || !(instanceName in currentStateMap.value && currentStateMap.value[instanceName] == ERROR);
      assert (instanceName in live && !isAssigned[i] && notInErrorState) == Open(ctx, p.slots, i);
      if instanceName in live && !isAssigned[i] && notInErrorState {
        ghost var before := p;
        result := result[instanceName := state];
        count := count + 1;
        isAssigned[i] := true;
        p := Assign(ctx, p, j, i);
        if count == stateCount {
          assert p == ScanFrom(ctx, before, j, stateCount, i, count - 1);
          break;
        }
        assert ScanFrom(ctx, p, j, stateCount, i + 1, count)
            == ScanFrom(ctx, before, j, stateCount, i, count - 1);
      }
      i := i + 1;
    }
  }

  /**
   * `computeBestStateForResource`: the DROPPED entries first, then, state by
   * state in priority order, a scan of the preference list that gives the
   * state to live, unassigned, non-ERROR instances until its count is reached.
   */
  method ComputeBestStateForResource(stateModelDef: Option<StateModelDef>,
                                     instancePreferenceList: Option<seq<string>>,
                                     live: set<string>, currentStateMap: Option<StateMap>)
    returns (r: Result<StateMap, Fault>)
    ensures r.Err? <==> instancePreferenceList.Some? && stateModelDef.None?
    ensures r == BestPossibleState(stateModelDef, instancePreferenceList, live, currentStateMap)
  {
    var instanceStateMap := DroppedInstances(instancePreferenceList, currentStateMap);
    if instancePreferenceList.None? {
      return Ok(instanceStateMap);
    }
    if stateModelDef.None? {
      return Err(NullStateModelDefinition);
    }

    var list := instancePreferenceList.value;
    var def := stateModelDef.value;
    ghost var ctx := Ctx(def, list, live, currentStateMap);
    ghost var p := Initial(ctx);
    var statesPriorityList := def.statesPriorityList;
    var isAssigned := new bool[|list|](_ => false);

    for j := 0 to |statesPriorityList|
      invariant p == PassUpTo(ctx, j)
      invariant instanceStateMap == p.target
      invariant isAssigned.Length == |list|
      invariant forall k :: 0 <= k < |list| ==> isAssigned[k] == p.slots[k].Some?
    {
      var state := statesPriorityList[j];
      var stateCount := Resolve(Specifier(def, state), |live|, |list|);
      assert stateCount == StateCount(ctx, j);
      if stateCount > -1 {
        instanceStateMap, p := AssignState(ctx, j, p, list, live, currentStateMap, state, stateCount,
                                           isAssigned, instanceStateMap);
      }
      assert p == PassUpTo(ctx, j + 1);
    }
    return Ok(instanceStateMap);
  }

  /**
   * `compute`: one entry per partition of every resource group. A CUSTOMIZED
   * ideal state's declared map is passed through unchanged; otherwise the
   * preference list is resolved and the best state computed. A group whose
   * ideal state is gone takes its state-model name from the current-state
   * output and drops every instance reporting its partitions. A partition that
   * needs an absent state model aborts the whole computation.
   */
  method Compute(groups: map<string, ResourceGroup>, liveIds: seq<string>,
                 idealStates: map<string, IdealState>, defs: seq<StateModelDef>,
                 cso: CurrentStateOutput)
    returns (r: Result<Output, Fault>)
    ensures r.Err? <==>
              exists id :: Scheduled(groups, id) && PartitionTarget(idealStates, defs, liveIds, cso, id).Err?
    ensures r.Ok? ==> forall id :: id in r.value <==> Scheduled(groups, id)
    ensures r.Ok? ==> forall id :: id in r.value ==>
              PartitionTarget(idealStates, defs, liveIds, cso, id) == Ok(r.value[id])
  {
    var live := LiveSet(liveIds);
    var output: Output := map[];
    var pending := groups.Keys;
    while pending != {}
      invariant pending <= groups.Keys
      invariant forall id :: id in output <==> Scheduled(groups, id) && id.group !in pending
      invariant forall id :: id in output ==>
                  PartitionTarget(idealStates, defs, liveIds, cso, id) == Ok(output[id])
      decreases |pending|
    {
      var name :| name in pending;
      var idealStateExists := name in idealStates;
      var idealState := if idealStateExists then idealStates[name] else EmptyIdealState;
      var stateModelDefName := if idealStateExists then idealState.stateModelDefRef
                               else Get(cso.groupStateModelDefs, name);
      var stateModelDef: Option<StateModelDef> := None;
      if stateModelDefName.Some? {
        stateModelDef := LookupStateModel(stateModelDefName.value, defs);
      }
      assert idealState == IdealStateOf(name, idealStates);
      assert stateModelDef == ModelOf(name, idealStates, defs, cso);
      var keys := groups[name].partitions;
      for i := 0 to |keys|
        invariant forall id :: id in output <==>
                    (Scheduled(groups, id) && id.group !in pending)
                    || (id.group == name && id.partition in keys[..i])
        invariant forall id :: id in output ==>
                    PartitionTarget(idealStates, defs, liveIds, cso, id) == Ok(output[id])
      {
        var id := PartitionId(name, keys[i]);
        var best: Option<StateMap>;
        if idealState.mode == Customized {
          best := Get(idealState.instanceStateMaps, keys[i]);
        } else {
          var instancePreferenceList := GetPreferenceList(idealState, keys[i], liveIds);
          var res := ComputeBestStateForResource(stateModelDef, instancePreferenceList, live,
                                                 Get(cso.stateMaps, id));
          if res.Err? {
            assert Scheduled(groups, id) && PartitionTarget(idealStates, defs, liveIds, cso, id).Err?;
            return Err(res.error);
          }
          best := Some(res.value);
        }
        assert PartitionTarget(idealStates, defs, liveIds, cso, id) == Ok(best);
        output := output[id := best];
      }
      pending := pending - {name};
    }
    return Ok(output);
  }
}
