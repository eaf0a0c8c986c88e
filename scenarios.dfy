/** Worked partitions: the target maps the stage computes for small inputs. */
module Scenarios {
  import opened Wrappers
  import opened StateModel
  import opened Assignment
  import opened CalcStage

  /** A master-slave model: one MASTER, then SLAVE on every preferred instance. */
  const MasterSlave: StateModelDef :=
    StateModelDef("MasterSlave", ["MASTER", "SLAVE"], map["MASTER" := "1", "SLAVE" := "R"])

  const ABC: seq<string> := ["A", "B", "C"]

  /** All of A, B and C live and preferred: A is MASTER, B and C are SLAVE. */
  lemma AllLive()
    ensures BestPossibleState(Some(MasterSlave), Some(ABC), {"A", "B", "C"}, None)
            == Ok(map["A" := "MASTER", "B" := "SLAVE", "C" := "SLAVE"])
  {
  }

  /** B is not live: A is MASTER, C is SLAVE, and B has no entry. */
  lemma NotLive()
    ensures BestPossibleState(Some(MasterSlave), Some(ABC), {"A", "C"}, None)
            == Ok(map["A" := "MASTER", "C" := "SLAVE"])
  {
  }

  /**
   * The resource group's ideal state was deleted: the group is missing from the
   * ideal states, its state model is found by the name the current-state output
   * records, the empty ideal state has no preference list, and so every
   * instance reporting the partition is DROPPED.
   */
  lemma Deleted()
    ensures var cso := CurrentStateOutput(map[PartitionId("DB", "DB_0") := map["A" := "MASTER", "B" := "SLAVE"]],
                                          map["DB" := "MasterSlave"]);
            var idealStates := map["Other" := IdealState(Some("MasterSlave"), Auto, map["Other_0" := ABC], map[])];
            && ModelOf("DB", idealStates, [MasterSlave], cso) == Some(MasterSlave)
            && PartitionTarget(idealStates, [MasterSlave], ["A", "B"], cso, PartitionId("DB", "DB_0"))
               == Ok(Some(map["A" := DROPPED, "B" := DROPPED]))
  {
    var current := map["A" := "MASTER", "B" := "SLAVE"];
    assert Dropped(None, Some(current)).Keys == {"A", "B"};
    assert Dropped(None, Some(current)) == map["A" := DROPPED, "B" := DROPPED];
  }

  /** A reports ERROR: it is quarantined (no entry), B is MASTER and C is SLAVE. */
  lemma ErrorQuarantined()
    ensures BestPossibleState(Some(MasterSlave), Some(ABC), {"A", "B", "C"}, Some(map["A" := ERROR]))
            == Ok(map["B" := "MASTER", "C" := "SLAVE"])
  {
    var current := map["A" := ERROR];
    var ctx := Ctx(MasterSlave, ABC, {"A", "B", "C"}, Some(current));
    assert Dropped(Some(ABC), Some(current)) == map[] by {
      assert "A" in ABC;
    }
    assert Initial(ctx) == Pass(map[], [None, None, None]);
    var p0 := Initial(ctx);
    assert StateCount(ctx, 0) == 1 by {
      assert ParseInt("1") == Some(1);
    }
    assert ScanFrom(ctx, p0, 0, 1, 0, 0) == ScanFrom(ctx, p0, 0, 1, 1, 0) by {
      assert !Eligible(ctx, 0);
    }
    var p1 := Assign(ctx, p0, 0, 1);
    assert PassUpTo(ctx, 1) == p1;
    assert p1 == Pass(map["B" := "MASTER"], [None, Some(0), None]);
    assert StateCount(ctx, 1) == 3;
    assert ScanFrom(ctx, p1, 1, 3, 0, 0) == ScanFrom(ctx, p1, 1, 3, 2, 0) by {
      assert !Eligible(ctx, 0);
    }
    var p2 := Assign(ctx, p1, 1, 2);
    assert ScanFrom(ctx, p1, 1, 3, 2, 0) == p2;
    assert PassUpTo(ctx, 2) == p2;
  }

  /** SLAVE has the malformed count "x": only the MASTER is assigned. */
  lemma MalformedCount()
    ensures BestPossibleState(Some(StateModelDef("MasterSlave", ["MASTER", "SLAVE"], map["MASTER" := "1", "SLAVE" := "x"])),
                              Some(ABC), {"A", "B", "C"}, None)
            == Ok(map["A" := "MASTER"])
  {
    var def := StateModelDef("MasterSlave", ["MASTER", "SLAVE"], map["MASTER" := "1", "SLAVE" := "x"]);
    assert Specifier(def, "SLAVE") == Invalid by {
      assert ParseInt("x") == None;
    }
    assert Specifier(def, "MASTER") == Exact(1) by {
      assert ParseInt("1") == Some(1);
    }
    var ctx := Ctx(def, ABC, {"A", "B", "C"}, None);
    assert Initial(ctx) == Pass(map[], [None, None, None]);
    assert PassUpTo(ctx, 1) == Pass(map["A" := "MASTER"], [Some(0), None, None]);
  }

  /** A count of 0 never stops the scan: every eligible instance takes the state. */
  lemma ZeroCount()
    ensures BestPossibleState(Some(StateModelDef("M", ["OFFLINE"], map["OFFLINE" := "0"])),
                              Some(ABC), {"A", "B", "C"}, None)
            == Ok(map["A" := "OFFLINE", "B" := "OFFLINE", "C" := "OFFLINE"])
  {
  }
}
