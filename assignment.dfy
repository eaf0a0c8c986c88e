/**
 * The best-possible state of one partition, as a specification.
 *
 * Instances that report the partition but are no longer preferred are
 * DROPPED; then the states of the state model are handed out, from the
 * highest priority down, to live preferred instances that do not report
 * ERROR, each state up to its resolved count. `Pass` is the state of that
 * computation: the target map built so far and, per preference-list index,
 * the priority index of the state that index took (the `assigned[]` flags of
 * the stage, with the state remembered).
 */
module Assignment {
  import opened Wrappers
  import opened StateModel

  /** A map from instance name to state name. */
  type StateMap = map<string, string>

  const DROPPED: string := "DROPPED"
  const ERROR: string := "ERROR"

  /** Why a computation aborts: the state model is dereferenced while absent. */
  datatype Fault = NullStateModelDefinition

  /** The inputs of one partition's scan once its preference list and state model are known. */
  datatype Ctx = Ctx(
    def: StateModelDef,
    pref: seq<string>,
    live: set<string>,
    current: Option<StateMap>)

  /** The computation state: target map so far and the state index taken by each preference index. */
  datatype Pass = Pass(target: StateMap, slots: seq<Option<nat>>)

  function States(ctx: Ctx): seq<string>
  {
    ctx.def.statesPriorityList
  }

  /** The instance reports ERROR for this partition. */
  predicate ReportsError(current: Option<StateMap>, instance: string)
  {
    current.Some? && instance in current.value && current.value[instance] == ERROR
  }

  /** The instance at preference index `i` is live and not in ERROR. */
  predicate Eligible(ctx: Ctx, i: nat)
    requires i < |ctx.pref|
  {
    ctx.pref[i] in ctx.live && !ReportsError(ctx.current, ctx.pref[i])
  }

  /** Index `i` is eligible and no state has taken it yet. */
  predicate Open(ctx: Ctx, slots: seq<Option<nat>>, i: nat)
    requires i < |ctx.pref| == |slots|
  {
    Eligible(ctx, i) && slots[i].None?
  }

  /** The resolved count of the state with priority index `j`. */
  function StateCount(ctx: Ctx, j: nat): int
    requires j < |States(ctx)|
  {
    Resolve(Specifier(ctx.def, States(ctx)[j]), |ctx.live|, |ctx.pref|)
  }

  /**
   * DROPPED for every instance of the current-state map that is not in the
   * preference list (every instance, when there is no preference list).
   */
  function Dropped(pref: Option<seq<string>>, current: Option<StateMap>): (m: StateMap)
    ensures forall k :: k in m <==> current.Some? && k in current.value && (pref.None? || k !in pref.value)
    ensures forall k :: k in m ==> m[k] == DROPPED
  {
    if current.None? then map[]
    else map k | k in current.value.Keys && (pref.None? || k !in pref.value) :: DROPPED
  }

  function Initial(ctx: Ctx): Pass
  {
    Pass(Dropped(Some(ctx.pref), ctx.current), seq(|ctx.pref|, _ => None))
  }

  /** Index `i` takes state `j`. */
  function Assign(ctx: Ctx, p: Pass, j: nat, i: nat): Pass
    requires j < |States(ctx)| && i < |ctx.pref| == |p.slots|
  {
    Pass(p.target[ctx.pref[i] := States(ctx)[j]], p.slots[i := Some(j)])
  }

  /**
   * The scan of state `j` with count `c`, from preference index `i`, after
   * `count` indices took the state: every open index takes it, and the scan
   * stops once `count` reaches `c` (the check follows the increment).
   */
  function ScanFrom(ctx: Ctx, p: Pass, j: nat, c: int, i: nat, count: int): (q: Pass)
    requires j < |States(ctx)|
    requires i <= |ctx.pref| == |p.slots|
    ensures |q.slots| == |ctx.pref|
    decreases |ctx.pref| - i
  {
    if i == |ctx.pref| then p
    else if Open(ctx, p.slots, i) then
      var q := Assign(ctx, p, j, i);
      if count + 1 == c then q else ScanFrom(ctx, q, j, c, i + 1, count + 1)
    else ScanFrom(ctx, p, j, c, i + 1, count)
  }

  /** The handling of state `j`: skipped when its count is negative, scanned otherwise. */
  function Step(ctx: Ctx, p: Pass, j: nat): (q: Pass)
    requires j < |States(ctx)| && |p.slots| == |ctx.pref|
    ensures |q.slots| == |ctx.pref|
  {
    var c := StateCount(ctx, j);
    if c > -1 then ScanFrom(ctx, p, j, c, 0, 0) else p
  }

  /** The computation state once the `n` highest-priority states are handled. */
  function PassUpTo(ctx: Ctx, n: nat): (p: Pass)
    requires n <= |States(ctx)|
    ensures |p.slots| == |ctx.pref|
  {
    if n == 0 then Initial(ctx) else Step(ctx, PassUpTo(ctx, n - 1), n - 1)
  }

  /** The target map of a partition with a preference list and a state model. */
  function BestState(ctx: Ctx): StateMap
  {
    PassUpTo(ctx, |States(ctx)|).target
  }

  /** The state index each preference index ends with. */
  function FinalSlots(ctx: Ctx): (s: seq<Option<nat>>)
    ensures |s| == |ctx.pref|
  {
    PassUpTo(ctx, |States(ctx)|).slots
  }

  /**
   * The best-possible state of one partition: only the DROPPED entries when
   * there is no preference list; a fault when the state model, needed for the
   * scan, is absent.
   */
  function BestPossibleState(def: Option<StateModelDef>, pref: Option<seq<string>>,
                             live: set<string>, current: Option<StateMap>): Result<StateMap, Fault>
  {
    if pref.None? then Ok(Dropped(None, current))
    else if def.None? then Err(NullStateModelDefinition)
    else Ok(BestState(Ctx(def.value, pref.value, live, current)))
  }

  predicate NoDigit(s: string)
  {
    forall k :: 0 <= k < |s| ==> !IsDigit(s[k])
  }

  /**
   * Count resolution: "N" is the number of live instances, "R" the length of
   * the preference list, and the decimal form of an int is that int; a missing
   * specifier, one without any digit, or a decimal beyond 32 bits resolves to
   * -1, so the state is skipped.
   */
  lemma CountResolution(ctx: Ctx, j: nat)
    requires j < |States(ctx)|
    ensures var raw := Get(ctx.def.numInstancesPerState, States(ctx)[j]);
            var c := StateCount(ctx, j);
            && (raw == Some("N") ==> c == |ctx.live|)
            && (raw == Some("R") ==> c == |ctx.pref|)
            && (forall n :: raw == Some(Format(n)) ==> c == if INT_MIN <= n <= INT_MAX then n else -1)
            && (raw.None? ==> c == -1)
            && (raw.Some? && raw.value != "N" && raw.value != "R" && NoDigit(raw.value) ==> c == -1)
  {
    var raw := Get(ctx.def.numInstancesPerState, States(ctx)[j]);
    forall n | raw == Some(Format(n))
      ensures StateCount(ctx, j) == if INT_MIN <= n <= INT_MAX then n else -1
    {
      ParseFormat(n);
      var s := Format(n);
      assert IsDigit(s[|s| - 1]);
    }
  }

  // ---------------------------------------------------------------------------
  // Which indices a state takes

  /** The number of open indices below `i`. */
  function Rank(ctx: Ctx, slots: seq<Option<nat>>, i: nat): nat
    requires i <= |ctx.pref| == |slots|
  {
    if i == 0 then 0
    else Rank(ctx, slots, i - 1) + if Open(ctx, slots, i - 1) then 1 else 0
  }

  /**
   * What index `i` holds after state `j` with count `c >= 0` was scanned from
   * `slots`: the open indices of rank below `c` take it (all of them when
   * `c == 0`), the other indices keep what they had.
   */
  function Greedy(ctx: Ctx, slots: seq<Option<nat>>, j: nat, c: int, i: nat): Option<nat>
    requires i < |ctx.pref| == |slots|
  {
    if Open(ctx, slots, i) && (c == 0 || Rank(ctx, slots, i) < c) then Some(j) else slots[i]
  }

  lemma {:induction false} RankMonotone(ctx: Ctx, slots: seq<Option<nat>>, i: nat, k: nat)
    requires i <= k <= |ctx.pref| == |slots|
    ensures Rank(ctx, slots, i) <= Rank(ctx, slots, k)
    decreases k - i
  {
    if i < k {
      RankMonotone(ctx, slots, i, k - 1);
    }
  }

  /** The scan of one state from index `i` agrees with the closed form `Greedy`. */
  lemma {:induction false} ScanFromSlots(ctx: Ctx, s0: seq<Option<nat>>, p: Pass,
                                         j: nat, c: int, i: nat, count: int)
    requires j < |States(ctx)| && i <= |ctx.pref| == |p.slots| == |s0|
    requires c >= 0 && count == Rank(ctx, s0, i) && (c == 0 || count < c)
    requires forall k :: i <= k < |ctx.pref| ==> p.slots[k] == s0[k]
    ensures forall k :: 0 <= k < i ==> ScanFrom(ctx, p, j, c, i, count).slots[k] == p.slots[k]
    ensures forall k :: i <= k < |ctx.pref| ==>
              ScanFrom(ctx, p, j, c, i, count).slots[k] == Greedy(ctx, s0, j, c, k)
    decreases |ctx.pref| - i
  {
    if i < |ctx.pref| {
      if Open(ctx, p.slots, i) {
        var q := Assign(ctx, p, j, i);
        if count + 1 == c {
          forall k | i < k < |ctx.pref| ensures Greedy(ctx, s0, j, c, k) == s0[k] {
            RankMonotone(ctx, s0, i + 1, k);
          }
        } else {
          ScanFromSlots(ctx, s0, q, j, c, i + 1, count + 1);
        }
      } else {
        ScanFromSlots(ctx, s0, p, j, c, i + 1, count);
      }
    }
  }

  /** Handling state `j` changes only open indices, which take `j`, as `Greedy` says. */
  lemma StepSlots(ctx: Ctx, p: Pass, j: nat)
    requires j < |States(ctx)| && |p.slots| == |ctx.pref|
    ensures forall k :: 0 <= k < |ctx.pref| ==>
              Step(ctx, p, j).slots[k] ==
                if StateCount(ctx, j) >= 0 then Greedy(ctx, p.slots, j, StateCount(ctx, j), k) else p.slots[k]
  {
    var c := StateCount(ctx, j);
    if c > -1 {
      ScanFromSlots(ctx, p.slots, p, j, c, 0, 0);
    }
  }

  /**
   * Between the first `n` and the first `m` states, a taken index keeps its
   * state, and an index taken in between took one of the states `n .. m-1`.
   */
  lemma {:induction false} SlotHistory(ctx: Ctx, n: nat, m: nat)
    requires n <= m <= |States(ctx)|
    ensures forall k :: 0 <= k < |ctx.pref| ==>
              (PassUpTo(ctx, n).slots[k].Some? ==> PassUpTo(ctx, m).slots[k] == PassUpTo(ctx, n).slots[k])
              && (PassUpTo(ctx, n).slots[k].None? && PassUpTo(ctx, m).slots[k].Some? ==>
                    n <= PassUpTo(ctx, m).slots[k].value < m)
    decreases m - n
  {
    if n < m {
      SlotHistory(ctx, n, m - 1);
      StepSlots(ctx, PassUpTo(ctx, m - 1), m - 1);
    }
  }

  /**
   * Priority order: index `i` ends with state `j` exactly when `j` has a count
   * of at least 0, index `i` is still open once the higher-priority states are
   * handled, and fewer than `c` open indices precede it (any number when c = 0).
   */
  lemma AssignedToState(ctx: Ctx, j: nat, i: nat)
    requires j < |States(ctx)| && i < |ctx.pref|
    ensures var s := PassUpTo(ctx, j).slots; var c := StateCount(ctx, j);
            FinalSlots(ctx)[i] == Some(j) <==>
              c >= 0 && Open(ctx, s, i) && (c == 0 || Rank(ctx, s, i) < c)
  {
    SlotHistory(ctx, 0, j);
    StepSlots(ctx, PassUpTo(ctx, j), j);
    SlotHistory(ctx, j + 1, |States(ctx)|);
  }

  /**
   * Greedy in preference order: when index `i` takes state `j`, every eligible
   * index `e` before it took `j` or a state of higher priority.
   */
  lemma PriorityOrder(ctx: Ctx, j: nat, i: nat, e: nat)
    requires j < |States(ctx)| && e < i < |ctx.pref|
    requires FinalSlots(ctx)[i] == Some(j) && Eligible(ctx, e)
    ensures FinalSlots(ctx)[e].Some? && FinalSlots(ctx)[e].value <= j
  {
    var s := PassUpTo(ctx, j).slots;
    AssignedToState(ctx, j, i);
    SlotHistory(ctx, 0, j);
    SlotHistory(ctx, j, |States(ctx)|);
    if s[e].None? {
      RankMonotone(ctx, s, e + 1, i);
      AssignedToState(ctx, j, e);
    }
  }

  // ---------------------------------------------------------------------------
  // How many indices a state takes

  /** The number of indices below `n` that hold state `j`. */
  function CountState(slots: seq<Option<nat>>, j: nat, n: nat): nat
    requires n <= |slots|
  {
    if n == 0 then 0
    else CountState(slots, j, n - 1) + if slots[n - 1] == Some(j) then 1 else 0
  }

  lemma {:induction false} CountStateSame(s: seq<Option<nat>>, t: seq<Option<nat>>, j: nat, n: nat)
    requires n <= |s| && n <= |t|
    requires forall k :: 0 <= k < n ==> (s[k] == Some(j) <==> t[k] == Some(j))
    ensures CountState(s, j, n) == CountState(t, j, n)
  {
    if n > 0 {
      CountStateSame(s, t, j, n - 1);
    }
  }

  lemma {:induction false} CountStateZero(s: seq<Option<nat>>, j: nat, n: nat)
    requires n <= |s|
    requires forall k :: 0 <= k < n ==> s[k] != Some(j)
    ensures CountState(s, j, n) == 0
  {
    if n > 0 {
      CountStateZero(s, j, n - 1);
    }
  }

  function Min(a: int, b: int): int
  {
    if a <= b then a else b
  }

  /** Within the scan of state `j`, the first `n` indices hold `j` as often as `Greedy` predicts. */
  lemma {:induction false} StepCount(ctx: Ctx, j: nat, n: nat)
    requires j < |States(ctx)| && n <= |ctx.pref| && StateCount(ctx, j) >= 0
    ensures var s0 := PassUpTo(ctx, j).slots; var c := StateCount(ctx, j);
            CountState(PassUpTo(ctx, j + 1).slots, j, n) ==
              if c == 0 then Rank(ctx, s0, n) else Min(Rank(ctx, s0, n), c)
  {
    if n > 0 {
      StepCount(ctx, j, n - 1);
      SlotHistory(ctx, 0, j);
      StepSlots(ctx, PassUpTo(ctx, j), j);
    }
  }

  /**
   * Capacity: a state with a negative count takes no index; one with count
   * c >= 1 takes min(open, c) indices, so at most c, where `open` is the number
   * of eligible indices the higher-priority states left; one with count 0
   * takes every one of them (the scan never stops).
   */
  lemma Capacity(ctx: Ctx, j: nat)
    requires j < |States(ctx)|
    ensures var c := StateCount(ctx, j);
            var taken := CountState(FinalSlots(ctx), j, |ctx.pref|);
            var open := Rank(ctx, PassUpTo(ctx, j).slots, |ctx.pref|);
            && (c < 0 ==> taken == 0)
            && (c == 0 ==> taken == open)
            && (c >= 1 ==> taken == Min(open, c) && taken <= c)
  {
    var n := |ctx.pref|;
    SlotHistory(ctx, j + 1, |States(ctx)|);
    CountStateSame(FinalSlots(ctx), PassUpTo(ctx, j + 1).slots, j, n);
    if StateCount(ctx, j) >= 0 {
      StepCount(ctx, j, n);
    } else {
      assert PassUpTo(ctx, j + 1) == PassUpTo(ctx, j);
      SlotHistory(ctx, 0, j);
      CountStateZero(PassUpTo(ctx, j + 1).slots, j, n);
    }
  }

  // ---------------------------------------------------------------------------
  // What the target map holds

  /** Index `i` wrote the entry of `k`: its state is `k`'s target. */
  ghost predicate Writer(ctx: Ctx, p: Pass, k: string, i: int)
  {
    0 <= i < |ctx.pref| == |p.slots| && ctx.pref[i] == k
    && p.slots[i].Some? && p.slots[i].value < |States(ctx)|
    && k in p.target && p.target[k] == States(ctx)[p.slots[i].value]
  }

  /**
   * What every computation state satisfies: taken indices are eligible and in
   * the target; entries outside the preference list are exactly the DROPPED
   * ones; entries inside it were written by a taken index.
   */
  ghost predicate Inv(ctx: Ctx, p: Pass)
  {
    var dropped := Dropped(Some(ctx.pref), ctx.current);
    && |p.slots| == |ctx.pref|
    && (forall i :: 0 <= i < |p.slots| && p.slots[i].Some? ==>
          p.slots[i].value < |States(ctx)| && Eligible(ctx, i) && ctx.pref[i] in p.target)
    && (forall k :: k in p.target && k !in ctx.pref ==> k in dropped)
    && (forall k :: k in dropped ==> k in p.target && p.target[k] == DROPPED)
    && (forall k :: k in p.target && k in ctx.pref ==> exists i :: Writer(ctx, p, k, i))
  }

  lemma AssignKeepsInv(ctx: Ctx, p: Pass, j: nat, i: nat)
    requires Inv(ctx, p) && j < |States(ctx)| && i < |ctx.pref|
    requires Open(ctx, p.slots, i)
    ensures Inv(ctx, Assign(ctx, p, j, i))
  {
    var q := Assign(ctx, p, j, i);
    forall k | k in q.target && k in ctx.pref ensures exists w :: Writer(ctx, q, k, w) {
      if k == ctx.pref[i] {
        assert Writer(ctx, q, k, i);
      } else {
        var w :| Writer(ctx, p, k, w);
        assert Writer(ctx, q, k, w);
      }
    }
  }

  lemma {:induction false} ScanFromKeepsInv(ctx: Ctx, p: Pass, j: nat, c: int, i: nat, count: int)
    requires Inv(ctx, p) && j < |States(ctx)| && i <= |ctx.pref|
    ensures Inv(ctx, ScanFrom(ctx, p, j, c, i, count))
    decreases |ctx.pref| - i
  {
    if i < |ctx.pref| {
      if Open(ctx, p.slots, i) {
        AssignKeepsInv(ctx, p, j, i);
        if count + 1 != c {
          ScanFromKeepsInv(ctx, Assign(ctx, p, j, i), j, c, i + 1, count + 1);
        }
      } else {
        ScanFromKeepsInv(ctx, p, j, c, i + 1, count);
      }
    }
  }

  lemma {:induction false} PassUpToInv(ctx: Ctx, n: nat)
    requires n <= |States(ctx)|
    ensures Inv(ctx, PassUpTo(ctx, n))
  {
    if n > 0 {
      PassUpToInv(ctx, n - 1);
      if StateCount(ctx, n - 1) > -1 {
        ScanFromKeepsInv(ctx, PassUpTo(ctx, n - 1), n - 1, StateCount(ctx, n - 1), 0, 0);
      }
    }
  }

  /**
   * The entries of a partition's target map: an instance outside the
   * preference list has an entry exactly when it reports the partition, and it
   * is DROPPED; an instance in the list has an entry only when it is live, not
   * in ERROR, and one of its indices took a state, whose name is the entry;
   * and every index that took a state gives its instance an entry.
   */
  lemma TargetEntries(ctx: Ctx)
    ensures var r := BestState(ctx); var s := FinalSlots(ctx);
            && (forall k :: k in r && k !in ctx.pref ==>
                  ctx.current.Some? && k in ctx.current.value && r[k] == DROPPED)
            && (forall k :: ctx.current.Some? && k in ctx.current.value && k !in ctx.pref ==>
                  k in r && r[k] == DROPPED)
            && (forall k :: k in r && k in ctx.pref ==>
                  k in ctx.live && !ReportsError(ctx.current, k)
                  && exists i :: 0 <= i < |ctx.pref| && ctx.pref[i] == k && s[i].Some?
                                 && s[i].value < |States(ctx)| && r[k] == States(ctx)[s[i].value])
            && (forall i :: 0 <= i < |ctx.pref| && s[i].Some? ==> ctx.pref[i] in r)
  {
    var p := PassUpTo(ctx, |States(ctx)|);
    PassUpToInv(ctx, |States(ctx)|);
    forall k | k in p.target && k in ctx.pref
      ensures k in ctx.live && !ReportsError(ctx.current, k)
      ensures exists i :: 0 <= i < |ctx.pref| && ctx.pref[i] == k && p.slots[i].Some?
                          && p.slots[i].value < |States(ctx)| && p.target[k] == States(ctx)[p.slots[i].value]
    {
      var i :| Writer(ctx, p, k, i);
    }
  }

  // ---------------------------------------------------------------------------
  // The partition's result

  /**
   * Drop rule: every instance of the current-state map that is not in the
   * preference list, or every instance when there is no list, is DROPPED.
   * Without a preference list the result is exactly those DROPPED entries (and
   * empty when there is no current-state map), and it never faults.
   */
  lemma DropRule(def: Option<StateModelDef>, pref: Option<seq<string>>,
                 live: set<string>, current: Option<StateMap>)
    ensures var r := BestPossibleState(def, pref, live, current);
            && (r.Err? <==> pref.Some? && def.None?)
            && (r.Ok? ==> forall k :: current.Some? && k in current.value && (pref.None? || k !in pref.value) ==>
                  k in r.value && r.value[k] == DROPPED)
            && (pref.None? ==> r.Ok? && forall k :: (k in r.value <==> current.Some? && k in current.value)
                                                   && (k in r.value ==> r.value[k] == DROPPED))
            && (pref.None? && current.None? ==> r == Ok(map[]))
  {
    if pref.Some? && def.Some? {
      TargetEntries(Ctx(def.value, pref.value, live, current));
    }
  }

  /**
   * Quarantine: an instance that reports ERROR, or is not live, gets no state
   * from the scan; if it has an entry at all, it is no longer preferred and
   * the entry is DROPPED.
   */
  lemma Quarantine(def: Option<StateModelDef>, pref: Option<seq<string>>,
                   live: set<string>, current: Option<StateMap>, k: string)
    requires BestPossibleState(def, pref, live, current).Ok?
    requires ReportsError(current, k) || k !in live
    requires k in BestPossibleState(def, pref, live, current).value
    ensures pref.None? || k !in pref.value
    ensures BestPossibleState(def, pref, live, current).value[k] == DROPPED
  {
    if pref.Some? {
      TargetEntries(Ctx(def.value, pref.value, live, current));
    }
  }
}
