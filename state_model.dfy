/**
 * State-model definitions: the ordered list of states of a state model, the
 * per-state count specifier and its decoding, and the lookup of a definition
 * by its id.
 */
module StateModel {
  import opened Wrappers

  /**
   * A state-model definition record: its id, its states from the highest to the
   * lowest priority, and the raw count specifier stored for each state.
   */
  datatype StateModelDef = StateModelDef(
    id: string,
    statesPriorityList: seq<string>,
    numInstancesPerState: map<string, string>)

  /** A count specifier, decoded once from its string form. */
  datatype CountSpec =
    | AllLive         // "N": as many instances as are live
    | Replica         // "R": as many instances as the preference list is long
    | Exact(n: int)   // a decimal integer
    | Invalid         // anything else, including a missing specifier

  const INT_MIN: int := -0x8000_0000
  const INT_MAX: int := 0x7FFF_FFFF

  predicate IsDigit(c: char) { '0' <= c <= '9' }

  function DigitValue(c: char): nat
    requires IsDigit(c)
  {
    c as int - '0' as int
  }

  function DigitChar(d: nat): (c: char)
    requires d < 10
    ensures IsDigit(c) && DigitValue(c) == d
  {
    ('0' as int + d) as char
  }

  predicate AllDigits(s: string)
  {
    forall i :: 0 <= i < |s| ==> IsDigit(s[i])
  }

  /** The value of a string of decimal digits, most significant first. */
  function DigitsValue(s: string): nat
    requires AllDigits(s)
  {
    if s == [] then 0 else DigitsValue(s[..|s| - 1]) * 10 + DigitValue(s[|s| - 1])
  }

  /**
   * `Integer.parseInt` on ASCII input: an optional '+' or '-', then one or more
   * decimal digits, whose value must fit in a 32-bit signed int; anything else
   * is a NumberFormatException, here None.
   */
  function ParseInt(s: string): (r: Option<int>)
    ensures r.Some? ==> INT_MIN <= r.value <= INT_MAX
    ensures r.Some? ==> |s| > 0 && IsDigit(s[|s| - 1])
  {
    var signed := |s| > 0 && (s[0] == '-' || s[0] == '+');
    var digits := if signed then s[1..] else s;
    if digits == [] || !AllDigits(digits) then None
    else
      var v: int := if |s| > 0 && s[0] == '-' then -(DigitsValue(digits) as int) else DigitsValue(digits);
      if INT_MIN <= v <= INT_MAX then Some(v) else None
  }

  /** The decimal digits of a natural number, without leading zeros. */
  function NatDigits(n: nat): (s: string)
    ensures |s| > 0 && AllDigits(s)
  {
    if n < 10 then [DigitChar(n)] else NatDigits(n / 10) + [DigitChar(n % 10)]
  }

  /** `Integer.toString`: the decimal form of an integer, with '-' when negative. */
  function Format(n: int): string
  {
    if n < 0 then "-" + NatDigits(-n) else NatDigits(n)
  }

  lemma {:induction false} NatDigitsValue(n: nat)
    ensures DigitsValue(NatDigits(n)) == n
  {
    if n >= 10 {
      var s := NatDigits(n);
      assert s[..|s| - 1] == NatDigits(n / 10);
      NatDigitsValue(n / 10);
    }
  }

  /**
   * Parsing the decimal form of an integer gives that integer back exactly when
   * it is a 32-bit int, and fails (overflow) otherwise.
   */
  lemma ParseFormat(n: int)
    ensures ParseInt(Format(n)) == if INT_MIN <= n <= INT_MAX then Some(n) else None
  {
    if n < 0 {
      var d := NatDigits(-n);
      assert Format(n)[1..] == d;
      NatDigitsValue(-n);
    } else {
      NatDigitsValue(n);
    }
  }

  /** Decodes a raw count specifier: "N", "R", a decimal integer, or invalid. */
  function Decode(num: string): (spec: CountSpec)
    ensures spec == AllLive <==> num == "N"
    ensures spec == Replica <==> num == "R"
    ensures spec.Exact? <==> ParseInt(num).Some?
    ensures spec.Exact? ==> spec.n == ParseInt(num).value
  {
    if num == "N" then AllLive
    else if num == "R" then Replica
    else match ParseInt(num)
      case Some(n) => Exact(n)
      case None => Invalid
  }

  /** The specifier of `state`; a state with no stored specifier has an invalid one. */
  function Specifier(def: StateModelDef, state: string): CountSpec
  {
    match Get(def.numInstancesPerState, state)
    case Some(num) => Decode(num)
    case None => Invalid
  }

  /**
   * The resolved count of a specifier: -1 for an invalid one (the value the
   * count keeps when parsing throws), otherwise what it stands for.
   */
  function Resolve(spec: CountSpec, liveCount: nat, preferenceSize: nat): int
  {
    match spec
    case AllLive => liveCount
    case Replica => preferenceSize
    case Exact(n) => n
    case Invalid => -1
  }

  /** `defs[i]` is the first definition whose id is `ref`. */
  ghost predicate FirstWithId(defs: seq<StateModelDef>, ref: string, i: int)
  {
    0 <= i < |defs| && defs[i].id == ref && forall k :: 0 <= k < i ==> defs[k].id != ref
  }

  /** The first definition in `defs` whose id is `ref`, or None if there is none. */
  function FindStateModel(ref: string, defs: seq<StateModelDef>): (r: Option<StateModelDef>)
    ensures r.None? <==> forall i :: 0 <= i < |defs| ==> defs[i].id != ref
    ensures r.Some? ==> exists i :: FirstWithId(defs, ref, i) && defs[i] == r.value
  {
    if defs == [] then None
    else if defs[0].id == ref then
      assert FirstWithId(defs, ref, 0);
      Some(defs[0])
    else
      var r := FindStateModel(ref, defs[1..]);
      assert r.Some? ==> exists i :: FirstWithId(defs, ref, i) && defs[i] == r.value by {
        if r.Some? {
          var i :| FirstWithId(defs[1..], ref, i) && defs[1..][i] == r.value;
          assert FirstWithId(defs, ref, i + 1);
        }
      }
      r
  }
}
