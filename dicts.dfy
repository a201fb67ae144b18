/**
 * Python's `Dict[str, str]` as the command-line modules use it: a mapping
 * that remembers the order in which keys were first inserted, where
 * assigning an existing key replaces its value but keeps its position.
 */
module Dicts {

  ghost predicate Distinct(s: seq<string>)
  {
    forall i, j :: 0 <= i < j < |s| ==> s[i] != s[j]
  }

  /** The keys in insertion order and the key-to-value mapping. */
  datatype DictState = DictState(keys: seq<string>, values: map<string, string>)

  ghost predicate WellFormed(d: DictState)
  {
    Distinct(d.keys) && (forall k :: k in d.values <==> k in d.keys)
  }

  const Empty := DictState([], map[])

  /** `d[k] = v`. */
  function Assign(d: DictState, k: string, v: string): (r: DictState)
    requires WellFormed(d)
    ensures WellFormed(r)
    ensures r.values == d.values[k := v]
    ensures k in d.values ==> r.keys == d.keys
    ensures k !in d.values ==> r.keys == d.keys + [k]
  {
    DictState(if k in d.values then d.keys else d.keys + [k], d.values[k := v])
  }

  /** Assigning every pair in order, as the loop `for k, v in pairs: d[k] = v` does. */
  function AssignAll(d: DictState, pairs: seq<(string, string)>): (r: DictState)
    requires WellFormed(d)
    ensures WellFormed(r)
  {
    if pairs == [] then d
    else Assign(AssignAll(d, pairs[..|pairs| - 1]), pairs[|pairs| - 1].0, pairs[|pairs| - 1].1)
  }

  /** Assigning one more pair is one more assignment. */
  lemma AssignAllSnoc(d: DictState, pairs: seq<(string, string)>, kv: (string, string))
    requires WellFormed(d)
    ensures AssignAll(d, pairs + [kv]) == Assign(AssignAll(d, pairs), kv.0, kv.1)
  {
    assert (pairs + [kv])[..|pairs|] == pairs;
  }

  /** A key ends up holding the value of its last assignment; earlier duplicates are overwritten. */
  lemma {:induction false} AssignAllLastWins(d: DictState, pairs: seq<(string, string)>, i: nat)
    requires WellFormed(d)
    requires i < |pairs|
    requires forall j :: i < j < |pairs| ==> pairs[j].0 != pairs[i].0
    ensures pairs[i].0 in AssignAll(d, pairs).values
    ensures AssignAll(d, pairs).values[pairs[i].0] == pairs[i].1
  {
    if i < |pairs| - 1 {
      AssignAllLastWins(d, pairs[..|pairs| - 1], i);
    }
  }

  /** A key is present afterwards exactly when it was present before or some pair assigns it. */
  lemma {:induction false} AssignAllKeys(d: DictState, pairs: seq<(string, string)>, k: string)
    requires WellFormed(d)
    ensures k in AssignAll(d, pairs).values <==> k in d.values || exists j :: 0 <= j < |pairs| && pairs[j].0 == k
  {
    if pairs != [] {
      var init := pairs[..|pairs| - 1];
      AssignAllKeys(d, init, k);
      if exists j :: 0 <= j < |init| && init[j].0 == k {
        var j :| 0 <= j < |init| && init[j].0 == k;
        assert pairs[j].0 == k;
      }
      if exists j :: 0 <= j < |pairs| && pairs[j].0 == k {
        var j :| 0 <= j < |pairs| && pairs[j].0 == k;
        if j < |init| { assert init[j].0 == k; }
      }
    }
  }

  /** An ordered `Dict[str, str]` that callers share and update in place. */
  class StrDict {
    var keys: seq<string>
    var values: map<string, string>

    ghost predicate Valid()
      reads this
    {
      WellFormed(State())
    }

    function State(): DictState
      reads this
    {
      DictState(keys, values)
    }

    constructor ()
      ensures Valid() && State() == Empty
    {
      keys, values := [], map[];
    }

    /** `self[k] = v`. */
    method Set(k: string, v: string)
      requires Valid()
      modifies this
      ensures Valid()
      ensures State() == Assign(old(State()), k, v)
    {
      if k !in values {
        keys := keys + [k];
      }
      values := values[k := v];
    }
  }
}
