/**
 * CSV rows as the parser hands them over with `header: true`: a map from column name
 * to the cell text. A column a row does not have reads as `undefined`.
 */
module Rows {
  import opened Wrappers

  type Row = map<string, string>

  /** `row[key]`, with `None` for `undefined`. */
  function Get(row: Row, key: string): (r: Option<string>)
    ensures r.Some? <==> key in row
  {
    if key in row then Some(row[key]) else None
  }

  /** A cell is truthy in JavaScript when it is present and is not the empty string. */
  predicate Truthy(v: Option<string>) {
    v.Some? && v.value != ""
  }

  /**
   * `row[k0] || row[k1] || ...`, stopping at the first truthy cell; `None` when no
   * column in `keys` holds a truthy cell.
   */
  function FirstTruthy(row: Row, keys: seq<string>): (r: Option<string>)
    ensures r.Some? ==> r.value != ""
    decreases |keys|
  {
    if keys == [] then None
    else if Truthy(Get(row, keys[0])) then Get(row, keys[0])
    else FirstTruthy(row, keys[1..])
  }

  /** The first truthy cell comes from one of the columns, and there is none only when every column is falsy. */
  lemma {:induction false} FirstTruthyFacts(row: Row, keys: seq<string>)
    ensures FirstTruthy(row, keys).Some? ==> exists i :: 0 <= i < |keys| && Get(row, keys[i]) == FirstTruthy(row, keys)
    ensures FirstTruthy(row, keys).None? <==> forall i :: 0 <= i < |keys| ==> !Truthy(Get(row, keys[i]))
    decreases |keys|
  {
    if keys != [] && !Truthy(Get(row, keys[0])) {
      FirstTruthyFacts(row, keys[1..]);
      assert forall i :: 1 <= i < |keys| ==> keys[i] == keys[1..][i - 1];
    }
  }

  /** The first truthy cell is the one of the earliest column that has one. */
  lemma {:induction false} FirstTruthyIsEarliest(row: Row, keys: seq<string>, i: nat)
    requires i < |keys| && Truthy(Get(row, keys[i]))
    requires forall j :: 0 <= j < i ==> !Truthy(Get(row, keys[j]))
    ensures FirstTruthy(row, keys) == Get(row, keys[i])
    decreases i
  {
    if i > 0 {
      FirstTruthyIsEarliest(row, keys[1..], i - 1);
    }
  }
}
