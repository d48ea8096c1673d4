/** Small value types shared by every module of the model. */
module Common {

  /** Python's `None` / present value. */
  datatype Option<+T> = None | Some(value: T) {
    function GetOr(default: T): T {
      match this
      case Some(v) => v
      case None => default
    }
  }

  /** A computation that either yields a value or raises with a message. */
  datatype Result<+T> = Ok(value: T) | Err(message: string)

  /** The keys of an ordered list of pairs, in order. A Python dict is modelled
      as such a list, because its iteration order is its insertion order. A
      dict's keys are distinct (for a repeated key `json.loads` keeps the last
      value); the lists the model builds from dicts are assumed to have
      distinct keys, and `DistinctKeys` states that. */
  function Keys<V>(pairs: seq<(string, V)>): (ks: seq<string>)
    ensures |ks| == |pairs|
    ensures forall i :: 0 <= i < |pairs| ==> ks[i] == pairs[i].0
  {
    seq(|pairs|, i requires 0 <= i < |pairs| => pairs[i].0)
  }

  /** The pairs come from a Python dict: no key occurs twice. */
  predicate DistinctKeys<V>(pairs: seq<(string, V)>) {
    forall i, j :: 0 <= i < j < |pairs| ==> pairs[i].0 != pairs[j].0
  }

  /** `d.get(key)`: the value of the pair whose key is `key`. Taking the
      first match is no choice on a dict, whose keys are distinct
      (`GetDistinct`). */
  function Get<V>(pairs: seq<(string, V)>, key: string): (r: Option<V>)
    ensures r.None? <==> forall i :: 0 <= i < |pairs| ==> pairs[i].0 != key
    ensures r.Some? ==> (key, r.value) in pairs
  {
    if pairs == [] then None
    else if pairs[0].0 == key then Some(pairs[0].1)
    else
      assert forall j :: 1 <= j < |pairs| ==> pairs[1..][j - 1] == pairs[j];
      Get(pairs[1..], key)
  }

  /** Looking a key up at the position where it first occurs. */
  lemma {:induction false} GetAt<V>(pairs: seq<(string, V)>, i: nat)
    requires i < |pairs|
    requires forall j :: 0 <= j < i ==> pairs[j].0 != pairs[i].0
    ensures Get(pairs, pairs[i].0) == Some(pairs[i].1)
  {
    if i > 0 {
      assert pairs[1..][i - 1] == pairs[i];
      GetAt(pairs[1..], i - 1);
    }
  }

  /** With distinct keys, lookup finds the value of whichever pair holds the
      key: the result does not depend on taking the first match. */
  lemma GetDistinct<V>(pairs: seq<(string, V)>, i: nat)
    requires DistinctKeys(pairs) && i < |pairs|
    ensures Get(pairs, pairs[i].0) == Some(pairs[i].1)
  {
    GetAt(pairs, i);
  }
}
