/** Association lists: the member lists of parsed JSON objects, translation
    groups and the flag table, read as JavaScript property reads. */
module Assoc {
  import opened Wrappers

  /** `obj[key]`: the value of the first member named key, or `undefined`. */
  function Lookup<V>(ms: seq<(string, V)>, key: string): (r: Option<V>)
    ensures r.Some? <==> exists i :: 0 <= i < |ms| && ms[i].0 == key
    ensures r.Some? ==> (key, r.value) in ms
  {
    if ms == [] then None
    else if ms[0].0 == key then Some(ms[0].1)
    else
      var r := Lookup(ms[1..], key);
      assert forall i :: 1 <= i < |ms| ==> ms[i] == ms[1..][i - 1];
      r
  }

  /** When no name occurs twice, every member is what a read of its name finds. */
  lemma {:induction false} LookupOfDistinct<V>(ms: seq<(string, V)>, i: nat)
    requires i < |ms|
    requires forall a, b :: 0 <= a < b < |ms| ==> ms[a].0 != ms[b].0
    ensures Lookup(ms, ms[i].0) == Some(ms[i].1)
  {
    if i > 0 {
      assert ms[1..][i - 1] == ms[i];
      LookupOfDistinct(ms[1..], i - 1);
    }
  }
}
