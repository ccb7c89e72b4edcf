/** Property lists: an object's own properties as (key, value) pairs in the
    order JavaScript enumerates them. */
module Props {
  import opened Wrappers

  /** The value stored under `key`; when a key repeats, the last pair wins, as it
      does for assignments in a `for...in` loop and for `JSON.parse`. */
  function Lookup<V>(props: seq<(string, V)>, key: string): (r: Option<V>)
    ensures r.None? <==> forall i :: 0 <= i < |props| ==> props[i].0 != key
    ensures r.Some? ==> exists i :: 0 <= i < |props| && props[i] == (key, r.value) &&
                          forall j :: i < j < |props| ==> props[j].0 != key
  {
    if props == [] then None
    else if props[|props| - 1].0 == key then Some(props[|props| - 1].1)
    else
      var front := props[..|props| - 1];
      assert forall i :: 0 <= i < |front| ==> front[i] == props[i];
      Lookup(front, key)
  }
}
