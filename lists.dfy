/** Lookups by key over the pages' lists. */
module Lists {
  import opened Options

  /** The first element whose key is `key`, as `Array.prototype.find` with
      `x => keyOf(x) === key` returns it. */
  function FindFirst<T(==)>(xs: seq<T>, keyOf: T -> string, key: string): (r: Option<T>)
    ensures r.None? <==> forall i :: 0 <= i < |xs| ==> keyOf(xs[i]) != key
    ensures r.Some? ==> exists k :: 0 <= k < |xs| && xs[k] == r.value && keyOf(r.value) == key
                                     && forall j :: 0 <= j < k ==> keyOf(xs[j]) != key
  {
    if |xs| == 0 then None
    else if keyOf(xs[0]) == key then Some(xs[0])
    else
      var rest := FindFirst(xs[1..], keyOf, key);
      if rest.Some? then
        var k :| 0 <= k < |xs| - 1 && xs[1..][k] == rest.value && keyOf(rest.value) == key
                 && forall j :: 0 <= j < k ==> keyOf(xs[1..][j]) != key;
        assert xs[k + 1] == rest.value;
        rest
      else rest
  }

  /** No two elements share a key. */
  predicate UniqueKeys<T>(xs: seq<T>, keyOf: T -> string) {
    forall i, j :: 0 <= i < j < |xs| ==> keyOf(xs[i]) != keyOf(xs[j])
  }
}
