/** Optional values: the model's stand-in for JavaScript's `undefined`/`null`. */
module Wrappers {

  datatype Option<+T> = None | Some(value: T) {

    /** The wrapped value, or `default` when there is none. */
    function GetOr(default: T): T {
      match this
      case Some(v) => v
      case None => default
    }
  }

  /** `xs.find(x => key(x) === k)`: the first element whose key is `k`, or `None` when there is none. */
  function Find<T(==), K(==)>(xs: seq<T>, key: T -> K, k: K): (r: Option<T>)
    ensures r.None? <==> forall i :: 0 <= i < |xs| ==> key(xs[i]) != k
    ensures r.Some? ==> exists i :: 0 <= i < |xs| && xs[i] == r.value && key(r.value) == k &&
                                    forall j :: 0 <= j < i ==> key(xs[j]) != k
  {
    if |xs| == 0 then None
    else if key(xs[0]) == k then Some(xs[0])
    else
      var r := Find(xs[1..], key, k);
      assert forall i :: 1 <= i < |xs| ==> xs[i] == xs[1..][i - 1];
      if r.Some? then
        var n :| 0 <= n < |xs[1..]| && xs[1..][n] == r.value && key(r.value) == k &&
                 forall j :: 0 <= j < n ==> key(xs[1..][j]) != k;
        assert xs[n + 1] == r.value;
        r
      else r
  }

  /** `find` returns the element at the first position whose key matches. */
  lemma FindIsFirstHit<T, K>(xs: seq<T>, key: T -> K, k: K, i: nat)
    requires i < |xs| && key(xs[i]) == k && forall j :: 0 <= j < i ==> key(xs[j]) != k
    ensures Find(xs, key, k) == Some(xs[i])
  {
    var r := Find(xs, key, k);
    var n :| 0 <= n < |xs| && xs[n] == r.value && key(r.value) == k && forall j :: 0 <= j < n ==> key(xs[j]) != k;
    assert n == i;
  }
}
