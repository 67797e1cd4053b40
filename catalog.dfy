/** The reference data pages fetch from the backend: the provinces with their
    wards, and the task categories with their posting fees. */
module Catalog {
  import opened Js

  datatype Location = Location(province: string, wards: seq<string>)

  datatype Category = Category(name: string, postingFee: int)

  /** `xs.find(x => key(x) === k)`: the first element whose key is `k`,
      `None` when there is none. */
  function Find<T>(xs: seq<T>, key: T -> string, k: string): (r: Option<T>)
    ensures r.Some? ==> r.value in xs && key(r.value) == k
    ensures r.Some? ==> exists i :: 0 <= i < |xs| && xs[i] == r.value
                           && forall j :: 0 <= j < i ==> key(xs[j]) != k
    ensures r.None? <==> forall i :: 0 <= i < |xs| ==> key(xs[i]) != k
  {
    if xs == [] then None
    else if key(xs[0]) == k then Some(xs[0])
    else
      var rest := Find(xs[1..], key, k);
      if rest.Some? then
        ghost var i :| 0 <= i < |xs[1..]| && xs[1..][i] == rest.value
                      && forall j :: 0 <= j < i ==> key(xs[1..][j]) != k;
        assert xs[i + 1] == rest.value;
        rest
      else rest
  }

  /** The keys the pages look records up by. */
  function ProvinceOf(l: Location): string { l.province }

  function NameOf(c: Category): string { c.name }
}
