/**
 * Python dictionaries with string keys, as ordered association lists (a dict
 * iterates in insertion order). Header maps coming from an HTTP response have
 * one entry per header name.
 */
module Dicts {
  import opened Wrappers
  import opened Strings

  type Dict<V> = seq<(string, V)>

  /** Python's `k in d`: an exact, case-sensitive key match. */
  predicate HasKey<V>(d: Dict<V>, k: string) {
    exists i :: 0 <= i < |d| && d[i].0 == k
  }

  /** The key set of `{k.lower(): v for k, v in d.items()}`. */
  function LoweredKeys<V>(d: Dict<V>): set<string> {
    set i | 0 <= i < |d| :: Lower(d[i].0)
  }

  /**
   * `{k.lower(): v for k, v in d.items()}.get(lk)`: when several keys lower-case
   * to `lk`, the comprehension keeps the value of the last one.
   */
  function GetLowered<V>(d: Dict<V>, lk: string): (r: Option<V>)
    ensures r.None? <==> lk !in LoweredKeys(d)
    ensures r.Some? ==> exists i :: 0 <= i < |d| && Lower(d[i].0) == lk && d[i].1 == r.value
                                    && forall j :: i < j < |d| ==> Lower(d[j].0) != lk
    decreases |d|
  {
    if d == [] then None
    else if Lower(d[|d| - 1].0) == lk then Some(d[|d| - 1].1)
    else
      assert LoweredKeys(d) == LoweredKeys(d[..|d| - 1]) + {Lower(d[|d| - 1].0)};
      GetLowered(d[..|d| - 1], lk)
  }
}
