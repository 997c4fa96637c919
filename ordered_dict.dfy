/**
 * Python dictionaries iterate in insertion order, and the generator depends on that
 * order (the category scan, `list(d.keys())`, the cumulative weights of `random.choices`).
 * A dictionary keyed by strings is therefore modelled as an ordered sequence of pairs.
 */
module OrderedDict {
  import opened Wrappers

  type Dict<V> = seq<(string, V)>

  /** `d.get(k)`: the value of the first entry whose key is `k`. */
  function Get<V>(d: Dict<V>, k: string): (r: Option<V>)
    ensures r.None? <==> forall i | 0 <= i < |d| :: d[i].0 != k
    ensures r.Some? ==> (k, r.value) in d
  {
    if d == [] then None
    else if d[0].0 == k then Some(d[0].1)
    else Get(d[1..], k)
  }

  /** `list(d.keys())`. */
  function Keys<V>(d: Dict<V>): (ks: seq<string>)
    ensures |ks| == |d|
    ensures forall i | 0 <= i < |d| :: ks[i] == d[i].0
  {
    if d == [] then [] else [d[0].0] + Keys(d[1..])
  }

  /** No key occurs twice, as in any Python dict literal. */
  predicate DistinctKeys<V>(d: Dict<V>) {
    forall i, j | 0 <= i < j < |d| :: d[i].0 != d[j].0
  }

  /** With distinct keys, looking up the key of entry `i` yields the value of entry `i`. */
  lemma {:induction false} GetAtKey<V>(d: Dict<V>, i: nat)
    requires DistinctKeys(d) && i < |d|
    ensures Get(d, d[i].0) == Some(d[i].1)
  {
    if i > 0 {
      assert DistinctKeys(d[1..]) by {
        forall a, b | 0 <= a < b < |d[1..]| ensures d[1..][a].0 != d[1..][b].0 {
          assert d[1..][a] == d[a + 1] && d[1..][b] == d[b + 1];
        }
      }
      assert d[0].0 != d[i].0;
      GetAtKey(d[1..], i - 1);
      assert d[1..][i - 1] == d[i];
    }
  }
}
