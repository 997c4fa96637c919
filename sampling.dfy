/**
 * `_choose_from_weighted_dict`: a weighted categorical choice over the keys of a dict.
 *
 * `random.choices(items, weights)` builds the cumulative weights, draws `x` uniformly in
 * `[0, total)` and returns the first item whose cumulative weight exceeds `x`. With
 * integer weights the draw is an integer ticket `t < total`, and item `i` is returned
 * exactly when `Prefix(d, i) <= t < Prefix(d, i + 1)`.
 */
module Sampling {
  import opened OrderedDict

  /** The sum of all weights of `d`. */
  function TotalWeight(d: Dict<nat>): nat {
    if d == [] then 0 else d[0].1 + TotalWeight(d[1..])
  }

  /** The cumulative weight of the first `i` entries. */
  function Prefix(d: Dict<nat>, i: nat): nat
    requires i <= |d|
  {
    TotalWeight(d[..i])
  }

  /** The key drawn by `ticket`; a ticket always lands on an entry of positive weight. */
  function ChooseWeighted(d: Dict<nat>, ticket: nat): (k: string)
    requires ticket < TotalWeight(d)
    ensures exists i :: 0 <= i < |d| && d[i].0 == k && d[i].1 > 0
  {
    if ticket < d[0].1 then d[0].0
    else
      var k := ChooseWeighted(d[1..], ticket - d[0].1);
      assert exists i :: 0 <= i < |d[1..]| && d[1..][i].0 == k && d[1..][i].1 > 0;
      var i :| 0 <= i < |d[1..]| && d[1..][i].0 == k && d[1..][i].1 > 0;
      assert d[i + 1] == d[1..][i];
      k
  }

  lemma PrefixStep(d: Dict<nat>, i: nat)
    requires 0 < i <= |d|
    ensures Prefix(d, i) == d[0].1 + Prefix(d[1..], i - 1)
  {
    assert d[..i][1..] == d[1..][..i - 1];
  }

  /** Entry `i` is drawn by exactly the tickets of its cumulative interval. */
  lemma {:induction false} ChooseWeightedInterval(d: Dict<nat>, i: nat, ticket: nat)
    requires i < |d|
    requires Prefix(d, i) <= ticket < Prefix(d, i + 1)
    ensures ticket < TotalWeight(d)
    ensures ChooseWeighted(d, ticket) == d[i].0
  {
    PrefixBound(d, i + 1);
    PrefixStep(d, i + 1);
    if i > 0 {
      PrefixStep(d, i);
      ChooseWeightedInterval(d[1..], i - 1, ticket - d[0].1);
    } else {
      assert d[..0] == [];
    }
  }

  /** No cumulative weight exceeds the total. */
  lemma {:induction false} PrefixBound(d: Dict<nat>, i: nat)
    requires i <= |d|
    ensures Prefix(d, i) <= TotalWeight(d)
    ensures i == |d| ==> Prefix(d, i) == TotalWeight(d)
  {
    if i == |d| {
      assert d[..i] == d;
    } else if i > 0 {
      PrefixStep(d, i);
      PrefixBound(d[1..], i - 1);
    } else {
      assert d[..0] == [];
    }
  }

  /** With every weight positive, every key of the dict can be drawn. */
  lemma EveryKeyDrawable(d: Dict<nat>, i: nat)
    requires forall j | 0 <= j < |d| :: d[j].1 > 0
    requires i < |d|
    ensures Prefix(d, i) < TotalWeight(d)
    ensures ChooseWeighted(d, Prefix(d, i)) == d[i].0
  {
    assert d[..i + 1] == d[..i] + [d[i]];
    PrefixSnoc(d[..i], d[i]);
    ChooseWeightedInterval(d, i, Prefix(d, i));
  }

  lemma {:induction false} PrefixSnoc(d: Dict<nat>, e: (string, nat))
    ensures TotalWeight(d + [e]) == TotalWeight(d) + e.1
  {
    if d != [] {
      assert (d + [e])[1..] == d[1..] + [e];
      PrefixSnoc(d[1..], e);
    }
  }
}
