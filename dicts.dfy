/** Python's insertion-ordered `dict` with string keys, as a list of key/value pairs.
    The analyzers both read dicts (`responses.items()`, `question_weights.get`) and
    build them in loops, and the order of `items()` decides the order of
    `individual_scores` and of the report, so the order is kept. */
module Dicts {

  datatype Option<T> = None | Some(value: T)

  /** A dict, as the list of its `items()` in insertion order. */
  type Dict<V> = seq<(string, V)>

  /** `list(d.keys())`. */
  function Keys<V>(d: Dict<V>): seq<string>
  {
    seq(|d|, i requires 0 <= i < |d| => d[i].0)
  }

  /** No key occurs twice: true of every Python dict. */
  predicate IsDict<V>(d: Dict<V>)
  {
    forall i, j :: 0 <= i < j < |d| ==> d[i].0 != d[j].0
  }

  /** `d.get(k)`: the value stored under `k`, or `None` when `k not in d`. */
  function Get<V>(d: Dict<V>, k: string): (r: Option<V>)
    ensures r.None? <==> k !in Keys(d)
    ensures r.Some? ==> (k, r.value) in d
  {
    if d == [] then None
    else
      assert Keys(d) == [d[0].0] + Keys(d[1..]);
      if d[0].0 == k then Some(d[0].1) else Get(d[1..], k)
  }

  /** In a dict, looking up the key of an item gives that item's value. */
  lemma {:induction false} GetItem<V>(d: Dict<V>, i: int)
    requires IsDict(d) && 0 <= i < |d|
    ensures Get(d, d[i].0) == Some(d[i].1)
  {
    if i > 0 {
      GetItem(d[1..], i - 1);
    }
  }

  /** A set of keys drawn from a list is no larger than the list. */
  lemma {:induction false} CardBoundedBySeq(s: set<string>, xs: seq<string>)
    requires forall k :: k in s ==> k in xs
    ensures |s| <= |xs|
  {
    if xs != [] {
      var last := xs[|xs| - 1];
      var rest := s - {last};
      forall k | k in rest ensures k in xs[..|xs| - 1] {
        assert k in xs && k != last;
        var m :| 0 <= m < |xs| && xs[m] == k;
        assert m < |xs| - 1;
      }
      CardBoundedBySeq(rest, xs[..|xs| - 1]);
      assert s <= rest + {last};
    } else {
      assert s == {};
    }
  }
}
