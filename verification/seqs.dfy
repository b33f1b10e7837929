/** Small shared building blocks: an optional value and the order-preserving
    filter that every list transformation of the tracker is built from. */
module Options {

  /** A value that may be absent: an empty form field, a missing storage key,
      a key not present in a lookup table. */
  datatype Option<+T> = None | Some(value: T)
}

module Seqs {

  /** The elements of `s` that satisfy `p`, in their original order, each kept
      as often as it occurs (the behaviour of `Array.prototype.filter`). */
  function Filter<T(!new)>(p: T -> bool, s: seq<T>): (r: seq<T>)
    ensures |r| <= |s|
    ensures forall x :: x in r <==> x in s && p(x)
    ensures forall x :: multiset(r)[x] == if p(x) then multiset(s)[x] else 0
  {
    if |s| == 0 then []
    else
      var rest := Filter(p, s[1..]);
      assert s == [s[0]] + s[1..];
      if p(s[0]) then [s[0]] + rest else rest
  }

  /** Filtering a sequence with one more element in front decides that element
      first and then filters the rest: the filter keeps the relative order. */
  lemma FilterCons<T(!new)>(p: T -> bool, x: T, s: seq<T>)
    ensures Filter(p, [x] + s) == (if p(x) then [x] else []) + Filter(p, s)
  {
    assert ([x] + s)[1..] == s;
  }

  /** A filter that rejects nothing returns its input unchanged. */
  lemma {:induction false} FilterKeepsAll<T(!new)>(p: T -> bool, s: seq<T>)
    requires forall x :: x in s ==> p(x)
    ensures Filter(p, s) == s
  {
    if |s| > 0 {
      assert s == [s[0]] + s[1..];
      FilterKeepsAll(p, s[1..]);
    }
  }

  /** Two predicates that agree on every element of `s` filter it alike. */
  lemma {:induction false} FilterAgree<T(!new)>(p: T -> bool, q: T -> bool, s: seq<T>)
    requires forall x :: x in s ==> p(x) == q(x)
    ensures Filter(p, s) == Filter(q, s)
  {
    if |s| > 0 {
      assert forall x :: x in s[1..] ==> x in s;
      FilterAgree(p, q, s[1..]);
    }
  }

  /** Filtering with `q` and then with `p` is one filter with any predicate
      `both` that holds exactly when `q` and `p` do. */
  lemma {:induction false} FilterThenFilter<T(!new)>(p: T -> bool, q: T -> bool, both: T -> bool, s: seq<T>)
    requires forall x :: both(x) == (q(x) && p(x))
    ensures Filter(p, Filter(q, s)) == Filter(both, s)
  {
    if |s| > 0 {
      FilterThenFilter(p, q, both, s[1..]);
      if q(s[0]) {
        FilterCons(p, s[0], Filter(q, s[1..]));
      }
    }
  }

  /** Applying the same filter twice is the same as applying it once. */
  lemma FilterIdempotent<T(!new)>(p: T -> bool, s: seq<T>)
    ensures Filter(p, Filter(p, s)) == Filter(p, s)
  {
    FilterKeepsAll(p, Filter(p, s));
  }
}
