/** Sequence helpers: insertion-ordered de-duplication, which is what `Array.from(new Set(xs))` yields. */
module Seqs {

  predicate NoDuplicates<T(==)>(xs: seq<T>) {
    forall i, j :: 0 <= i < j < |xs| ==> xs[i] != xs[j]
  }

  /** Keeps the first occurrence of every element, in order of first appearance. */
  function Dedup<T(==,!new)>(xs: seq<T>): (r: seq<T>)
    ensures NoDuplicates(r)
    ensures forall x :: x in r <==> x in xs
  {
    if xs == [] then []
    else
      var d := Dedup(xs[..|xs| - 1]);
      var last := xs[|xs| - 1];
      assert xs == xs[..|xs| - 1] + [last];
      if last in d then d else d + [last]
  }

  /** Adding one element to a set-backed list appends it exactly when it is new. */
  lemma DedupSnoc<T(!new)>(xs: seq<T>, x: T)
    ensures Dedup(xs + [x]) == if x in Dedup(xs) then Dedup(xs) else Dedup(xs) + [x]
  {
    assert (xs + [x])[..|xs + [x]| - 1] == xs;
  }

  /** The de-duplicated list preserves the order in which elements first appear. */
  lemma {:induction false} DedupKeepsFirstOrder<T(!new)>(xs: seq<T>, i: int, j: int)
    requires 0 <= i < j < |xs|
    requires xs[i] != xs[j]
    requires forall k :: 0 <= k < i ==> xs[k] != xs[i]
    requires forall k :: 0 <= k < j ==> xs[k] != xs[j]
    ensures exists p, q :: 0 <= p < q < |Dedup(xs)| && Dedup(xs)[p] == xs[i] && Dedup(xs)[q] == xs[j]
  {
    var d := Dedup(xs[..j]);
    assert xs[..j][i] == xs[i];
    assert xs[i] in d;
    var p :| 0 <= p < |d| && d[p] == xs[i];
    FirstOccurrenceAppended(xs, j);
    DedupPrefix(xs, j + 1);
    var full := Dedup(xs);
    assert full[..|d| + 1] == d + [xs[j]];
    assert full[p] == xs[i] && full[|d|] == xs[j];
  }

  /** The first occurrence of an element puts it right after what was kept before it. */
  lemma FirstOccurrenceAppended<T(!new)>(xs: seq<T>, j: int)
    requires 0 <= j < |xs|
    requires forall k :: 0 <= k < j ==> xs[k] != xs[j]
    ensures Dedup(xs[..j + 1]) == Dedup(xs[..j]) + [xs[j]]
  {
    var pre := xs[..j];
    assert xs[..j + 1] == pre + [xs[j]];
    assert xs[j] !in pre;
    DedupSnoc(pre, xs[j]);
  }

  /** The de-duplication of a prefix is a prefix of the de-duplication. */
  lemma {:induction false} DedupPrefix<T(!new)>(xs: seq<T>, n: int)
    requires 0 <= n <= |xs|
    ensures Dedup(xs[..n]) <= Dedup(xs)
    decreases |xs| - n
  {
    if n < |xs| {
      DedupPrefix(xs, n + 1);
      assert xs[..n + 1] == xs[..n] + [xs[n]];
      DedupSnoc(xs[..n], xs[n]);
    } else {
      assert xs[..n] == xs;
    }
  }
}
