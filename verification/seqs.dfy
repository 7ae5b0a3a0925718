/** Small sequence utilities shared by the tree modules. */
module Seqs {

  /** Index of the first element whose key is `name`, or `|xs|` when there is none
      (Java's `stream().filter(..).findFirst()`). */
  function FirstIndex<T>(xs: seq<T>, key: T -> string, name: string): (i: nat)
    ensures i <= |xs|
    ensures forall j :: 0 <= j < i ==> key(xs[j]) != name
    ensures i < |xs| ==> key(xs[i]) == name
    ensures i == |xs| <==> forall j :: 0 <= j < |xs| ==> key(xs[j]) != name
  {
    if |xs| == 0 then 0
    else if key(xs[0]) == name then 0
    else 1 + FirstIndex(xs[1..], key, name)
  }

  /** Appending an element keeps the first match of the prefix; when the prefix has none,
      the new element is the first match exactly when its key is `name`. */
  lemma FirstIndexAppend<T>(xs: seq<T>, x: T, key: T -> string, name: string)
    ensures FirstIndex(xs + [x], key, name)
         == if FirstIndex(xs, key, name) < |xs| || key(x) == name then FirstIndex(xs, key, name)
            else |xs| + 1
  {
    var ys := xs + [x];
    var i := FirstIndex(ys, key, name);
    var j := FirstIndex(xs, key, name);
    assert forall k :: 0 <= k < |xs| ==> ys[k] == xs[k];
    if j < |xs| {
      assert ys[j] == xs[j];
      assert i <= j;
    } else if key(x) == name {
      assert ys[|xs|] == x;
      assert i <= |xs|;
    } else {
      assert forall k :: 0 <= k < |ys| ==> key(ys[k]) != name by {
        forall k | 0 <= k < |ys| ensures key(ys[k]) != name {
          if k < |xs| { assert ys[k] == xs[k]; } else { assert ys[k] == x; }
        }
      }
    }
  }

  /** The elements of `xs` that satisfy `p`, in their original order
      (`stream().filter(p).collect(toList())`). */
  function Filter<T(==)>(xs: seq<T>, p: T -> bool): (r: seq<T>)
    ensures |r| <= |xs|
    ensures forall i :: 0 <= i < |r| ==> r[i] in xs && p(r[i])
    ensures forall i :: 0 <= i < |xs| && p(xs[i]) ==> xs[i] in r
  {
    if |xs| == 0 then []
    else (if p(xs[0]) then [xs[0]] else []) + Filter(xs[1..], p)
  }

  /** Filtering keeps every element that satisfies `p` as often as it occurs, and no other. */
  lemma {:induction false} FilterCounts<T(!new)>(xs: seq<T>, p: T -> bool)
    ensures forall x :: multiset(Filter(xs, p))[x] == if p(x) then multiset(xs)[x] else 0
  {
    if |xs| > 0 {
      assert xs == [xs[0]] + xs[1..];
      FilterCounts(xs[1..], p);
    }
  }

  lemma {:induction false} FilterAppend<T(!new)>(a: seq<T>, b: seq<T>, p: T -> bool)
    ensures Filter(a + b, p) == Filter(a, p) + Filter(b, p)
  {
    if |a| == 0 {
      assert a + b == b;
    } else {
      assert (a + b)[1..] == a[1..] + b;
      FilterAppend(a[1..], b, p);
    }
  }

  /** Every element lands in exactly one of the two filters by complementary predicates. */
  lemma {:induction false} FilterPartition<T(!new)>(xs: seq<T>, p: T -> bool, q: T -> bool)
    requires forall i :: 0 <= i < |xs| ==> q(xs[i]) == !p(xs[i])
    ensures |Filter(xs, p)| + |Filter(xs, q)| == |xs|
  {
    if |xs| > 0 {
      assert forall i :: 0 <= i < |xs[1..]| ==> xs[1..][i] == xs[i + 1];
      FilterPartition(xs[1..], p, q);
    }
  }

  /** `xs` and `ys` correspond one to one under `f`. */
  predicate Pairwise<A, B>(xs: seq<A>, ys: seq<B>, f: (A, B) -> bool) {
    |xs| == |ys| && forall i :: 0 <= i < |xs| ==> f(xs[i], ys[i])
  }

  lemma PairwiseCons<A, B>(x: A, xs: seq<A>, y: B, ys: seq<B>, f: (A, B) -> bool)
    requires f(x, y) && Pairwise(xs, ys, f)
    ensures Pairwise([x] + xs, [y] + ys, f)
  {
    forall i | 0 < i < |xs| + 1 ensures f(([x] + xs)[i], ([y] + ys)[i]) {
      assert ([x] + xs)[i] == xs[i - 1] && ([y] + ys)[i] == ys[i - 1];
    }
  }

  /** `xs` without repetitions, each element kept at its first occurrence. */
  function Distinct<T(==)>(xs: seq<T>): (r: seq<T>)
    ensures forall i :: 0 <= i < |r| ==> r[i] in xs
    ensures forall i :: 0 <= i < |xs| ==> xs[i] in r
    ensures forall i, j :: 0 <= i < j < |r| ==> r[i] != r[j]
  {
    if |xs| == 0 then []
    else
      var prefix := Distinct(xs[..|xs| - 1]);
      if xs[|xs| - 1] in prefix then prefix else prefix + [xs[|xs| - 1]]
  }

  /** `String.join(sep, ss)`. */
  function Join(ss: seq<string>, sep: string): (r: string)
    ensures |ss| == 1 ==> r == ss[0]
  {
    if |ss| == 0 then "" else if |ss| == 1 then ss[0] else ss[0] + sep + Join(ss[1..], sep)
  }
}
