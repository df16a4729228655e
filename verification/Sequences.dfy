/** Sums over integer sequences and a stable comparator sort: the two pieces of
    JavaScript's array library that every component below leans on. */
module Sequences {

  datatype Option<+T> = None | Some(value: T) {
    function GetOr(default: T): T {
      if Some? then value else default
    }
  }

  datatype Result<+T, +E> = Ok(value: T) | Err(error: E) {
    predicate IsFailure() { Err? }

    function PropagateFailure<U>(): Result<U, E>
      requires Err?
    {
      Err(error)
    }

    function Extract(): T
      requires Ok?
    {
      value
    }
  }

  function Min(a: int, b: int): int {
    if a <= b then a else b
  }

  function Max(a: int, b: int): int {
    if a <= b then b else a
  }

  // ---------- sums ----------

  function Sum(xs: seq<int>): int {
    if xs == [] then 0 else Sum(xs[..|xs| - 1]) + xs[|xs| - 1]
  }

  lemma {:induction false} SumUpdate(xs: seq<int>, i: nat, v: int)
    requires i < |xs|
    ensures Sum(xs[i := v]) == Sum(xs) - xs[i] + v
  {
    var n := |xs| - 1;
    if i == n {
      assert xs[i := v][..n] == xs[..n];
    } else {
      assert xs[i := v][..n] == xs[..n][i := v];
      SumUpdate(xs[..n], i, v);
    }
  }

  lemma {:induction false} SumConcat(xs: seq<int>, ys: seq<int>)
    ensures Sum(xs + ys) == Sum(xs) + Sum(ys)
  {
    if ys == [] {
      assert xs + ys == xs;
    } else {
      var n := |ys| - 1;
      assert (xs + ys)[..|xs| + n] == xs + ys[..n];
      SumConcat(xs, ys[..n]);
    }
  }

  /** Pointwise a <= b, strict somewhere or not, carries over to the sums. */
  lemma {:induction false} SumMonotone(xs: seq<int>, ys: seq<int>)
    requires |xs| == |ys|
    requires forall i :: 0 <= i < |xs| ==> xs[i] <= ys[i]
    ensures Sum(xs) <= Sum(ys)
    ensures Sum(xs) == Sum(ys) <==> xs == ys
  {
    if xs != [] {
      var n := |xs| - 1;
      SumMonotone(xs[..n], ys[..n]);
      assert xs == xs[..n] + [xs[n]] && ys == ys[..n] + [ys[n]];
    }
  }

  lemma {:induction false} SumPointwise(xs: seq<int>, ys: seq<int>, zs: seq<int>)
    requires |xs| == |ys| == |zs|
    requires forall i :: 0 <= i < |xs| ==> zs[i] == xs[i] + ys[i]
    ensures Sum(zs) == Sum(xs) + Sum(ys)
  {
    if xs != [] {
      var n := |xs| - 1;
      SumPointwise(xs[..n], ys[..n], zs[..n]);
    }
  }

  lemma {:induction false} SumZero(xs: seq<int>)
    requires forall i :: 0 <= i < |xs| ==> xs[i] == 0
    ensures Sum(xs) == 0
  {
    if xs != [] {
      SumZero(xs[..|xs| - 1]);
    }
  }

  /** A sum of non-negative terms is at least each of them. */
  lemma {:induction false} SumAtLeast(xs: seq<int>, k: nat)
    requires k < |xs|
    requires forall i :: 0 <= i < |xs| ==> xs[i] >= 0
    ensures Sum(xs) >= xs[k]
  {
    var zeros := seq(|xs|, i => 0);
    SumZero(zeros);
    SumUpdate(zeros, k, xs[k]);
    SumMonotone(zeros[k := xs[k]], xs);
  }

  // ---------- stable sort ----------

  ghost predicate TotalPreorder<T(!new)>(leq: (T, T) -> bool) {
    && (forall a, b :: leq(a, b) || leq(b, a))
    && (forall a, b, c :: leq(a, b) && leq(b, c) ==> leq(a, c))
  }

  ghost predicate SortedBy<T>(xs: seq<T>, leq: (T, T) -> bool) {
    forall i, j :: 0 <= i < j < |xs| ==> leq(xs[i], xs[j])
  }

  /** Inserts x behind every element that is not greater than it. */
  function Insert<T>(xs: seq<T>, x: T, leq: (T, T) -> bool): (r: seq<T>)
    ensures |r| == |xs| + 1
  {
    if xs == [] then [x]
    else
      var n := |xs| - 1;
      if leq(xs[n], x) then xs + [x] else Insert(xs[..n], x, leq) + [xs[n]]
  }

  /** Array.prototype.sort: stable, ascending for `leq`. */
  function Sort<T>(xs: seq<T>, leq: (T, T) -> bool): (r: seq<T>)
    ensures |r| == |xs|
  {
    if xs == [] then [] else Insert(Sort(xs[..|xs| - 1], leq), xs[|xs| - 1], leq)
  }

  lemma {:induction false} InsertContents<T>(xs: seq<T>, x: T, leq: (T, T) -> bool)
    ensures multiset(Insert(xs, x, leq)) == multiset(xs) + multiset{x}
  {
    if xs != [] {
      var n := |xs| - 1;
      assert xs == xs[..n] + [xs[n]];
      InsertContents(xs[..n], x, leq);
    }
  }

  lemma {:induction false} SortContents<T>(xs: seq<T>, leq: (T, T) -> bool)
    ensures multiset(Sort(xs, leq)) == multiset(xs)
  {
    if xs != [] {
      var n := |xs| - 1;
      assert xs == xs[..n] + [xs[n]];
      SortContents(xs[..n], leq);
      InsertContents(Sort(xs[..n], leq), xs[n], leq);
    }
  }

  lemma SortMembers<T>(xs: seq<T>, leq: (T, T) -> bool, x: T)
    ensures x in Sort(xs, leq) <==> x in xs
  {
    SortContents(xs, leq);
    assert x in xs <==> x in multiset(xs);
    assert x in Sort(xs, leq) <==> x in multiset(Sort(xs, leq));
  }

  lemma {:induction false} InsertSorted<T(!new)>(xs: seq<T>, x: T, leq: (T, T) -> bool)
    requires TotalPreorder(leq) && SortedBy(xs, leq)
    ensures SortedBy(Insert(xs, x, leq), leq)
  {
    if xs != [] {
      var n := |xs| - 1;
      assert xs == xs[..n] + [xs[n]];
      if !leq(xs[n], x) {
        var r := Insert(xs[..n], x, leq);
        InsertSorted(xs[..n], x, leq);
        InsertContents(xs[..n], x, leq);
        forall i | 0 <= i < |r| ensures leq(r[i], xs[n]) {
          assert r[i] in multiset(r);
          assert r[i] == x || r[i] in xs[..n];
        }
      }
    }
  }

  lemma {:induction false} SortSorted<T(!new)>(xs: seq<T>, leq: (T, T) -> bool)
    requires TotalPreorder(leq)
    ensures SortedBy(Sort(xs, leq), leq)
  {
    if xs != [] {
      var n := |xs| - 1;
      SortSorted(xs[..n], leq);
      InsertSorted(Sort(xs[..n], leq), xs[n], leq);
    }
  }

  /** Sorting leaves a sorted sequence alone (stability). */
  lemma {:induction false} SortIdentity<T>(xs: seq<T>, leq: (T, T) -> bool)
    requires SortedBy(xs, leq)
    ensures Sort(xs, leq) == xs
  {
    if xs != [] {
      var n := |xs| - 1;
      assert xs == xs[..n] + [xs[n]];
      SortIdentity(xs[..n], leq);
      if n > 0 {
        assert leq(xs[n - 1], xs[n]);
      }
    }
  }

  ghost predicate Antisymmetric<T(!new)>(leq: (T, T) -> bool) {
    forall a, b :: leq(a, b) && leq(b, a) ==> a == b
  }

  lemma SortedPrefix<T>(xs: seq<T>, n: nat, leq: (T, T) -> bool)
    requires SortedBy(xs, leq) && n <= |xs|
    ensures SortedBy(xs[..n], leq)
  {
    forall i, j | 0 <= i < j < n ensures leq(xs[..n][i], xs[..n][j]) {
      assert leq(xs[i], xs[j]);
    }
  }

  lemma LastIsGreatest<T(!new)>(xs: seq<T>, x: T, leq: (T, T) -> bool)
    requires TotalPreorder(leq) && SortedBy(xs, leq)
    requires x in xs
    ensures leq(x, xs[|xs| - 1])
  {
    var i :| 0 <= i < |xs| && xs[i] == x;
    assert leq(x, x);
  }

  lemma DropLastMultiset<T>(xs: seq<T>)
    requires xs != []
    ensures multiset(xs[..|xs| - 1]) == multiset(xs) - multiset{xs[|xs| - 1]}
  {
    assert xs == xs[..|xs| - 1] + [xs[|xs| - 1]];
  }

  lemma LastAgree<T(!new)>(xs: seq<T>, ys: seq<T>, leq: (T, T) -> bool)
    requires TotalPreorder(leq) && Antisymmetric(leq)
    requires SortedBy(xs, leq) && SortedBy(ys, leq)
    requires multiset(xs) == multiset(ys) && xs != [] && ys != []
    ensures xs[|xs| - 1] == ys[|ys| - 1]
  {
    var x, y := xs[|xs| - 1], ys[|ys| - 1];
    assert x in multiset(ys) && y in multiset(xs);
    LastIsGreatest(ys, x, leq);
    LastIsGreatest(xs, y, leq);
  }

  /** Sorted sequences of an antisymmetric order are determined by their contents. */
  lemma {:induction false} SortedUnique<T(!new)>(xs: seq<T>, ys: seq<T>, leq: (T, T) -> bool)
    requires TotalPreorder(leq) && Antisymmetric(leq)
    requires SortedBy(xs, leq) && SortedBy(ys, leq)
    requires multiset(xs) == multiset(ys)
    ensures xs == ys
  {
    assert |xs| == |multiset(xs)| == |multiset(ys)| == |ys|;
    if xs != [] {
      var n := |xs| - 1;
      LastAgree(xs, ys, leq);
      assert xs[..n] == ys[..n] by {
        DropLastMultiset(xs);
        DropLastMultiset(ys);
        SortedPrefix(xs, n, leq);
        SortedPrefix(ys, n, leq);
        SortedUnique(xs[..n], ys[..n], leq);
      }
      assert xs == xs[..n] + [xs[n]] && ys == ys[..n] + [ys[n]];
    }
  }

  predicate IntLeq(a: int, b: int) {
    a <= b
  }

  predicate IntGeq(a: int, b: int) {
    a >= b
  }

  predicate StrictlyAscending(xs: seq<int>) {
    forall i, j :: 0 <= i < j < |xs| ==> xs[i] < xs[j]
  }

  predicate NoDup<T(==)>(xs: seq<T>) {
    forall i, j :: 0 <= i < j < |xs| ==> xs[i] != xs[j]
  }

  lemma {:induction false} NoDupMultiset<T>(xs: seq<T>)
    ensures NoDup(xs) <==> forall x :: x in multiset(xs) ==> multiset(xs)[x] == 1
  {
    if xs != [] {
      var n := |xs| - 1;
      var rest, last := xs[..n], xs[n];
      assert xs == rest + [last];
      NoDupMultiset(rest);
      if last in rest {
        var i :| 0 <= i < n && rest[i] == last;
        assert xs[i] == xs[n];
        assert multiset(xs)[last] > 1;
      } else {
        assert last !in multiset(rest);
        assert NoDup(xs) <==> NoDup(rest);
        assert forall x :: x in multiset(rest) ==> multiset(xs)[x] == multiset(rest)[x];
      }
    }
  }

  lemma NoDupAt<T>(xs: seq<T>, i: nat, j: nat)
    requires NoDup(xs) && i < j < |xs|
    ensures xs[i] != xs[j]
  {
  }

  lemma NoDupConstant<T>(xs: seq<T>, x: T)
    requires NoDup(xs) && xs != [] && forall k :: 0 <= k < |xs| ==> xs[k] == x
    ensures xs == [x]
  {
    if |xs| > 1 {
      NoDupAt(xs, 0, 1);
    }
  }

  lemma SortNoDup<T>(xs: seq<T>, leq: (T, T) -> bool)
    requires NoDup(xs)
    ensures NoDup(Sort(xs, leq))
  {
    SortContents(xs, leq);
    NoDupMultiset(xs);
    NoDupMultiset(Sort(xs, leq));
  }
}
