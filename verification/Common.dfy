/** Optional values, and the two folds over sequences that the counting and ordering proofs share. */
module Common {

  datatype Option<+T> = None | Some(value: T)

  /** The sum of `f` over `xs`. */
  function Total<T>(xs: seq<T>, f: T -> nat): nat
  {
    if xs == [] then 0 else Total(xs[..|xs| - 1], f) + f(xs[|xs| - 1])
  }

  lemma TotalPush<T>(xs: seq<T>, x: T, f: T -> nat)
    ensures Total(xs + [x], f) == Total(xs, f) + f(x)
  {
    assert (xs + [x])[..|xs|] == xs;
  }

  /** The sums of no element and of one. */
  lemma TotalFew<T>(x: T, f: T -> nat)
    ensures Total([], f) == 0 && Total([x], f) == f(x)
  {
    assert [x][..0] == [];
  }

  lemma {:induction false} TotalUpdate<T>(xs: seq<T>, i: nat, y: T, f: T -> nat)
    requires i < |xs|
    ensures Total(xs[i := y], f) + f(xs[i]) == Total(xs, f) + f(y)
  {
    var n := |xs| - 1;
    if i == n {
      assert xs[i := y][..n] == xs[..n];
    } else {
      assert xs[i := y][..n] == xs[..n][i := y];
      TotalUpdate(xs[..n], i, y, f);
    }
  }

  lemma {:induction false} TotalElement<T>(xs: seq<T>, i: nat, f: T -> nat)
    requires i < |xs|
    ensures f(xs[i]) <= Total(xs, f)
  {
    if i < |xs| - 1 {
      TotalElement(xs[..|xs| - 1], i, f);
    }
  }

  lemma {:induction false} TotalLeq<T>(xs: seq<T>, f: T -> nat, g: T -> nat)
    requires forall i :: 0 <= i < |xs| ==> f(xs[i]) <= g(xs[i])
    ensures Total(xs, f) <= Total(xs, g)
  {
    if xs != [] {
      TotalLeq(xs[..|xs| - 1], f, g);
    }
  }

  lemma {:induction false} TotalAppend<T>(xs: seq<T>, ys: seq<T>, f: T -> nat)
    ensures Total(xs + ys, f) == Total(xs, f) + Total(ys, f)
  {
    if ys == [] {
      assert xs + ys == xs;
    } else {
      var n := |ys| - 1;
      assert (xs + ys)[..|xs| + n] == xs + ys[..n];
      TotalAppend(xs, ys[..n], f);
    }
  }

  lemma {:induction false} TotalPositive<T>(xs: seq<T>, f: T -> nat) returns (i: nat)
    requires Total(xs, f) > 0
    ensures i < |xs| && f(xs[i]) > 0
  {
    i := |xs| - 1;
    if f(xs[i]) == 0 {
      i := TotalPositive(xs[..i], f);
    }
  }

  /** The concatenation of `f(x)` for `x` in `xs`, in order. */
  function FlatMap<T, U>(xs: seq<T>, f: T -> seq<U>): seq<U>
  {
    if xs == [] then [] else FlatMap(xs[..|xs| - 1], f) + f(xs[|xs| - 1])
  }

  lemma FlatMapPush<T, U>(xs: seq<T>, x: T, f: T -> seq<U>)
    ensures FlatMap(xs + [x], f) == FlatMap(xs, f) + f(x)
  {
    assert (xs + [x])[..|xs|] == xs;
  }

  lemma FlatMapFew<T, U>(x: T, f: T -> seq<U>)
    ensures FlatMap([], f) == [] && FlatMap([x], f) == f(x)
  {
    assert [x][..0] == [];
    assert [] + f(x) == f(x);
  }

  lemma {:induction false} FlatMapAppend<T, U>(xs: seq<T>, ys: seq<T>, f: T -> seq<U>)
    ensures FlatMap(xs + ys, f) == FlatMap(xs, f) + FlatMap(ys, f)
  {
    if ys == [] {
      assert xs + ys == xs;
    } else {
      var n := |ys| - 1;
      assert (xs + ys)[..|xs| + n] == xs + ys[..n];
      FlatMapAppend(xs, ys[..n], f);
    }
  }

  /** Mapping twice is mapping once, when it is so for each element. */
  lemma {:induction false} FlatMapTwice<T, U, V>(xs: seq<T>, f: T -> seq<U>, g: U -> seq<V>, h: T -> seq<V>)
    requires forall i :: 0 <= i < |xs| ==> FlatMap(f(xs[i]), g) == h(xs[i])
    ensures FlatMap(FlatMap(xs, f), g) == FlatMap(xs, h)
  {
    if xs != [] {
      var n := |xs| - 1;
      FlatMapTwice(xs[..n], f, g, h);
      FlatMapAppend(FlatMap(xs[..n], f), f(xs[n]), g);
    }
  }

  /** Counting what the elements of `xs` are mapped to. */
  function Each<T, U>(f: T -> seq<U>, g: U -> nat): T -> nat {
    (x: T) => Total(f(x), g)
  }

  lemma {:induction false} TotalFlatMap<T, U>(xs: seq<T>, f: T -> seq<U>, g: U -> nat)
    ensures Total(FlatMap(xs, f), g) == Total(xs, Each(f, g))
  {
    if xs != [] {
      TotalFlatMap(xs[..|xs| - 1], f, g);
      TotalAppend(FlatMap(xs[..|xs| - 1], f), f(xs[|xs| - 1]), g);
    }
  }

  lemma TotalPrefix<T>(xs: seq<T>, ys: seq<T>, f: T -> nat)
    requires xs <= ys
    ensures Total(xs, f) <= Total(ys, f)
  {
    assert ys == xs + ys[|xs|..];
    TotalAppend(xs, ys[|xs|..], f);
  }

  // ----- histories

  /** A history that was `first` has grown by `n` entries, all as `f` says. */
  ghost predicate Grown<T>(first: seq<T>, now: seq<T>, n: nat, f: T -> bool) {
    && |now| == |first| + n && first <= now
    && forall j :: |first| <= j < |now| ==> f(now[j])
  }

  lemma GrownNone<T>(first: seq<T>, f: T -> bool)
    ensures Grown(first, first, 0, f)
  {
  }

  /** Growth in two stages; what the entries are may only be said anew before there is one. */
  lemma GrownMore<T>(first: seq<T>, mid: seq<T>, now: seq<T>, n: nat, k: nat, f: T -> bool, g: T -> bool)
    requires Grown(first, mid, n, f) && Grown(mid, now, k, g) && (n > 0 ==> f == g)
    ensures Grown(first, now, n + k, g)
  {
  }
}
