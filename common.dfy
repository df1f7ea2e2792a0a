/** Helpers shared by both implementations: an optional value, the constant
    pi, left-to-right sums (the order in which Python's `sum` accumulates)
    and repetition. */
module Common {

  datatype Option<+T> = None | Some(value: T)

  /** The double closest to pi, the value of both Python's `math.pi` and
      Kotlin's `kotlin.math.PI`. No proof depends on its digits. */
  const Pi: real := 3.141592653589793

  /** `sum(f(x) for x in xs)`: accumulates from the left, starting at 0. */
  function SumOf<T>(xs: seq<T>, f: T -> real): real
  {
    if xs == [] then 0.0 else SumOf(xs[..|xs| - 1], f) + f(xs[|xs| - 1])
  }

  function Identity(x: real): real { x }

  /** `sum(xs)` over reals. */
  function Sum(xs: seq<real>): real
  {
    SumOf(xs, Identity)
  }

  /** `sum(ns)` over integers. */
  function SumInt(ns: seq<int>): int
  {
    if ns == [] then 0 else SumInt(ns[..|ns| - 1]) + ns[|ns| - 1]
  }

  /** Appending one amount adds exactly that amount to the sum. */
  lemma SumSnoc(xs: seq<real>, x: real)
    ensures Sum(xs + [x]) == Sum(xs) + x
  {
    assert (xs + [x])[..|xs|] == xs;
  }

  /** Appending one integer adds exactly that integer to the sum. */
  lemma SumIntSnoc(ns: seq<int>, n: int)
    ensures SumInt(ns + [n]) == SumInt(ns) + n
  {
    assert (ns + [n])[..|ns|] == ns;
  }

  /** A sum over a concatenation splits into the two sums. */
  lemma {:induction false} SumOfAppend<T>(xs: seq<T>, ys: seq<T>, f: T -> real)
    ensures SumOf(xs + ys, f) == SumOf(xs, f) + SumOf(ys, f)
  {
    if ys != [] {
      var zs := xs + ys;
      assert zs[..|zs| - 1] == xs + ys[..|ys| - 1];
      SumOfAppend(xs, ys[..|ys| - 1], f);
    } else {
      assert xs + ys == xs;
    }
  }

  /** A one-term sum is that term. */
  lemma SumOfSingleton<T>(x: T, f: T -> real)
    ensures SumOf([x], f) == f(x)
  {
    assert [x][..0] == [];
  }

  /** Taking one term out of a sum leaves the sum of the others. */
  lemma {:induction false} SumOfRemove<T>(ys: seq<T>, j: nat, f: T -> real)
    requires j < |ys|
    ensures SumOf(ys, f) == SumOf(ys[..j] + ys[j + 1..], f) + f(ys[j])
  {
    var before, after := ys[..j], ys[j + 1..];
    var upTo := before + [ys[j]];
    assert ys == upTo + after;
    SumOfAppend(upTo, after, f);
    SumOfAppend(before, [ys[j]], f);
    SumOfSingleton(ys[j], f);
    SumOfAppend(before, after, f);
  }

  /** Taking the same element out of two sequences with equal multisets
      leaves sequences with equal multisets. */
  lemma {:induction false} MultisetRemove<T>(xs: seq<T>, ys: seq<T>, j: nat)
    requires |xs| > 0 && j < |ys| && ys[j] == xs[|xs| - 1]
    requires multiset(xs) == multiset(ys)
    ensures multiset(xs[..|xs| - 1]) == multiset(ys[..j] + ys[j + 1..])
  {
    var last := ys[j];
    var front, before, after := xs[..|xs| - 1], ys[..j], ys[j + 1..];
    assert xs == front + [last];
    assert ys == before + [last] + after;
    var a, b := multiset(front), multiset(before) + multiset(after);
    assert multiset(xs) == a + multiset{last};
    assert multiset(ys) == b + multiset{last};
    assert a == b by {
      assert a == a + multiset{last} - multiset{last};
      assert b == b + multiset{last} - multiset{last};
    }
  }

  /** Reordering the terms does not change the sum. */
  lemma {:induction false} SumOfPermutation<T>(xs: seq<T>, ys: seq<T>, f: T -> real)
    requires multiset(xs) == multiset(ys)
    ensures SumOf(xs, f) == SumOf(ys, f)
    decreases |xs|
  {
    if xs != [] {
      var last := xs[|xs| - 1];
      assert last in multiset(ys);
      var j :| 0 <= j < |ys| && ys[j] == last;
      MultisetRemove(xs, ys, j);
      SumOfPermutation(xs[..|xs| - 1], ys[..j] + ys[j + 1..], f);
      SumOfRemove(ys, j, f);
    } else {
      assert |ys| == |multiset(ys)| == 0;
    }
  }

  /** The sum of a sequence whose elements are `c * xs[i]` is `c` times the
      sum of `xs`. */
  lemma {:induction false} SumScaled(xs: seq<real>, ys: seq<real>, c: real)
    requires |ys| == |xs|
    requires forall i :: 0 <= i < |xs| ==> ys[i] == c * xs[i]
    ensures Sum(ys) == c * Sum(xs)
  {
    if xs != [] {
      var n := |xs|;
      SumScaled(xs[..n - 1], ys[..n - 1], c);
    }
  }

  /** `n` copies of `x`, in the order `for _ in range(n): xs.append(x)`
      produces them. */
  function Repeat<T>(x: T, n: nat): (r: seq<T>)
    ensures |r| == n && forall i :: 0 <= i < n ==> r[i] == x
  {
    if n == 0 then [] else Repeat(x, n - 1) + [x]
  }

  /** `n` copies of one term sum to `n` times that term. */
  lemma {:induction false} SumOfRepeat<T>(x: T, n: nat, f: T -> real)
    ensures SumOf(Repeat(x, n), f) == n as real * f(x)
  {
    if n > 0 {
      assert Repeat(x, n)[..n - 1] == Repeat(x, n - 1);
      SumOfRepeat(x, n - 1, f);
    }
  }
}
