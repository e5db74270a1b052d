/** Sums of weighted reals, taken from the left as Array.reduce takes them. */
module Weighted {
  import opened Money

  function Count(ns: seq<nat>, n: nat): nat
    requires n <= |ns|
  {
    if n == 0 then 0 else Count(ns, n - 1) + ns[n - 1]
  }

  /** ns[0] * xs[0] + ... + ns[n-1] * xs[n-1] */
  function Sum(ns: seq<nat>, xs: seq<real>, n: nat): real
    requires n <= |ns| && n <= |xs|
  {
    if n == 0 then 0.0 else Sum(ns, xs, n - 1) + Worth(ns[n - 1], xs[n - 1])
  }

  /** Terms rounded to the céntimo move the sum by at most half a céntimo per unit of weight. */
  lemma {:induction false} SumNear(ns: seq<nat>, xs: seq<real>, ys: seq<real>, n: nat)
    requires n <= |ns| && n <= |xs| && n <= |ys|
    requires forall i :: 0 <= i < n ==> Near(xs[i], ys[i], 0.005)
    ensures Near(Sum(ns, xs, n), Sum(ns, ys, n), 0.005 * Count(ns, n) as real)
  {
    if n > 0 {
      SumNear(ns, xs, ys, n - 1);
      var w, x, y := ns[n - 1] as real, xs[n - 1], ys[n - 1];
      ScaledError(w, x, y, 0.005);
      assert Near(w * x, w * y, 0.005 * w);
      assert Sum(ns, xs, n) == Sum(ns, xs, n - 1) + w * x;
      assert Sum(ns, ys, n) == Sum(ns, ys, n - 1) + w * y;
      assert Count(ns, n) as real == Count(ns, n - 1) as real + w;
    }
  }

  lemma {:induction false} SumScaled(ns: seq<nat>, xs: seq<real>, ys: seq<real>, n: nat, k: real)
    requires n <= |ns| && n <= |xs| && n <= |ys|
    requires forall i :: 0 <= i < n && ns[i] > 0 ==> xs[i] == k * ys[i]
    ensures Sum(ns, xs, n) == k * Sum(ns, ys, n)
  {
    if n > 0 {
      SumScaled(ns, xs, ys, n - 1, k);
      var w, y := ns[n - 1] as real, ys[n - 1];
      assert w * xs[n - 1] == k * (w * y) by {
        if ns[n - 1] > 0 { assert w * (k * y) == k * (w * y); }
      }
      Distribute(k, Sum(ns, ys, n - 1), w * y);
    }
  }

  lemma {:induction false} SumAdds(ns: seq<nat>, xs: seq<real>, ys: seq<real>, zs: seq<real>, n: nat)
    requires n <= |ns| && n <= |xs| && n <= |ys| && n <= |zs|
    requires forall i :: 0 <= i < n ==> zs[i] == xs[i] + ys[i]
    ensures Sum(ns, zs, n) == Sum(ns, xs, n) + Sum(ns, ys, n)
  {
    if n > 0 {
      SumAdds(ns, xs, ys, zs, n - 1);
      Distribute(ns[n - 1] as real, xs[n - 1], ys[n - 1]);
    }
  }
}
