/** The reductions the devices apply to samples: `np.mean` and `np.var`
    (population variance, ddof = 0), over exact reals. */
module Stats {

  /** Integer samples as floats, as numpy promotes them in arithmetic. */
  function ToReals(xs: seq<int>): (r: seq<real>)
    ensures |r| == |xs|
    ensures forall i :: 0 <= i < |xs| ==> r[i] == xs[i] as real
  {
    seq(|xs|, i requires 0 <= i < |xs| => xs[i] as real)
  }

  function Sum(xs: seq<real>): real {
    if xs == [] then 0.0 else Sum(xs[..|xs| - 1]) + xs[|xs| - 1]
  }

  function Mean(xs: seq<real>): real
    requires |xs| > 0
  {
    Sum(xs) / |xs| as real
  }

  function Square(x: real): real {
    x * x
  }

  /** Σ (x - m)² over xs. */
  function SumSqDev(xs: seq<real>, m: real): real {
    if xs == [] then 0.0
    else SumSqDev(xs[..|xs| - 1], m) + Square(xs[|xs| - 1] - m)
  }

  /** Population variance, as `np.var` computes it. */
  function Variance(xs: seq<real>): real
    requires |xs| > 0
  {
    SumSqDev(xs, Mean(xs)) / |xs| as real
  }

  /** The elementwise map x ↦ a + b·x. */
  function Affine(xs: seq<real>, a: real, b: real): (r: seq<real>)
    ensures |r| == |xs|
    ensures forall i :: 0 <= i < |xs| ==> r[i] == a + b * xs[i]
  {
    seq(|xs|, i requires 0 <= i < |xs| => a + b * xs[i])
  }

  lemma AffinePrefix(xs: seq<real>, a: real, b: real)
    requires |xs| > 0
    ensures Affine(xs, a, b)[..|xs| - 1] == Affine(xs[..|xs| - 1], a, b)
  {
    var ys, zs := Affine(xs, a, b)[..|xs| - 1], Affine(xs[..|xs| - 1], a, b);
    assert |ys| == |zs|;
    forall i | 0 <= i < |ys| ensures ys[i] == zs[i] {
    }
  }

  /** k·x as a function of its own: equal arguments then give equal results
      by congruence, which keeps the nonlinear steps below cheap. */
  function Scale(k: real, x: real): real {
    k * x
  }

  lemma ScaleAdd(k: real, x: real, y: real)
    ensures Scale(k, x + y) == Scale(k, x) + k * y
  {
  }

  lemma {:induction false} SumAffine(xs: seq<real>, a: real, b: real)
    ensures Sum(Affine(xs, a, b)) == |xs| as real * a + Scale(b, Sum(xs))
  {
    if xs != [] {
      var n := |xs|;
      AffinePrefix(xs, a, b);
      SumAffine(xs[..n - 1], a, b);
      ScaleAdd(b, Sum(xs[..n - 1]), xs[n - 1]);
    }
  }

  /** If t = n·a + b·s then t/n = a + b·(s/n). */
  lemma MeanStep(mt: real, ms: real, t: real, s: real, n: real, a: real, b: real)
    requires n > 0.0
    requires mt == t / n && ms == s / n
    requires t == n * a + Scale(b, s)
    ensures mt == a + b * ms
  {
    assert s == ms * n;
    assert t == (a + b * ms) * n;
  }

  /** The mean of a + b·x is a + b times the mean of x. */
  lemma MeanAffine(xs: seq<real>, a: real, b: real)
    requires |xs| > 0
    ensures Mean(Affine(xs, a, b)) == a + b * Mean(xs)
  {
    var ys := Affine(xs, a, b);
    SumAffine(xs, a, b);
    MeanStep(Mean(ys), Mean(xs), Sum(ys), Sum(xs), |xs| as real, a, b);
  }

  /** The squared deviations (x - m)² of xs, element by element. */
  function SquaredDeviations(xs: seq<real>, m: real): (r: seq<real>)
    ensures |r| == |xs|
    ensures forall i :: 0 <= i < |xs| ==> r[i] == Square(xs[i] - m)
  {
    seq(|xs|, i requires 0 <= i < |xs| => Square(xs[i] - m))
  }

  /** SumSqDev is the sum of the squared deviations. */
  lemma {:induction false} SumSqDevIsSum(xs: seq<real>, m: real)
    ensures SumSqDev(xs, m) == Sum(SquaredDeviations(xs, m))
  {
    if xs != [] {
      var n := |xs|;
      SumSqDevIsSum(xs[..n - 1], m);
      assert SquaredDeviations(xs, m)[..n - 1] == SquaredDeviations(xs[..n - 1], m);
    }
  }

  /** Scaling every element by k scales the sum by k. */
  lemma {:induction false} SumScaled(us: seq<real>, vs: seq<real>, k: real)
    requires |vs| == |us|
    requires forall i :: 0 <= i < |us| ==> vs[i] == k * us[i]
    ensures Sum(vs) == Scale(k, Sum(us))
  {
    if us != [] {
      var n := |us|;
      SumScaled(us[..n - 1], vs[..n - 1], k);
      ScaleAdd(k, Sum(us[..n - 1]), us[n - 1]);
    }
  }

  /** (b·d)² == b²·d². */
  lemma SquareScaled(b: real, d: real)
    ensures Square(b * d) == b * b * Square(d)
  {
  }

  /** If every deviation of ys from c is b times the matching deviation of
      xs from m, the sums of squared deviations differ by the factor b². */
  lemma SumSqDevScaled(xs: seq<real>, ys: seq<real>, m: real, c: real, b: real)
    requires |ys| == |xs|
    requires forall i :: 0 <= i < |xs| ==> ys[i] - c == b * (xs[i] - m)
    ensures SumSqDev(ys, c) == Scale(b * b, SumSqDev(xs, m))
  {
    var us, vs := SquaredDeviations(xs, m), SquaredDeviations(ys, c);
    forall i | 0 <= i < |us| ensures vs[i] == b * b * us[i] {
      SquareScaled(b, xs[i] - m);
    }
    SumScaled(us, vs, b * b);
    SumSqDevIsSum(xs, m);
    SumSqDevIsSum(ys, c);
  }

  /** The map x ↦ a + b·x scales differences by b. */
  lemma AffineDifference(x: real, m: real, a: real, b: real)
    ensures (a + b * x) - (a + b * m) == b * (x - m)
  {
  }

  /** Deviations of a + b·x from a + b·m are b times those of x from m. */
  lemma SumSqDevAffine(xs: seq<real>, m: real, c: real, a: real, b: real)
    requires c == a + b * m
    ensures SumSqDev(Affine(xs, a, b), c) == Scale(b * b, SumSqDev(xs, m))
  {
    var ys := Affine(xs, a, b);
    forall i | 0 <= i < |xs| ensures ys[i] - c == b * (xs[i] - m) {
      AffineDifference(xs[i], m, a, b);
    }
    SumSqDevScaled(xs, ys, m, c, b);
  }

  /** If sy = k·sx then sy/n = k·(sx/n). */
  lemma VarianceStep(vy: real, vx: real, sy: real, sx: real, n: real, k: real)
    requires n > 0.0
    requires vy == sy / n && vx == sx / n
    requires sy == Scale(k, sx)
    ensures vy == k * vx
  {
    assert sx == vx * n;
    assert sy == (k * vx) * n;
  }

  /** The variance of a + b·x is b² times the variance of x. */
  lemma VarianceAffine(xs: seq<real>, a: real, b: real)
    requires |xs| > 0
    ensures Variance(Affine(xs, a, b)) == b * b * Variance(xs)
  {
    var ys := Affine(xs, a, b);
    MeanAffine(xs, a, b);
    SumSqDevAffine(xs, Mean(xs), Mean(ys), a, b);
    VarianceStep(Variance(ys), Variance(xs), SumSqDev(ys, Mean(ys)), SumSqDev(xs, Mean(xs)), |xs| as real, b * b);
  }

  lemma {:induction false} SumSqDevNonNegative(xs: seq<real>, m: real)
    ensures SumSqDev(xs, m) >= 0.0
  {
    if xs != [] {
      SumSqDevNonNegative(xs[..|xs| - 1], m);
      var d := xs[|xs| - 1] - m;
      assert d * d >= 0.0;
    }
  }

  /** A variance is never negative. */
  lemma VarianceNonNegative(xs: seq<real>)
    requires |xs| > 0
    ensures Variance(xs) >= 0.0
  {
    SumSqDevNonNegative(xs, Mean(xs));
  }

  lemma {:induction false} SumConstant(xs: seq<real>, c: real)
    requires forall i :: 0 <= i < |xs| ==> xs[i] == c
    ensures Sum(xs) == |xs| as real * c
    ensures SumSqDev(xs, c) == 0.0
  {
    if xs != [] {
      SumConstant(xs[..|xs| - 1], c);
    }
  }

  /** A column in which every shot gave the same value c has mean c and
      variance 0. */
  lemma ConstantColumn(xs: seq<real>, c: real)
    requires |xs| > 0
    requires forall i :: 0 <= i < |xs| ==> xs[i] == c
    ensures Mean(xs) == c
    ensures Variance(xs) == 0.0
  {
    SumConstant(xs, c);
    assert Mean(xs) == c;
  }

  lemma {:induction false} SumBounds(xs: seq<real>, lo: real, hi: real)
    requires forall i :: 0 <= i < |xs| ==> lo <= xs[i] <= hi
    ensures |xs| as real * lo <= Sum(xs) <= |xs| as real * hi
  {
    if xs != [] {
      SumBounds(xs[..|xs| - 1], lo, hi);
    }
  }

  lemma {:induction false} SumNonNegative(xs: seq<real>)
    requires forall i :: 0 <= i < |xs| ==> xs[i] >= 0.0
    ensures Sum(xs) >= 0.0
  {
    if xs != [] {
      SumNonNegative(xs[..|xs| - 1]);
    }
  }

  /** The mean lies between the smallest and largest possible sample. */
  lemma MeanBounds(xs: seq<real>, lo: real, hi: real)
    requires |xs| > 0
    requires forall i :: 0 <= i < |xs| ==> lo <= xs[i] <= hi
    ensures lo <= Mean(xs) <= hi
  {
    SumBounds(xs, lo, hi);
    var n := |xs| as real;
    assert n * lo / n == lo;
    assert n * hi / n == hi;
  }
}
