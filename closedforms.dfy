/** The statistics of a polynomial that is one variable, in closed form for
    the families whose values the repository's tests fix: normal and
    Laplace (symmetrical), uniform, gamma and Weibull (one-sided right). */
module ClosedForms {
  import opened Wrappers
  import opened RealMath
  import opened PolyVars
  import opened MomentTable
  import opened Statistics
  import opened PolyMoments

  /** A sequence of moments given by their values, none failing. */
  function Exact(A: nat -> real): MomentSequence
  {
    (k: nat) => Ok(A(k))
  }

  /** The moments of orders 1 to 4 of the single variable g are the
      binomial expansions over its table entries. */
  lemma SingleExpansions(g: string, dist: map<string, PolyVar>, K: Kernel)
    requires g in dist && Adjusted(dist[g], K, 4).Ok?
    ensures forall k: nat :: 1 <= k <= 4 ==>
      MomentsOf(Single(g), dist, EvalOf(K))(k) == Ok(BinomialSum(k, dist[g].translation, ValuesOf(TableOf(dist[g], K)), 0))
  {
    var V := dist[g];
    forall k: nat | 1 <= k <= 4
      ensures MomentsOf(Single(g), dist, EvalOf(K))(k) == Ok(BinomialSum(k, V.translation, ValuesOf(TableOf(V, K)), 0))
    {
      MomentsAt(Single(g), dist, EvalOf(K), k);
      SingleVariableMoment(g, dist, EvalOf(K), k);
      TableOkUpTo(V, K, 4);
      assert Adjusted(V, K, k) == TableOf(V, K)(k);
      ComputeEvalExpands(V, K, k);
    }
  }

  /** The mean, variance, skewness and kurtosis of moments M that expand
      binomially, with translation t, over entries 1, a1, a2, a3 and a4:
      the mean is moved by t, the other three do not depend on it. */
  predicate EntryStatistics(M: MomentSequence, t: real, sqrt: real -> real, a1: real, a2: real, a3: real, a4: real)
  {
    && MeanOf(M) == Ok(ShiftFirst(t, a1))
    && VarianceOf(M) == Ok(Variance(a2, a1))
    && SkewOf(M, sqrt) == Skewness(a1, Variance(a2, a1), a3, sqrt(Variance(a2, a1)))
    && KurtOf(M) == Kurtosis(a1, a2, a3, a4)
  }

  /** For the polynomial that is the single variable g, whose table entries
      of orders 0 to 4 are 1, a1, a2, a3 and a4, the statistics are those
      of the untranslated entries, with the mean moved by the translation. */
  lemma SingleStatistics(g: string, dist: map<string, PolyVar>, K: Kernel, a1: real, a2: real, a3: real, a4: real)
    requires g in dist
    requires Adjusted(dist[g], K, 0) == Ok(1.0)
    requires Adjusted(dist[g], K, 1) == Ok(a1) && Adjusted(dist[g], K, 2) == Ok(a2)
    requires Adjusted(dist[g], K, 3) == Ok(a3) && Adjusted(dist[g], K, 4) == Ok(a4)
    ensures EntryStatistics(MomentsOf(Single(g), dist, EvalOf(K)), dist[g].translation, K.sqrt, a1, a2, a3, a4)
  {
    var A := ValuesOf(TableOf(dist[g], K));
    assert A(0) == 1.0 && A(1) == a1 && A(2) == a2 && A(3) == a3 && A(4) == a4;
    SingleExpansions(g, dist, K);
    ExactStatistics(MomentsOf(Single(g), dist, EvalOf(K)), A, dist[g].translation, K.sqrt, a1, a2, a3, a4);
  }

  /** The same for any moments M that expand binomially, with translation
      t, over entries A of values 1, a1, a2, a3 and a4. */
  lemma ExactStatistics(M: MomentSequence, A: nat -> real, t: real, sqrt: real -> real,
                        a1: real, a2: real, a3: real, a4: real)
    requires A(0) == 1.0 && A(1) == a1 && A(2) == a2 && A(3) == a3 && A(4) == a4
    requires forall k: nat :: 1 <= k <= 4 ==> M(k) == Ok(BinomialSum(k, t, A, 0))
    ensures MeanOf(M) == Ok(ShiftFirst(t, a1))
    ensures VarianceOf(M) == Ok(Variance(a2, a1))
    ensures SkewOf(M, sqrt) == Skewness(a1, Variance(a2, a1), a3, sqrt(Variance(a2, a1)))
    ensures KurtOf(M) == Kurtosis(a1, a2, a3, a4)
  {
    assert Exact(A)(1) == Ok(a1) && Exact(A)(2) == Ok(a2) && Exact(A)(3) == Ok(a3) && Exact(A)(4) == Ok(a4);
    TranslationInvariance(M, Exact(A), A, t, sqrt);
    assert MeanOf(Exact(A)) == Ok(a1);
    VarianceAt(Exact(A), a2, a1);
    SkewAt(Exact(A), sqrt, a1, a2, a3);
    KurtAt(Exact(A), a1, a2, a3, a4);
  }

  // ---------------------------------------------------------------------
  // Normal, symmetrical: mean m, variance s^2, skewness 0, kurtosis 3

  /** The symmetrical normal table: s^k (k-1)!! at even orders, 0 at odd. */
  function NormalEntry(s: real, k: nat): real {
    if k % 2 == 1 then 0.0 else Times(DoubleFactorial(k - 1) as real, Pow(s, k))
  }

  lemma NormalEntries(V: PolyVar, K: Kernel, k: nat)
    requires FamilyOf(V.distribution) == Some(Normal) && SymmetryOf(V.symmetry) == Some(Symmetrical)
    ensures Adjusted(V, K, k) == Ok(NormalEntry(V.scale, k))
  {
    var raw := NormalRow(V.scale, K, k);
    assert RawMoment(V, K, k) == Ok(raw);
    if k % 2 == 0 {
      assert 2.0 * raw == Times(DoubleFactorial(k - 1) as real, Pow(V.scale, k));
    }
  }

  lemma NormalValues(s: real)
    ensures NormalEntry(s, 0) == 1.0 && NormalEntry(s, 1) == 0.0 && NormalEntry(s, 2) == Pow(s, 2)
    ensures NormalEntry(s, 3) == 0.0 && NormalEntry(s, 4) == Times(3.0, Pow(s, 4))
  {
    assert DoubleFactorial(-1) == 1 && DoubleFactorial(1) == 1 && DoubleFactorial(3) == 3;
  }

  lemma NormalVariance(s: real)
    ensures Variance(Pow(s, 2), 0.0) == Pow(s, 2)
  {
    SmallPowers(0.0);
  }

  lemma NormalSkewness(s: real, sd: real)
    ensures Skewness(0.0, Pow(s, 2), 0.0, sd) == if sd == 0.0 then Err(NotFinite) else Ok(0.0)
  {
    SmallPowers(0.0);
    SkewnessIs(0.0, Pow(s, 2), 0.0, sd, 0.0);
  }

  lemma NormalKurtosis(s: real)
    ensures Kurtosis(0.0, Pow(s, 2), 0.0, Times(3.0, Pow(s, 4))) == if s == 0.0 then Err(NotFinite) else Ok(3.0)
  {
    SmallPowers(0.0);
    NormalVariance(s);
    SquareOfSquare(s);
    SquareZero(s);
    KurtosisIs(0.0, Pow(s, 2), 0.0, Times(3.0, Pow(s, 4)), Pow(s, 2), 3.0);
  }

  /** The statistics the repository's test expects of a normal variable
      with translation t and scale s. The kurtosis divides by the fourth
      power of the scale, so a zero scale has none. */
  predicate NormalLaw(M: MomentSequence, t: real, s: real, sqrt: real -> real)
  {
    && MeanOf(M) == Ok(t)
    && VarianceOf(M) == Ok(Pow(s, 2))
    && SkewOf(M, sqrt) == (if sqrt(Pow(s, 2)) == 0.0 then Err(NotFinite) else Ok(0.0))
    && KurtOf(M) == (if s == 0.0 then Err(NotFinite) else Ok(3.0))
  }

  /** The test case for the normal family. */
  lemma NormalStatistics(g: string, dist: map<string, PolyVar>, K: Kernel)
    requires g in dist
    requires FamilyOf(dist[g].distribution) == Some(Normal) && SymmetryOf(dist[g].symmetry) == Some(Symmetrical)
    ensures NormalLaw(MomentsOf(Single(g), dist, EvalOf(K)), dist[g].translation, dist[g].scale, K.sqrt)
  {
    NormalEntries(dist[g], K, 0);
    NormalEntries(dist[g], K, 1);
    NormalEntries(dist[g], K, 2);
    NormalEntries(dist[g], K, 3);
    NormalEntries(dist[g], K, 4);
    var t, s := dist[g].translation, dist[g].scale;
    NormalValues(s);
    var M := MomentsOf(Single(g), dist, EvalOf(K));
    SingleStatistics(g, dist, K, 0.0, Pow(s, 2), 0.0, Times(3.0, Pow(s, 4)));
    NormalFromEntries(M, t, s, K.sqrt);
  }

  lemma NormalFromEntries(M: MomentSequence, t: real, s: real, sqrt: real -> real)
    requires EntryStatistics(M, t, sqrt, 0.0, Pow(s, 2), 0.0, Times(3.0, Pow(s, 4)))
    ensures NormalLaw(M, t, s, sqrt)
  {
    NormalVariance(s);
    NormalSkewness(s, sqrt(Pow(s, 2)));
    NormalKurtosis(s);
  }

  // ---------------------------------------------------------------------
  // Laplace, symmetrical: mean m, variance 2 s^2, skewness 0, kurtosis 6

  /** The symmetrical Laplace table: s^k k! at even orders, 0 at odd. */
  function LaplaceEntry(s: real, k: nat): real {
    if k % 2 == 1 then 0.0 else Times(Factorial(k) as real, Pow(s, k))
  }

  lemma LaplaceEntries(V: PolyVar, K: Kernel, k: nat)
    requires FamilyOf(V.distribution) == Some(Laplace) && SymmetryOf(V.symmetry) == Some(Symmetrical)
    ensures Adjusted(V, K, k) == Ok(LaplaceEntry(V.scale, k))
  {
    var raw := LaplaceRow(V.scale, k);
    assert RawMoment(V, K, k) == Ok(raw);
    if k % 2 == 0 {
      assert 2.0 * raw == Times(Factorial(k) as real, Pow(V.scale, k));
    }
  }

  lemma LaplaceValues(s: real)
    ensures LaplaceEntry(s, 0) == 1.0 && LaplaceEntry(s, 1) == 0.0 && LaplaceEntry(s, 2) == Times(2.0, Pow(s, 2))
    ensures LaplaceEntry(s, 3) == 0.0 && LaplaceEntry(s, 4) == Times(24.0, Pow(s, 4))
  {
    assert Factorial(0) == 1 && Factorial(2) == 2 && Factorial(4) == 24;
  }

  lemma LaplaceVariance(s: real)
    ensures Variance(Times(2.0, Pow(s, 2)), 0.0) == Times(2.0, Pow(s, 2))
  {
    SmallPowers(0.0);
  }

  lemma LaplaceSkewness(s: real, sd: real)
    ensures Skewness(0.0, Times(2.0, Pow(s, 2)), 0.0, sd) == if sd == 0.0 then Err(NotFinite) else Ok(0.0)
  {
    SmallPowers(0.0);
    SkewnessIs(0.0, Times(2.0, Pow(s, 2)), 0.0, sd, 0.0);
  }

  lemma LaplaceKurtosis(s: real)
    ensures Kurtosis(0.0, Times(2.0, Pow(s, 2)), 0.0, Times(24.0, Pow(s, 4))) == if s == 0.0 then Err(NotFinite) else Ok(6.0)
  {
    SmallPowers(0.0);
    LaplaceVariance(s);
    var p2, v := Pow(s, 2), Times(2.0, Pow(s, 2));
    assert Pow(v, 2) == v * v by {
      SmallPowers(v);
    }
    assert Pow(s, 4) == p2 * p2 by {
      SquareOfSquare(s);
      SmallPowers(p2);
    }
    assert Times(24.0, Pow(s, 4)) == Times(6.0, Pow(v, 2));
    SquareZero(s);
    KurtosisIs(0.0, Times(2.0, Pow(s, 2)), 0.0, Times(24.0, Pow(s, 4)), Times(2.0, Pow(s, 2)), 6.0);
  }

  /** The statistics the repository's test expects of a Laplace variable
      with translation t and scale s. */
  predicate LaplaceLaw(M: MomentSequence, t: real, s: real, sqrt: real -> real)
  {
    && MeanOf(M) == Ok(t)
    && VarianceOf(M) == Ok(Times(2.0, Pow(s, 2)))
    && SkewOf(M, sqrt) == (if sqrt(Times(2.0, Pow(s, 2))) == 0.0 then Err(NotFinite) else Ok(0.0))
    && KurtOf(M) == (if s == 0.0 then Err(NotFinite) else Ok(6.0))
  }

  /** The test case for the Laplace family. */
  lemma LaplaceStatistics(g: string, dist: map<string, PolyVar>, K: Kernel)
    requires g in dist
    requires FamilyOf(dist[g].distribution) == Some(Laplace) && SymmetryOf(dist[g].symmetry) == Some(Symmetrical)
    ensures LaplaceLaw(MomentsOf(Single(g), dist, EvalOf(K)), dist[g].translation, dist[g].scale, K.sqrt)
  {
    LaplaceEntries(dist[g], K, 0);
    LaplaceEntries(dist[g], K, 1);
    LaplaceEntries(dist[g], K, 2);
    LaplaceEntries(dist[g], K, 3);
    LaplaceEntries(dist[g], K, 4);
    var t, s := dist[g].translation, dist[g].scale;
    LaplaceValues(s);
    var M := MomentsOf(Single(g), dist, EvalOf(K));
    SingleStatistics(g, dist, K, 0.0, Times(2.0, Pow(s, 2)), 0.0, Times(24.0, Pow(s, 4)));
    LaplaceFromEntries(M, t, s, K.sqrt);
  }

  lemma LaplaceFromEntries(M: MomentSequence, t: real, s: real, sqrt: real -> real)
    requires EntryStatistics(M, t, sqrt, 0.0, Times(2.0, Pow(s, 2)), 0.0, Times(24.0, Pow(s, 4)))
    ensures LaplaceLaw(M, t, s, sqrt)
  {
    LaplaceVariance(s);
    LaplaceSkewness(s, sqrt(Times(2.0, Pow(s, 2))));
    LaplaceKurtosis(s);
  }

  // ---------------------------------------------------------------------
  // Uniform, one-sided right: mean m + s/2, variance s^2/12, skewness 0,
  // kurtosis 9/5

  /** The one-sided uniform table: s^k/(k+1). */
  function UniformEntry(s: real, k: nat): real {
    Pow(s, k) / (k as real + 1.0)
  }

  lemma UniformEntries(V: PolyVar, K: Kernel, k: nat)
    requires FamilyOf(V.distribution) == Some(Uniform) && SymmetryOf(V.symmetry) == Some(OneSidedRight)
    ensures Adjusted(V, K, k) == Ok(UniformEntry(V.scale, k))
  {
    var raw := UniformRow(V.scale, k);
    assert RawMoment(V, K, k) == Ok(raw);
    assert 2.0 * raw == UniformEntry(V.scale, k);
  }

  lemma UniformValues(s: real)
    ensures UniformEntry(s, 0) == 1.0 && UniformEntry(s, 1) == s / 2.0 && UniformEntry(s, 2) == s * s / 3.0
    ensures UniformEntry(s, 3) == s * s * s / 4.0 && UniformEntry(s, 4) == s * s * s * s / 5.0
  {
    SmallPowers(s);
  }

  lemma UniformVariance(s: real)
    ensures Variance(UniformEntry(s, 2), UniformEntry(s, 1)) == Pow(s, 2) / 12.0
  {
    UniformValues(s);
    SmallPowers(s);
    SmallPowers(s / 2.0);
  }

  lemma UniformSkewness(s: real, sd: real)
    ensures Skewness(UniformEntry(s, 1), Pow(s, 2) / 12.0, UniformEntry(s, 3), sd)
         == if sd == 0.0 then Err(NotFinite) else Ok(0.0)
  {
    UniformValues(s);
    SmallPowers(s);
    SmallPowers(s / 2.0);
    assert ThirdAboutMeanOf(UniformEntry(s, 1), Pow(s, 2) / 12.0, UniformEntry(s, 3)) == 0.0;
    SkewnessIs(UniformEntry(s, 1), Pow(s, 2) / 12.0, UniformEntry(s, 3), sd, 0.0);
  }

  lemma UniformKurtosis(s: real)
    ensures Kurtosis(UniformEntry(s, 1), UniformEntry(s, 2), UniformEntry(s, 3), UniformEntry(s, 4))
         == if s == 0.0 then Err(NotFinite) else Ok(9.0 / 5.0)
  {
    UniformValues(s);
    UniformVariance(s);
    var v := Pow(s, 2) / 12.0;
    FourthExpanded(s / 2.0, s * s / 3.0, s * s * s / 4.0, s * s * s * s / 5.0);
    assert Pow(v, 2) == s * s * s * s / 144.0 by {
      SmallPowers(s);
      SmallPowers(v);
    }
    assert FourthAboutMeanOf(UniformEntry(s, 1), UniformEntry(s, 2), UniformEntry(s, 3), UniformEntry(s, 4))
        == Times(9.0 / 5.0, Pow(v, 2));
    SquareZero(s);
    KurtosisIs(UniformEntry(s, 1), UniformEntry(s, 2), UniformEntry(s, 3), UniformEntry(s, 4), v, 9.0 / 5.0);
  }

  /** The statistics the repository's test expects of a one-sided uniform
      variable with translation t and scale s. */
  predicate UniformLaw(M: MomentSequence, t: real, s: real, sqrt: real -> real)
  {
    && MeanOf(M) == Ok(t + Ratio(s, 2.0))
    && VarianceOf(M) == Ok(Ratio(Pow(s, 2), 12.0))
    && SkewOf(M, sqrt) == (if sqrt(Ratio(Pow(s, 2), 12.0)) == 0.0 then Err(NotFinite) else Ok(0.0))
    && KurtOf(M) == (if s == 0.0 then Err(NotFinite) else Ok(9.0 / 5.0))
  }

  /** The test case for the uniform family. */
  lemma UniformStatistics(g: string, dist: map<string, PolyVar>, K: Kernel)
    requires g in dist
    requires FamilyOf(dist[g].distribution) == Some(Uniform) && SymmetryOf(dist[g].symmetry) == Some(OneSidedRight)
    ensures UniformLaw(MomentsOf(Single(g), dist, EvalOf(K)), dist[g].translation, dist[g].scale, K.sqrt)
  {
    var t, s := dist[g].translation, dist[g].scale;
    UniformEntries(dist[g], K, 0);
    UniformEntries(dist[g], K, 1);
    UniformEntries(dist[g], K, 2);
    UniformEntries(dist[g], K, 3);
    UniformEntries(dist[g], K, 4);
    assert UniformEntry(s, 0) == 1.0;
    var M := MomentsOf(Single(g), dist, EvalOf(K));
    SingleStatistics(g, dist, K, UniformEntry(s, 1), UniformEntry(s, 2), UniformEntry(s, 3), UniformEntry(s, 4));
    UniformFromEntries(M, t, s, K.sqrt);
  }

  lemma UniformFromEntries(M: MomentSequence, t: real, s: real, sqrt: real -> real)
    requires EntryStatistics(M, t, sqrt, UniformEntry(s, 1), UniformEntry(s, 2), UniformEntry(s, 3), UniformEntry(s, 4))
    ensures UniformLaw(M, t, s, sqrt)
  {
    UniformValues(s);
    UniformVariance(s);
    UniformSkewness(s, sqrt(Pow(s, 2) / 12.0));
    UniformKurtosis(s);
  }

  // ---------------------------------------------------------------------
  // Gamma, one-sided right, shape b: mean b s + m, variance b s^2,
  // skewness 2 s / sqrt(b s^2), kurtosis 3 + 6/b

  /** The one-sided gamma table: s^k times the rising product (b)_k. */
  function GammaEntry(s: real, b: real, k: nat): real {
    Times(Pow(s, k), Rising(b, k))
  }

  lemma GammaEntries(V: PolyVar, K: Kernel, b: real, k: nat)
    requires FamilyOf(V.distribution) == Some(Gamma) && SymmetryOf(V.symmetry) == Some(OneSidedRight)
    requires V.beta1 == Some(b)
    ensures Adjusted(V, K, k) == Ok(GammaEntry(V.scale, b, k))
  {
    var raw := GammaRow(V.scale, V.beta1, k);
    assert RawMoment(V, K, k) == raw;
    assert 2.0 * raw.value == GammaEntry(V.scale, b, k);
  }

  lemma GammaValues(s: real, b: real)
    ensures GammaEntry(s, b, 0) == 1.0 && GammaEntry(s, b, 1) == s * b
    ensures GammaEntry(s, b, 2) == (s * s) * (b * (b + 1.0))
    ensures GammaEntry(s, b, 3) == (s * s * s) * (b * (b + 1.0) * (b + 2.0))
    ensures GammaEntry(s, b, 4) == (s * s * s * s) * (b * (b + 1.0) * (b + 2.0) * (b + 3.0))
  {
    SmallPowers(s);
    assert Rising(b, 1) == b;
    assert Rising(b, 2) == b * (b + 1.0);
    assert Rising(b, 3) == b * (b + 1.0) * (b + 2.0);
    assert Rising(b, 4) == b * (b + 1.0) * (b + 2.0) * (b + 3.0);
  }

  lemma GammaVariance(s: real, b: real)
    ensures Variance(GammaEntry(s, b, 2), GammaEntry(s, b, 1)) == b * (s * s)
  {
    GammaValues(s, b);
    GammaVariancePoly(s, b, GammaEntry(s, b, 1), GammaEntry(s, b, 2));
  }

  lemma GammaVariancePoly(s: real, b: real, e1: real, e2: real)
    requires e1 == s * b && e2 == (s * s) * (b * (b + 1.0))
    ensures Variance(e2, e1) == b * (s * s)
  {
    SquareIs(e1);
  }

  lemma GammaThird(s: real, b: real)
    ensures ThirdAboutMeanOf(GammaEntry(s, b, 1), b * (s * s), GammaEntry(s, b, 3)) == 2.0 * b * (s * s * s)
  {
    GammaValues(s, b);
    ThirdExpanded(s * b, b * (s * s), (s * s * s) * (b * (b + 1.0) * (b + 2.0)));
    GammaThirdPoly(s, b);
    assert ThirdAboutMeanOf(s * b, b * (s * s), (s * s * s) * (b * (b + 1.0) * (b + 2.0))) == 2.0 * b * (s * s * s);
  }

  lemma GammaThirdPoly(s: real, b: real)
    ensures (s * s * s) * (b * (b + 1.0) * (b + 2.0)) - 3.0 * (s * b) * (b * (s * s)) - (s * b) * (s * b) * (s * b)
         == 2.0 * b * (s * s * s)
  {
  }

  /** The skewness is NotFinite for a zero standard deviation sd, and
      2 s / sd when sd is the square root of the variance b s^2. */
  lemma GammaSkewness(s: real, b: real, sd: real)
    ensures sd == 0.0 ==> Skewness(GammaEntry(s, b, 1), b * (s * s), GammaEntry(s, b, 3), sd) == Err(NotFinite)
    ensures sd != 0.0 && Pow(sd, 2) == b * (s * s) ==>
      Skewness(GammaEntry(s, b, 1), b * (s * s), GammaEntry(s, b, 3), sd) == Ok(2.0 * s / sd)
  {
    if sd != 0.0 && Pow(sd, 2) == b * (s * s) {
      GammaThird(s, b);
      GammaSkewnessArith(s, b, sd);
      SkewnessIs(GammaEntry(s, b, 1), b * (s * s), GammaEntry(s, b, 3), sd, 2.0 * s / sd);
    }
  }

  lemma GammaSkewnessArith(s: real, b: real, sd: real)
    requires sd != 0.0 && Pow(sd, 2) == b * (s * s)
    ensures Times(2.0 * s / sd, Pow(sd, 3)) == 2.0 * b * (s * s * s)
  {
    SquareIs(sd);
    CubeIs(sd);
    assert (2.0 * s / sd) * (sd * sd * sd) == 2.0 * s * (sd * sd);
  }

  lemma GammaFourth(s: real, b: real)
    ensures FourthAboutMeanOf(GammaEntry(s, b, 1), GammaEntry(s, b, 2), GammaEntry(s, b, 3), GammaEntry(s, b, 4))
         == (s * s * s * s) * (3.0 * b * b + 6.0 * b)
  {
    GammaValues(s, b);
    GammaFourthPoly(s, b, GammaEntry(s, b, 1), GammaEntry(s, b, 2), GammaEntry(s, b, 3), GammaEntry(s, b, 4));
  }

  lemma GammaFourthPoly(s: real, b: real, e1: real, e2: real, e3: real, e4: real)
    requires e1 == s * b && e2 == (s * s) * (b * (b + 1.0))
    requires e3 == (s * s * s) * (b * (b + 1.0) * (b + 2.0))
    requires e4 == (s * s * s * s) * (b * (b + 1.0) * (b + 2.0) * (b + 3.0))
    ensures FourthAboutMeanOf(e1, e2, e3, e4) == (s * s * s * s) * (3.0 * b * b + 6.0 * b)
  {
    FourthExpanded(e1, e2, e3, e4);
  }

  lemma GammaKurtosisArith(s: real, b: real, v: real, q: real)
    requires b != 0.0 && v == b * (s * s) && q == 3.0 + 6.0 / b
    ensures Times(q, Pow(v, 2)) == (s * s * s * s) * (3.0 * b * b + 6.0 * b)
  {
    SquareIs(v);
    assert (6.0 / b) * b == 6.0;
  }

  lemma GammaKurtosis(s: real, b: real)
    ensures Kurtosis(GammaEntry(s, b, 1), GammaEntry(s, b, 2), GammaEntry(s, b, 3), GammaEntry(s, b, 4))
         == if b == 0.0 || s == 0.0 then Err(NotFinite) else Ok(3.0 + 6.0 / b)
  {
    GammaVariance(s, b);
    var v := b * (s * s);
    if b != 0.0 && s != 0.0 {
      ScaledSquareNonzero(b, s, v);
      var q := 3.0 + 6.0 / b;
      GammaFourth(s, b);
      GammaKurtosisArith(s, b, v, q);
      KurtosisIs(GammaEntry(s, b, 1), GammaEntry(s, b, 2), GammaEntry(s, b, 3), GammaEntry(s, b, 4), v, q);
    } else {
      assert v == 0.0;
    }
  }

  /** The statistics the repository's test expects of a one-sided gamma
      variable with translation t, scale s and shape b. The kernel's square
      root is abstract, so the skewness is stated for a kernel whose root
      of the variance squares back to it. */
  predicate GammaLaw(M: MomentSequence, t: real, s: real, b: real, sqrt: real -> real)
  {
    && MeanOf(M) == Ok(t + Times(b, s))
    && VarianceOf(M) == Ok(Times(b, Pow(s, 2)))
    && (sqrt(Times(b, Pow(s, 2))) == 0.0 ==> SkewOf(M, sqrt) == Err(NotFinite))
    && (sqrt(Times(b, Pow(s, 2))) != 0.0 && Pow(sqrt(Times(b, Pow(s, 2))), 2) == Times(b, Pow(s, 2)) ==>
          SkewOf(M, sqrt) == Ok(Ratio(Times(2.0, s), sqrt(Times(b, Pow(s, 2))))))
    && KurtOf(M) == (if b == 0.0 || s == 0.0 then Err(NotFinite) else Ok(3.0 + 6.0 / b))
  }

  /** The test case for the gamma family, with its shape b. */
  lemma GammaStatistics(g: string, dist: map<string, PolyVar>, K: Kernel, b: real)
    requires g in dist && dist[g].beta1 == Some(b)
    requires FamilyOf(dist[g].distribution) == Some(Gamma) && SymmetryOf(dist[g].symmetry) == Some(OneSidedRight)
    ensures GammaLaw(MomentsOf(Single(g), dist, EvalOf(K)), dist[g].translation, dist[g].scale, b, K.sqrt)
  {
    GammaEntries(dist[g], K, b, 0);
    GammaEntries(dist[g], K, b, 1);
    GammaEntries(dist[g], K, b, 2);
    GammaEntries(dist[g], K, b, 3);
    GammaEntries(dist[g], K, b, 4);
    var t, s := dist[g].translation, dist[g].scale;
    assert GammaEntry(s, b, 0) == 1.0;
    var M := MomentsOf(Single(g), dist, EvalOf(K));
    SingleStatistics(g, dist, K, GammaEntry(s, b, 1), GammaEntry(s, b, 2), GammaEntry(s, b, 3), GammaEntry(s, b, 4));
    GammaFromEntries(M, t, s, b, K.sqrt);
  }

  lemma GammaFromEntries(M: MomentSequence, t: real, s: real, b: real, sqrt: real -> real)
    requires EntryStatistics(M, t, sqrt, GammaEntry(s, b, 1), GammaEntry(s, b, 2), GammaEntry(s, b, 3), GammaEntry(s, b, 4))
    ensures GammaLaw(M, t, s, b, sqrt)
  {
    GammaValues(s, b);
    GammaVariance(s, b);
    SquareIs(s);
    var v := Times(b, Pow(s, 2));
    assert Variance(GammaEntry(s, b, 2), GammaEntry(s, b, 1)) == v;
    assert MeanOf(M) == Ok(t + Times(b, s));
    GammaSkewness(s, b, sqrt(v));
    assert v == b * (s * s);
    if sqrt(v) != 0.0 {
      assert 2.0 * s / sqrt(v) == Ratio(Times(2.0, s), sqrt(v));
    }
    GammaKurtosis(s, b);
  }

  // ---------------------------------------------------------------------
  // Scaled one-sided entries s^k g_k, and Weibull, one-sided right, shape
  // b: g_k = Γ(k/b + 1), so the mean is m + s Γ(1 + 1/b) and the variance
  // s^2 (Γ(1 + 2/b) - Γ(1 + 1/b)^2)

  // An arithmetic step for the closed forms; it says nothing about the
  // engine.

  /** A product of two nonzero reals is nonzero. */
  lemma TimesNonzero(a: real, b: real)
    requires a != 0.0 && b != 0.0
    ensures Times(a, b) != 0.0
  {
    assert Times(a, b) / b == a;
  }

  /** The statistics of moments whose entries, before translation by t,
      are s^k g_k: the mean moves by s g1, the variance scales by s^2, the
      skewness is s (g3 - 3 g1 v - g1^3) / (sd v) for v = g2 - g1^2 and a
      root sd of the variance, and the kurtosis does not depend on s. */
  predicate ScaledLaw(M: MomentSequence, t: real, s: real, g1: real, g2: real, g3: real, g4: real, sqrt: real -> real)
  {
    var v := Variance(g2, g1);
    var sd := sqrt(Times(Pow(s, 2), v));
    && MeanOf(M) == Ok(t + Times(s, g1))
    && VarianceOf(M) == Ok(Times(Pow(s, 2), v))
    && (sd == 0.0 ==> SkewOf(M, sqrt) == Err(NotFinite))
    && (sd != 0.0 && v != 0.0 && Pow(sd, 2) == Times(Pow(s, 2), v) ==>
          SkewOf(M, sqrt) == (TimesNonzero(sd, v); Ok(Ratio(Times(s, ThirdAboutMeanOf(g1, v, g3)), Times(sd, v)))))
    && KurtOf(M) == (if s == 0.0 || v == 0.0 then Err(NotFinite)
                     else SquareZero(v); Ok(Ratio(FourthAboutMeanOf(g1, g2, g3, g4), Pow(v, 2))))
  }

  lemma ScaledVariance(s: real, g1: real, g2: real)
    ensures Variance(Times(Pow(s, 2), g2), Times(Pow(s, 1), g1)) == Times(Pow(s, 2), Variance(g2, g1))
  {
    PowSplits(s);
    PowOfProduct(Pow(s, 1), g1, 2);
    TimesSubtracts(Pow(s, 2), g2, Pow(g1, 2));
  }

  lemma ScaledThird(s: real, g1: real, v: real, g3: real)
    ensures ThirdAboutMeanOf(Times(Pow(s, 1), g1), Times(Pow(s, 2), v), Times(Pow(s, 3), g3))
         == Times(Pow(s, 3), ThirdAboutMeanOf(g1, v, g3))
  {
    PowSplits(s);
    PowOfProduct(Pow(s, 1), g1, 3);
    TimesRearrange(Pow(s, 1), g1, Pow(s, 2), v);
    ScaledThirdSum(Pow(s, 3), g3, Times(g1, v), Pow(g1, 3));
  }

  lemma ScaledThirdSum(S: real, a: real, b: real, c: real)
    ensures Times(S, a) - 3.0 * Times(S, b) - Times(S, c) == Times(S, a - 3.0 * b - c)
  {
  }

  lemma ScaledFourth(s: real, g1: real, g2: real, g3: real, g4: real)
    ensures FourthAboutMeanOf(Times(Pow(s, 1), g1), Times(Pow(s, 2), g2), Times(Pow(s, 3), g3), Times(Pow(s, 4), g4))
         == Times(Pow(s, 4), FourthAboutMeanOf(g1, g2, g3, g4))
  {
    PowSplits(s);
    PowOfProduct(Pow(s, 1), g1, 4);
    PowOfProduct(Pow(s, 1), g1, 2);
    TimesRearrange(Pow(s, 2), Pow(g1, 2), Pow(s, 2), g2);
    TimesRearrange(Pow(s, 1), g1, Pow(s, 3), g3);
    ScaledFourthSum(Pow(s, 4), Pow(g1, 4), Times(Pow(g1, 2), g2), Times(g1, g3), g4);
  }

  lemma ScaledFourthSum(Q: real, a: real, b: real, c: real, d: real)
    ensures -3.0 * Times(Q, a) + 6.0 * Times(Q, b) - 4.0 * Times(Q, c) + Times(Q, d)
         == Times(Q, -3.0 * a + 6.0 * b - 4.0 * c + d)
  {
  }

  /** The skewness q = s T / (sd v) turns s^3 T back into q sd^3 when
      sd^2 = s^2 v. */
  lemma ScaledSkewnessArith(s: real, v: real, sd: real, T: real)
    requires sd != 0.0 && v != 0.0 && Pow(sd, 2) == Times(Pow(s, 2), v)
    ensures Times(sd, v) != 0.0
    ensures Times(Ratio(Times(s, T), Times(sd, v)), Pow(sd, 3)) == Times(Pow(s, 3), T)
  {
    TimesNonzero(sd, v);
    PowSplits(sd);
    PowSplits(s);
    var q := Ratio(Times(s, T), Times(sd, v));
    TimesRotate(q, sd, Pow(s, 2), v);
    RatioCancels(Times(s, T), Times(sd, v));
    TimesSwap(s, T, Pow(s, 2));
  }

  /** The kurtosis q = F / v^2 turns s^4 F back into q (s^2 v)^2. */
  lemma ScaledKurtosisArith(s: real, v: real, F: real)
    requires v != 0.0
    ensures Pow(v, 2) != 0.0
    ensures Times(Ratio(F, Pow(v, 2)), Pow(Times(Pow(s, 2), v), 2)) == Times(Pow(s, 4), F)
  {
    SquareZero(v);
    SquareOfSquare(s);
    PowOfProduct(Pow(s, 2), v, 2);
    RatioScaled(F, Pow(s, 4), Pow(v, 2));
  }

  lemma RatioScaled(F: real, P: real, W: real)
    requires W != 0.0
    ensures Times(Ratio(F, W), Times(P, W)) == Times(P, F)
  {
    RatioCancels(F, W);
  }

  lemma ScaledSkewness(s: real, g1: real, v: real, g3: real, e1: real, V: real, e3: real, sd: real)
    requires e1 == Times(Pow(s, 1), g1) && V == Times(Pow(s, 2), v) && e3 == Times(Pow(s, 3), g3)
    requires sd != 0.0 && v != 0.0 && Pow(sd, 2) == V
    ensures Times(sd, v) != 0.0
    ensures Skewness(e1, V, e3, sd) == Ok(Ratio(Times(s, ThirdAboutMeanOf(g1, v, g3)), Times(sd, v)))
  {
    var T := ThirdAboutMeanOf(g1, v, g3);
    ScaledThird(s, g1, v, g3);
    ScaledSkewnessArith(s, v, sd, T);
    SkewnessIs(e1, V, e3, sd, Ratio(Times(s, T), Times(sd, v)));
  }

  lemma ScaledKurtosis(s: real, g1: real, g2: real, g3: real, g4: real, e1: real, e2: real, e3: real, e4: real)
    requires e1 == Times(Pow(s, 1), g1) && e2 == Times(Pow(s, 2), g2)
    requires e3 == Times(Pow(s, 3), g3) && e4 == Times(Pow(s, 4), g4)
    ensures Kurtosis(e1, e2, e3, e4) ==
      (var v := Variance(g2, g1);
       if s == 0.0 || v == 0.0 then Err(NotFinite)
       else SquareZero(v); Ok(Ratio(FourthAboutMeanOf(g1, g2, g3, g4), Pow(v, 2))))
  {
    var v := Variance(g2, g1);
    var V := Times(Pow(s, 2), v);
    ScaledVariance(s, g1, g2);
    if s != 0.0 && v != 0.0 {
      var F := FourthAboutMeanOf(g1, g2, g3, g4);
      ScaledFourth(s, g1, g2, g3, g4);
      ScaledKurtosisArith(s, v, F);
      PowNonzero(s, 2);
      TimesNonzero(Pow(s, 2), v);
      KurtosisIs(e1, e2, e3, e4, V, Ratio(F, Pow(v, 2)));
    } else {
      SquareIs(s);
      assert V == 0.0;
    }
  }

  lemma ScaledFromEntries(M: MomentSequence, t: real, s: real, g1: real, g2: real, g3: real, g4: real, sqrt: real -> real,
                           e1: real, e2: real, e3: real, e4: real)
    requires e1 == Times(Pow(s, 1), g1) && e2 == Times(Pow(s, 2), g2)
    requires e3 == Times(Pow(s, 3), g3) && e4 == Times(Pow(s, 4), g4)
    requires EntryStatistics(M, t, sqrt, e1, e2, e3, e4)
    ensures ScaledLaw(M, t, s, g1, g2, g3, g4, sqrt)
  {
    var v := Variance(g2, g1);
    var V := Times(Pow(s, 2), v);
    assert Variance(e2, e1) == V by {
      ScaledVariance(s, g1, g2);
    }
    assert MeanOf(M) == Ok(t + Times(s, g1)) by {
      PowSplits(s);
    }
    var sd := sqrt(V);
    if sd != 0.0 && v != 0.0 && Pow(sd, 2) == V {
      ScaledSkewness(s, g1, v, g3, e1, V, e3, sd);
    }
    ScaledKurtosis(s, g1, g2, g3, g4, e1, e2, e3, e4);
  }

  /** Γ(k/b + 1), the Weibull factor of order k for shape b. */
  function WeibullFactor(K: Kernel, b: real, k: nat): real
    requires b != 0.0
  {
    K.gamma(k as real / b + 1.0)
  }

  /** The adjusted Weibull entry of order k: s^k Γ(k/b + 1). */
  function WeibullEntry(K: Kernel, s: real, b: real, k: nat): real
    requires b != 0.0
  {
    Times(Pow(s, k), WeibullFactor(K, b, k))
  }

  lemma WeibullEntries(V: PolyVar, K: Kernel, b: real, k: nat)
    requires FamilyOf(V.distribution) == Some(Weibull) && SymmetryOf(V.symmetry) == Some(OneSidedRight)
    requires V.beta1 == Some(b) && b != 0.0
    ensures Adjusted(V, K, k) == Ok(WeibullEntry(K, V.scale, b, k))
  {
    var raw := WeibullRow(V.scale, V.beta1, K, k);
    assert RawMoment(V, K, k) == raw;
    assert 2.0 * raw.value == WeibullEntry(K, V.scale, b, k);
  }

  /** The test case for the Weibull family, with its nonzero shape b and a
      kernel with Γ(1) = 1: the statistics of scaled entries with
      g_k = Γ(k/b + 1). */
  lemma WeibullStatistics(g: string, dist: map<string, PolyVar>, K: Kernel, b: real)
    requires g in dist && dist[g].beta1 == Some(b) && b != 0.0 && K.gamma(1.0) == 1.0
    requires FamilyOf(dist[g].distribution) == Some(Weibull) && SymmetryOf(dist[g].symmetry) == Some(OneSidedRight)
    ensures ScaledLaw(MomentsOf(Single(g), dist, EvalOf(K)), dist[g].translation, dist[g].scale,
                      WeibullFactor(K, b, 1), WeibullFactor(K, b, 2), WeibullFactor(K, b, 3), WeibullFactor(K, b, 4), K.sqrt)
  {
    var t, s := dist[g].translation, dist[g].scale;
    WeibullEntries(dist[g], K, b, 0);
    WeibullEntries(dist[g], K, b, 1);
    WeibullEntries(dist[g], K, b, 2);
    WeibullEntries(dist[g], K, b, 3);
    WeibullEntries(dist[g], K, b, 4);
    assert WeibullEntry(K, s, b, 0) == 1.0;
    var M := MomentsOf(Single(g), dist, EvalOf(K));
    SingleStatistics(g, dist, K, WeibullEntry(K, s, b, 1), WeibullEntry(K, s, b, 2), WeibullEntry(K, s, b, 3), WeibullEntry(K, s, b, 4));
    WeibullFromEntries(M, t, s, K, b);
  }

  lemma WeibullFromEntries(M: MomentSequence, t: real, s: real, K: Kernel, b: real)
    requires b != 0.0
    requires EntryStatistics(M, t, K.sqrt, WeibullEntry(K, s, b, 1), WeibullEntry(K, s, b, 2), WeibullEntry(K, s, b, 3), WeibullEntry(K, s, b, 4))
    ensures ScaledLaw(M, t, s, WeibullFactor(K, b, 1), WeibullFactor(K, b, 2), WeibullFactor(K, b, 3), WeibullFactor(K, b, 4), K.sqrt)
  {
    ScaledFromEntries(M, t, s, WeibullFactor(K, b, 1), WeibullFactor(K, b, 2), WeibullFactor(K, b, 3), WeibullFactor(K, b, 4), K.sqrt,
                      WeibullEntry(K, s, b, 1), WeibullEntry(K, s, b, 2), WeibullEntry(K, s, b, 3), WeibullEntry(K, s, b, 4));
  }
}
