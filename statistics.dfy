/** The derived statistics of the engine: mean, variance, standard
    deviation, skewness and kurtosis, each an algebraic combination of the
    moments of orders 1 to 4. They are defined here for any sequence of
    moments; the engine applies them to the moments of its polynomial. */
module Statistics {
  import opened Wrappers
  import opened RealMath
  import opened MomentTable

  /** The moments E[P^k] of some random quantity P, by order: a value, or
      the error computing it raised. */
  type MomentSequence = nat -> Result<real, MomentError>

  /** E[P^0] = 1, as for every polynomial. */
  predicate StartsAtOne(M: MomentSequence)
  {
    M(0) == Ok(1.0)
  }

  /** The moments as values, 0 where one fails. */
  function Values(M: MomentSequence): nat -> real
  {
    (k: nat) => if M(k).Ok? then M(k).value else 0.0
  }

  /** E[(P - mu)^k], expanded binomially over the moments of P. */
  function Central(M: MomentSequence, mu: real, k: nat): real
  {
    BinomialSum(k, -mu, Values(M), 0)
  }

  function MeanOf(M: MomentSequence): Result<real, MomentError>
  {
    M(1)
  }

  /** The variance E[P^2] - E[P]^2, the second moment evaluated first. It
      fails exactly when one of the two moments does, with the first error
      met, and otherwise it is the central moment E[(P - mean)^2]. */
  function VarianceOf(M: MomentSequence): (r: Result<real, MomentError>)
    ensures r.Err? <==> M(2).Err? || M(1).Err?
    ensures M(2).Err? ==> r == M(2)
    ensures M(2).Ok? && M(1).Err? ==> r == M(1)
    ensures StartsAtOne(M) && r.Ok? ==> r.value == Central(M, M(1).value, 2)
  {
    var e2 :- M(2);
    var e1 :- M(1);
    SecondAboutMean(e1, Values(M), e2);
    Ok(Variance(e2, e1))
  }

  /** The variance formula over the moments of orders 2 and 1. */
  function Variance(e2: real, e1: real): real
  {
    e2 - Pow(e1, 2)
  }

  lemma VarianceAt(M: MomentSequence, e2: real, e1: real)
    requires M(2) == Ok(e2) && M(1) == Ok(e1)
    ensures VarianceOf(M) == Ok(Variance(e2, e1))
  {
  }

  /** The standard deviation: the square root of the variance, which is a
      parameter here. */
  function StdOf(M: MomentSequence, sqrt: real -> real): (r: Result<real, MomentError>)
    ensures r.Err? <==> VarianceOf(M).Err?
    ensures r.Err? ==> r == VarianceOf(M)
    ensures r.Ok? ==> r.value == sqrt(VarianceOf(M).value)
  {
    var v :- VarianceOf(M);
    Ok(sqrt(v))
  }

  /** The skewness (E[P^3] - 3 mean var - mean^3) / sqrt(var)^3, with the
      mean, then the variance, then the third moment computed. The
      numerator is the central moment E[(P - mean)^3]; a zero denominator
      has no finite value. */
  function SkewOf(M: MomentSequence, sqrt: real -> real): (r: Result<real, MomentError>)
    ensures M(1).Err? ==> r == M(1)
    ensures M(1).Ok? && M(2).Err? ==> r == M(2)
    ensures M(1).Ok? && M(2).Ok? && M(3).Err? ==> r == M(3)
    ensures M(1).Ok? && M(2).Ok? && M(3).Ok? ==>
      (r.Ok? <==> sqrt(VarianceOf(M).value) != 0.0) && (r.Err? ==> r.error == NotFinite)
    ensures StartsAtOne(M) && r.Ok? ==>
      (Pow(sqrt(VarianceOf(M).value), 3) != 0.0 &&
       r.value == Central(M, M(1).value, 3) / Pow(sqrt(VarianceOf(M).value), 3))
  {
    var mean :- MeanOf(M);
    var variance :- VarianceOf(M);
    var e3 :- M(3);
    ThirdCentral(M, mean, variance, e3);
    Skewness(mean, variance, e3, sqrt(variance))
  }

  /** The skewness formula over the values: mean, variance, third moment
      and standard deviation. */
  function Skewness(mean: real, variance: real, e3: real, sd: real): (r: Result<real, MomentError>)
    ensures r.Ok? <==> sd != 0.0
    ensures r.Err? ==> r.error == NotFinite
  {
    var d := Pow(sd, 3);
    CubeZero(sd);
    if d == 0.0 then Err(NotFinite) else Ok(ThirdAboutMeanOf(mean, variance, e3) / d)
  }

  /** The third central moment over the mean, the variance and the third
      raw moment. */
  function ThirdAboutMeanOf(mean: real, variance: real, e3: real): real {
    e3 - 3.0 * mean * variance - Pow(mean, 3)
  }

  /** The kurtosis (excess kurtosis + 3): (-3 e1^4 + 6 e1^2 e2 - 4 e1 e3
      + e4) / (e2 - e1^2)^2 over the moments of orders 1 to 4, computed in
      that order. The numerator is the central moment E[(P - mean)^4] and
      the denominator the square of the variance; a zero variance has no
      finite value. */
  function KurtOf(M: MomentSequence): (r: Result<real, MomentError>)
    ensures M(1).Err? ==> r == M(1)
    ensures M(1).Ok? && M(2).Err? ==> r == M(2)
    ensures M(1).Ok? && M(2).Ok? && M(3).Err? ==> r == M(3)
    ensures M(1).Ok? && M(2).Ok? && M(3).Ok? && M(4).Err? ==> r == M(4)
    ensures M(1).Ok? && M(2).Ok? && M(3).Ok? && M(4).Ok? ==>
      (r.Ok? <==> VarianceOf(M).value != 0.0) && (r.Err? ==> r.error == NotFinite)
    ensures StartsAtOne(M) && r.Ok? ==>
      (Pow(VarianceOf(M).value, 2) != 0.0 &&
       r.value == Central(M, M(1).value, 4) / Pow(VarianceOf(M).value, 2))
  {
    var e1 :- M(1);
    var e2 :- M(2);
    var e3 :- M(3);
    var e4 :- M(4);
    VarianceAt(M, e2, e1);
    KurtosisStandardized(M, e1, e2, e3, e4);
    Kurtosis(e1, e2, e3, e4)
  }

  /** The kurtosis formula over the moments of orders 1 to 4: the fourth
      central moment over the square of the variance e2 - e1^2. */
  function Kurtosis(e1: real, e2: real, e3: real, e4: real): (r: Result<real, MomentError>)
    ensures r.Ok? <==> Variance(e2, e1) != 0.0
    ensures r.Err? ==> r.error == NotFinite
  {
    var d := Pow(Variance(e2, e1), 2);
    SquareZero(Variance(e2, e1));
    if d == 0.0 then Err(NotFinite) else Ok(FourthAboutMeanOf(e1, e2, e3, e4) / d)
  }

  /** The fourth central moment over the raw moments of orders 1 to 4. */
  function FourthAboutMeanOf(e1: real, e2: real, e3: real, e4: real): real {
    -3.0 * Pow(e1, 4) + 6.0 * Pow(e1, 2) * e2 - 4.0 * e1 * e3 + e4
  }

  lemma KurtosisStandardized(M: MomentSequence, e1: real, e2: real, e3: real, e4: real)
    requires M(1) == Ok(e1) && M(2) == Ok(e2) && M(3) == Ok(e3) && M(4) == Ok(e4)
    ensures StartsAtOne(M) && Kurtosis(e1, e2, e3, e4).Ok? ==>
      (Pow(VarianceOf(M).value, 2) != 0.0 &&
       Kurtosis(e1, e2, e3, e4).value == Central(M, M(1).value, 4) / Pow(VarianceOf(M).value, 2))
  {
    VarianceAt(M, e2, e1);
    FourthCentral(M, e1, e2, e3, e4);
    var k := Kurtosis(e1, e2, e3, e4);
    assert k.Ok? ==> k.value == FourthAboutMeanOf(e1, e2, e3, e4) / Pow(Variance(e2, e1), 2);
  }

  lemma ThirdCentral(M: MomentSequence, mean: real, variance: real, e3: real)
    requires M(1) == Ok(mean) && VarianceOf(M) == Ok(variance) && M(3) == Ok(e3)
    ensures StartsAtOne(M) ==> Central(M, mean, 3) == e3 - 3.0 * mean * variance - Pow(mean, 3)
  {
    if StartsAtOne(M) {
      var A := Values(M);
      assert A(0) == 1.0 && A(1) == mean && A(2) - Pow(mean, 2) == variance && A(3) == e3;
      ThirdAboutMean(mean, A, variance, e3);
    }
  }

  lemma FourthCentral(M: MomentSequence, e1: real, e2: real, e3: real, e4: real)
    requires M(1) == Ok(e1) && M(2) == Ok(e2) && M(3) == Ok(e3) && M(4) == Ok(e4)
    ensures StartsAtOne(M) ==>
      Central(M, e1, 4) == -3.0 * Pow(e1, 4) + 6.0 * Pow(e1, 2) * e2 - 4.0 * e1 * e3 + e4
  {
    if StartsAtOne(M) {
      var A := Values(M);
      assert A(0) == 1.0 && A(1) == e1 && A(2) == e2 && A(3) == e3 && A(4) == e4;
      FourthAboutMean(e1, A, e2, e3, e4);
    }
  }

  // The central moments of orders 2, 3 and 4 in terms of the raw ones
  // A(k), for A(0) = 1 and the mean A(1) = m.

  lemma SecondAboutMean(m: real, A: nat -> real, e2: real)
    ensures A(0) == 1.0 && A(1) == m && A(2) == e2 ==> BinomialSum(2, -m, A, 0) == e2 - Pow(m, 2)
  {
    BinomialSumTwo(-m, A);
    SmallPowers(m);
  }

  lemma ThirdAboutMean(m: real, A: nat -> real, v: real, e3: real)
    ensures A(0) == 1.0 && A(1) == m && A(2) - Pow(m, 2) == v && A(3) == e3 ==>
      BinomialSum(3, -m, A, 0) == e3 - 3.0 * m * v - Pow(m, 3)
  {
    BinomialSumThree(-m, A);
    SmallPowers(m);
  }

  lemma FourthAboutMean(m: real, A: nat -> real, e2: real, e3: real, e4: real)
    ensures A(0) == 1.0 && A(1) == m && A(2) == e2 && A(3) == e3 && A(4) == e4 ==>
      BinomialSum(4, -m, A, 0) == -3.0 * Pow(m, 4) + 6.0 * Pow(m, 2) * e2 - 4.0 * m * e3 + e4
  {
    BinomialSumFour(-m, A);
    SmallPowers(m);
    SmallPowers(-m);
  }

  lemma CubeZero(x: real)
    ensures Pow(x, 3) == 0.0 <==> x == 0.0
  {
    SmallPowers(x);
    if x != 0.0 {
      assert x * x != 0.0;
    }
  }

  lemma SquareZero(x: real)
    ensures Pow(x, 2) == 0.0 <==> x == 0.0
  {
    SmallPowers(x);
  }

  /** The skewness is q when the third central moment is q sd^3. */
  lemma SkewnessIs(mean: real, variance: real, e3: real, sd: real, q: real)
    requires ThirdAboutMeanOf(mean, variance, e3) == Times(q, Pow(sd, 3))
    ensures Skewness(mean, variance, e3, sd) == if sd == 0.0 then Err(NotFinite) else Ok(q)
  {
    CubeZero(sd);
    if sd != 0.0 {
      assert q * Pow(sd, 3) / Pow(sd, 3) == q;
    }
  }

  /** The kurtosis is q when the fourth central moment is q times the
      square of the variance v. */
  lemma KurtosisIs(e1: real, e2: real, e3: real, e4: real, v: real, q: real)
    requires Variance(e2, e1) == v && FourthAboutMeanOf(e1, e2, e3, e4) == Times(q, Pow(v, 2))
    ensures Kurtosis(e1, e2, e3, e4) == if v == 0.0 then Err(NotFinite) else Ok(q)
  {
    SquareZero(v);
    if v != 0.0 {
      assert q * Pow(v, 2) / Pow(v, 2) == q;
    }
  }

  // Translation: the moments of P + t are the binomial expansions of those
  // of P.

  lemma SkewAt(M: MomentSequence, sqrt: real -> real, e1: real, e2: real, e3: real)
    requires M(1) == Ok(e1) && M(2) == Ok(e2) && M(3) == Ok(e3)
    ensures SkewOf(M, sqrt) == Skewness(e1, Variance(e2, e1), e3, sqrt(Variance(e2, e1)))
  {
    VarianceAt(M, e2, e1);
  }

  lemma KurtAt(M: MomentSequence, e1: real, e2: real, e3: real, e4: real)
    requires M(1) == Ok(e1) && M(2) == Ok(e2) && M(3) == Ok(e3) && M(4) == Ok(e4)
    ensures KurtOf(M) == Kurtosis(e1, e2, e3, e4)
  {
  }

  // The raw moments of orders 1 to 4 of P + t over those of P.

  function ShiftFirst(t: real, a1: real): real {
    a1 + t
  }

  function ShiftSecond(t: real, a1: real, a2: real): real {
    a2 + 2.0 * t * a1 + t * t
  }

  function ShiftThird(t: real, a1: real, a2: real, a3: real): real {
    a3 + 3.0 * t * a2 + 3.0 * t * t * a1 + t * t * t
  }

  function ShiftFourth(t: real, a1: real, a2: real, a3: real, a4: real): real {
    a4 + 4.0 * t * a3 + 6.0 * t * t * a2 + 4.0 * t * t * t * a1 + t * t * t * t
  }

  /** The binomial expansions of orders 1 to 4 when A(0) = 1 are the
      shifted moments above. */
  lemma ShiftedExpansions(t: real, A: nat -> real)
    requires A(0) == 1.0
    ensures BinomialSum(1, t, A, 0) == ShiftFirst(t, A(1))
    ensures BinomialSum(2, t, A, 0) == ShiftSecond(t, A(1), A(2))
    ensures BinomialSum(3, t, A, 0) == ShiftThird(t, A(1), A(2), A(3))
    ensures BinomialSum(4, t, A, 0) == ShiftFourth(t, A(1), A(2), A(3), A(4))
  {
    BinomialSumOne(t, A);
    BinomialSumTwo(t, A);
    BinomialSumThree(t, A);
    ExpansionFour(t, A);
  }

  lemma ExpansionFour(t: real, A: nat -> real)
    requires A(0) == 1.0
    ensures BinomialSum(4, t, A, 0) == ShiftFourth(t, A(1), A(2), A(3), A(4))
  {
    BinomialSumFour(t, A);
    SmallPowers(t);
  }

  lemma VarianceShift(t: real, a1: real, a2: real)
    ensures Variance(ShiftSecond(t, a1, a2), ShiftFirst(t, a1)) == Variance(a2, a1)
  {
    SmallPowers(a1 + t);
    SmallPowers(a1);
  }

  lemma ThirdShift(t: real, a1: real, a2: real, a3: real)
    ensures ThirdAboutMeanOf(ShiftFirst(t, a1), Variance(a2, a1), ShiftThird(t, a1, a2, a3))
         == ThirdAboutMeanOf(a1, Variance(a2, a1), a3)
  {
    SmallPowers(a1 + t);
    SmallPowers(a1);
  }

  lemma SkewnessShift(t: real, a1: real, a2: real, a3: real, sd: real)
    ensures Skewness(ShiftFirst(t, a1), Variance(a2, a1), ShiftThird(t, a1, a2, a3), sd)
         == Skewness(a1, Variance(a2, a1), a3, sd)
  {
    ThirdShift(t, a1, a2, a3);
  }

  lemma KurtosisShift(t: real, a1: real, a2: real, a3: real, a4: real)
    ensures Kurtosis(ShiftFirst(t, a1), ShiftSecond(t, a1, a2), ShiftThird(t, a1, a2, a3), ShiftFourth(t, a1, a2, a3, a4))
         == Kurtosis(a1, a2, a3, a4)
  {
    VarianceShift(t, a1, a2);
    FourthShift(t, a1, a2, a3, a4);
  }

  lemma FourthShift(t: real, a1: real, a2: real, a3: real, a4: real)
    ensures FourthAboutMeanOf(ShiftFirst(t, a1), ShiftSecond(t, a1, a2), ShiftThird(t, a1, a2, a3), ShiftFourth(t, a1, a2, a3, a4))
         == FourthAboutMeanOf(a1, a2, a3, a4)
  {
    FourthExpanded(a1 + t, a2 + 2.0 * t * a1 + t * t, a3 + 3.0 * t * a2 + 3.0 * t * t * a1 + t * t * t,
                   a4 + 4.0 * t * a3 + 6.0 * t * t * a2 + 4.0 * t * t * t * a1 + t * t * t * t);
    FourthExpanded(a1, a2, a3, a4);
    FourthPoly(t, a1, a2, a3, a4);
  }

  lemma ThirdExpanded(mean: real, variance: real, e3: real)
    ensures ThirdAboutMeanOf(mean, variance, e3) == e3 - 3.0 * mean * variance - mean * mean * mean
  {
    SmallPowers(mean);
  }

  lemma FourthExpanded(e1: real, e2: real, e3: real, e4: real)
    ensures FourthAboutMeanOf(e1, e2, e3, e4) == -3.0 * (e1 * e1 * e1 * e1) + 6.0 * (e1 * e1) * e2 - 4.0 * e1 * e3 + e4
  {
    SmallPowers(e1);
  }

  lemma FourthPoly(t: real, a1: real, a2: real, a3: real, a4: real)
    ensures -3.0 * ((a1 + t) * (a1 + t) * (a1 + t) * (a1 + t)) + 6.0 * ((a1 + t) * (a1 + t)) * (a2 + 2.0 * t * a1 + t * t)
            - 4.0 * (a1 + t) * (a3 + 3.0 * t * a2 + 3.0 * t * t * a1 + t * t * t)
            + (a4 + 4.0 * t * a3 + 6.0 * t * t * a2 + 4.0 * t * t * t * a1 + t * t * t * t)
         == -3.0 * (a1 * a1 * a1 * a1) + 6.0 * (a1 * a1) * a2 - 4.0 * a1 * a3 + a4
  {
  }

  /** Shifting a quantity by t shifts its mean by t and leaves its variance,
      skewness and kurtosis, errors included, as they were: M holds the
      moments of P + t, expanded binomially over the moments A of P, which
      M0 holds. */
  lemma TranslationInvariance(M: MomentSequence, M0: MomentSequence, A: nat -> real, t: real, sqrt: real -> real)
    requires A(0) == 1.0
    requires forall k: nat :: 1 <= k <= 4 ==> M0(k) == Ok(A(k)) && M(k) == Ok(BinomialSum(k, t, A, 0))
    ensures MeanOf(M) == Ok(MeanOf(M0).value + t)
    ensures VarianceOf(M) == VarianceOf(M0)
    ensures SkewOf(M, sqrt) == SkewOf(M0, sqrt)
    ensures KurtOf(M) == KurtOf(M0)
  {
    ShiftedMoments(M, t, A);
    assert M0(1) == Ok(A(1)) && M0(2) == Ok(A(2)) && M0(3) == Ok(A(3)) && M0(4) == Ok(A(4));
    ShiftedStatistics(M, M0, t, sqrt, A(1), A(2), A(3), A(4));
  }

  lemma ShiftedMoments(M: MomentSequence, t: real, A: nat -> real)
    requires A(0) == 1.0
    requires forall k: nat :: 1 <= k <= 4 ==> M(k) == Ok(BinomialSum(k, t, A, 0))
    ensures M(1) == Ok(ShiftFirst(t, A(1))) && M(2) == Ok(ShiftSecond(t, A(1), A(2)))
    ensures M(3) == Ok(ShiftThird(t, A(1), A(2), A(3))) && M(4) == Ok(ShiftFourth(t, A(1), A(2), A(3), A(4)))
  {
    assert M(1) == Ok(BinomialSum(1, t, A, 0)) && M(2) == Ok(BinomialSum(2, t, A, 0));
    assert M(3) == Ok(BinomialSum(3, t, A, 0)) && M(4) == Ok(BinomialSum(4, t, A, 0));
    ShiftedExpansions(t, A);
  }

  /** The same over the moments a1 to a4 of P and the shifted ones. */
  lemma ShiftedStatistics(M: MomentSequence, M0: MomentSequence, t: real, sqrt: real -> real,
                          a1: real, a2: real, a3: real, a4: real)
    requires M0(1) == Ok(a1) && M0(2) == Ok(a2) && M0(3) == Ok(a3) && M0(4) == Ok(a4)
    requires M(1) == Ok(ShiftFirst(t, a1)) && M(2) == Ok(ShiftSecond(t, a1, a2))
    requires M(3) == Ok(ShiftThird(t, a1, a2, a3)) && M(4) == Ok(ShiftFourth(t, a1, a2, a3, a4))
    ensures MeanOf(M) == Ok(MeanOf(M0).value + t)
    ensures VarianceOf(M) == VarianceOf(M0)
    ensures SkewOf(M, sqrt) == SkewOf(M0, sqrt)
    ensures KurtOf(M) == KurtOf(M0)
  {
    var b1, b2, b3, b4 := ShiftFirst(t, a1), ShiftSecond(t, a1, a2), ShiftThird(t, a1, a2, a3), ShiftFourth(t, a1, a2, a3, a4);
    VarianceAt(M, b2, b1);
    VarianceAt(M0, a2, a1);
    VarianceShift(t, a1, a2);
    SkewAt(M, sqrt, b1, b2, b3);
    SkewAt(M0, sqrt, a1, a2, a3);
    SkewnessShift(t, a1, a2, a3, sqrt(Variance(a2, a1)));
    KurtAt(M, b1, b2, b3, b4);
    KurtAt(M0, a1, a2, a3, a4);
    KurtosisShift(t, a1, a2, a3, a4);
  }
}
