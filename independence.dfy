/** The moments of a sum of two independent variables. The engine treats
    the variables of a polynomial as independent: the moment of a monomial
    is the product of its variables' moments. For P = g0 + g1 this makes the
    means and the variances add. */
module Independence {
  import opened Wrappers
  import opened RealMath
  import opened Polynomials
  import opened PolyVars
  import opened MomentTable
  import opened Statistics
  import opened PolyMoments

  /** The polynomial g0 + g1 over the generators [g0, g1]. */
  function Sum(g0: string, g1: string): (p: Poly)
    requires g0 != g1
    ensures p.Valid()
  {
    Poly([g0, g1], [Term([1, 0], 1.0), Term([0, 1], 1.0)])
  }

  /** (g0 + g1)^1 has the terms of g0 + g1. */
  lemma SumFirstPower(g0: string, g1: string)
    requires g0 != g1
    ensures Sum(g0, g1).Power(1).terms == [Term([1, 0], 1.0), Term([0, 1], 1.0)]
  {
    var a, b := Term([1, 0], 1.0), Term([0, 1], 1.0);
    var ps := [a, b];
    var one := [Term([0, 0], 1.0)];
    assert Zeros(2) == [0, 0];
    assert PowTerms(ps, 2, 0) == one;
    assert VecAdd([1, 0], [0, 0]) == [1, 0];
    assert VecAdd([0, 1], [0, 0]) == [0, 1];
    assert ScaleBy(b, one) == [b];
    assert ScaleBy(a, one) == [a];
    assert ps[1..] == [b] && [b][1..] == [];
    assert Mul([b], one, 2) == [b] by {
      assert AddAll([], [b]) == AddAll([b], []);
    }
    assert AddTerm([b], a) == [a, b];
    assert Mul(ps, one, 2) == ps by {
      assert AddAll([b], [a]) == AddAll([a, b], []);
    }
  }

  /** (g0 + g1)^2 = g0^2 + 2 g0 g1 + g1^2, in canonical order. */
  lemma SumSquare(g0: string, g1: string)
    requires g0 != g1
    ensures Sum(g0, g1).Power(2).terms == [Term([2, 0], 1.0), Term([1, 1], 2.0), Term([0, 2], 1.0)]
  {
    SumFirstPower(g0, g1);
    var a, b := Term([1, 0], 1.0), Term([0, 1], 1.0);
    var ps := [a, b];
    var t20, t11, t02 := Term([2, 0], 1.0), Term([1, 1], 1.0), Term([0, 2], 1.0);
    assert PowTerms(ps, 2, 2) == Mul(ps, ps, 2);
    assert VecAdd([1, 0], [1, 0]) == [2, 0];
    assert VecAdd([1, 0], [0, 1]) == [1, 1];
    assert VecAdd([0, 1], [1, 0]) == [1, 1];
    assert VecAdd([0, 1], [0, 1]) == [0, 2];
    assert ps[1..] == [b];
    assert ScaleBy(b, ps[1..]) == [t02];
    assert ScaleBy(b, ps) == [t11, t02];
    assert ScaleBy(a, ps[1..]) == [t11];
    assert ScaleBy(a, ps) == [t20, t11];
    assert AddTerm([t11], t02) == [t11, t02] by {
      assert !Greater([0, 2], [1, 1]);
    }
    assert Mul([b], ps, 2) == [t11, t02] by {
      assert [b][1..] == [];
      assert AddAll([], [t11, t02]) == AddAll([t11], [t02]);
      assert AddAll([t11], [t02]) == AddAll([t11, t02], []);
    }
    assert AddTerm([t11, t02], t20) == [t20, t11, t02];
    assert AddTerm([t20, t11, t02], t11) == [t20, Term([1, 1], 2.0), t02] by {
      assert !Greater([1, 1], [2, 0]);
      assert [t20, t11, t02][1..] == [t11, t02];
    }
    assert AddAll([t11, t02], [t20, t11]) == AddAll([t20, t11, t02], [t11]);
    assert AddAll([t20, t11, t02], [t11]) == AddAll([t20, Term([1, 1], 2.0), t02], []);
  }

  /** The moment of a monomial in two variables whose factors are f0 and
      f1: their product. */
  lemma TwoFactors(gens: seq<string>, dist: map<string, PolyVar>, E: VariableMoments, e: Exponents, f0: real, f1: real)
    requires |e| == |gens| == 2 && Covers(gens, dist)
    requires Factor(gens, dist, E, e, 0) == Ok(f0) && Factor(gens, dist, E, e, 1) == Ok(f1)
    ensures MonomialMoment(gens, dist, E, e) == Ok(f0 * f1)
  {
    assert Factors(gens, dist, E, e, 0) == Ok([]);
    assert Factors(gens, dist, E, e, 1).Ok? && Factors(gens, dist, E, e, 1).value == [f0];
    assert Factors(gens, dist, E, e, 2).Ok? && Factors(gens, dist, E, e, 2).value == [f0, f1];
    assert Product([f0, f1]) == f0 * f1 by {
      assert [f0, f1][..1] == [f0] && [f0][..0] == [];
      assert Product([f0]) == f0;
    }
  }

  /** The moment of the term list g0 + g1. */
  lemma LinearTermsMoment(g0: string, g1: string, dist: map<string, PolyVar>, E: VariableMoments)
    requires g0 in dist && g1 in dist
    requires E(dist[g0], 1).Ok? && E(dist[g1], 1).Ok?
    ensures TermsMoment([g0, g1], dist, E, [Term([1, 0], 1.0), Term([0, 1], 1.0)]) ==
      Ok(E(dist[g0], 1).value + E(dist[g1], 1).value)
  {
    var gens := [g0, g1];
    var ts := [Term([1, 0], 1.0), Term([0, 1], 1.0)];
    var A1, B1 := E(dist[g0], 1).value, E(dist[g1], 1).value;
    assert MonomialMoment(gens, dist, E, [1, 0]) == Ok(A1) by {
      assert Factor(gens, dist, E, [1, 0], 0) == E(dist[g0], 1);
      assert Factor(gens, dist, E, [1, 0], 1) == Ok(1.0);
      TwoFactors(gens, dist, E, [1, 0], A1, 1.0);
    }
    assert MonomialMoment(gens, dist, E, [0, 1]) == Ok(B1) by {
      assert Factor(gens, dist, E, [0, 1], 0) == Ok(1.0);
      assert Factor(gens, dist, E, [0, 1], 1) == E(dist[g1], 1);
      TwoFactors(gens, dist, E, [0, 1], 1.0, B1);
    }
    var evs := [A1, B1];
    assert MonomialMoments(gens, dist, E, ts, 0) == Ok([]);
    assert MonomialMoments(gens, dist, E, ts, 1).Ok? && MonomialMoments(gens, dist, E, ts, 1).value == evs[..1];
    assert MonomialMoments(gens, dist, E, ts, 2).Ok? && MonomialMoments(gens, dist, E, ts, 2).value == evs;
    var cs := [1.0, 1.0];
    assert Coefficients(ts) == cs;
    assert DotFrom(cs, evs, 2) == 0.0;
    assert DotFrom(cs, evs, 0) == A1 + B1;
    assert TermsMoment(gens, dist, E, ts) == Ok(A1 + B1);
  }

  /** E[g0 + g1] = E[g0] + E[g1]. */
  lemma SumFirstMoment(g0: string, g1: string, dist: map<string, PolyVar>, E: VariableMoments)
    requires g0 != g1 && g0 in dist && g1 in dist
    requires E(dist[g0], 1).Ok? && E(dist[g1], 1).Ok?
    ensures MomentOf(Sum(g0, g1), dist, E, 1) == Ok(E(dist[g0], 1).value + E(dist[g1], 1).value)
  {
    SumFirstPower(g0, g1);
    LinearTermsMoment(g0, g1, dist, E);
  }

  /** The moment of the term list g0^2 + 2 g0 g1 + g1^2. */
  lemma SquareTermsMoment(g0: string, g1: string, dist: map<string, PolyVar>, E: VariableMoments)
    requires g0 in dist && g1 in dist
    requires E(dist[g0], 1).Ok? && E(dist[g0], 2).Ok? && E(dist[g1], 1).Ok? && E(dist[g1], 2).Ok?
    ensures TermsMoment([g0, g1], dist, E, [Term([2, 0], 1.0), Term([1, 1], 2.0), Term([0, 2], 1.0)]) ==
      Ok(E(dist[g0], 2).value + 2.0 * (E(dist[g0], 1).value * E(dist[g1], 1).value) + E(dist[g1], 2).value)
  {
    var gens := [g0, g1];
    var ts := [Term([2, 0], 1.0), Term([1, 1], 2.0), Term([0, 2], 1.0)];
    var A1, B1 := E(dist[g0], 1).value, E(dist[g1], 1).value;
    var A2, B2 := E(dist[g0], 2).value, E(dist[g1], 2).value;
    assert MonomialMoment(gens, dist, E, [2, 0]) == Ok(A2) by {
      assert Factor(gens, dist, E, [2, 0], 0) == E(dist[g0], 2);
      assert Factor(gens, dist, E, [2, 0], 1) == Ok(1.0);
      TwoFactors(gens, dist, E, [2, 0], A2, 1.0);
    }
    assert MonomialMoment(gens, dist, E, [1, 1]) == Ok(A1 * B1) by {
      assert Factor(gens, dist, E, [1, 1], 0) == E(dist[g0], 1);
      assert Factor(gens, dist, E, [1, 1], 1) == E(dist[g1], 1);
      TwoFactors(gens, dist, E, [1, 1], A1, B1);
    }
    assert MonomialMoment(gens, dist, E, [0, 2]) == Ok(B2) by {
      assert Factor(gens, dist, E, [0, 2], 0) == Ok(1.0);
      assert Factor(gens, dist, E, [0, 2], 1) == E(dist[g1], 2);
      TwoFactors(gens, dist, E, [0, 2], 1.0, B2);
    }
    var evs := [A2, A1 * B1, B2];
    assert MonomialMoments(gens, dist, E, ts, 0) == Ok([]);
    assert MonomialMoments(gens, dist, E, ts, 1).Ok? && MonomialMoments(gens, dist, E, ts, 1).value == evs[..1];
    assert MonomialMoments(gens, dist, E, ts, 2).Ok? && MonomialMoments(gens, dist, E, ts, 2).value == evs[..2];
    assert MonomialMoments(gens, dist, E, ts, 3).Ok? && MonomialMoments(gens, dist, E, ts, 3).value == evs;
    var cs := [1.0, 2.0, 1.0];
    assert Coefficients(ts) == cs;
    assert DotFrom(cs, evs, 3) == 0.0;
    assert DotFrom(cs, evs, 2) == B2;
    assert DotFrom(cs, evs, 1) == 2.0 * (A1 * B1) + B2;
    assert DotFrom(cs, evs, 0) == A2 + 2.0 * (A1 * B1) + B2;
    assert TermsMoment(gens, dist, E, ts) == Ok(DotFrom(cs, evs, 0));
    assert TermsMoment(gens, dist, E, ts) == Ok(A2 + 2.0 * (A1 * B1) + B2);
    assert TermsMoment([g0, g1], dist, E, [Term([2, 0], 1.0), Term([1, 1], 2.0), Term([0, 2], 1.0)]) == TermsMoment(gens, dist, E, ts);
    assert A2 + 2.0 * (A1 * B1) + B2 == E(dist[g0], 2).value + 2.0 * (E(dist[g0], 1).value * E(dist[g1], 1).value) + E(dist[g1], 2).value;
  }

  /** E[(g0 + g1)^2] = E[g0^2] + 2 E[g0] E[g1] + E[g1^2]. */
  lemma SumSecondMoment(g0: string, g1: string, dist: map<string, PolyVar>, E: VariableMoments)
    requires g0 != g1 && g0 in dist && g1 in dist
    requires E(dist[g0], 1).Ok? && E(dist[g0], 2).Ok? && E(dist[g1], 1).Ok? && E(dist[g1], 2).Ok?
    ensures MomentOf(Sum(g0, g1), dist, E, 2) ==
      Ok(E(dist[g0], 2).value + 2.0 * (E(dist[g0], 1).value * E(dist[g1], 1).value) + E(dist[g1], 2).value)
  {
    SumSquare(g0, g1);
    SquareTermsMoment(g0, g1, dist, E);
  }

  /** Independent variables: the mean of g0 + g1 is the sum of the means
      of g0 and of g1, whenever both exist. */
  lemma SumMean(g0: string, g1: string, dist: map<string, PolyVar>, E: VariableMoments)
    requires g0 != g1 && g0 in dist && g1 in dist
    requires E(dist[g0], 1).Ok? && E(dist[g1], 1).Ok?
    ensures MeanOf(MomentsOf(Single(g0), dist, E)).Ok? && MeanOf(MomentsOf(Single(g1), dist, E)).Ok?
    ensures MeanOf(MomentsOf(Sum(g0, g1), dist, E)) ==
      Ok(MeanOf(MomentsOf(Single(g0), dist, E)).value + MeanOf(MomentsOf(Single(g1), dist, E)).value)
  {
    SumFirstMoment(g0, g1, dist, E);
    SingleVariableMoment(g0, dist, E, 1);
    SingleVariableMoment(g1, dist, E, 1);
    MomentsAt(Sum(g0, g1), dist, E, 1);
    MomentsAt(Single(g0), dist, E, 1);
    MomentsAt(Single(g1), dist, E, 1);
  }

  /** The moments of orders 1 and 2 of M are m1 and m2. */
  predicate FirstTwo(M: MomentSequence, m1: Result<real, MomentError>, m2: Result<real, MomentError>)
  {
    M(1) == m1 && M(2) == m2
  }

  /** The moments of orders 1 and 2 of M are those of the sum of two
      independent variables whose moments of orders 1 and 2 are a1, a2 and
      b1, b2. */
  predicate MomentsOfSum(M: MomentSequence, a1: Result<real, MomentError>, a2: Result<real, MomentError>,
                         b1: Result<real, MomentError>, b2: Result<real, MomentError>)
  {
    a1.Ok? && a2.Ok? && b1.Ok? && b2.Ok? &&
    FirstTwo(M, Ok(a1.value + b1.value), Ok(a2.value + 2.0 * (a1.value * b1.value) + b2.value))
  }

  /** The first two moments of g0 + g1, read from its moment sequence. */
  lemma SumSequence(g0: string, g1: string, dist: map<string, PolyVar>, E: VariableMoments)
    requires g0 != g1 && g0 in dist && g1 in dist
    requires E(dist[g0], 1).Ok? && E(dist[g0], 2).Ok? && E(dist[g1], 1).Ok? && E(dist[g1], 2).Ok?
    ensures MomentsOfSum(MomentsOf(Sum(g0, g1), dist, E), E(dist[g0], 1), E(dist[g0], 2), E(dist[g1], 1), E(dist[g1], 2))
  {
    SumFirstMoment(g0, g1, dist, E);
    SumSecondMoment(g0, g1, dist, E);
    MomentsAt(Sum(g0, g1), dist, E, 1);
    MomentsAt(Sum(g0, g1), dist, E, 2);
  }

  /** The first two moments of a single variable, read from its moment
      sequence. */
  lemma SingleSequence(g: string, dist: map<string, PolyVar>, E: VariableMoments)
    requires g in dist
    ensures FirstTwo(MomentsOf(Single(g), dist, E), E(dist[g], 1), E(dist[g], 2))
  {
    SingleVariableMoment(g, dist, E, 1);
    SingleVariableMoment(g, dist, E, 2);
    MomentsAt(Single(g), dist, E, 1);
    MomentsAt(Single(g), dist, E, 2);
  }

  /** Independent variables: the variance of g0 + g1 is the sum of the
      variances of g0 and of g1, whenever their moments of orders 1 and 2
      exist. */
  lemma SumVariance(g0: string, g1: string, dist: map<string, PolyVar>, E: VariableMoments)
    requires g0 != g1 && g0 in dist && g1 in dist
    requires E(dist[g0], 1).Ok? && E(dist[g0], 2).Ok? && E(dist[g1], 1).Ok? && E(dist[g1], 2).Ok?
    ensures VarianceIsSum(MomentsOf(Sum(g0, g1), dist, E), MomentsOf(Single(g0), dist, E), MomentsOf(Single(g1), dist, E))
  {
    SumSequence(g0, g1, dist, E);
    SingleSequence(g0, dist, E);
    SingleSequence(g1, dist, E);
    VariancesAdd(MomentsOf(Sum(g0, g1), dist, E), MomentsOf(Single(g0), dist, E), MomentsOf(Single(g1), dist, E),
                 E(dist[g0], 1), E(dist[g0], 2), E(dist[g1], 1), E(dist[g1], 2));
  }

  /** The variances of M0 and M1 exist and that of M is their sum. */
  predicate VarianceIsSum(M: MomentSequence, M0: MomentSequence, M1: MomentSequence)
  {
    VarianceOf(M0).Ok? && VarianceOf(M1).Ok? && VarianceOf(M) == Ok(VarianceOf(M0).value + VarianceOf(M1).value)
  }

  /** Moment sequences whose first two moments combine as those of a sum of
      independent variables have variances that add. */
  lemma VariancesAdd(M: MomentSequence, M0: MomentSequence, M1: MomentSequence,
                     a1: Result<real, MomentError>, a2: Result<real, MomentError>,
                     b1: Result<real, MomentError>, b2: Result<real, MomentError>)
    requires MomentsOfSum(M, a1, a2, b1, b2)
    requires FirstTwo(M0, a1, a2) && FirstTwo(M1, b1, b2)
    ensures VarianceIsSum(M, M0, M1)
  {
    VarianceAt(M, a2.value + 2.0 * (a1.value * b1.value) + b2.value, a1.value + b1.value);
    VarianceAt(M0, a2.value, a1.value);
    VarianceAt(M1, b2.value, b1.value);
    VarianceSum(a1.value, a2.value, b1.value, b2.value);
    assert Variance(a2.value + 2.0 * (a1.value * b1.value) + b2.value, a1.value + b1.value) == Variance(a2.value, a1.value) + Variance(b2.value, b1.value);
    assert VarianceOf(M) == Ok(Variance(a2.value, a1.value) + Variance(b2.value, b1.value));
  }

  /** (A2 + 2 A1 B1 + B2) - (A1 + B1)^2 = (A2 - A1^2) + (B2 - B1^2). */
  lemma VarianceSum(A1: real, A2: real, B1: real, B2: real)
    ensures Variance(A2 + 2.0 * (A1 * B1) + B2, A1 + B1) == Variance(A2, A1) + Variance(B2, B1)
  {
    SquareIs(A1 + B1);
    SquareIs(A1);
    SquareIs(B1);
  }
}
