/** Sparse multivariate polynomials over an ordered list of generators, in the
    canonical form the symbolic-algebra library keeps them in: exponent
    vectors in strictly decreasing lexicographic order, like terms combined
    and zero coefficients dropped. `monoms()` and `coeffs()` of such a
    polynomial list exactly these terms. Multiplication and powering, which
    the engine borrows from the library, are written out here. */
module Polynomials {
  import opened RealMath

  type Exponents = seq<nat>

  datatype Term = Term(exps: Exponents, coeff: real)

  /** Strict lexicographic order on exponent vectors (the library's `lex`). */
  predicate Greater(a: Exponents, b: Exponents)
    decreases |a|
  {
    |a| > 0 && |b| > 0 && (a[0] > b[0] || (a[0] == b[0] && Greater(a[1..], b[1..])))
  }

  lemma {:induction false} GreaterIrreflexive(a: Exponents)
    ensures !Greater(a, a)
  {
    if |a| > 0 {
      GreaterIrreflexive(a[1..]);
    }
  }

  lemma {:induction false} GreaterTotal(a: Exponents, b: Exponents)
    requires |a| == |b| && a != b
    ensures Greater(a, b) || Greater(b, a)
  {
    assert |a| > 0;
    if a[0] == b[0] {
      assert a == [a[0]] + a[1..] && b == [b[0]] + b[1..];
      GreaterTotal(a[1..], b[1..]);
    }
  }

  lemma {:induction false} GreaterTransitive(a: Exponents, b: Exponents, c: Exponents)
    requires Greater(a, b) && Greater(b, c)
    ensures Greater(a, c)
  {
    if a[0] == b[0] && b[0] == c[0] {
      GreaterTransitive(a[1..], b[1..], c[1..]);
    }
  }

  /** Every term's exponent vector satisfies P. */
  predicate Every(ts: seq<Term>, P: Exponents -> bool)
  {
    forall i :: 0 <= i < |ts| ==> P(ts[i].exps)
  }

  /** Every term has one exponent per generator. */
  predicate Uniform(ts: seq<Term>, n: nat)
  {
    forall i :: 0 <= i < |ts| ==> |ts[i].exps| == n
  }

  /** The canonical form: uniform arity, no zero coefficient, strictly
      decreasing exponent vectors (hence no monomial twice). */
  predicate Canonical(ts: seq<Term>, n: nat)
  {
    && Uniform(ts, n)
    && (forall i :: 0 <= i < |ts| ==> ts[i].coeff != 0.0)
    && (forall i, j :: 0 <= i < j < |ts| ==> Greater(ts[i].exps, ts[j].exps))
  }

  /** The value of the polynomial under a linear functional that sends each
      monomial to L(monomial): Σ coeff × L(exponents). Evaluation at a point
      and expectation are both of this shape. */
  function Apply(ts: seq<Term>, L: Exponents -> real): real
  {
    if |ts| == 0 then 0.0 else TermValue(ts[0], L) + Apply(ts[1..], L)
  }

  /** One term's contribution, coeff × L(exponents). */
  function TermValue(t: Term, L: Exponents -> real): real
  {
    Times(t.coeff, L(t.exps))
  }

  /** Adds one term into a canonical polynomial. */
  function AddTerm(ts: seq<Term>, t: Term): (r: seq<Term>)
    decreases |ts|
  {
    if t.coeff == 0.0 then ts
    else if |ts| == 0 then [t]
    else if ts[0].exps == t.exps then
      (if ts[0].coeff + t.coeff == 0.0 then ts[1..]
       else [Term(t.exps, ts[0].coeff + t.coeff)] + ts[1..])
    else if Greater(t.exps, ts[0].exps) then [t] + ts
    else [ts[0]] + AddTerm(ts[1..], t)
  }

  lemma {:induction false} AddTermApply(ts: seq<Term>, t: Term, L: Exponents -> real)
    ensures Apply(AddTerm(ts, t), L) == Apply(ts, L) + TermValue(t, L)
    decreases |ts|
  {
    if t.coeff == 0.0 {
    } else if |ts| == 0 {
      assert [t][1..] == [];
    } else if ts[0].exps == t.exps {
      var head := Term(t.exps, ts[0].coeff + t.coeff);
      assert TermValue(head, L) == TermValue(ts[0], L) + TermValue(t, L) by {
        TimesDistributes(ts[0].coeff, t.coeff, L(t.exps));
      }
      if head.coeff != 0.0 {
        assert ([head] + ts[1..])[1..] == ts[1..];
      }
    } else if Greater(t.exps, ts[0].exps) {
      assert ([t] + ts)[1..] == ts;
    } else {
      AddTermApply(ts[1..], t, L);
      assert ([ts[0]] + AddTerm(ts[1..], t))[1..] == AddTerm(ts[1..], t);
    }
  }

  /** Every exponent vector of AddTerm(ts, t) comes from ts or is t's, so any
      property shared by all of them survives. */
  lemma {:induction false} AddTermEvery(ts: seq<Term>, t: Term, P: Exponents -> bool)
    requires Every(ts, P) && P(t.exps)
    ensures Every(AddTerm(ts, t), P)
    decreases |ts|
  {
    if t.coeff == 0.0 || |ts| == 0 {
    } else if ts[0].exps == t.exps {
    } else if Greater(t.exps, ts[0].exps) {
    } else {
      AddTermEvery(ts[1..], t, P);
      var r := AddTerm(ts[1..], t);
      assert forall i :: 1 <= i < |r| + 1 ==> ([ts[0]] + r)[i] == r[i - 1];
    }
  }

  lemma {:induction false} AddTermCanonical(ts: seq<Term>, t: Term, n: nat)
    requires Canonical(ts, n) && |t.exps| == n
    ensures Canonical(AddTerm(ts, t), n)
    decreases |ts|
  {
    if t.coeff == 0.0 || |ts| == 0 {
    } else if ts[0].exps == t.exps {
      var r := AddTerm(ts, t);
      if ts[0].coeff + t.coeff != 0.0 {
        assert forall i :: 1 <= i < |r| ==> r[i] == ts[i];
      }
    } else if Greater(t.exps, ts[0].exps) {
      AboveHead(ts, t, n);
      CanonicalCons(t, ts, n);
    } else {
      GreaterTotal(t.exps, ts[0].exps);
      AddTermCanonical(ts[1..], t, n);
      AddTermCanonicalBelow(ts, t, n);
    }
  }

  /** A term above every term of a canonical list can be put in front. */
  lemma CanonicalCons(h: Term, rest: seq<Term>, n: nat)
    requires Canonical(rest, n) && |h.exps| == n && h.coeff != 0.0
    requires forall i :: 0 <= i < |rest| ==> Greater(h.exps, rest[i].exps)
    ensures Canonical([h] + rest, n)
  {
    var r := [h] + rest;
    assert forall i :: 1 <= i < |r| ==> r[i] == rest[i - 1];
  }

  /** A term above the head of a canonical list is above all of it. */
  lemma AboveHead(ts: seq<Term>, t: Term, n: nat)
    requires Canonical(ts, n) && |ts| > 0 && Greater(t.exps, ts[0].exps)
    ensures forall i :: 0 <= i < |ts| ==> Greater(t.exps, ts[i].exps)
  {
    forall i | 1 <= i < |ts|
      ensures Greater(t.exps, ts[i].exps)
    {
      GreaterTransitive(t.exps, ts[0].exps, ts[i].exps);
    }
  }

  /** A term below the head of a canonical list is added into its tail. */
  lemma AddTermCanonicalBelow(ts: seq<Term>, t: Term, n: nat)
    requires Canonical(ts, n) && |t.exps| == n && t.coeff != 0.0
    requires |ts| > 0 && Greater(ts[0].exps, t.exps)
    requires Canonical(AddTerm(ts[1..], t), n)
    ensures Canonical([ts[0]] + AddTerm(ts[1..], t), n)
  {
    var rest := AddTerm(ts[1..], t);
    var b := ts[0].exps;
    var below := (e: Exponents) => Greater(b, e);
    assert Every(ts[1..], below) by {
      forall i | 0 <= i < |ts[1..]| ensures below(ts[1..][i].exps) {
        assert ts[1..][i] == ts[i + 1];
      }
    }
    AddTermEvery(ts[1..], t, below);
    assert forall i :: 0 <= i < |rest| ==> below(rest[i].exps);
    CanonicalCons(ts[0], rest, n);
  }

  /** Adds every term of ts into acc. */
  function AddAll(acc: seq<Term>, ts: seq<Term>): seq<Term>
    decreases |ts|
  {
    if |ts| == 0 then acc else AddAll(AddTerm(acc, ts[0]), ts[1..])
  }

  lemma {:induction false} AddAllApply(acc: seq<Term>, ts: seq<Term>, L: Exponents -> real)
    ensures Apply(AddAll(acc, ts), L) == Apply(acc, L) + Apply(ts, L)
    decreases |ts|
  {
    if |ts| > 0 {
      var acc' := AddTerm(acc, ts[0]);
      AddTermApply(acc, ts[0], L);
      AddAllApply(acc', ts[1..], L);
      assert AddAll(acc, ts) == AddAll(acc', ts[1..]);
    }
  }

  lemma {:induction false} AddAllEvery(acc: seq<Term>, ts: seq<Term>, P: Exponents -> bool)
    requires Every(acc, P) && Every(ts, P)
    ensures Every(AddAll(acc, ts), P)
    decreases |ts|
  {
    if |ts| > 0 {
      AddTermEvery(acc, ts[0], P);
      assert Every(ts[1..], P) by {
        assert forall i :: 0 <= i < |ts| - 1 ==> ts[1..][i] == ts[i + 1];
      }
      AddAllEvery(AddTerm(acc, ts[0]), ts[1..], P);
    }
  }

  lemma {:induction false} AddAllCanonical(acc: seq<Term>, ts: seq<Term>, n: nat)
    requires Canonical(acc, n) && Uniform(ts, n)
    ensures Canonical(AddAll(acc, ts), n)
    decreases |ts|
  {
    if |ts| > 0 {
      AddTermCanonical(acc, ts[0], n);
      assert Uniform(ts[1..], n) by {
        assert forall i :: 0 <= i < |ts| - 1 ==> ts[1..][i] == ts[i + 1];
      }
      AddAllCanonical(AddTerm(acc, ts[0]), ts[1..], n);
    }
  }

  /** Component-wise sum of two exponent vectors: the exponents of a product
      of two monomials. */
  function VecAdd(a: Exponents, b: Exponents): (r: Exponents)
    requires |a| == |b|
    ensures |r| == |a| && forall i :: 0 <= i < |a| ==> r[i] == a[i] + b[i]
  {
    seq(|a|, i requires 0 <= i < |a| => a[i] + b[i])
  }

  /** The monomial s times each term of qs (not yet canonical). */
  function ScaleBy(s: Term, qs: seq<Term>): (r: seq<Term>)
    requires Uniform(qs, |s.exps|)
    ensures Uniform(r, |s.exps|)
    decreases |qs|
  {
    if |qs| == 0 then []
    else [Term(VecAdd(s.exps, qs[0].exps), s.coeff * qs[0].coeff)] + ScaleBy(s, qs[1..])
  }

  /** The product as a double sum over pairs of terms: the reference against
      which multiplication is proved. */
  ghost function RowSum(s: Term, qs: seq<Term>, L: Exponents -> real): real
    requires Uniform(qs, |s.exps|)
    decreases |qs|
  {
    if |qs| == 0 then 0.0
    else TermValue(Term(VecAdd(s.exps, qs[0].exps), Times(s.coeff, qs[0].coeff)), L) + RowSum(s, qs[1..], L)
  }

  ghost function ProductSum(ps: seq<Term>, qs: seq<Term>, n: nat, L: Exponents -> real): real
    requires Uniform(ps, n) && Uniform(qs, n)
    decreases |ps|
  {
    if |ps| == 0 then 0.0 else RowSum(ps[0], qs, L) + ProductSum(ps[1..], qs, n, L)
  }

  lemma {:induction false} ScaleByApply(s: Term, qs: seq<Term>, L: Exponents -> real)
    requires Uniform(qs, |s.exps|)
    ensures Apply(ScaleBy(s, qs), L) == RowSum(s, qs, L)
    decreases |qs|
  {
    if |qs| > 0 {
      ScaleByApply(s, qs[1..], L);
      var r := ScaleBy(s, qs);
      assert r[1..] == ScaleBy(s, qs[1..]);
    }
  }

  /** The product of two polynomials, in canonical form. */
  function Mul(ps: seq<Term>, qs: seq<Term>, n: nat): (r: seq<Term>)
    requires Uniform(ps, n) && Uniform(qs, n)
    ensures Canonical(r, n)
    decreases |ps|
  {
    if |ps| == 0 then []
    else
      var rest := Mul(ps[1..], qs, n);
      AddAllCanonical(rest, ScaleBy(ps[0], qs), n);
      AddAll(rest, ScaleBy(ps[0], qs))
  }

  lemma {:induction false} MulApply(ps: seq<Term>, qs: seq<Term>, n: nat, L: Exponents -> real)
    requires Uniform(ps, n) && Uniform(qs, n)
    ensures Apply(Mul(ps, qs, n), L) == ProductSum(ps, qs, n, L)
    decreases |ps|
  {
    if |ps| > 0 {
      MulApply(ps[1..], qs, n, L);
      AddAllApply(Mul(ps[1..], qs, n), ScaleBy(ps[0], qs), L);
      ScaleByApply(ps[0], qs, L);
    }
  }

  /** A property of exponent vectors that is closed under VecAdd survives
      multiplication. */
  lemma {:induction false} MulEvery(ps: seq<Term>, qs: seq<Term>, n: nat, P: Exponents -> bool)
    requires Uniform(ps, n) && Uniform(qs, n) && Every(ps, P) && Every(qs, P)
    requires forall a, b :: |a| == n && |b| == n && P(a) && P(b) ==> P(VecAdd(a, b))
    ensures Every(Mul(ps, qs, n), P)
    decreases |ps|
  {
    if |ps| > 0 {
      assert Every(ps[1..], P) by {
        assert forall i :: 0 <= i < |ps| - 1 ==> ps[1..][i] == ps[i + 1];
      }
      MulEvery(ps[1..], qs, n, P);
      ScaleByEvery(ps[0], qs, n, P);
      AddAllEvery(Mul(ps[1..], qs, n), ScaleBy(ps[0], qs), P);
    }
  }

  lemma {:induction false} ScaleByEvery(s: Term, qs: seq<Term>, n: nat, P: Exponents -> bool)
    requires |s.exps| == n && Uniform(qs, n) && P(s.exps) && Every(qs, P)
    requires forall a, b :: |a| == n && |b| == n && P(a) && P(b) ==> P(VecAdd(a, b))
    ensures Every(ScaleBy(s, qs), P)
    decreases |qs|
  {
    if |qs| > 0 {
      assert Every(qs[1..], P) by {
        assert forall i :: 0 <= i < |qs| - 1 ==> qs[1..][i] == qs[i + 1];
      }
      ScaleByEvery(s, qs[1..], n, P);
      var r := ScaleBy(s, qs);
      assert forall i :: 1 <= i < |r| ==> r[i] == ScaleBy(s, qs[1..])[i - 1];
    }
  }

  function Zeros(n: nat): (r: Exponents)
    ensures |r| == n && forall i :: 0 <= i < n ==> r[i] == 0
  {
    seq(n, _ => 0)
  }

  /** ts^k by repeated multiplication; ts^0 is the constant 1. */
  function PowTerms(ts: seq<Term>, n: nat, k: nat): (r: seq<Term>)
    requires Uniform(ts, n)
    ensures Canonical(r, n)
  {
    if k == 0 then [Term(Zeros(n), 1.0)] else Mul(ts, PowTerms(ts, n, k - 1), n)
  }

  /** A property of exponent vectors that the constant monomial has and
      that is closed under VecAdd holds for every term of every power. */
  lemma {:induction false} PowTermsEvery(ts: seq<Term>, n: nat, k: nat, P: Exponents -> bool)
    requires Uniform(ts, n) && Every(ts, P) && P(Zeros(n))
    requires forall a, b :: |a| == n && |b| == n && P(a) && P(b) ==> P(VecAdd(a, b))
    ensures Every(PowTerms(ts, n, k), P)
  {
    if k > 0 {
      PowTermsEvery(ts, n, k - 1, P);
      MulEvery(ts, PowTerms(ts, n, k - 1), n, P);
    }
  }

  /** A polynomial: its generators (variable names, distinct) and its terms. */
  datatype Poly = Poly(gens: seq<string>, terms: seq<Term>) {

    predicate Valid()
    {
      && (forall i, j :: 0 <= i < j < |gens| ==> gens[i] != gens[j])
      && Canonical(terms, |gens|)
    }

    /** The polynomial raised to the k-th power, over the same generators. */
    function Power(k: nat): (r: Poly)
      requires Valid()
      ensures r.Valid() && r.gens == gens
    {
      Poly(gens, PowTerms(terms, |gens|, k))
    }
  }

  // ---------------------------------------------------------------------
  // Powering agrees with the plain definition: at every point, the value
  // of p^k is the k-th power of the value of p.

  /** The value of a monomial at a point. */
  function MonomialAt(e: Exponents, x: seq<real>): real
    decreases |e|
  {
    if |e| == 0 || |x| == 0 then 1.0 else Times(Pow(x[0], e[0]), MonomialAt(e[1..], x[1..]))
  }

  /** Evaluation at x as a functional on monomials. */
  function AtPoint(x: seq<real>): Exponents -> real
  {
    e => MonomialAt(e, x)
  }

  function EvalAt(ts: seq<Term>, x: seq<real>): real
  {
    Apply(ts, AtPoint(x))
  }

  lemma {:induction false} MonomialAtVecAdd(a: Exponents, b: Exponents, x: seq<real>)
    requires |a| == |b|
    ensures MonomialAt(VecAdd(a, b), x) == Times(MonomialAt(a, x), MonomialAt(b, x))
    decreases |a|
  {
    if |a| > 0 && |x| > 0 {
      VecAddTail(a, b);
      MonomialAtVecAdd(a[1..], b[1..], x[1..]);
      PowAdd(x[0], a[0], b[0]);
      TimesRearrange(Pow(x[0], a[0]), Pow(x[0], b[0]), MonomialAt(a[1..], x[1..]), MonomialAt(b[1..], x[1..]));
    }
  }

  lemma VecAddTail(a: Exponents, b: Exponents)
    requires |a| == |b| && |a| > 0
    ensures VecAdd(a, b)[0] == a[0] + b[0] && VecAdd(a, b)[1..] == VecAdd(a[1..], b[1..])
  {
  }

  lemma {:induction false} RowSumAt(s: Term, qs: seq<Term>, x: seq<real>)
    requires Uniform(qs, |s.exps|)
    ensures RowSum(s, qs, AtPoint(x)) == Times(TermValue(s, AtPoint(x)), EvalAt(qs, x))
    decreases |qs|
  {
    if |qs| > 0 {
      var L := AtPoint(x);
      var c, d := s.coeff, qs[0].coeff;
      var ms, mq := MonomialAt(s.exps, x), MonomialAt(qs[0].exps, x);
      RowSumAt(s, qs[1..], x);
      MonomialAtVecAdd(s.exps, qs[0].exps, x);
      assert L(VecAdd(s.exps, qs[0].exps)) == Times(ms, mq);
      assert TermValue(s, L) == Times(c, ms);
      assert RowSum(s, qs, L) == Times(Times(c, d), Times(ms, mq)) + RowSum(s, qs[1..], L);
      assert EvalAt(qs, x) == Times(d, mq) + EvalAt(qs[1..], x);
      RowStep(c, d, ms, mq, EvalAt(qs[1..], x));
    }
  }

  lemma RowStep(c: real, d: real, ms: real, mq: real, rest: real)
    ensures Times(Times(c, d), Times(ms, mq)) + Times(Times(c, ms), rest) == Times(Times(c, ms), Times(d, mq) + rest)
  {
  }

  lemma {:induction false} ProductSumAt(ps: seq<Term>, qs: seq<Term>, n: nat, x: seq<real>)
    requires Uniform(ps, n) && Uniform(qs, n)
    ensures ProductSum(ps, qs, n, AtPoint(x)) == Times(EvalAt(ps, x), EvalAt(qs, x))
    decreases |ps|
  {
    if |ps| > 0 {
      assert Uniform(ps[1..], n) by {
        assert forall i :: 0 <= i < |ps| - 1 ==> ps[1..][i] == ps[i + 1];
      }
      ProductSumAt(ps[1..], qs, n, x);
      RowSumAt(ps[0], qs, x);
      TimesDistributes(TermValue(ps[0], AtPoint(x)), EvalAt(ps[1..], x), EvalAt(qs, x));
    }
  }

  lemma {:induction false} MonomialAtZeros(n: nat, x: seq<real>)
    ensures MonomialAt(Zeros(n), x) == 1.0
  {
    if n > 0 && |x| > 0 {
      assert Zeros(n)[1..] == Zeros(n - 1);
      MonomialAtZeros(n - 1, x[1..]);
    }
  }

  /** Multiplication evaluates to the product of the values. */
  lemma {:induction false} MulEvalAt(ps: seq<Term>, qs: seq<Term>, n: nat, x: seq<real>)
    requires Uniform(ps, n) && Uniform(qs, n)
    ensures EvalAt(Mul(ps, qs, n), x) == EvalAt(ps, x) * EvalAt(qs, x)
  {
    MulApply(ps, qs, n, AtPoint(x));
    ProductSumAt(ps, qs, n, x);
  }

  /** Powering evaluates to the power of the value. */
  lemma PowerEvalAt(p: Poly, k: nat, x: seq<real>)
    requires p.Valid()
    ensures EvalAt(p.Power(k).terms, x) == Pow(EvalAt(p.terms, x), k)
  {
    PowTermsEvalAt(p.terms, |p.gens|, k, x);
  }

  lemma {:induction false} PowTermsEvalAt(ts: seq<Term>, n: nat, k: nat, x: seq<real>)
    requires Uniform(ts, n)
    ensures EvalAt(PowTerms(ts, n, k), x) == Pow(EvalAt(ts, x), k)
  {
    if k == 0 {
      ConstantEvalAt(n, x);
    } else {
      PowTermsEvalAt(ts, n, k - 1, x);
      MulPowStep(ts, PowTerms(ts, n, k - 1), n, k, x);
    }
  }

  /** Multiplying by p raises the power of p's value by one. */
  lemma MulPowStep(ts: seq<Term>, below: seq<Term>, n: nat, k: nat, x: seq<real>)
    requires Uniform(ts, n) && Uniform(below, n) && k > 0
    requires EvalAt(below, x) == Pow(EvalAt(ts, x), k - 1)
    ensures EvalAt(Mul(ts, below, n), x) == Pow(EvalAt(ts, x), k)
  {
    MulEvalAt(ts, below, n, x);
  }

  /** The constant monomial evaluates to 1. */
  lemma ConstantEvalAt(n: nat, x: seq<real>)
    ensures EvalAt([Term(Zeros(n), 1.0)], x) == 1.0
  {
    MonomialAtZeros(n, x);
    var one := [Term(Zeros(n), 1.0)];
    assert one[1..] == [];
    assert EvalAt(one, x) == TermValue(one[0], AtPoint(x)) + EvalAt([], x);
  }

  /** In terms of an arbitrary functional: p^(k+1) is the product of p and
      p^k, and p^0 is the constant monomial. */
  lemma {:induction false} PowerApply(p: Poly, k: nat, L: Exponents -> real)
    requires p.Valid()
    ensures k == 0 ==> Apply(p.Power(k).terms, L) == L(Zeros(|p.gens|))
    ensures k > 0 ==> Apply(p.Power(k).terms, L) == ProductSum(p.terms, p.Power(k - 1).terms, |p.gens|, L)
  {
    if k > 0 {
      MulApply(p.terms, PowTerms(p.terms, |p.gens|, k - 1), |p.gens|, L);
    }
  }
}
