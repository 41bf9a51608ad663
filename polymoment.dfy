/** Moments of a polynomial in independent random variables. E[V^m] for a
    single variable V = translation + X is found by expanding the binomial
    (translation + X)^m and taking E[X^k] from the table; the moment of a
    polynomial of order n expands the polynomial's n-th power and
    multiplies, in each monomial, the moments of its variables. */
module PolyMoments {
  import opened Wrappers
  import opened RealMath
  import opened Polynomials
  import opened PolyVars
  import opened MomentTable
  import opened Statistics

  // ---------------------------------------------------------------------
  // E[V^m] for one variable

  /** A moment table: for every order k, the adjusted entry E[X^k] or the
      error its lookup raises. */
  type EntryTable = nat -> Result<real, MomentError>

  /** The moment table of one variable. */
  function TableOf(V: PolyVar, K: Kernel): EntryTable
  {
    (k: nat) => Adjusted(V, K, k)
  }

  /** The values of a table's entries, 0 where an entry fails. */
  function ValuesOf(A: EntryTable): nat -> real
  {
    (k: nat) => if A(k).Ok? then A(k).value else 0.0
  }

  /** Every entry up to order m succeeds. */
  predicate OkUpTo(A: EntryTable, m: nat)
  {
    forall k: nat :: k <= m ==> A(k).Ok?
  }

  /** The coefficients of (t + x)^m from x^m down to x^0, zero ones
      included: C(m, i) t^i at position i. */
  function DenseCoefficients(m: nat, t: real): (r: seq<real>)
    ensures |r| == m + 1
  {
    seq(m + 1, i requires 0 <= i <= m => Binomial(m, i) as real * Pow(t, i))
  }

  /** The nonzero entries of a list, in order. The coefficient list of a
      polynomial holds only its nonzero coefficients. */
  function Nonzero(s: seq<real>): (r: seq<real>)
    ensures |r| <= |s|
    ensures forall i :: 0 <= i < |r| ==> r[i] != 0.0
  {
    if |s| == 0 then []
    else if s[0] != 0.0 then [s[0]] + Nonzero(s[1..])
    else Nonzero(s[1..])
  }

  /** The running sum a[j] b[j] + a[j+1] b[j+1] + ... over the positions
      both lists have: a zip of the two lists, summed from j on. */
  function DotFrom(a: seq<real>, b: seq<real>, j: nat): real
    decreases |a| - j
  {
    if j >= |a| || j >= |b| then 0.0 else a[j] * b[j] + DotFrom(a, b, j + 1)
  }

  lemma DotFromStep(a: seq<real>, b: seq<real>, j: nat)
    requires j < |a| && j < |b|
    ensures DotFrom(a, b, j) == a[j] * b[j] + DotFrom(a, b, j + 1)
  {
  }

  /** The zip-and-sum loop both halves of the engine end with: the sum of
      a[j] b[j] over the positions both lists have. */
  method Dot(a: seq<real>, b: seq<real>) returns (sum: real)
    ensures sum == DotFrom(a, b, 0)
  {
    sum := 0.0;
    var j := 0;
    while j < |a| && j < |b|
      invariant 0 <= j <= |a|
      invariant sum + DotFrom(a, b, j) == DotFrom(a, b, 0)
    {
      DotFromStep(a, b, j);
      sum := sum + a[j] * b[j];
      j := j + 1;
    }
  }

  /** The first n entries for the expansion of order m, for the orders m,
      m-1, ..., m-n+1 in that order, stopping at the first error. */
  function Entries(A: EntryTable, m: nat, n: nat): Result<seq<real>, MomentError>
    requires n <= m + 1
  {
    if n == 0 then Ok([])
    else
      var prev :- Entries(A, m, n - 1);
      var e :- A(m - (n - 1));
      Ok(prev + [e])
  }

  /** The expansion of order m as assembled from a table: the entries for
      orders m down to 0, zipped with the nonzero coefficients of
      (t + x)^m and summed. */
  function Expansion(A: EntryTable, t: real, m: nat): Result<real, MomentError>
  {
    var evms :- Entries(A, m, m + 1);
    Ok(DotFrom(evms, Nonzero(DenseCoefficients(m, t)), 0))
  }

  /** E[V^m] as computed for one variable. */
  function ComputeEvalOf(V: PolyVar, K: Kernel, m: nat): Result<real, MomentError>
  {
    Expansion(TableOf(V, K), V.translation, m)
  }

  lemma {:induction false} EntriesOk(A: EntryTable, m: nat, n: nat)
    requires n <= m + 1 && OkUpTo(A, m)
    ensures Entries(A, m, n).Ok?
    ensures |Entries(A, m, n).value| == n
    ensures forall i :: 0 <= i < n ==> Entries(A, m, n).value[i] == ValuesOf(A)(m - i)
  {
    if n > 0 {
      EntriesOk(A, m, n - 1);
      assert A(m - (n - 1)).Ok?;
      var prev := Entries(A, m, n - 1).value;
      var e := A(m - (n - 1)).value;
      assert Entries(A, m, n).value == prev + [e];
      forall i | 0 <= i < n
        ensures (prev + [e])[i] == ValuesOf(A)(m - i)
      {
        if i < n - 1 {
          assert (prev + [e])[i] == prev[i];
        }
      }
    }
  }

  lemma {:induction false} EntriesErr(A: EntryTable, m: nat, n: nat)
    requires 1 <= n <= m + 1 && A(m).Err?
    ensures Entries(A, m, n) == Err(A(m).error)
  {
    if n > 1 {
      EntriesErr(A, m, n - 1);
    }
  }

  /** An error among the first n entries is the error of the whole list. */
  lemma {:induction false} EntriesErrPersists(A: EntryTable, m: nat, n: nat, n': nat)
    requires n <= n' <= m + 1 && Entries(A, m, n).Err?
    ensures Entries(A, m, n') == Entries(A, m, n)
    decreases n' - n
  {
    if n < n' {
      EntriesErrPersists(A, m, n, n' - 1);
    }
  }

  /** The expansion fails with the error of the entry of order m when that
      entry fails (it is looked up first), and succeeds when every entry up
      to order m does. */
  lemma ExpansionError(A: EntryTable, t: real, m: nat)
    ensures A(m).Err? ==> Expansion(A, t, m) == Err(A(m).error)
    ensures OkUpTo(A, m) ==> Expansion(A, t, m).Ok?
  {
    if A(m).Err? {
      EntriesErr(A, m, m + 1);
    } else if OkUpTo(A, m) {
      EntriesOk(A, m, m + 1);
    }
  }

  /** A variable's entry that succeeds at order m succeeds at every lower
      order. */
  lemma TableOkUpTo(V: PolyVar, K: Kernel, m: nat)
    requires Adjusted(V, K, m).Ok?
    ensures OkUpTo(TableOf(V, K), m)
  {
    forall k: nat | k <= m
      ensures TableOf(V, K)(k).Ok?
    {
      if Adjusted(V, K, k).Err? {
        AdjustedErrorPersists(V, K, k, m);
      }
    }
  }

  /** E[V^m] fails exactly when the entry of order m fails, and with its
      error: the highest order is looked up first, and an entry that
      fails at some order fails at every higher one. */
  lemma ComputeEvalError(V: PolyVar, K: Kernel, m: nat)
    ensures ComputeEvalOf(V, K, m).Err? <==> Adjusted(V, K, m).Err?
    ensures Adjusted(V, K, m).Err? ==> ComputeEvalOf(V, K, m) == Err(Adjusted(V, K, m).error)
  {
    assert TableOf(V, K)(m) == Adjusted(V, K, m);
    if Adjusted(V, K, m).Ok? {
      TableOkUpTo(V, K, m);
    }
    ExpansionError(TableOf(V, K), V.translation, m);
  }

  lemma {:induction false} DotFromDense(m: nat, t: real, A: nat -> real, evms: seq<real>, j: nat)
    requires |evms| == m + 1 && j <= m + 1
    requires forall i :: 0 <= i <= m ==> evms[i] == A(m - i)
    ensures DotFrom(evms, DenseCoefficients(m, t), j) == BinomialSum(m, t, A, j)
    decreases m + 1 - j
  {
    if j <= m {
      DotFromDense(m, t, A, evms, j + 1);
    }
  }

  lemma {:induction false} NonzeroIdentity(s: seq<real>)
    requires forall i :: 0 <= i < |s| ==> s[i] != 0.0
    ensures Nonzero(s) == s
  {
    if |s| > 0 {
      NonzeroIdentity(s[1..]);
    }
  }

  lemma {:induction false} NonzeroOfZeros(s: seq<real>)
    requires forall i :: 0 <= i < |s| ==> s[i] == 0.0
    ensures Nonzero(s) == []
  {
    if |s| > 0 {
      NonzeroOfZeros(s[1..]);
    }
  }

  /** With a nonzero translation every coefficient of (t + x)^m is nonzero. */
  lemma CoefficientsTranslated(m: nat, t: real)
    requires t != 0.0
    ensures Nonzero(DenseCoefficients(m, t)) == DenseCoefficients(m, t)
  {
    var d := DenseCoefficients(m, t);
    forall i | 0 <= i <= m
      ensures d[i] != 0.0
    {
      BinomialPositive(m, i);
      PowNonzero(t, i);
    }
    NonzeroIdentity(d);
  }

  /** With translation zero only the leading coefficient 1 of x^m remains. */
  lemma CoefficientsUntranslated(m: nat)
    ensures Nonzero(DenseCoefficients(m, 0.0)) == [1.0]
  {
    var d := DenseCoefficients(m, 0.0);
    forall i | 0 <= i < m
      ensures d[1..][i] == 0.0
    {
      PowOfZero(i + 1);
    }
    NonzeroOfZeros(d[1..]);
  }

  lemma {:induction false} BinomialSumAtZero(m: nat, A: nat -> real, i: nat)
    requires i >= 1
    ensures BinomialSum(m, 0.0, A, i) == 0.0
    decreases m + 1 - i
  {
    if i <= m {
      BinomialSumAtZero(m, A, i + 1);
      PowOfZero(i);
    }
  }

  /** The expansion is the binomial expansion Σ_j C(m, j) t^j E[X^(m-j)]
      of E[(t + X)^m], whatever the translation t, although only nonzero
      coefficients take part in the zip. */
  lemma ExpansionExpands(A: EntryTable, t: real, m: nat)
    requires OkUpTo(A, m)
    ensures Expansion(A, t, m) == Ok(BinomialSum(m, t, ValuesOf(A), 0))
  {
    EntriesOk(A, m, m + 1);
    var evms := Entries(A, m, m + 1).value;
    if t != 0.0 {
      ZipTranslated(m, t, ValuesOf(A), evms);
    } else {
      ZipUntranslated(m, ValuesOf(A), evms);
    }
  }

  lemma ZipTranslated(m: nat, t: real, B: nat -> real, evms: seq<real>)
    requires t != 0.0 && |evms| == m + 1
    requires forall i :: 0 <= i < m + 1 ==> evms[i] == B(m - i)
    ensures DotFrom(evms, Nonzero(DenseCoefficients(m, t)), 0) == BinomialSum(m, t, B, 0)
  {
    CoefficientsTranslated(m, t);
    DotFromDense(m, t, B, evms, 0);
  }

  lemma ZipUntranslated(m: nat, B: nat -> real, evms: seq<real>)
    requires |evms| == m + 1 && evms[0] == B(m)
    ensures DotFrom(evms, Nonzero(DenseCoefficients(m, 0.0)), 0) == BinomialSum(m, 0.0, B, 0)
  {
    CoefficientsUntranslated(m);
    BinomialSumAtZero(m, B, 1);
    assert DotFrom(evms, [1.0], 1) == 0.0;
    assert DotFrom(evms, [1.0], 0) == evms[0] * 1.0;
    assert Binomial(m, 0) as real * Pow(0.0, 0) == 1.0;
  }

  /** E[V^m] is the binomial expansion of E[(translation + X)^m] over the
      variable's table entries. */
  lemma ComputeEvalExpands(V: PolyVar, K: Kernel, m: nat)
    requires Adjusted(V, K, m).Ok?
    ensures ComputeEvalOf(V, K, m) == Ok(BinomialSum(m, V.translation, ValuesOf(TableOf(V, K)), 0))
  {
    TableOkUpTo(V, K, m);
    ExpansionExpands(TableOf(V, K), V.translation, m);
  }

  /** Without translation E[V^m] is the entry of order m itself, error
      included. */
  lemma ComputeEvalUntranslated(V: PolyVar, K: Kernel, m: nat)
    requires V.translation == 0.0
    ensures ComputeEvalOf(V, K, m) == Adjusted(V, K, m)
  {
    ComputeEvalError(V, K, m);
    if Adjusted(V, K, m).Ok? {
      var A := TableOf(V, K);
      TableOkUpTo(V, K, m);
      EntriesOk(A, m, m + 1);
      CoefficientsUntranslated(m);
      var evms := Entries(A, m, m + 1).value;
      assert DotFrom(evms, [1.0], 1) == 0.0;
    }
  }

  // ---------------------------------------------------------------------
  // The moment of a polynomial

  /** The moments of single variables: E[V^m] for a specification V and an
      order m >= 1, or the error computing it raises. The moment of a
      polynomial is defined for any such function; the engine uses the
      binomial expansion over the table, EvalOf below. */
  type VariableMoments = (PolyVar, nat) -> Result<real, MomentError>

  /** The engine's single-variable moments. */
  function EvalOf(K: Kernel): VariableMoments
  {
    (V: PolyVar, m: nat) => ComputeEvalOf(V, K, m)
  }

  /** Every generator has a specification. */
  predicate Covers(gens: seq<string>, dist: map<string, PolyVar>)
  {
    forall g :: g in gens ==> g in dist
  }

  /** The factor the i-th variable contributes to a monomial's moment: 1 for
      a zero exponent (its specification is not consulted), E[V^e_i]
      otherwise. */
  function Factor(gens: seq<string>, dist: map<string, PolyVar>, E: VariableMoments, e: Exponents, i: nat): Result<real, MomentError>
    requires |e| == |gens| && i < |e| && Covers(gens, dist)
  {
    if e[i] == 0 then Ok(1.0) else E(dist[gens[i]], e[i])
  }

  /** The factors of the first n variables, in order, stopping at the first
      error. */
  function Factors(gens: seq<string>, dist: map<string, PolyVar>, E: VariableMoments, e: Exponents, n: nat): Result<seq<real>, MomentError>
    requires |e| == |gens| && n <= |e| && Covers(gens, dist)
  {
    if n == 0 then Ok([])
    else
      var prev :- Factors(gens, dist, E, e, n - 1);
      var f :- Factor(gens, dist, E, e, n - 1);
      Ok(prev + [f])
  }

  /** The product of a list, multiplied in from the left. */
  function Product(s: seq<real>): real
  {
    if |s| == 0 then 1.0 else Product(s[..|s| - 1]) * s[|s| - 1]
  }

  /** The moment of one monomial: the product of its variables' factors,
      the variables being independent. */
  function MonomialMoment(gens: seq<string>, dist: map<string, PolyVar>, E: VariableMoments, e: Exponents): Result<real, MomentError>
    requires |e| == |gens| && Covers(gens, dist)
  {
    var fs :- Factors(gens, dist, E, e, |e|);
    Ok(Product(fs))
  }

  /** The running product of a list of factors. */
  method RunningProduct(s: seq<real>) returns (p: real)
    ensures p == Product(s)
  {
    p := 1.0;
    var k := 0;
    while k < |s|
      invariant 0 <= k <= |s|
      invariant p == Product(s[..k])
    {
      assert s[..k + 1][..k] == s[..k];
      p := p * s[k];
      k := k + 1;
    }
    assert s[..|s|] == s;
  }

  /** The moments of the first n monomials, in order, stopping at the first
      error. */
  function MonomialMoments(gens: seq<string>, dist: map<string, PolyVar>, E: VariableMoments, ts: seq<Term>, n: nat): Result<seq<real>, MomentError>
    requires Polynomials.Uniform(ts, |gens|) && n <= |ts| && Covers(gens, dist)
  {
    if n == 0 then Ok([])
    else
      var prev :- MonomialMoments(gens, dist, E, ts, n - 1);
      var ev :- MonomialMoment(gens, dist, E, ts[n - 1].exps);
      Ok(prev + [ev])
  }

  /** The coefficients of a term list, in order. */
  function Coefficients(ts: seq<Term>): (r: seq<real>)
    ensures |r| == |ts|
  {
    seq(|ts|, i requires 0 <= i < |ts| => ts[i].coeff)
  }

  /** E[p^order]: the power is expanded, each monomial's moment computed, and
      Σ coefficient × monomial moment taken. A negative order is an error. */
  function MomentOf(p: Poly, dist: map<string, PolyVar>, E: VariableMoments, order: int): Result<real, MomentError>
    requires p.Valid() && Covers(p.gens, dist)
  {
    if order < 0 then Err(NegativeOrder)
    else
      var q := p.Power(order);
      TermsMoment(q.gens, dist, E, q.terms)
  }

  /** The sum of coefficient times monomial moment over a term list. */
  function TermsMoment(gens: seq<string>, dist: map<string, PolyVar>, E: VariableMoments, ts: seq<Term>): Result<real, MomentError>
    requires Polynomials.Uniform(ts, |gens|) && Covers(gens, dist)
  {
    var evs :- MonomialMoments(gens, dist, E, ts, |ts|);
    Ok(DotFrom(Coefficients(ts), evs, 0))
  }

  /** A monomial's moment as a total function of its exponents (0 where it
      fails): the linear functional whose value on p^order is its moment. */
  function MonomialValue(gens: seq<string>, dist: map<string, PolyVar>, E: VariableMoments, e: Exponents): real
  {
    if |e| == |gens| && Covers(gens, dist) && MonomialMoment(gens, dist, E, e).Ok? then
      MonomialMoment(gens, dist, E, e).value
    else 0.0
  }

  function Expectation(gens: seq<string>, dist: map<string, PolyVar>, E: VariableMoments): Exponents -> real
  {
    e => MonomialValue(gens, dist, E, e)
  }

  lemma {:induction false} MonomialMomentsOk(gens: seq<string>, dist: map<string, PolyVar>, E: VariableMoments, ts: seq<Term>, n: nat)
    requires Polynomials.Uniform(ts, |gens|) && n <= |ts| && Covers(gens, dist)
    requires MonomialMoments(gens, dist, E, ts, n).Ok?
    ensures |MonomialMoments(gens, dist, E, ts, n).value| == n
    ensures forall i :: 0 <= i < n ==>
      MonomialMoments(gens, dist, E, ts, n).value[i] == MonomialValue(gens, dist, E, ts[i].exps)
  {
    if n > 0 {
      MonomialMomentsOk(gens, dist, E, ts, n - 1);
    }
  }

  lemma {:induction false} DotFromApply(ts: seq<Term>, evs: seq<real>, L: Exponents -> real, j: nat)
    requires |evs| == |ts| && j <= |ts|
    requires forall i :: 0 <= i < |ts| ==> evs[i] == L(ts[i].exps)
    ensures DotFrom(Coefficients(ts), evs, j) == Apply(ts[j..], L)
    decreases |ts| - j
  {
    if j < |ts| {
      DotFromApply(ts, evs, L, j + 1);
      assert ts[j..][1..] == ts[j + 1..];
    }
  }

  /** When it has a value, the moment of order n is the expectation
      functional applied to p^n: Σ over the monomials of p^n of the
      coefficient times the monomial's moment. */
  lemma MomentIsExpectation(p: Poly, dist: map<string, PolyVar>, E: VariableMoments, order: nat)
    requires p.Valid() && Covers(p.gens, dist)
    requires MomentOf(p, dist, E, order).Ok?
    ensures MomentOf(p, dist, E, order).value == Apply(p.Power(order).terms, Expectation(p.gens, dist, E))
  {
    var q := p.Power(order);
    MonomialMomentsOk(q.gens, dist, E, q.terms, |q.terms|);
    var evs := MonomialMoments(q.gens, dist, E, q.terms, |q.terms|).value;
    DotFromApply(q.terms, evs, Expectation(p.gens, dist, E), 0);
    assert q.terms[0..] == q.terms;
  }

  /** The moment of order n + 1 is the double sum, over a term of p and a
      term of p^n, of coefficient × coefficient × the moment of the product
      monomial: powering agrees with multiplying out term by term. */
  lemma MomentStep(p: Poly, dist: map<string, PolyVar>, E: VariableMoments, n: nat)
    requires p.Valid() && Covers(p.gens, dist)
    requires MomentOf(p, dist, E, n + 1).Ok?
    ensures MomentOf(p, dist, E, n + 1).value
         == ProductSum(p.terms, p.Power(n).terms, |p.gens|, Expectation(p.gens, dist, E))
  {
    MomentIsExpectation(p, dist, E, n + 1);
    PowerApply(p, n + 1, Expectation(p.gens, dist, E));
  }

  lemma {:induction false} FactorsOfZeros(gens: seq<string>, dist: map<string, PolyVar>, E: VariableMoments, n: nat)
    requires n <= |gens| && Covers(gens, dist)
    ensures Factors(gens, dist, E, Zeros(|gens|), n) == Ok(seq(n, _ => 1.0))
  {
    if n > 0 {
      FactorsOfZeros(gens, dist, E, n - 1);
      assert Zeros(|gens|)[n - 1] == 0;
      assert Factor(gens, dist, E, Zeros(|gens|), n - 1) == Ok(1.0);
      assert seq(n - 1, _ => 1.0) + [1.0] == seq(n, _ => 1.0);
    } else {
      assert seq(n, _ => 1.0) == [];
    }
  }

  lemma {:induction false} ProductOfOnes(n: nat)
    ensures Product(seq(n, _ => 1.0)) == 1.0
  {
    if n > 0 {
      ProductOfOnes(n - 1);
      assert seq(n, _ => 1.0)[..n - 1] == seq(n - 1, _ => 1.0);
    }
  }

  /** The moment of order 0 is 1 for every polynomial: p^0 is the constant
      monomial, whose variables all have exponent 0 and contribute 1. */
  lemma MomentZero(p: Poly, dist: map<string, PolyVar>, E: VariableMoments)
    requires p.Valid() && Covers(p.gens, dist)
    ensures MomentOf(p, dist, E, 0) == Ok(1.0)
  {
    var q := p.Power(0);
    var n := |p.gens|;
    assert q.terms == [Term(Zeros(n), 1.0)];
    FactorsOfZeros(p.gens, dist, E, n);
    ProductOfOnes(n);
    assert MonomialMoment(p.gens, dist, E, Zeros(n)).value == 1.0;
    assert q.terms[0].exps == Zeros(n);
    assert MonomialMoments(q.gens, dist, E, q.terms, 0) == Ok([]);
    assert MonomialMoments(q.gens, dist, E, q.terms, 1).value == [1.0];
    assert Coefficients(q.terms) == [1.0];
    assert DotFrom([1.0], [1.0], 1) == 0.0;
  }

  /** The polynomial consisting of the single variable g. */
  function Single(g: string): (p: Poly)
    ensures p.Valid()
  {
    Poly([g], [Term([1], 1.0)])
  }

  lemma {:induction false} PowerOfSingle(g: string, n: nat)
    ensures Single(g).Power(n).terms == [Term([n], 1.0)]
  {
    if n > 0 {
      PowerOfSingle(g, n - 1);
      var x := Term([1], 1.0);
      var prev := [Term([n - 1], 1.0)];
      var t := Term([n], 1.0);
      assert Single(g).Power(n).terms == Mul([x], prev, 1);
      assert VecAdd([1], [n - 1]) == [n];
      assert ScaleBy(x, prev) == [t];
      assert Mul([x][1..], prev, 1) == [];
      assert AddTerm([], t) == [t];
      assert AddAll([t], []) == [t];
      assert AddAll([], [t]) == [t];
    } else {
      assert Zeros(1) == [0];
    }
  }

  /** For the polynomial that is one variable g, the moment of order n >= 1
      is E[g^n] as the single-variable expansion computes it, error
      included. */
  lemma SingleVariableMoment(g: string, dist: map<string, PolyVar>, E: VariableMoments, n: nat)
    requires g in dist && n >= 1
    ensures MomentOf(Single(g), dist, E, n) == E(dist[g], n)
  {
    PowerOfSingle(g, n);
    OneTermMoment([g], dist, E, [n]);
    SingleFactor(g, dist, E, n);
  }

  /** A list holding one monomial with coefficient 1 has that monomial's
      moment. */
  lemma OneTermMoment(gens: seq<string>, dist: map<string, PolyVar>, E: VariableMoments, e: Exponents)
    requires |e| == |gens| && Covers(gens, dist)
    ensures TermsMoment(gens, dist, E, [Term(e, 1.0)]) == MonomialMoment(gens, dist, E, e)
  {
    var ts := [Term(e, 1.0)];
    assert MonomialMoments(gens, dist, E, ts, 0) == Ok([]);
    var c := MonomialMoment(gens, dist, E, e);
    if c.Ok? {
      assert MonomialMoments(gens, dist, E, ts, 1).value == [c.value];
      assert Coefficients(ts) == [1.0];
      assert DotFrom([1.0], [c.value], 1) == 0.0;
    }
  }

  /** The monomial g^n of the one-variable polynomial g. */
  lemma SingleFactor(g: string, dist: map<string, PolyVar>, E: VariableMoments, n: nat)
    requires g in dist && n >= 1
    ensures MonomialMoment([g], dist, E, [n]) == E(dist[g], n)
  {
    var c := E(dist[g], n);
    assert Factor([g], dist, E, [n], 0) == c;
    assert Factors([g], dist, E, [n], 0) == Ok([]);
    if c.Ok? {
      assert Factors([g], dist, E, [n], 1).value == [c.value];
      assert Product([c.value]) == c.value;
    }
  }

  lemma {:induction false} FactorsAgree(gens: seq<string>, dist: map<string, PolyVar>, dist': map<string, PolyVar>,
                                        E: VariableMoments, e: Exponents, n: nat, i: nat)
    requires |e| == |gens| && n <= |e| && i < |e| && Covers(gens, dist) && Covers(gens, dist')
    requires forall a, b :: 0 <= a < b < |gens| ==> gens[a] != gens[b]
    requires e[i] == 0
    requires forall g :: g in gens && g != gens[i] ==> dist[g] == dist'[g]
    ensures Factors(gens, dist, E, e, n) == Factors(gens, dist', E, e, n)
  {
    if n > 0 {
      FactorsAgree(gens, dist, dist', E, e, n - 1, i);
      if n - 1 != i {
        assert gens[n - 1] != gens[i];
      }
      assert Factor(gens, dist, E, e, n - 1) == Factor(gens, dist', E, e, n - 1);
    }
  }

  lemma {:induction false} MonomialMomentsAgree(gens: seq<string>, dist: map<string, PolyVar>, dist': map<string, PolyVar>,
                                                E: VariableMoments, ts: seq<Term>, n: nat, i: nat)
    requires Polynomials.Uniform(ts, |gens|) && n <= |ts| && i < |gens| && Covers(gens, dist) && Covers(gens, dist')
    requires forall a, b :: 0 <= a < b < |gens| ==> gens[a] != gens[b]
    requires forall j :: 0 <= j < |ts| ==> ts[j].exps[i] == 0
    requires forall g :: g in gens && g != gens[i] ==> dist[g] == dist'[g]
    ensures MonomialMoments(gens, dist, E, ts, n) == MonomialMoments(gens, dist', E, ts, n)
  {
    if n > 0 {
      MonomialMomentsAgree(gens, dist, dist', E, ts, n - 1, i);
      var e := ts[n - 1].exps;
      FactorsAgree(gens, dist, dist', E, e, |e|, i);
    }
  }

  /** A variable whose exponent is zero in every term of p is never
      consulted: changing its specification leaves every moment of p, and
      every error, as it was. */
  lemma UnusedVariableIgnored(p: Poly, dist: map<string, PolyVar>, dist': map<string, PolyVar>, E: VariableMoments, order: int, i: nat)
    requires p.Valid() && Covers(p.gens, dist) && Covers(p.gens, dist')
    requires i < |p.gens|
    requires forall j :: 0 <= j < |p.terms| ==> p.terms[j].exps[i] == 0
    requires forall g :: g in p.gens && g != p.gens[i] ==> dist[g] == dist'[g]
    ensures MomentOf(p, dist, E, order) == MomentOf(p, dist', E, order)
  {
    if order >= 0 {
      var n := |p.gens|;
      var P := (e: Exponents) => |e| == n && e[i] == 0;
      assert Every(p.terms, P);
      assert P(Zeros(n));
      PowTermsEvery(p.terms, n, order, P);
      var q := p.Power(order);
      MonomialMomentsAgree(q.gens, dist, dist', E, q.terms, |q.terms|, i);
    }
  }

  lemma {:induction false} FactorsErrPersists(gens: seq<string>, dist: map<string, PolyVar>, E: VariableMoments, e: Exponents, n: nat, n': nat)
    requires |e| == |gens| && n <= n' <= |e| && Covers(gens, dist)
    requires Factors(gens, dist, E, e, n).Err?
    ensures Factors(gens, dist, E, e, n') == Factors(gens, dist, E, e, n)
    decreases n' - n
  {
    if n < n' {
      FactorsErrPersists(gens, dist, E, e, n, n' - 1);
    }
  }

  lemma {:induction false} MonomialMomentsErrPersists(gens: seq<string>, dist: map<string, PolyVar>, E: VariableMoments, ts: seq<Term>, n: nat, n': nat)
    requires Polynomials.Uniform(ts, |gens|) && n <= n' <= |ts| && Covers(gens, dist)
    requires MonomialMoments(gens, dist, E, ts, n).Err?
    ensures MonomialMoments(gens, dist, E, ts, n') == MonomialMoments(gens, dist, E, ts, n)
    decreases n' - n
  {
    if n < n' {
      MonomialMomentsErrPersists(gens, dist, E, ts, n, n' - 1);
    }
  }

  // Steps of the loops of the moment engine, one call each.

  lemma AdjustedSplits(V: PolyVar, K: Kernel, k: nat)
    ensures RawMoment(V, K, k).Err? ==> Adjusted(V, K, k) == Err(RawMoment(V, K, k).error)
    ensures RawMoment(V, K, k).Ok? ==> Adjusted(V, K, k) == Symmetrize(V.symmetry, K, k, RawMoment(V, K, k).value)
  {
  }

  lemma EntriesExtend(A: EntryTable, m: nat, i: nat, evms: seq<real>)
    requires i <= m && Entries(A, m, i) == Ok(evms) && A(m - i).Ok?
    ensures Entries(A, m, i + 1) == Ok(evms + [A(m - i).value])
  {
  }

  lemma ExpansionFail(A: EntryTable, t: real, m: nat, i: nat)
    requires i <= m && Entries(A, m, i).Ok? && A(m - i).Err?
    ensures Expansion(A, t, m) == A(m - i)
  {
    assert Entries(A, m, i + 1) == Err(A(m - i).error);
    EntriesErrPersists(A, m, i + 1, m + 1);
  }

  lemma ExpansionFromEntries(A: EntryTable, t: real, m: nat, evms: seq<real>)
    requires Entries(A, m, m + 1) == Ok(evms)
    ensures Expansion(A, t, m) == Ok(DotFrom(evms, Nonzero(DenseCoefficients(m, t)), 0))
  {
  }

  lemma FactorsExtend(gens: seq<string>, dist: map<string, PolyVar>, E: VariableMoments, e: Exponents, i: nat, fs: seq<real>)
    requires |e| == |gens| && i < |e| && Covers(gens, dist)
    requires Factors(gens, dist, E, e, i) == Ok(fs) && Factor(gens, dist, E, e, i).Ok?
    ensures Factors(gens, dist, E, e, i + 1) == Ok(fs + [Factor(gens, dist, E, e, i).value])
  {
  }

  lemma FactorsFail(gens: seq<string>, dist: map<string, PolyVar>, E: VariableMoments, e: Exponents, i: nat)
    requires |e| == |gens| && i < |e| && Covers(gens, dist)
    requires Factors(gens, dist, E, e, i).Ok? && Factor(gens, dist, E, e, i).Err?
    ensures MonomialMoment(gens, dist, E, e) == Factor(gens, dist, E, e, i)
  {
    assert Factors(gens, dist, E, e, i + 1) == Err(Factor(gens, dist, E, e, i).error);
    FactorsErrPersists(gens, dist, E, e, i + 1, |e|);
  }

  lemma MonomialMomentsExtend(gens: seq<string>, dist: map<string, PolyVar>, E: VariableMoments, ts: seq<Term>, i: nat, evs: seq<real>)
    requires Polynomials.Uniform(ts, |gens|) && i < |ts| && Covers(gens, dist)
    requires MonomialMoments(gens, dist, E, ts, i) == Ok(evs) && MonomialMoment(gens, dist, E, ts[i].exps).Ok?
    ensures MonomialMoments(gens, dist, E, ts, i + 1) == Ok(evs + [MonomialMoment(gens, dist, E, ts[i].exps).value])
  {
  }

  lemma TermsMomentFail(gens: seq<string>, dist: map<string, PolyVar>, E: VariableMoments, ts: seq<Term>, i: nat)
    requires Polynomials.Uniform(ts, |gens|) && i < |ts| && Covers(gens, dist)
    requires MonomialMoments(gens, dist, E, ts, i).Ok? && MonomialMoment(gens, dist, E, ts[i].exps).Err?
    ensures TermsMoment(gens, dist, E, ts) == MonomialMoment(gens, dist, E, ts[i].exps)
  {
    assert MonomialMoments(gens, dist, E, ts, i + 1) == Err(MonomialMoment(gens, dist, E, ts[i].exps).error);
    MonomialMomentsErrPersists(gens, dist, E, ts, i + 1, |ts|);
  }

  lemma TermsMomentFromMonomials(gens: seq<string>, dist: map<string, PolyVar>, E: VariableMoments, ts: seq<Term>, evs: seq<real>)
    requires Polynomials.Uniform(ts, |gens|) && Covers(gens, dist)
    requires MonomialMoments(gens, dist, E, ts, |ts|) == Ok(evs)
    ensures TermsMoment(gens, dist, E, ts) == Ok(DotFrom(Coefficients(ts), evs, 0))
  {
  }

  /** The moments of p of every order, for the derived statistics. */
  function MomentsOf(p: Poly, dist: map<string, PolyVar>, E: VariableMoments): MomentSequence
    requires p.Valid() && Covers(p.gens, dist)
  {
    (k: nat) => MomentOf(p, dist, E, k)
  }

  lemma MomentsAt(p: Poly, dist: map<string, PolyVar>, E: VariableMoments, k: nat)
    requires p.Valid() && Covers(p.gens, dist)
    ensures MomentsOf(p, dist, E)(k) == MomentOf(p, dist, E, k)
  {
  }

  /** The statistics see E[p^0] = 1, so each of them is the central moment
      formula of its docstring. */
  lemma MomentsStartAtOne(p: Poly, dist: map<string, PolyVar>, E: VariableMoments)
    requires p.Valid() && Covers(p.gens, dist)
    ensures StartsAtOne(MomentsOf(p, dist, E))
  {
    MomentZero(p, dist, E);
  }

  /** The moment engine: a polynomial, a specification for each of its
      variables (every one of which passed validation) and the special
      functions the table needs. It never changes after construction. */
  class PolyMoment {
    const poly: Poly
    const dist: map<string, PolyVar>
    const kernel: Kernel

    /** What the computations need: a canonical polynomial and a
        specification for each of its variables. */
    predicate Ready()
    {
      poly.Valid() && Covers(poly.gens, dist)
    }

    /** The state construction establishes: ready, and every specification
        has passed both validators. */
    predicate Valid()
    {
      Ready() && forall g :: g in dist ==> Accepted(dist[g])
    }

    constructor(poly: Poly, dist: map<string, PolyVar>, kernel: Kernel)
      requires poly.Valid() && Covers(poly.gens, dist)
      requires forall g :: g in dist ==> Accepted(dist[g])
      ensures Valid()
      ensures this.poly == poly && this.dist == dist && this.kernel == kernel
    {
      this.poly := poly;
      this.dist := dist;
      this.kernel := kernel;
    }

    /** The moment entry of order k: the table's raw moment, adjusted by
        the symmetry rule. */
    method Entry(params: PolyVar, k: nat) returns (r: Result<real, MomentError>)
      ensures r == TableOf(params, kernel)(k)
    {
      var raw := TableEntry(params, kernel, k);
      AdjustedSplits(params, kernel, k);
      if raw.Err? {
        return Err(raw.error);
      }
      r := Symmetrize(params.symmetry, kernel, k, raw.value);
    }

    /** E[v^m] for the variable named v: the moment entries for the orders
        m down to 0, then the zip with the nonzero coefficients of
        (translation + x)^m. */
    method ComputeEval(v: string, m: nat) returns (r: Result<real, MomentError>)
      requires v in dist
      ensures r == ComputeEvalOf(dist[v], kernel, m)
    {
      var params := dist[v];
      ghost var A := TableOf(params, kernel);
      var evms: seq<real> := [];
      var i := 0;
      while i <= m
        invariant 0 <= i <= m + 1
        invariant Entries(A, m, i) == Ok(evms)
      {
        var evm := Entry(params, m - i);
        if evm.Err? {
          ExpansionFail(A, params.translation, m, i);
          return evm;
        }
        EntriesExtend(A, m, i, evms);
        evms := evms + [evm.value];
        i := i + 1;
      }
      var coeffs := Nonzero(DenseCoefficients(m, params.translation));
      var res := Dot(evms, coeffs);
      ExpansionFromEntries(A, params.translation, m, evms);
      return Ok(res);
    }

    /** The moment of one monomial: each variable's factor in turn (1 for
        a zero exponent), then their running product. */
    method EvalMonomial(monom: Exponents) returns (r: Result<real, MomentError>)
      requires Ready() && |monom| == |poly.gens|
      ensures r == MonomialMoment(poly.gens, dist, EvalOf(kernel), monom)
    {
      ghost var E := EvalOf(kernel);
      var gens := poly.gens;
      var temp: seq<real> := [];
      var mIndex := 0;
      while mIndex < |monom|
        invariant 0 <= mIndex <= |monom|
        invariant Factors(gens, dist, E, monom, mIndex) == Ok(temp)
      {
        if monom[mIndex] == 0 {
          FactorsExtend(gens, dist, E, monom, mIndex, temp);
          temp := temp + [1.0];
        } else {
          var ev := ComputeEval(gens[mIndex], monom[mIndex]);
          if ev.Err? {
            FactorsFail(gens, dist, E, monom, mIndex);
            return ev;
          }
          FactorsExtend(gens, dist, E, monom, mIndex, temp);
          temp := temp + [ev.value];
        }
        mIndex := mIndex + 1;
      }
      var evalMonom := RunningProduct(temp);
      return Ok(evalMonom);
    }

    /** E[poly^order]: the power is expanded, the moment of every monomial
        computed in order, and the sum of coefficient times monomial moment
        taken. */
    method Moment(order: int) returns (r: Result<real, MomentError>)
      requires Ready()
      ensures r == MomentOf(poly, dist, EvalOf(kernel), order)
    {
      if order < 0 {
        return Err(NegativeOrder);
      }
      ghost var E := EvalOf(kernel);
      var p := poly.Power(order);
      var coeffs := Coefficients(p.terms);
      var evalMonoms: seq<real> := [];
      var i := 0;
      while i < |p.terms|
        invariant 0 <= i <= |p.terms|
        invariant MonomialMoments(p.gens, dist, E, p.terms, i) == Ok(evalMonoms)
      {
        var evalMonom := EvalMonomial(p.terms[i].exps);
        if evalMonom.Err? {
          TermsMomentFail(p.gens, dist, E, p.terms, i);
          return evalMonom;
        }
        MonomialMomentsExtend(p.gens, dist, E, p.terms, i, evalMonoms);
        evalMonoms := evalMonoms + [evalMonom.value];
        i := i + 1;
      }
      var moment := Dot(coeffs, evalMonoms);
      TermsMomentFromMonomials(p.gens, dist, E, p.terms, evalMonoms);
      return Ok(moment);
    }

    /** The mean: the moment of order 1. */
    method Mean() returns (r: Result<real, MomentError>)
      requires Ready()
      ensures r == MeanOf(MomentsOf(poly, dist, EvalOf(kernel)))
    {
      r := Moment(1);
    }

    /** The variance: the moment of order 2, then that of order 1. */
    method Var() returns (r: Result<real, MomentError>)
      requires Ready()
      ensures r == VarianceOf(MomentsOf(poly, dist, EvalOf(kernel)))
    {
      ghost var M := MomentsOf(poly, dist, EvalOf(kernel));
      var e2 := Moment(2);
      MomentsAt(poly, dist, EvalOf(kernel), 2);
      if e2.Err? {
        return e2;
      }
      var e1 := Moment(1);
      MomentsAt(poly, dist, EvalOf(kernel), 1);
      if e1.Err? {
        return e1;
      }
      VarianceAt(M, e2.value, e1.value);
      r := Ok(Variance(e2.value, e1.value));
    }

    /** The standard deviation: the square root of the variance. */
    method Std() returns (r: Result<real, MomentError>)
      requires Ready()
      ensures r == StdOf(MomentsOf(poly, dist, EvalOf(kernel)), kernel.sqrt)
    {
      var variance := Var();
      if variance.Err? {
        return variance;
      }
      return Ok(kernel.sqrt(variance.value));
    }

    /** The skewness from the mean, the variance and the third moment. */
    method Skew() returns (r: Result<real, MomentError>)
      requires Ready()
      ensures r == SkewOf(MomentsOf(poly, dist, EvalOf(kernel)), kernel.sqrt)
    {
      ghost var M := MomentsOf(poly, dist, EvalOf(kernel));
      var mean := Mean();
      if mean.Err? {
        assert SkewOf(M, kernel.sqrt) == mean;
        return mean;
      }
      var variance := Var();
      if variance.Err? {
        assert SkewOf(M, kernel.sqrt) == variance;
        return variance;
      }
      var e3 := Moment(3);
      MomentsAt(poly, dist, EvalOf(kernel), 3);
      if e3.Err? {
        assert SkewOf(M, kernel.sqrt) == e3;
        return e3;
      }
      r := Skewness(mean.value, variance.value, e3.value, kernel.sqrt(variance.value));
    }

    /** The kurtosis from the moments of orders 1 to 4. */
    method Kurt() returns (r: Result<real, MomentError>)
      requires Ready()
      ensures r == KurtOf(MomentsOf(poly, dist, EvalOf(kernel)))
    {
      ghost var M := MomentsOf(poly, dist, EvalOf(kernel));
      var e1 := Moment(1);
      MomentsAt(poly, dist, EvalOf(kernel), 1);
      if e1.Err? {
        assert KurtOf(M) == e1;
        return e1;
      }
      var e2 := Moment(2);
      MomentsAt(poly, dist, EvalOf(kernel), 2);
      if e2.Err? {
        assert KurtOf(M) == e2;
        return e2;
      }
      var e3 := Moment(3);
      MomentsAt(poly, dist, EvalOf(kernel), 3);
      if e3.Err? {
        assert KurtOf(M) == e3;
        return e3;
      }
      var e4 := Moment(4);
      MomentsAt(poly, dist, EvalOf(kernel), 4);
      if e4.Err? {
        assert KurtOf(M) == e4;
        return e4;
      }
      r := Kurtosis(e1.value, e2.value, e3.value, e4.value);
    }
  }
}
