# polymoment, modelled in Dafny

polymoment computes the moments of a polynomial `P(x0, x1, …)` in
independent random variables. It also computes the statistics built from
those moments: mean, variance, standard deviation, skewness and kurtosis.

Each variable is described by a `PolyVar`:
- a distribution family, such as `normal` or `gamma`;
- a symmetry type: `symmetrical`, `one_sided_right` or `one_sided_left`;
- a translation `t` and a scale `s`;
- optional shape parameters `beta1` and `beta2`.

`PolyMoment.moment(order)` works in four steps:
1. It expands `P^order` into monomials.
2. It replaces each factor `V^m` of a monomial by `E[V^m]`. By
   independence, the expectation of a monomial is the product of these
   factors, and `E[V^0] = 1`.
3. It multiplies each monomial's expectation by its coefficient.
4. It sums the results.

`compute_eval` finds `E[V^m]` by expanding `(t + X)^m` binomially over
the standardised variable `X`. Each `E[X^k]` is a row of a table with one
entry per family and order; a symmetry rule then doubles the row, or sets
it to zero. The statistics are formulas in the moments of orders 1 to 4.

The Dafny modules follow the program's structure:

- **Wrappers**: `Option` and `Result`.
- **RealMath**: integer powers, factorials, binomial coefficients, rising
  products and the binomial sum. `Times` and `Ratio` are plain
  multiplication and division, written as functions.
- **Polynomials**: sympy's canonical sparse polynomial.
  - The terms are sorted strictly descending in lexicographic order of
    their exponents, and no coefficient is zero.
  - It provides multiplication and integer powers.
  - The meaning of a polynomial is the linear functional `Apply`, which
    maps each monomial to a value. Evaluating at a point is one instance
    of it; the expectation is another.
- **PolyVars**: the `PolyVar` record and its two validators.
- **MomentTable**:
  - the table of `E[X^k]` for twelve families, matched by full name or
    abbreviation;
  - the symmetry rule, and the errors both can raise;
  - loop methods for the two rows that the source builds in a loop
    (`beta` and `gamma`).
- **PolyMoments**: the binomial expansion of `compute_eval`, the moment
  of a polynomial, and the class `PolyMoment`. Its methods run the
  source's loops and are proved equal to the specification functions.
- **Statistics**: the five statistics, failing in the order the source
  evaluates them. Lemmas tie them to the central moments and prove that
  they do not change under translation.
- **ClosedForms**: the statistics of a polynomial that is a single
  variable. They are given in closed form for the symmetrical normal and
  Laplace families, and the one-sided uniform, gamma and Weibull
  families, matching the values the repository's tests expect.
- **Reachability**: what the validators accept, set against what the
  table can evaluate.
- **Independence**: the moments of the sum `x0 + x1` of two distinct
  variables. Its mean is the sum of their means, and its variance the sum
  of their variances, for any per-variable moments that exist up to
  order 2.

Special functions are fields of a `Kernel` value passed to every
operation: Γ, 1/Γ, real power, exp, 1/√π and the square root. They are
not axiomatised. A closed form that needs a property of one of them lists
that property as a precondition, for example Γ(1) = 1 for Weibull. Such a
closed form is then proved for every kernel that has the property.

Python errors become `MomentError` values:
- a `TypeError` on a missing shape parameter becomes `MissingShape`;
- a `ZeroDivisionError` in the trapezoidal, beta or Weibull row becomes
  `DivisionByZero`;
- sympy's infinite or undefined results (`zoo`, `nan`) from a zero
  variance become `NotFinite`;
- the `ValueError`s for an unknown family or symmetry become
  `UnknownDistribution` and `UnknownSymmetry`.

The model follows the code as written, including where it departs from
what its interface suggests:
- The validators accept names in any mix of upper and lower case, and
  return the name unchanged. The table then compares names exactly, so
  `Normal` passes validation and every moment of it fails.
- The symmetry validator also accepts `asymmetrical`, which the table
  rejects.
- No validator checks that a family's shape parameters are present, so
  a gamma variable without `beta1` is accepted, and then fails at the
  table.
- The `one_sided_left` rule is kept as written. It raises −1 to the
  table entry itself, not to the order. The real power is a kernel
  function, so nothing in the model depends on what `(-1) ** x` evaluates
  to.

## Model

| member | source | states |
|---|---|---|
| PolyVars.DistributionMustBeSupported | polyvar.py:12-27 | accepts exactly the names that spell, ignoring case, one of the ten listed families; an accepted name is returned unchanged, and a rejected one gives the message "Distribution v is not supported" |
| PolyVars.DistributionTypeMustBeSupported | polyvar.py:29-38 | accepts exactly the names that spell, ignoring case, one of the four listed types (including `asymmetrical`); an accepted name is returned unchanged, and a rejected one gives "Distribution type v is not supported" |
| PolyVars.Validate | polyvar.py:4-38 | a record is built exactly when both validated fields pass, and keeps every field as given; otherwise it reports one error per failing field, in field order, with that field's message and no other error |
| PolyVars.LowerIsSpelling | polyvar.py:14 | for a lower-case target w, lowering v gives w if and only if v spells w ignoring case |
| PolyVars.AcceptanceIgnoresCase | polyvar.py:12-38 | two names that lower to the same string are accepted or rejected together, by both validators |
| MomentTable.FamilyOf | polymoment.py:108-153 | a family is found only for a name equal to its full name or its abbreviation; no family is found for a name equal to neither, for every family |
| MomentTable.FamilyOfFullName | polymoment.py:108-151 | each family's full name dispatches to that family |
| MomentTable.FamilyOfAbbreviation | polymoment.py:108-151 | each family's abbreviation (three letters, or four for `logn`) dispatches to that family |
| MomentTable.SymmetryOf | polymoment.py:157-164 | a rule is found exactly for the three names `symmetrical`, `one_sided_right` and `one_sided_left`, compared exactly |
| MomentTable.MissingShapeExactly | polymoment.py:112-141 | a row fails with a missing shape exactly when it reads `beta1` or `beta2` at that order and the value is absent |
| MomentTable.UnreadShapeIgnored | polymoment.py:112-141 | a row does not depend on a shape parameter it does not read at that order |
| MomentTable.RawMomentErrorPersists | polymoment.py:105-153 | a table entry that fails at order k fails with the same error at every higher order |
| MomentTable.SymmetrizeRule | polymoment.py:155-164 | the rule fails, with an unknown-symmetry error, exactly for an unknown name; `symmetrical` doubles even orders and zeroes odd ones, `one_sided_right` doubles, and `one_sided_left` gives rpow(−1, raw)·2·raw |
| MomentTable.AdjustedErrorPersists | polymoment.py:105-166 | an adjusted entry that fails at order k fails at every higher order |
| MomentTable.BetaStep | polymoment.py:117-121 | one pass of the beta loop turns the partial product for j factors into the closed form for j + 1 factors, and keeps the rising product of the denominators nonzero |
| MomentTable.BetaEntry | polymoment.py:117-121 | the loop over `ptm` computes the beta row: s^k/2 · (b1)_k / (b1 + b2)_k, or the missing-shape or division-by-zero error |
| MomentTable.GammaEntry | polymoment.py:136-139 | the loop over `ptm` computes the gamma row: s^k/2 · (b1)_k, or the missing-shape error |
| MomentTable.TableEntry | polymoment.py:106-153 | the dispatch on the family name computes the row of the named family, or fails with an unknown-distribution error |
| PolyMoments.Dot | polymoment.py:169-171 | the accumulation loop computes the sum of the pairwise products of the zipped sequences, stopping at the shorter one |
| PolyMoments.ExpansionError | polymoment.py:105-173 | the expansion fails with the error of the order-m entry when that entry fails, and succeeds when every entry up to m succeeds |
| PolyMoments.ComputeEvalError | polymoment.py:99-173 | E[V^m] fails exactly when the adjusted entry of order m fails, and with the same error |
| PolyMoments.CoefficientsTranslated | polymoment.py:99-103 | for a nonzero translation, all m + 1 binomial coefficients C(m, i)·t^i are kept, in order |
| PolyMoments.CoefficientsUntranslated | polymoment.py:99-103 | for a zero translation, only the leading coefficient 1 survives |
| PolyMoments.ZipTranslated | polymoment.py:99-173 | with a nonzero translation, zipping the entries with the coefficients gives the binomial sum of (t + X)^m |
| PolyMoments.ZipUntranslated | polymoment.py:99-173 | with a zero translation, the zip truncates to the leading term, which is still the binomial sum |
| PolyMoments.ExpansionExpands | polymoment.py:99-173 | when the entries succeed, the expansion equals the binomial sum of C(m, k)·t^(m−k)·E[X^k] |
| PolyMoments.ComputeEvalExpands | polymoment.py:99-173 | when the order-m entry succeeds, E[V^m] is the binomial sum over the variable's table |
| PolyMoments.ComputeEvalUntranslated | polymoment.py:99-173 | an untranslated variable's E[V^m] is its adjusted table entry |
| PolyMoments.RunningProduct | polymoment.py:69-72 | the product loop computes the product of all the per-variable expectations |
| PolyMoments.MomentIsExpectation | polymoment.py:47-81 | a computed moment of order n is the expectation functional applied to the terms of P^n |
| PolyMoments.MomentStep | polymoment.py:50 | the moment of order n + 1 is the double sum over the terms of P and of P^n |
| PolyMoments.MomentZero | polymoment.py:50-79 | the moment of order 0 is 1 |
| PolyMoments.SingleVariableMoment | polymoment.py:50-81 | the n-th moment (n ≥ 1) of the polynomial that is the variable g is E[g^n] |
| PolyMoments.OneTermMoment | polymoment.py:77-79 | a single term with coefficient 1 has the moment of its monomial |
| PolyMoments.UnusedVariableIgnored | polymoment.py:60-64 | a moment does not depend on the distribution of a variable whose exponent is zero in every term |
| PolyMoments.MomentsStartAtOne | polymoment.py:50-79 | the moment sequence of a polynomial starts with 1 at order 0 |
| PolyMoments.PolyMoment.constructor | polymoment.py:9-13 | the object holds the given polynomial, specifications and kernel, and every specification has passed both validators |
| PolyMoments.PolyMoment.Entry | polymoment.py:106-164 | one table entry after the symmetry rule, for the given specification and order |
| PolyMoments.PolyMoment.ComputeEval | polymoment.py:90-173 | the loops of `compute_eval` compute E[V^m] for the named variable |
| PolyMoments.PolyMoment.EvalMonomial | polymoment.py:58-74 | the loops over one monomial compute the product of E[V^m] over its nonzero exponents, or the first error |
| PolyMoments.PolyMoment.Moment | polymoment.py:47-81 | the loops of `moment` compute the moment specified by the expectation of P^order |
| PolyMoments.PolyMoment.Mean | polymoment.py:42-45 | the mean is the first moment |
| PolyMoments.PolyMoment.Var | polymoment.py:23-26 | the variance of the object's moments |
| PolyMoments.PolyMoment.Std | polymoment.py:18-21 | the kernel's square root of the variance |
| PolyMoments.PolyMoment.Skew | polymoment.py:28-33 | the skewness of the object's moments |
| PolyMoments.PolyMoment.Kurt | polymoment.py:35-40 | the kurtosis of the object's moments |
| Statistics.VarianceOf | polymoment.py:23-26 | fails exactly when moment 2 or moment 1 fails, with the first failing one in evaluation order; otherwise equals the second central moment E[(P − mean)^2] |
| Statistics.StdOf | polymoment.py:18-21 | fails exactly when the variance fails; otherwise it is the square root of the variance |
| Statistics.SkewOf | polymoment.py:28-33 | errors of moments 1, 2 and 3 propagate in that order; otherwise it succeeds exactly when the root of the variance is nonzero, and is then the third central moment over sd³ |
| Statistics.KurtOf | polymoment.py:35-40 | errors of moments 1 to 4 propagate in order; otherwise it succeeds exactly when the variance is nonzero, and is then the fourth central moment over var² |
| Statistics.KurtosisStandardized | polymoment.py:35-40 | the kurtosis computed from e1 to e4 is the fourth central moment divided by the squared variance |
| Statistics.TranslationInvariance | polymoment.py:23-40 | translating every moment binomially by t moves the mean by t and keeps the variance, the skewness and the kurtosis |
| Statistics.ShiftedStatistics | polymoment.py:23-40 | the same, for moments given by the explicit shifted expansions of orders 1 to 4 |
| Polynomials.Mul | polymoment.py:50 | the product of two polynomials is in canonical form |
| Polynomials.MulApply | polymoment.py:50 | every linear functional maps a product of polynomials to the double sum over the pairs of terms |
| Polynomials.MulEvalAt | polymoment.py:50 | the product evaluates to the product of the values, at every point |
| Polynomials.Poly.Power | polymoment.py:50 | P^k is a valid polynomial over the same generators |
| Polynomials.PowerEvalAt | polymoment.py:50 | P^k evaluates to the k-th power of P's value, at every point |
| Polynomials.PowerApply | polymoment.py:50 | P^0 is the constant monomial, and P^k is the product of P with P^(k−1), under every linear functional |
| ClosedForms.SingleStatistics | polymoment.py:23-45 | for the single variable g with entries 1, a1, a2, a3, a4, the mean is a1 + t, and the variance, skewness and kurtosis are those of the untranslated entries |
| ClosedForms.NormalEntries | polymoment.py:122-158 | a symmetrical normal variable has adjusted entries (k − 1)!!·s^k at even orders and 0 at odd orders |
| ClosedForms.LaplaceEntries | polymoment.py:134-158 | a symmetrical Laplace variable has adjusted entries k!·s^k at even orders and 0 at odd orders |
| ClosedForms.UniformEntries | polymoment.py:107-160 | a one-sided uniform variable has adjusted entries s^k/(k + 1) |
| ClosedForms.GammaEntries | polymoment.py:136-160 | a one-sided gamma variable with shape b has adjusted entries s^k·(b)_k |
| ClosedForms.WeibullEntries | polymoment.py:140-160 | a one-sided Weibull variable with nonzero shape b has adjusted entries s^k·Γ(k/b + 1) |
| ClosedForms.NormalStatistics | test_polymoment.py:4-23 | x0 normal, symmetrical: mean t, variance s², skewness 0 (not finite when the root of s² is zero) and kurtosis 3 (not finite for a zero scale) |
| ClosedForms.LaplaceStatistics | test_polymoment.py:26-45 | x0 Laplace, symmetrical: mean t, variance 2s², skewness 0 and kurtosis 6 |
| ClosedForms.UniformStatistics | test_polymoment.py:75-94 | x0 uniform, one-sided right: mean t + s/2, variance s²/12, skewness 0 and kurtosis 9/5 |
| ClosedForms.GammaStatistics | test_polymoment.py:97-117 | x0 gamma, one-sided right, shape b: mean t + b·s, variance b·s², skewness 2s/√(b·s²) and kurtosis 3 + 6/b |
| ClosedForms.WeibullStatistics | test_polymoment.py:48-72 | x0 Weibull, one-sided right, shape b, with g_k = Γ(1 + k/b): mean t + s·g1, variance s²(g2 − g1²), skewness s(g3 − 3g1v − g1³)/(√(s²v)·v), and kurtosis (−3g1⁴ + 6g1²g2 − 4g1g3 + g4)/v² |
| ClosedForms.ScaledFromEntries | polymoment.py:23-45 | when the entries are s^k·g_k, with v = g2 − g1²: the mean is t + s·g1, the variance s²·v, the skewness s·(g3 − 3g1v − g1³)/(sd·v) for a nonzero root sd of s²·v (not finite for a zero root), and the kurtosis the g_k's fourth central moment over v² (not finite when s or v is zero) |
| Reachability.AcceptedFamilyKnown | polyvar.py:12-27 | for an accepted family name, the table knows the family exactly when the name is written in lower case; the family is then matched by its full name, and is neither `lognormal` nor `rayleigh` |
| Reachability.SupportedAreFullNames | polyvar.py:14-25 | each of the ten accepted names is the full name of a table family other than `lognormal` and `rayleigh` |
| Reachability.AcceptedSymmetryKnown | polyvar.py:29-38 | for an accepted type, the table knows the rule exactly when the name is lower case and not `asymmetrical` |
| Reachability.UnknownNamesFail | polymoment.py:152-164 | an unknown family or symmetry makes every E[V^m] fail; an unknown family is reported first |
| Reachability.CapitalizedFamilyFails | polyvar.py:27 | `Normal` passes validation, and every moment of the variable then fails with an unknown-distribution error |
| Reachability.AsymmetricalFails | polymoment.py:163-164 | `asymmetrical` passes validation for a normal variable, and every moment of that variable then fails with an unknown-symmetry error |
| Reachability.UnreachableNames | polyvar.py:14-25 | the validator rejects all twelve abbreviations, and the full names `lognormal` and `rayleigh` |
| Reachability.GammaWithoutShapeFails | polyvar.py:9-10 | a gamma variable without `beta1` passes validation, and every moment of order 1 or more then fails on the missing shape |
| Independence.SumFirstPower | polymoment.py:50 | (x0 + x1)^1 has the two terms x0 and x1 |
| Independence.SumSquare | polymoment.py:50 | (x0 + x1)^2 has the canonical terms x0², 2·x0·x1 and x1², in that order |
| Independence.TwoFactors | polymoment.py:57-73 | a monomial in two variables has the product of its two factors as its moment |
| Independence.LinearTermsMoment | polymoment.py:75-79 | the term list x0 + x1 has moment E[x0] + E[x1] |
| Independence.SquareTermsMoment | polymoment.py:75-79 | the term list x0² + 2·x0·x1 + x1² has moment E[x0²] + 2·E[x0]·E[x1] + E[x1²] |
| Independence.SumFirstMoment | polymoment.py:47-81 | E[x0 + x1] = E[x0] + E[x1] when both exist |
| Independence.SumSecondMoment | polymoment.py:47-81 | E[(x0 + x1)²] = E[x0²] + 2·E[x0]·E[x1] + E[x1²] when the moments of orders 1 and 2 exist |
| Independence.SumSequence | polymoment.py:47-81 | the moment sequence of x0 + x1 has those first two moments |
| Independence.SingleSequence | polymoment.py:47-81 | the moment sequence of a single variable has that variable's moments of orders 1 and 2 |
| Independence.SumMean | polymoment.py:42-45 | for independent x0 and x1 the mean of x0 + x1 is the sum of their means, whenever both exist |
| Independence.VariancesAdd | polymoment.py:23-26 | moment sequences whose first two moments are those of a sum of independent variables have variances that add |
| Independence.VarianceSum | polymoment.py:23-26 | (a2 + 2·a1·b1 + b2) − (a1 + b1)² = (a2 − a1²) + (b2 − b1²) |
| Independence.SumVariance | polymoment.py:23-26 | for independent x0 and x1 the variance of x0 + x1 is the sum of their variances, whenever their moments of orders 1 and 2 exist |

## Left out

- Parsing the polynomial string with `eval`, and binding the symbols through `__dict__`: the polynomial is given as a value.
- The `sympy.Pow` branch of `compute_eval`, and its error for a non-integer order: every order in this core is a natural number.
- `lru_cache`: it has no observable effect on the results.
- `sympy.simplify` and the string form of the results: the model computes
  values, not expressions. The tests' expected strings become the
  equalities in ClosedForms.
- Floating point: numbers are exact reals, and Python's `/` is exact division.
- The symbolic scale and shape: sympy treats a symbol as nonzero. The model keeps the zero cases, which give `NotFinite`. The closed forms therefore include the zero cases rather than assuming them away.
- Complex values from a negative variance: the square root is an abstract kernel function.
- Special functions (Γ, 1/Γ, real power, exp, √π, sqrt): they are kernel parameters without their defining equations.
- ClosedForms.GammaStatistics: the skewness is stated only for a root that squares back to the variance, because the kernel's square root is abstract.
- ClosedForms.WeibullStatistics: the skewness is stated only for a root that squares back to the variance, and the statement assumes Γ(1) = 1, because the square root and Γ are abstract.
- The remaining seven families (lognormal, trapezoidal, triangular, beta, Student, Rayleigh, Maxwell): their rows are in the table, but no closed-form statistics are proved for them, because the repository's tests fix none.
- The squaring that sympy may use to compute `P ** n`: it is modelled as repeated multiplication, which gives the same canonical polynomial.
- Case-insensitive matching follows ASCII `lower()` only: Unicode case mapping is out of scope.
- `main_backend.py`, `main_frontend.py` and `datamodel.py`: the web service, the form and the request schema are not part of this model.
- pydantic's conversion of field values: values arrive as reals or as absent options.
- PolyMoments.PolyMoment.Moment and the other methods require only that the polynomial and specifications are well formed, not the validation the constructor establishes. The table handles unvalidated names through its own errors.
- PolyMoments.PolyMoment.constructor takes specifications that have already passed PolyVars.Validate, which models the `PolyVar(**v)` calls in `__init__` (polymoment.py:13). A specification that fails raises there, before any object exists, so that failure is Validate's error result and not a path of the constructor.
- A negative order: in the source, `self.poly ** order` then gives a sympy expression rather than a polynomial, and reading `p.gens` raises `AttributeError` (polymoment.py:50-53). The model returns `Err(NegativeOrder)` instead.
- `__call__`: it only forwards to `moment`.
- The tests pass an `x=` keyword that `PolyMoment.__init__` does not take. The model follows the constructor.
