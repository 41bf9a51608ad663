/** The table of raw moments E[X^k] of each family's standard variable X,
    and the symmetry rule that turns a table entry into the moment used
    by the expansion. Names are matched exactly (case-sensitively), by
    full name or by abbreviation. */
module MomentTable {
  import opened Wrappers
  import opened RealMath
  import opened PolyVars

  datatype Family =
    | Uniform | Lognormal | Trapezoidal | Triangular | Beta | Normal
    | Student | Laplace | Gamma | Weibull | Rayleigh | Maxwell

  function FullName(f: Family): string {
    match f
    case Uniform => "uniform"
    case Lognormal => "lognormal"
    case Trapezoidal => "trapezoidal"
    case Triangular => "triangular"
    case Beta => "beta"
    case Normal => "normal"
    case Student => "student"
    case Laplace => "laplace"
    case Gamma => "gamma"
    case Weibull => "weibull"
    case Rayleigh => "rayleigh"
    case Maxwell => "maxwell"
  }

  function Abbreviation(f: Family): string {
    match f
    case Uniform => "uni"
    case Lognormal => "logn"
    case Trapezoidal => "tra"
    case Triangular => "tri"
    case Beta => "bet"
    case Normal => "nor"
    case Student => "stu"
    case Laplace => "lap"
    case Gamma => "gam"
    case Weibull => "wei"
    case Rayleigh => "ray"
    case Maxwell => "max"
  }

  /** The family a distribution name selects: exactly the full name or the
      abbreviation of some family, compared case-sensitively. */
  function FamilyOf(name: string): (r: Option<Family>)
    ensures r.Some? ==> name == FullName(r.value) || name == Abbreviation(r.value)
    ensures r.None? ==> forall f: Family :: name != FullName(f) && name != Abbreviation(f)
  {
    if name in ["uniform", "uni"] then Some(Uniform)
    else if name in ["lognormal", "logn"] then Some(Lognormal)
    else if name in ["trapezoidal", "tra"] then Some(Trapezoidal)
    else if name in ["triangular", "tri"] then Some(Triangular)
    else if name in ["beta", "bet"] then Some(Beta)
    else if name in ["normal", "nor"] then Some(Normal)
    else if name in ["student", "stu"] then Some(Student)
    else if name in ["laplace", "lap"] then Some(Laplace)
    else if name in ["gamma", "gam"] then Some(Gamma)
    else if name in ["weibull", "wei"] then Some(Weibull)
    else if name in ["rayleigh", "ray"] then Some(Rayleigh)
    else if name in ["maxwell", "max"] then Some(Maxwell)
    else None
  }

  /** A family's full name selects that family. */
  lemma FamilyOfFullName(f: Family)
    ensures FamilyOf(FullName(f)) == Some(f)
  {
  }

  /** A family's abbreviation selects that family. */
  lemma FamilyOfAbbreviation(f: Family)
    ensures FamilyOf(Abbreviation(f)) == Some(f)
  {
  }

  datatype Symmetry = Symmetrical | OneSidedRight | OneSidedLeft

  function SymmetryName(s: Symmetry): string {
    match s
    case Symmetrical => "symmetrical"
    case OneSidedRight => "one_sided_right"
    case OneSidedLeft => "one_sided_left"
  }

  /** The symmetry rule a `type` string selects, compared case-sensitively. */
  function SymmetryOf(name: string): (r: Option<Symmetry>)
    ensures r.Some? ==> name == SymmetryName(r.value)
    ensures r.None? ==> forall s: Symmetry :: name != SymmetryName(s)
  {
    if name == "symmetrical" then Some(Symmetrical)
    else if name == "one_sided_right" then Some(OneSidedRight)
    else if name == "one_sided_left" then Some(OneSidedLeft)
    else None
  }

  /** The special functions and constants the table needs, supplied by the
      caller rather than defined here:
      `gamma` is Γ, `rgamma` is 1/Γ (zero at the poles of Γ), `rpow(b, e)`
      is b raised to a real exponent, `exp` is the exponential,
      `invSqrtPi` is 1/√π and `sqrt` is the square root. */
  datatype Kernel = Kernel(
    gamma: real -> real,
    rgamma: real -> real,
    rpow: (real, real) -> real,
    exp: real -> real,
    invSqrtPi: real,
    sqrt: real -> real)

  /** Why a moment has no value. */
  datatype MomentError =
    | UnknownDistribution   // the family name matches no table row
    | UnknownSymmetry       // the type string matches no symmetry rule
    | MissingShape          // arithmetic on an absent beta1 or beta2
    | DivisionByZero        // a float division by zero inside a table entry
    | NegativeOrder         // a moment of negative order was asked for
    | NotFinite             // a statistic divides by a zero denominator

  /** Raw moment E[X^k] of the standard variable of `V`'s family, scaled by
      `V.scale`, as the table gives it; a name outside the table is an error. */
  function RawMoment(V: PolyVar, K: Kernel, k: nat): Result<real, MomentError>
  {
    match FamilyOf(V.distribution)
    case None => Err(UnknownDistribution)
    case Some(f) => Row(f, V.scale, V.beta1, V.beta2, K, k)
  }

  /** One row of the table, at order k, for scale s and shape parameters
      beta1, beta2. The beta and gamma rows are products the source builds
      in a loop; they are stated here in closed form through rising
      products. Python's `k / 2` is exact real division. */
  function Row(f: Family, s: real, beta1: Option<real>, beta2: Option<real>, K: Kernel, k: nat): Result<real, MomentError>
  {
    match f
    case Uniform => Ok(UniformRow(s, k))
    case Lognormal => Ok(LognormalRow(s, K, k))
    case Trapezoidal => TrapezoidalRow(s, beta1, k)
    case Triangular => Ok(TriangularRow(s, k))
    case Beta => BetaRow(s, beta1, beta2, k)
    case Normal => Ok(NormalRow(s, K, k))
    case Student => StudentRow(s, beta1, K, k)
    case Laplace => Ok(LaplaceRow(s, k))
    case Gamma => GammaRow(s, beta1, k)
    case Weibull => WeibullRow(s, beta1, K, k)
    case Rayleigh => Ok(RayleighRow(s, K, k))
    case Maxwell => Ok(MaxwellRow(s, K, k))
  }

  function UniformRow(s: real, k: nat): real {
    Pow(s, k) / ((k as real + 1.0) * 2.0)
  }

  function LognormalRow(s: real, K: Kernel, k: nat): real {
    K.exp((k as real * k as real * (s * s)) / 2.0)
  }

  /** Needs beta1, and divides by 1 - beta1^2. */
  function TrapezoidalRow(s: real, beta1: Option<real>, k: nat): Result<real, MomentError> {
    if beta1.None? then Err(MissingShape)
    else if 1.0 - beta1.value * beta1.value == 0.0 then Err(DivisionByZero)
    else
      var b := beta1.value;
      var kr := k as real;
      Ok(Pow(s, k) / (kr * kr + 3.0 * kr + 2.0) * ((1.0 - Pow(b, k + 2)) / (1.0 - b * b)))
  }

  function TriangularRow(s: real, k: nat): real {
    Pow(s, k) / (k as real * k as real + 3.0 * k as real + 2.0)
  }

  /** Even orders: s^k (k-1)!!/2; odd orders go through 2^(k/2 - 1) and 1/√π. */
  function NormalRow(s: real, K: Kernel, k: nat): real {
    if k % 2 == 0 then Pow(s, k) * DoubleFactorial(k - 1) as real / 2.0
    else Pow(s, k) * (K.rpow(2.0, k as real / 2.0 - 1.0) * Factorial((k - 1) / 2) as real) * K.invSqrtPi
  }

  /** Needs beta1, the degrees of freedom. */
  function StudentRow(s: real, beta1: Option<real>, K: Kernel, k: nat): Result<real, MomentError> {
    if beta1.None? then Err(MissingShape)
    else
      var b := beta1.value;
      var kr := k as real;
      Ok(Pow(s, k) * (K.rpow(b, kr / 2.0) * K.gamma((kr + 1.0) / 2.0) * K.gamma((b - kr) / 2.0))
         * (K.invSqrtPi / 2.0) * K.rgamma(b / 2.0))
  }

  function LaplaceRow(s: real, k: nat): real {
    Pow(s, k) * Factorial(k) as real / 2.0
  }

  /** Needs beta1, and divides by it. */
  function WeibullRow(s: real, beta1: Option<real>, K: Kernel, k: nat): Result<real, MomentError> {
    if beta1.None? then Err(MissingShape)
    else if beta1.value == 0.0 then Err(DivisionByZero)
    else Ok(Pow(s, k) * K.gamma(k as real / beta1.value + 1.0) / 2.0)
  }

  function RayleighRow(s: real, K: Kernel, k: nat): real {
    Pow(s, k) * K.rpow(2.0, k as real / 2.0 - 1.0) * K.gamma((2.0 + k as real) / 2.0)
  }

  /** Even orders: s^k (k+1)!!; odd orders go through 2^(k/2 + 1) and 1/√π. */
  function MaxwellRow(s: real, K: Kernel, k: nat): real {
    if k % 2 == 0 then Pow(s, k) * DoubleFactorial(k + 1) as real
    else Pow(s, k) * (K.rpow(2.0, k as real / 2.0 + 1.0) * K.invSqrtPi) * Factorial((k + 1) / 2) as real
  }

  /** The beta row in closed form: s^k/2 times the ratio of the rising
      products (b1)_k / (b1 + b2)_k; it divides by zero exactly when one of
      the factors b1 + b2 + j, j < k, is zero. */
  function BetaRow(s: real, beta1: Option<real>, beta2: Option<real>, k: nat): Result<real, MomentError>
  {
    if k == 0 then Ok(Pow(s, k) / 2.0)
    else if beta1.None? || beta2.None? then Err(MissingShape)
    else if Rising(beta1.value + beta2.value, k) == 0.0 then Err(DivisionByZero)
    else Ok(Times(Pow(s, k) / 2.0, Rising(beta1.value, k) / Rising(beta1.value + beta2.value, k)))
  }

  /** The gamma row in closed form: s^k/2 times the rising product (b1)_k. */
  function GammaRow(s: real, beta1: Option<real>, k: nat): Result<real, MomentError>
  {
    if k == 0 then Ok(Pow(s, k) / 2.0)
    else if beta1.None? then Err(MissingShape)
    else Ok(Times(Pow(s, k) / 2.0, Rising(beta1.value, k)))
  }

  /** The shape parameters a family's row reads at order k. */
  predicate ReadsBeta1(f: Family, k: nat) {
    f in {Trapezoidal, Student, Weibull} || (f in {Beta, Gamma} && k > 0)
  }

  predicate ReadsBeta2(f: Family, k: nat) {
    f == Beta && k > 0
  }

  /** A table entry fails for a missing shape parameter exactly when its row
      reads a parameter that is absent. */
  lemma MissingShapeExactly(f: Family, s: real, beta1: Option<real>, beta2: Option<real>, K: Kernel, k: nat)
    ensures Row(f, s, beta1, beta2, K, k) == Err(MissingShape) <==>
      (ReadsBeta1(f, k) && beta1.None?) || (ReadsBeta2(f, k) && beta2.None?)
  {
  }

  /** A table entry depends on the shape parameters only through the ones
      its row reads. */
  lemma UnreadShapeIgnored(f: Family, s: real, beta1: Option<real>, beta2: Option<real>,
                           beta1': Option<real>, beta2': Option<real>, K: Kernel, k: nat)
    requires ReadsBeta1(f, k) ==> beta1 == beta1'
    requires ReadsBeta2(f, k) ==> beta2 == beta2'
    ensures Row(f, s, beta1, beta2, K, k) == Row(f, s, beta1', beta2', K, k)
  {
    match f
    case Uniform =>
    case Lognormal =>
    case Trapezoidal =>
    case Triangular =>
    case Beta =>
    case Normal =>
    case Student =>
    case Laplace =>
    case Gamma =>
    case Weibull =>
    case Rayleigh =>
    case Maxwell =>
  }

  /** A table entry that fails at order k fails the same way at every
      higher order. */
  lemma RawMomentErrorPersists(V: PolyVar, K: Kernel, k: nat, m: nat)
    requires k <= m && RawMoment(V, K, k).Err?
    ensures RawMoment(V, K, m) == RawMoment(V, K, k)
  {
    if FamilyOf(V.distribution) == Some(Beta) && V.beta1.Some? && V.beta2.Some? && k > 0 {
      assert Rising(V.beta1.value + V.beta2.value, k) == 0.0;
      RisingZeroPersists(V.beta1.value + V.beta2.value, k, m);
    }
  }

  /** The symmetry rule applied to a raw entry: `symmetrical` doubles the
      even orders and zeroes the odd ones, `one_sided_right` doubles,
      `one_sided_left` multiplies by (-1) raised to the entry's own value
      and by 2, and any other string is an error. */
  function Symmetrize(symmetry: string, K: Kernel, k: nat, raw: real): Result<real, MomentError>
  {
    match SymmetryOf(symmetry)
    case None => Err(UnknownSymmetry)
    case Some(Symmetrical) => Ok(if k % 2 == 0 then 2.0 * raw else 0.0)
    case Some(OneSidedRight) => Ok(2.0 * raw)
    case Some(OneSidedLeft) => Ok(K.rpow(-1.0, raw) * 2.0 * raw)
  }

  // Its partners are the closed-form entry lemmas of each family, which
  // apply the rule to a table row.
  /** The symmetry rule by name: it fails, with an unknown-symmetry error,
      exactly for a name that is none of the three. */
  lemma SymmetrizeRule(symmetry: string, K: Kernel, k: nat, raw: real)
    ensures Symmetrize(symmetry, K, k, raw).Err? <==> SymmetryOf(symmetry).None?
    ensures Symmetrize(symmetry, K, k, raw).Err? ==> Symmetrize(symmetry, K, k, raw).error == UnknownSymmetry
    ensures symmetry == "symmetrical" ==> Symmetrize(symmetry, K, k, raw) == Ok(if k % 2 == 0 then 2.0 * raw else 0.0)
    ensures symmetry == "one_sided_right" ==> Symmetrize(symmetry, K, k, raw) == Ok(2.0 * raw)
    ensures symmetry == "one_sided_left" ==> Symmetrize(symmetry, K, k, raw) == Ok(K.rpow(-1.0, raw) * 2.0 * raw)
  {
    if symmetry == "symmetrical" {
      assert SymmetryOf(symmetry) == Some(Symmetrical);
    } else if symmetry == "one_sided_right" {
      assert SymmetryOf(symmetry) == Some(OneSidedRight);
    } else if symmetry == "one_sided_left" {
      assert SymmetryOf(symmetry) == Some(OneSidedLeft);
      assert Symmetrize(symmetry, K, k, raw).value == K.rpow(-1.0, raw) * 2.0 * raw;
    }
  }

  /** The moment entry of order k used by the binomial expansion: the
      table entry, then the symmetry rule. A table error comes first. */
  function Adjusted(V: PolyVar, K: Kernel, k: nat): Result<real, MomentError>
  {
    var raw :- RawMoment(V, K, k);
    Symmetrize(V.symmetry, K, k, raw)
  }

  /** An entry that fails at order k makes every higher order fail too
      (though possibly with a different error: a table error at the higher
      order is reported before the symmetry error). */
  lemma AdjustedErrorPersists(V: PolyVar, K: Kernel, k: nat, m: nat)
    requires k <= m && Adjusted(V, K, k).Err?
    ensures Adjusted(V, K, m).Err?
  {
    if RawMoment(V, K, k).Err? {
      RawMomentErrorPersists(V, K, k, m);
    }
  }

  // Arithmetic steps for the loop that builds the beta row; they say
  // nothing about the engine.

  lemma RatioStep(p: real, r1: real, r2: real, a: real, d: real)
    requires r2 != 0.0 && d != 0.0
    ensures Times(p, r1 / r2) * a / d == Times(p, Times(r1, a) / Times(r2, d))
  {
  }

  /** One step of the beta loop keeps the running value equal to the
      closed form at the next order. */
  lemma BetaStep(half: real, b1: real, b2: real, j: nat, evm: real)
    requires Rising(b1 + b2, j) != 0.0 && b1 + b2 + j as real != 0.0
    requires evm == Times(half, Rising(b1, j) / Rising(b1 + b2, j))
    ensures Rising(b1 + b2, j + 1) != 0.0
    ensures evm * (b1 + j as real) / (b1 + b2 + j as real) == Times(half, Rising(b1, j + 1) / Rising(b1 + b2, j + 1))
  {
    var r1, r2 := Rising(b1, j), Rising(b1 + b2, j);
    var a, d := Shift(b1, j), Shift(b1 + b2, j);
    assert Rising(b1, j + 1) == Times(r1, a);
    assert Rising(b1 + b2, j + 1) == Times(r2, d);
    RatioStep(half, r1, r2, a, d);
  }

  // An arithmetic step for the loops below; it says nothing about the engine.
  lemma TimesAssociates(a: real, b: real, c: real)
    ensures Times(Times(a, b), c) == Times(a, Times(b, c))
  {
  }

  /** The beta row as the source computes it: starting from s^k/2, each
      loop step multiplies by (b1 + j) and divides by (b1 + b2 + j). */
  method BetaEntry(s: real, beta1: Option<real>, beta2: Option<real>, k: nat) returns (r: Result<real, MomentError>)
    ensures r == BetaRow(s, beta1, beta2, k)
  {
    var half := Pow(s, k) / 2.0;
    var evm := half;
    var ptm := 0;
    while ptm < k
      invariant 0 <= ptm <= k
      invariant ptm == 0 ==> evm == half
      invariant ptm > 0 ==> beta1.Some? && beta2.Some?
      invariant ptm > 0 ==> Rising(beta1.value + beta2.value, ptm) != 0.0
      invariant ptm > 0 ==> evm == Times(half, Rising(beta1.value, ptm) / Rising(beta1.value + beta2.value, ptm))
    {
      if beta1.None? || beta2.None? {
        return Err(MissingShape);
      }
      var b1, b2 := beta1.value, beta2.value;
      var denominator := b1 + b2 + ptm as real;
      if denominator == 0.0 {
        assert Rising(b1 + b2, ptm + 1) == 0.0;
        RisingZeroPersists(b1 + b2, ptm + 1, k);
        return Err(DivisionByZero);
      }
      BetaStep(half, b1, b2, ptm, evm);
      evm := evm * (b1 + ptm as real) / denominator;
      ptm := ptm + 1;
    }
    assert k > 0 ==> BetaRow(s, beta1, beta2, k).value == evm;
    return Ok(evm);
  }

  /** The gamma row as the source computes it: starting from s^k/2, each
      loop step multiplies by (b1 + j). */
  method GammaEntry(s: real, beta1: Option<real>, k: nat) returns (r: Result<real, MomentError>)
    ensures r == GammaRow(s, beta1, k)
  {
    var half := Pow(s, k) / 2.0;
    var evm := half;
    var ptm := 0;
    while ptm < k
      invariant 0 <= ptm <= k
      invariant ptm == 0 ==> evm == half
      invariant ptm > 0 ==> beta1.Some? && evm == Times(half, Rising(beta1.value, ptm))
    {
      if beta1.None? {
        return Err(MissingShape);
      }
      var b1 := beta1.value;
      TimesAssociates(half, Rising(b1, ptm), Shift(b1, ptm));
      evm := evm * (b1 + ptm as real);
      ptm := ptm + 1;
    }
    assert k > 0 ==> GammaRow(s, beta1, k).value == evm;
    return Ok(evm);
  }

  /** The table entry as the source computes it: the beta and gamma rows
      by their loops, the other rows directly. */
  method TableEntry(V: PolyVar, K: Kernel, k: nat) returns (r: Result<real, MomentError>)
    ensures r == RawMoment(V, K, k)
  {
    var family := FamilyOf(V.distribution);
    if family == Some(Beta) {
      r := BetaEntry(V.scale, V.beta1, V.beta2, k);
    } else if family == Some(Gamma) {
      r := GammaEntry(V.scale, V.beta1, k);
    } else {
      r := RawMoment(V, K, k);
    }
  }
}
