/** How the validator and the moment table fit together. The validator
    accepts ten family names and four symmetry names in any mix of case,
    and keeps the value as written; the table matches twelve families,
    by full name or abbreviation, and three symmetry names, all exactly.
    The lemmas here say which validated specifications the table can
    evaluate, and which table rows no validated specification reaches. */
module Reachability {
  import opened Wrappers
  import opened PolyVars
  import opened MomentTable
  import opened PolyMoments

  /** Lowering leaves a string without upper-case letters unchanged. */
  lemma LowerOfLowerCase(w: string)
    requires NoUpper(w)
    ensures Lower(w) == w
  {
    assert forall i :: 0 <= i < |w| ==> Lower(w)[i] == w[i];
  }

  lemma NamesAreLowerCase(f: Family)
    ensures NoUpper(FullName(f)) && NoUpper(Abbreviation(f))
  {
    match f
    case Uniform =>
    case Lognormal =>
    case Trapezoidal =>
    case Triangular =>
    case Beta =>
    case Normal =>
    case Student =>
    case Laplace =>
    case Gamma =>
    case Weibull =>
    case Rayleigh =>
    case Maxwell =>
  }

  /** An accepted family name is, once lowered, one of the ten listed names. */
  lemma AcceptedLowers(v: string)
    requires DistributionMustBeSupported(v).Ok?
    ensures Lower(v) in SupportedDistributions
  {
    SupportedAreLowerCase();
    var w :| w in SupportedDistributions && SpellsIgnoringCase(v, w);
    LowerIsSpelling(v, w);
  }

  /** An accepted symmetry name is, once lowered, one of the four listed names. */
  lemma AcceptedTypeLowers(v: string)
    requires DistributionTypeMustBeSupported(v).Ok?
    ensures Lower(v) in SupportedTypes
  {
    SupportedAreLowerCase();
    var w :| w in SupportedTypes && SpellsIgnoringCase(v, w);
    LowerIsSpelling(v, w);
  }

  /** Each of the ten accepted names, as written in the list, is the full
      name of a table family other than `lognormal` and `rayleigh`. */
  lemma SupportedAreFullNames(w: string)
    requires w in SupportedDistributions
    ensures FamilyOf(w).Some? && w == FullName(FamilyOf(w).value)
    ensures FamilyOf(w) != Some(Lognormal) && FamilyOf(w) != Some(Rayleigh)
  {
    var i :| 0 <= i < |SupportedDistributions| && SupportedDistributions[i] == w;
    var f := [Uniform, Trapezoidal, Triangular, Beta, Normal, Student, Laplace, Gamma, Weibull, Maxwell][i];
    FamilyOfFullName(f);
    assert w == FullName(f);
  }

  /** For an accepted family name, the table knows the family exactly when
      the name was written in lower case; it is then the family's full
      name, never an abbreviation, and neither `lognormal` nor `rayleigh`. */
  lemma AcceptedFamilyKnown(v: string)
    requires DistributionMustBeSupported(v).Ok?
    ensures FamilyOf(v).Some? <==> Lower(v) == v
    ensures FamilyOf(v).Some? ==> v == FullName(FamilyOf(v).value)
    ensures FamilyOf(v) != Some(Lognormal) && FamilyOf(v) != Some(Rayleigh)
  {
    AcceptedLowers(v);
    if FamilyOf(v).Some? {
      NamesAreLowerCase(FamilyOf(v).value);
      LowerOfLowerCase(v);
    }
    if Lower(v) == v {
      SupportedAreFullNames(v);
    }
  }

  /** For an accepted symmetry name, the table knows the rule exactly when
      the name was written in lower case and is not `asymmetrical`. */
  lemma AcceptedSymmetryKnown(v: string)
    requires DistributionTypeMustBeSupported(v).Ok?
    ensures SymmetryOf(v).Some? <==> Lower(v) == v && v != "asymmetrical"
  {
    AcceptedTypeLowers(v);
    if SymmetryOf(v).Some? {
      LowerOfLowerCase(v);
    }
  }

  /** Every table entry of a variable whose family or symmetry name the
      table does not know fails, so E[V^m] fails for every order m; an
      unknown family is reported before an unknown symmetry. */
  lemma UnknownNamesFail(V: PolyVar, K: Kernel, m: nat)
    requires FamilyOf(V.distribution).None? || SymmetryOf(V.symmetry).None?
    ensures ComputeEvalOf(V, K, m).Err?
    ensures FamilyOf(V.distribution).None? ==> ComputeEvalOf(V, K, m) == Err(UnknownDistribution)
    ensures FamilyOf(V.distribution).Some? && Row(FamilyOf(V.distribution).value, V.scale, V.beta1, V.beta2, K, m).Ok? ==>
      ComputeEvalOf(V, K, m) == Err(UnknownSymmetry)
  {
    ComputeEvalError(V, K, m);
  }

  /** `Normal` passes validation, and every moment of the variable then
      fails with an unknown-distribution error. */
  lemma CapitalizedFamilyFails(t: real, s: real, K: Kernel, m: nat)
    ensures Validate("Normal", "symmetrical", t, s, None, None).Ok?
    ensures ComputeEvalOf(Validate("Normal", "symmetrical", t, s, None, None).value, K, m) == Err(UnknownDistribution)
  {
    var v := "Normal";
    assert SpellsIgnoringCase(v, "normal");
    assert "normal" in SupportedDistributions;
    assert SpellsIgnoringCase("symmetrical", "symmetrical");
    assert "symmetrical" in SupportedTypes;
    AcceptedFamilyKnown(v);
    assert Lower(v)[0] == 'n';
    UnknownNamesFail(PolyVar(v, "symmetrical", t, s, None, None), K, m);
  }

  /** `asymmetrical` passes validation, and every moment of a normal
      variable with that type then fails with an unknown-symmetry error. */
  lemma AsymmetricalFails(t: real, s: real, K: Kernel, m: nat)
    ensures Validate("normal", "asymmetrical", t, s, None, None).Ok?
    ensures ComputeEvalOf(Validate("normal", "asymmetrical", t, s, None, None).value, K, m) == Err(UnknownSymmetry)
  {
    assert SpellsIgnoringCase("normal", "normal");
    assert "normal" in SupportedDistributions;
    assert SpellsIgnoringCase("asymmetrical", "asymmetrical");
    assert "asymmetrical" in SupportedTypes;
    assert FamilyOf("normal") == Some(Normal);
    UnknownNamesFail(PolyVar("normal", "asymmetrical", t, s, None, None), K, m);
  }

  /** The two table rows and the twelve abbreviations no validated
      specification reaches: the validator rejects each of these names. */
  lemma UnreachableNames(f: Family)
    ensures DistributionMustBeSupported(Abbreviation(f)).Err?
    ensures f == Lognormal || f == Rayleigh ==> DistributionMustBeSupported(FullName(f)).Err?
  {
    NamesAreLowerCase(f);
    LowerOfLowerCase(Abbreviation(f));
    LowerOfLowerCase(FullName(f));
  }

  /** No validator asks for shape parameters: a gamma variable without
      `beta1` is accepted, and every moment of order 1 or more then fails
      on the missing shape. */
  lemma GammaWithoutShapeFails(t: real, s: real, K: Kernel, m: nat)
    requires m >= 1
    ensures Validate("gamma", "one_sided_right", t, s, None, None).Ok?
    ensures ComputeEvalOf(Validate("gamma", "one_sided_right", t, s, None, None).value, K, m) == Err(MissingShape)
  {
    assert SpellsIgnoringCase("gamma", "gamma");
    assert "gamma" in SupportedDistributions;
    assert SpellsIgnoringCase("one_sided_right", "one_sided_right");
    assert "one_sided_right" in SupportedTypes;
    var V := PolyVar("gamma", "one_sided_right", t, s, None, None);
    assert FamilyOf("gamma") == Some(Gamma);
    assert Adjusted(V, K, m) == Err(MissingShape);
    ComputeEvalError(V, K, m);
  }
}
