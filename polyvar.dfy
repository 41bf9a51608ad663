/** The per-variable distribution specification and its two field
    validators. The validators compare the lower-cased value against a
    fixed list of names, but hand back the value exactly as given. */
module PolyVars {
  import opened Wrappers

  /** One random variable's specification. The source calls the second
      field `type`, a reserved word here. `beta1` and `beta2` are optional
      shape parameters that default to absent. */
  datatype PolyVar = PolyVar(
    distribution: string,
    symmetry: string,
    translation: real,
    scale: real,
    beta1: Option<real>,
    beta2: Option<real>)

  /** The family names the `distribution` validator accepts (in lower case). */
  const SupportedDistributions: seq<string> :=
    ["uniform", "trapezoidal", "triangular", "beta", "normal",
     "student", "laplace", "gamma", "weibull", "maxwell"]

  /** The symmetry names the `type` validator accepts (in lower case). */
  const SupportedTypes: seq<string> :=
    ["symmetrical", "one_sided_right", "one_sided_left", "asymmetrical"]

  function LowerChar(c: char): char {
    if 'A' <= c <= 'Z' then (c as int + 32) as char else c
  }

  /** Lower-casing of the ASCII letters. Every accepted name is ASCII
      and contains no letter whose non-ASCII upper-case form lowers to
      ASCII, so this accepts exactly what full Unicode lowering accepts. */
  function Lower(s: string): (r: string)
    ensures |r| == |s|
  {
    seq(|s|, i requires 0 <= i < |s| => LowerChar(s[i]))
  }

  predicate NoUpper(w: string) {
    forall i :: 0 <= i < |w| ==> !('A' <= w[i] <= 'Z')
  }

  /** Independent reading of case-insensitive equality with a lower-case
      word: `v` spells `w`, with any of `w`'s letters written in upper case. */
  predicate SpellsIgnoringCase(v: string, w: string) {
    |v| == |w| &&
    forall i :: 0 <= i < |v| ==>
      v[i] == w[i] || ('a' <= w[i] <= 'z' && v[i] as int == w[i] as int - 32)
  }

  /** Lowering `v` gives the lower-case word `w` exactly when `v` spells
      `w` ignoring case. */
  lemma LowerIsSpelling(v: string, w: string)
    requires NoUpper(w)
    ensures Lower(v) == w <==> SpellsIgnoringCase(v, w)
  {
    if SpellsIgnoringCase(v, w) {
      forall i | 0 <= i < |v|
        ensures Lower(v)[i] == w[i]
      {
        assert !('A' <= w[i] <= 'Z');
      }
    }
  }

  lemma SupportedAreLowerCase()
    ensures forall w :: w in SupportedDistributions ==> NoUpper(w)
    ensures forall w :: w in SupportedTypes ==> NoUpper(w)
  {
  }

  /** The `distribution` validator: accepts a value iff it spells one of
      the supported family names ignoring case, and then returns it
      unchanged; otherwise reports the value in its message. */
  function DistributionMustBeSupported(v: string): (r: Result<string, string>)
    ensures r.Ok? <==> exists w :: w in SupportedDistributions && SpellsIgnoringCase(v, w)
    ensures r.Ok? ==> r.value == v
    ensures r.Err? ==> r.error == "Distribution " + v + " is not supported"
  {
    SupportedAreLowerCase();
    if Lower(v) in SupportedDistributions then
      LowerIsSpelling(v, Lower(v));
      Ok(v)
    else
      assert forall w :: w in SupportedDistributions ==> !SpellsIgnoringCase(v, w) by {
        forall w | w in SupportedDistributions
          ensures !SpellsIgnoringCase(v, w)
        {
          LowerIsSpelling(v, w);
        }
      }
      Err("Distribution " + v + " is not supported")
  }

  /** The `type` validator, in the same shape as the one above. */
  function DistributionTypeMustBeSupported(v: string): (r: Result<string, string>)
    ensures r.Ok? <==> exists w :: w in SupportedTypes && SpellsIgnoringCase(v, w)
    ensures r.Ok? ==> r.value == v
    ensures r.Err? ==> r.error == "Distribution type " + v + " is not supported"
  {
    SupportedAreLowerCase();
    if Lower(v) in SupportedTypes then
      LowerIsSpelling(v, Lower(v));
      Ok(v)
    else
      assert forall w :: w in SupportedTypes ==> !SpellsIgnoringCase(v, w) by {
        forall w | w in SupportedTypes
          ensures !SpellsIgnoringCase(v, w)
        {
          LowerIsSpelling(v, w);
        }
      }
      Err("Distribution type " + v + " is not supported")
  }

  /** A field that failed validation, with the validator's message. */
  datatype FieldError = FieldError(field: string, message: string)

  function ErrorsOf(field: string, r: Result<string, string>): seq<FieldError> {
    if r.Err? then [FieldError(field, r.error)] else []
  }

  /** Building a `PolyVar`: both validators run and every failure is
      reported, in field order; when both pass, the record holds the
      values exactly as given. */
  function Validate(distribution: string, symmetry: string, translation: real, scale: real,
                    beta1: Option<real>, beta2: Option<real>): (r: Result<PolyVar, seq<FieldError>>)
    ensures r.Ok? <==> DistributionMustBeSupported(distribution).Ok? && DistributionTypeMustBeSupported(symmetry).Ok?
    ensures r.Ok? ==> r.value == PolyVar(distribution, symmetry, translation, scale, beta1, beta2)
    ensures r.Err? ==> |r.error| == (if DistributionMustBeSupported(distribution).Err? then 1 else 0) +
                                    (if DistributionTypeMustBeSupported(symmetry).Err? then 1 else 0)
    ensures r.Err? ==> forall e :: e in r.error ==>
      e == FieldError("distribution", "Distribution " + distribution + " is not supported") ||
      e == FieldError("type", "Distribution type " + symmetry + " is not supported")
    ensures r.Err? ==> r.error[0].field == (if DistributionMustBeSupported(distribution).Err? then "distribution" else "type")
    ensures r.Err? ==> (DistributionMustBeSupported(distribution).Err? <==>
      FieldError("distribution", "Distribution " + distribution + " is not supported") in r.error)
    ensures r.Err? ==> (DistributionTypeMustBeSupported(symmetry).Err? <==>
      FieldError("type", "Distribution type " + symmetry + " is not supported") in r.error)
  {
    var d := DistributionMustBeSupported(distribution);
    var t := DistributionTypeMustBeSupported(symmetry);
    var errors := ErrorsOf("distribution", d) + ErrorsOf("type", t);
    if |errors| == 0 then Ok(PolyVar(d.value, t.value, translation, scale, beta1, beta2))
    else Err(errors)
  }

  /** A specification that passes both validators. */
  predicate Accepted(V: PolyVar) {
    DistributionMustBeSupported(V.distribution).Ok? && DistributionTypeMustBeSupported(V.symmetry).Ok?
  }

  /** Validation does not depend on the case of the names: two values
      that lower to the same string are accepted or rejected together. */
  lemma AcceptanceIgnoresCase(v: string, u: string)
    requires Lower(v) == Lower(u)
    ensures DistributionMustBeSupported(v).Ok? == DistributionMustBeSupported(u).Ok?
    ensures DistributionTypeMustBeSupported(v).Ok? == DistributionTypeMustBeSupported(u).Ok?
  {
  }
}
