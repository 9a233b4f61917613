/** What a D_Claims row means once its SI values are known: the spread of
    the values (RangeAbs), the inclusive tolerance test (Pass) and the
    truth-source label derived from ClaimType. */
module Meaning {
  import opened ExactMatch

  function Abs(x: real): real
  {
    if x < 0.0 then -x else x
  }

  function Max3(a: real, b: real, c: real): real
  {
    if a >= b && a >= c then a else if b >= c then b else c
  }

  function Min3(a: real, b: real, c: real): real
  {
    if a <= b && a <= c then a else if b <= c then b else c
  }

  /** RangeAbs: |SI_1 - SI_2| when SI_3 is blank (None), MAX - MIN of the
      three otherwise. It is never negative, and it is zero exactly when
      every present value is the same. */
  function RangeAbs(a: real, b: real, c: Option<real>): (r: real)
    ensures 0.0 <= r
    ensures r == 0.0 <==> a == b && (c.Some? ==> c.value == a)
  {
    match c
    case None => Abs(a - b)
    case Some(z) => Max3(a, b, z) - Min3(a, b, z)
  }

  /** Pass: RangeAbs <= ToleranceAbs_SI, boundary included. */
  predicate Passes(range: real, tolerance: real)
  {
    range <= tolerance
  }

  /** A claim passes exactly when every pair of its present values lies
      within the tolerance of each other. */
  lemma PassesIffPairwiseClose(a: real, b: real, c: Option<real>, tolerance: real)
    ensures Passes(RangeAbs(a, b, c), tolerance)
            <==> Abs(a - b) <= tolerance
                 && (c.Some? ==> Abs(a - c.value) <= tolerance && Abs(b - c.value) <= tolerance)
  {
    if c.Some? {
      var z := c.value;
      assert Max3(a, b, z) - Min3(a, b, z) >= Abs(a - b);
      assert Max3(a, b, z) - Min3(a, b, z) >= Abs(a - z);
      assert Max3(a, b, z) - Min3(a, b, z) >= Abs(b - z);
      assert Max3(a, b, z) - Min3(a, b, z) == Abs(a - b)
          || Max3(a, b, z) - Min3(a, b, z) == Abs(a - z)
          || Max3(a, b, z) - Min3(a, b, z) == Abs(b - z);
    }
  }

  /** Identical values pass every non-negative tolerance, zero included. */
  lemma EqualValuesPass(a: real, c: Option<real>, tolerance: real)
    requires c.Some? ==> c.value == a
    requires 0.0 <= tolerance
    ensures RangeAbs(a, a, c) == 0.0 && Passes(RangeAbs(a, a, c), tolerance)
  {
  }

  const ConventionLabel: string := "Convention/Definition"
  const RealityLabel: string := "Reality (constraint) + Convention (coordinates)"

  /** LEFT(s, n): the first n characters, or all of s when it is shorter. */
  function Left(s: string, n: nat): (r: string)
    ensures r <= s
    ensures |r| == if n < |s| then n else |s|
  {
    if n < |s| then s[..n] else s
  }

  /** TruthSource_Layer: the convention label exactly when ClaimType starts
      with "Constructed", the reality label otherwise. */
  function TruthSource(claimType: string): (r: string)
    ensures r == ConventionLabel <==> "Constructed" <= claimType
    ensures r == ConventionLabel || r == RealityLabel
  {
    if Left(claimType, 11) == "Constructed" then ConventionLabel else RealityLabel
  }
}
