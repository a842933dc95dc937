/**
 * The two composition checks of `MaterialsProcessor`: the binary stoichiometry
 * test (`is_valid_stoichiometry`) and the ratio gate in front of the substitution
 * predictor (`_predict_substitution` up to the call into `Substitutor`).
 */
module Stoichiometry {
  import opened Chemistry

  /** The ratios a:b accepted for a binary composition; 0.33 is a literal, not 1/3. */
  const CommonRatios: seq<real> := [1.0, 0.5, 2.0, 0.33, 3.0]

  const Tolerance: real := 0.01

  function AbsReal(x: real): real {
    if x < 0.0 then -x else x
  }

  /** True when `q` lies within the tolerance of one of the common ratios. */
  predicate NearCommonRatio(q: real) {
    exists r :: r in CommonRatios && AbsReal(q - r) < Tolerance
  }

  /**
   * `is_valid_stoichiometry`: only a two-element composition is tested, and only
   * the ratio of the first amount to the second; a zero second amount is the
   * caught `ZeroDivisionError`, i.e. invalid.
   */
  function IsValidStoichiometry(comp: Composition): bool {
    if |comp| == 2 then
      var a, b := comp[0].amount, comp[1].amount;
      if b == 0.0 then false else NearCommonRatio(a / b)
    else true
  }

  /** Compositions with any number of elements other than two are always accepted. */
  lemma NonBinaryIsValid(comp: Composition)
    requires |comp| != 2
    ensures IsValidStoichiometry(comp)
  {
  }

  /** A binary composition is valid exactly when a/b is near a common ratio; b = 0 is invalid. */
  lemma BinaryValidity(comp: Composition)
    requires |comp| == 2
    ensures comp[1].amount == 0.0 ==> !IsValidStoichiometry(comp)
    ensures comp[1].amount != 0.0 ==>
              (IsValidStoichiometry(comp) <==> NearCommonRatio(comp[0].amount / comp[1].amount))
  {
  }

  /** Every accepted binary ratio a/b lies strictly between 0.32 and 3.01. */
  lemma {:induction false} ValidBinaryRatioRange(comp: Composition)
    requires |comp| == 2 && IsValidStoichiometry(comp)
    ensures comp[1].amount != 0.0
    ensures 0.32 < comp[0].amount / comp[1].amount < 3.01
  {
    var q := comp[0].amount / comp[1].amount;
    var r :| r in CommonRatios && AbsReal(q - r) < Tolerance;
    assert r == 1.0 || r == 0.5 || r == 2.0 || r == 0.33 || r == 3.0;
  }

  /** A 1:1 binary such as NaCl is accepted. */
  lemma OneToOneIsValid(a: string, b: string)
    ensures IsValidStoichiometry([Entry(a, 1.0), Entry(b, 1.0)])
  {
    assert 1.0 in CommonRatios && AbsReal(1.0 / 1.0 - 1.0) < Tolerance;
    assert NearCommonRatio(1.0 / 1.0);
  }

  /** A 1:1.7 binary is rejected: 1/1.7 is not near any common ratio. */
  lemma {:induction false} OneToOnePointSevenIsInvalid(a: string, b: string)
    ensures !IsValidStoichiometry([Entry(a, 1.0), Entry(b, 1.7)])
  {
    var q := 1.0 / 1.7;
    assert 0.58 < q < 0.59;
    forall r | r in CommonRatios ensures AbsReal(q - r) >= Tolerance {
      assert r == 1.0 || r == 0.5 || r == 2.0 || r == 0.33 || r == 3.0;
    }
  }

  /** A 1:3 binary passes only through the tolerance around the literal 0.33. */
  lemma OneToThreeIsValid(a: string, b: string)
    ensures IsValidStoichiometry([Entry(a, 1.0), Entry(b, 3.0)])
  {
    assert 0.33 in CommonRatios && AbsReal(1.0 / 3.0 - 0.33) < Tolerance;
  }

  /** Only a/b is tested, so swapping the two entries can change the verdict. */
  lemma {:induction false} OrderOfEntriesMatters(a: string, b: string)
    ensures IsValidStoichiometry([Entry(a, 0.339), Entry(b, 1.0)])
    ensures !IsValidStoichiometry([Entry(b, 1.0), Entry(a, 0.339)])
  {
    assert 0.33 in CommonRatios && AbsReal(0.339 / 1.0 - 0.33) < Tolerance;
    var q := 1.0 / 0.339;
    assert 2.94 < q < 2.96;
    forall r | r in CommonRatios ensures AbsReal(q - r) >= Tolerance {
      assert r == 1.0 || r == 0.5 || r == 2.0 || r == 0.33 || r == 3.0;
    }
  }

  // ---------------------------------------------------------------------------
  // The ratio gate of `_predict_substitution`.
  // ---------------------------------------------------------------------------

  /** Why the gate declines, or that it lets the `Substitutor` be consulted. */
  datatype GateVerdict = TooFewElements | ZeroGcd | RatioTooHigh | Consult

  /** True when some truncated amount divided by the gcd exceeds 4. */
  predicate AnyRatioAbove4(ints: seq<int>, g: nat)
    requires g > 0
  {
    exists i :: 0 <= i < |ints| && (ints[i] as real) / (g as real) > 4.0
  }

  /**
   * Fewer than two elements, a zero gcd (the caught `ZeroDivisionError`) or a
   * reduced ratio above 4 each decline before the `Substitutor` is built.
   */
  function SubstitutionGate(comp: Composition): GateVerdict {
    if |comp| < 2 then TooFewElements
    else
      var ints := TruncatedAmounts(comp);
      var g := GcdOf(ints);
      if g == 0 then ZeroGcd
      else if AnyRatioAbove4(ints, g) then RatioTooHigh
      else Consult
  }

  /**
   * The gate consults the substitutor exactly when there are at least two
   * elements, some truncated amount is non-zero, and every truncated amount is at
   * most four times their gcd; a zero gcd happens exactly when all amounts
   * truncate to zero.
   */
  lemma {:induction false} GateConsults(comp: Composition)
    ensures SubstitutionGate(comp) == Consult <==>
              |comp| >= 2
              && (exists i :: 0 <= i < |comp| && Trunc(comp[i].amount) != 0)
              && (forall i :: 0 <= i < |comp| ==>
                    Trunc(comp[i].amount) as real <= 4.0 * GcdOf(TruncatedAmounts(comp)) as real)
    ensures |comp| >= 2 ==>
              (SubstitutionGate(comp) == ZeroGcd <==> forall i :: 0 <= i < |comp| ==> Trunc(comp[i].amount) == 0)
  {
    var ints := TruncatedAmounts(comp);
    GcdOfZero(ints);
    var g := GcdOf(ints);
    if g > 0 {
      forall i | 0 <= i < |ints|
        ensures (ints[i] as real) / (g as real) > 4.0 <==> ints[i] as real > 4.0 * g as real
      {
        DivAbove(ints[i] as real, g as real);
      }
    }
  }

  lemma DivAbove(x: real, g: real)
    requires g > 0.0
    ensures x / g > 4.0 <==> x > 4.0 * g
  {
    if x / g > 4.0 {
      assert x == (x / g) * g;
    }
  }

  /** Counts [1, 1, 2], as in MgInP2, pass the gate. */
  lemma {:induction false} OneOneTwoConsults(a: string, b: string, c: string)
    ensures SubstitutionGate([Entry(a, 1.0), Entry(b, 1.0), Entry(c, 2.0)]) == Consult
  {
    var comp := [Entry(a, 1.0), Entry(b, 1.0), Entry(c, 2.0)];
    var ints := TruncatedAmounts(comp);
    assert ints == [1, 1, 2];
    assert GcdOf(ints) == 1 by {
      assert ints[1..] == [1, 2] && ints[1..][1..] == [2] && ints[1..][1..][1..] == [];
      assert GcdOf([2]) == GcdNat(2, 0) == 2;
      assert GcdOf([1, 2]) == GcdNat(1, 2) == 1;
      assert GcdOf(ints) == GcdNat(1, 1) == 1;
    }
  }

  /** Counts [2, 10] reduce to 1:5 and are declined. */
  lemma {:induction false} TwoTenDeclines(a: string, b: string)
    ensures SubstitutionGate([Entry(a, 2.0), Entry(b, 10.0)]) == RatioTooHigh
  {
    var comp := [Entry(a, 2.0), Entry(b, 10.0)];
    var ints := TruncatedAmounts(comp);
    assert ints == [2, 10];
    assert GcdOf(ints) == 2 by {
      assert ints[1..] == [10] && ints[1..][1..] == [];
      assert GcdOf([10]) == GcdNat(10, 0) == 10;
      assert GcdNat(2, 10) == GcdNat(10, 2) == GcdNat(2, 0) == 2;
    }
    assert (ints[1] as real) / (2 as real) > 4.0;
  }

  /** Fractional amounts below one truncate to zero: the gcd is zero and the gate declines. */
  lemma {:induction false} FractionalAmountsDecline(a: string, b: string)
    ensures SubstitutionGate([Entry(a, 0.5), Entry(b, 0.5)]) == ZeroGcd
  {
    var comp := [Entry(a, 0.5), Entry(b, 0.5)];
    GateConsults(comp);
  }
}
