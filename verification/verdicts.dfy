/** What the D_Claims, D_Questions and A_Dashboard cells of a workbook laid
    out by `build_workbook` evaluate to: the SI values each claim compares,
    its RangeAbs and Pass, the answers and the pass count. As in Values,
    the tables are parameters with the shape the formulas assume, and the
    typed input cells are left free. */
module Verdicts {
  import opened ExactMatch
  import opened Sheets
  import opened Formulas
  import opened Builder
  import opened Values
  import Schema
  import Units
  import Meaning

  /** The claims compare the instances of the rows the claims table lists
      for them; CL1, CL3 and CL4 have tolerances of at least zero. */
  ghost predicate ClaimsShaped(cl: seq<Schema.Claim>, xs: seq<Schema.Instance>)
  {
    && |cl| == ClaimCount && |xs| == InstanceCount
    && cl[0].instance1 == xs[0].id && cl[0].instance2 == xs[1].id && cl[0].instance3 == xs[2].id
    && cl[1].instance1 == xs[0].id && cl[1].instance2 == xs[3].id && cl[1].instance3 == ""
    && cl[2].instance1 == xs[4].id && cl[2].instance2 == xs[5].id && cl[2].instance3 == ""
    && 0.0 <= cl[0].tolerance && 0.0 <= cl[2].tolerance && 0.0 <= cl[3].tolerance
  }

  /** The claims the question formulas name, in their rows. */
  ghost predicate ClaimsNamed(cl: seq<Schema.Claim>)
  {
    Schema.ClaimIds(cl) == ["CL1", "CL2", "CL3", "CL4"] && Distinct(Schema.ClaimIds(cl))
  }

  /** The tables a workbook is built from. */
  datatype Tables = Tables(units: seq<Units.Unit>, constants: seq<Schema.Constant>,
                           calcs: seq<Schema.Calculation>, instances: seq<Schema.Instance>,
                           claims: seq<Schema.Claim>)

  /** Every sheet holds its table, laid out as the builder writes it, and
      the tables have the shape the formulas assume. */
  ghost predicate Laid(wb: Workbook, t: Tables)
  {
    && ConstantsIn(wb, t.constants, t.units)
    && CalcsIn(wb, t.calcs)
    && InstancesIn(wb, t.instances, t.units)
    && ClaimsLaid(wb.claims, t.claims) && ClaimsShaped(t.claims, t.instances) && ClaimsNamed(t.claims)
  }

  /** m_e * c^2 of the typed Values: what F_Ecalc computes. */
  ghost function Energy(wb: Workbook): real
  {
    RestEnergy(ConstantValue(wb, 0), ConstantValue(wb, 1))
  }

  // ---- One claim row ----
  //
  // Each lemma names every fuel level its contract mentions as a variable
  // of its own (fuel == f + 1), so that callers pass levels rather than
  // arithmetic on them.

  /** The exact-match lookup of an instance's id finds its row. */
  lemma InstanceLookup(wb: Workbook, f: nat, xs: seq<Schema.Instance>, j: nat, row: nat)
    requires InstancesLaid(wb.instances, xs) && |xs| == InstanceCount && Distinct(Schema.InstanceIds(xs))
    requires j < |xs| && row == j + 2 && 1 <= f
    ensures Lookup(wb, InstRange, VText(xs[j].id), 9, InstRange.top, f) == BlankAsZero(EvalCell(wb, DInstances, row, 9, f))
  {
    var ids := Schema.InstanceIds(xs);
    InstanceKeys(wb, xs);
    IndexOfDistinct(ids, j);
    LookupById(wb, InstRange, ids, ids[j], 9, InstRange.top, f);
    assert ids[InstRange.top - InstRange.top..] == ids;
  }

  /** SI_k reads Canonical_SI of the instance named in InstanceID_k. */
  lemma ClaimSIOf(wb: Workbook, r: nat, idCol: nat, fuel: nat, f: nat, xs: seq<Schema.Instance>, j: nat, row: nat,
                  x: real)
    requires InstancesLaid(wb.instances, xs) && |xs| == InstanceCount && Distinct(Schema.InstanceIds(xs))
    requires j < |xs| && row == j + 2 && xs[j].id != "" && 1 <= f && fuel == f + 1
    requires Get(wb.claims, r, idCol) == Text(xs[j].id)
    requires Get(wb.claims, r, idCol + 4) == Formula(ClaimSI(r, idCol))
    requires EvalCell(wb, DInstances, row, 9, f) == Val(VNumber(x))
    ensures EvalCell(wb, DClaims, r, idCol + 4, fuel) == Val(VNumber(x))
  {
    ClaimSIReadsInstance(wb, r, idCol, xs[j].id, f);
    InstanceLookup(wb, f, xs, j, row);
  }

  /** SI_k is "" when InstanceID_k is "". */
  lemma ClaimSIBlank(wb: Workbook, r: nat, idCol: nat, fuel: nat, f: nat)
    requires Get(wb.claims, r, idCol) == Text("") && 1 <= f && fuel == f + 1
    requires Get(wb.claims, r, idCol + 4) == Formula(ClaimSI(r, idCol))
    ensures EvalCell(wb, DClaims, r, idCol + 4, fuel) == Val(VText(""))
  {
    ClaimSIReadsInstance(wb, r, idCol, "", f);
  }

  /** The SI values of a row comparing two instances: SI_3 is "". */
  lemma PairSIs(wb: Workbook, r: nat, fuel: nat, f: nat, xs: seq<Schema.Instance>, j1: nat, j2: nat,
                row1: nat, row2: nat, a: real, b: real)
    requires InstancesLaid(wb.instances, xs) && |xs| == InstanceCount && Distinct(Schema.InstanceIds(xs))
    requires j1 < |xs| && j2 < |xs| && row1 == j1 + 2 && row2 == j2 + 2
    requires xs[j1].id != "" && xs[j2].id != "" && 1 <= f && fuel == f + 1
    requires Get(wb.claims, r, 5) == Text(xs[j1].id) && Get(wb.claims, r, 6) == Text(xs[j2].id)
    requires Get(wb.claims, r, 7) == Text("")
    requires Get(wb.claims, r, 9) == Formula(ClaimSI(r, 5)) && Get(wb.claims, r, 10) == Formula(ClaimSI(r, 6))
    requires Get(wb.claims, r, 11) == Formula(ClaimSI(r, 7))
    requires EvalCell(wb, DInstances, row1, 9, f) == Val(VNumber(a))
    requires EvalCell(wb, DInstances, row2, 9, f) == Val(VNumber(b))
    ensures EvalCell(wb, DClaims, r, 9, fuel) == Val(VNumber(a))
    ensures EvalCell(wb, DClaims, r, 10, fuel) == Val(VNumber(b))
    ensures EvalCell(wb, DClaims, r, 11, fuel) == Val(VText(""))
  {
    ClaimSIOf(wb, r, 5, fuel, f, xs, j1, row1, a);
    ClaimSIOf(wb, r, 6, fuel, f, xs, j2, row2, b);
    ClaimSIBlank(wb, r, 7, fuel, f);
  }

  /** The SI values of a row comparing the first three instances. */
  lemma TripleSIs(wb: Workbook, r: nat, fuel: nat, f: nat, xs: seq<Schema.Instance>, a: real, b: real, c: real)
    requires InstancesLaid(wb.instances, xs) && |xs| == InstanceCount && Distinct(Schema.InstanceIds(xs))
    requires xs[0].id != "" && xs[1].id != "" && xs[2].id != "" && 1 <= f && fuel == f + 1
    requires Get(wb.claims, r, 5) == Text(xs[0].id) && Get(wb.claims, r, 6) == Text(xs[1].id)
    requires Get(wb.claims, r, 7) == Text(xs[2].id)
    requires Get(wb.claims, r, 9) == Formula(ClaimSI(r, 5)) && Get(wb.claims, r, 10) == Formula(ClaimSI(r, 6))
    requires Get(wb.claims, r, 11) == Formula(ClaimSI(r, 7))
    requires EvalCell(wb, DInstances, 2, 9, f) == Val(VNumber(a))
    requires EvalCell(wb, DInstances, 3, 9, f) == Val(VNumber(b))
    requires EvalCell(wb, DInstances, 4, 9, f) == Val(VNumber(c))
    ensures EvalCell(wb, DClaims, r, 9, fuel) == Val(VNumber(a))
    ensures EvalCell(wb, DClaims, r, 10, fuel) == Val(VNumber(b))
    ensures EvalCell(wb, DClaims, r, 11, fuel) == Val(VNumber(c))
  {
    ClaimSIOf(wb, r, 5, fuel, f, xs, 0, 2, a);
    ClaimSIOf(wb, r, 6, fuel, f, xs, 1, 3, b);
    ClaimSIOf(wb, r, 7, fuel, f, xs, 2, 4, c);
  }

  /** RangeAbs_SI (column L) of a row whose SI values are known. */
  lemma RangeCell(wb: Workbook, r: nat, fuel: nat, f: nat, a: real, b: real, c: Option<real>)
    requires Get(wb.claims, r, 12) == Formula(ClaimRange(r)) && fuel == f + 1
    requires EvalCell(wb, DClaims, r, 9, f) == Val(VNumber(a))
    requires EvalCell(wb, DClaims, r, 10, f) == Val(VNumber(b))
    requires EvalCell(wb, DClaims, r, 11, f)
             == (match c case None => Val(VText("")) case Some(z) => Val(VNumber(z)))
    ensures EvalCell(wb, DClaims, r, 12, fuel) == Val(VNumber(Meaning.RangeAbs(a, b, c)))
  {
    ClaimRangeIsRangeAbs(wb, r, f, a, b, c);
  }

  /** Pass (column M) of a row whose range is known. */
  lemma PassCell(wb: Workbook, r: nat, fuel: nat, f: nat, range: real, tolerance: real)
    requires Get(wb.claims, r, 13) == Formula(ClaimPass(r)) && Get(wb.claims, r, 8) == Number(tolerance)
    requires 1 <= f && fuel == f + 1 && EvalCell(wb, DClaims, r, 12, f) == Val(VNumber(range))
    ensures EvalCell(wb, DClaims, r, 13, fuel) == Val(VBool(Meaning.Passes(range, tolerance)))
  {
    ClaimPassIsPasses(wb, r, f, range, tolerance);
  }

  /** TruthSource_Layer (column N) of every claim row is the label its
      ClaimType gives, the CL4 row included. */
  lemma LabelCell(wb: Workbook, r: nat, fuel: nat, f: nat, cl: seq<Schema.Claim>)
    requires ClaimsLaid(wb.claims, cl) && |cl| == ClaimCount && 2 <= r <= 1 + |cl|
    requires 1 <= f && fuel == f + 1
    ensures EvalCell(wb, DClaims, r, 14, fuel) == Val(VText(Meaning.TruthSource(cl[r - 2].claimType)))
  {
    assert ClaimInputsAt(wb.claims, cl, r);
    assert Get(wb.claims, r, 14) == Formula(ClaimFormula(r, 14));
    TruthSourceFormulaIsTruthSource(wb, r, f, cl[r - 2].claimType);
  }

  /** Claim row r of the claims loop, with its inputs as the claims
      table gives them and the loop's formulas in columns I to M. */
  ghost predicate LoopRowIn(sh: Sheet, cl: seq<Schema.Claim>, xs: seq<Schema.Instance>, r: nat)
  {
    && |cl| == ClaimCount && ClaimsShaped(cl, xs) && 2 <= r < CL4Row
    && ClaimInputsAt(sh, cl, r)
    && Get(sh, r, 9) == Formula(ClaimSI(r, 5)) && Get(sh, r, 10) == Formula(ClaimSI(r, 6))
    && Get(sh, r, 11) == Formula(ClaimSI(r, 7))
    && Get(sh, r, 12) == Formula(ClaimRange(r)) && Get(sh, r, 13) == Formula(ClaimPass(r))
  }

  lemma LoopRowOf(wb: Workbook, t: Tables, r: nat)
    requires Laid(wb, t) && 2 <= r < CL4Row
    ensures LoopRowIn(wb.claims, t.claims, t.instances, r)
  {
    assert ClaimInputsAt(wb.claims, t.claims, r);
    assert Get(wb.claims, r, 9) == Formula(ClaimFormula(r, 9));
    assert Get(wb.claims, r, 10) == Formula(ClaimFormula(r, 10));
    assert Get(wb.claims, r, 11) == Formula(ClaimFormula(r, 11));
    assert Get(wb.claims, r, 12) == Formula(ClaimFormula(r, 12));
    assert Get(wb.claims, r, 13) == Formula(ClaimFormula(r, 13));
  }

  /** The CL4 row as the patch leaves it. */
  ghost predicate PatchedRowIn(sh: Sheet, cl: seq<Schema.Claim>, xs: seq<Schema.Instance>)
  {
    && |cl| == ClaimCount && ClaimsShaped(cl, xs)
    && Get(sh, CL4Row, 8) == Number(cl[3].tolerance)
    && Get(sh, CL4Row, 9) == Formula(CL4SI1) && Get(sh, CL4Row, 10) == Formula(CL4SI2)
    && Get(sh, CL4Row, 12) == Formula(CL4Range) && Get(sh, CL4Row, 13) == Formula(ClaimPass(CL4Row))
  }

  lemma PatchedRowOf(wb: Workbook, t: Tables)
    requires Laid(wb, t)
    ensures PatchedRowIn(wb.claims, t.claims, t.instances)
  {
    assert ClaimInputsAt(wb.claims, t.claims, CL4Row);
  }

  // ---- CL4: 1 eV is e joules ----

  /** The patched SI cells read vcalc('F_eV_to_J') and vconst('C_e'). */
  lemma CL4SIs(wb: Workbook, fuel: nat, f: nat, a: real, b: real)
    requires Get(wb.claims, CL4Row, 9) == Formula(CL4SI1) && Get(wb.claims, CL4Row, 10) == Formula(CL4SI2)
    requires fuel == f + 1
    requires Eval(wb, DClaims, VCalc("F_eV_to_J"), f) == Val(VNumber(a))
    requires Eval(wb, DClaims, VConst("C_e"), f) == Val(VNumber(b))
    ensures EvalCell(wb, DClaims, CL4Row, 9, fuel) == Val(VNumber(a))
    ensures EvalCell(wb, DClaims, CL4Row, 10, fuel) == Val(VNumber(b))
  {
  }

  /** After the patch, SI_1 of CL4 is F_eV_to_J and SI_2 is C_e: both the
      Value typed for C_e. */
  lemma CL4Inputs(wb: Workbook, si: nat, lookup: nat, t: Tables)
    requires ConstantsIn(wb, t.constants, t.units) && CalcsIn(wb, t.calcs)
    requires PatchedRowIn(wb.claims, t.claims, t.instances) && 4 <= lookup && si == lookup + 1
    ensures EvalCell(wb, DClaims, CL4Row, 9, si) == Val(VNumber(ConstantValue(wb, 2)))
    ensures EvalCell(wb, DClaims, CL4Row, 10, si) == Val(VNumber(ConstantValue(wb, 2)))
  {
    ChargeLookup(wb, DClaims, lookup, t.constants, t.calcs, t.units);
    VConstValue(wb, DClaims, 2, lookup, t.constants, t.units);
    CL4SIs(wb, si, lookup, ConstantValue(wb, 2), ConstantValue(wb, 2));
  }

  /** The patched range is |SI_1 - SI_2|. */
  lemma CL4RangeIs(wb: Workbook, fuel: nat, f: nat, a: real, b: real)
    requires Get(wb.claims, CL4Row, 12) == Formula(CL4Range) && fuel == f + 1
    requires EvalCell(wb, DClaims, CL4Row, 9, f) == Val(VNumber(a))
    requires EvalCell(wb, DClaims, CL4Row, 10, f) == Val(VNumber(b))
    ensures EvalCell(wb, DClaims, CL4Row, 12, fuel) == Val(VNumber(Meaning.Abs(a - b)))
  {
    assert Eval(wb, DClaims, Sub(Ref(CL4Row, 9), Ref(CL4Row, 10)), f) == Val(VNumber(a - b));
  }

  lemma CL4Chain(wb: Workbook, pass: nat, range: nat, si: nat, lookup: nat, t: Tables)
    requires Laid(wb, t)
    requires 4 <= lookup && si == lookup + 1 && range == si + 1 && pass == range + 1
    ensures EvalCell(wb, DClaims, CL4Row, 12, range) == Val(VNumber(0.0))
    ensures EvalCell(wb, DClaims, CL4Row, 13, pass) == Val(VBool(true))
  {
    PatchedRowOf(wb, t);
    CL4Inputs(wb, si, lookup, t);
    CL4RangeIs(wb, range, si, ConstantValue(wb, 2), ConstantValue(wb, 2));
    PassCell(wb, CL4Row, pass, range, 0.0, t.claims[3].tolerance);
  }

  /** CL4's range is 0 whatever number is typed for C_e: the claim is
      true by construction. */
  lemma CL4RangeZero(wb: Workbook, fuel: nat, t: Tables)
    requires Laid(wb, t) && 6 <= fuel
    ensures EvalCell(wb, DClaims, CL4Row, 12, fuel) == Val(VNumber(0.0))
  {
    CL4Chain(wb, fuel + 1, fuel, fuel - 1, fuel - 2, t);
  }

  /** CL4 passes, even at its tolerance of 0. */
  lemma CL4Passes(wb: Workbook, fuel: nat, t: Tables)
    requires Laid(wb, t) && 7 <= fuel
    ensures EvalCell(wb, DClaims, CL4Row, 13, fuel) == Val(VBool(true))
  {
    CL4Chain(wb, fuel, fuel - 1, fuel - 2, fuel - 3, t);
  }

  // ---- CL3: 0 K and -273.15 °C ----

  /** Canonical_SI of I_Tabs0_K and of I_Tabs0_C are both the Kelvin Value. */
  lemma TemperaturesSI(wb: Workbook, f: nat, t: Tables)
    requires InstancesIn(wb, t.instances, t.units) && 3 <= f
    ensures EvalCell(wb, DInstances, 6, 9, f) == Val(VNumber(KelvinValue(wb)))
    ensures EvalCell(wb, DInstances, 7, 9, f) == Val(VNumber(KelvinValue(wb)))
  {
    KelvinSI(wb, f, t.instances, t.units);
    CelsiusSI(wb, f, t.instances, t.units);
  }

  /** CL3 compares the Kelvin Value with itself. */
  lemma CL3Inputs(wb: Workbook, si: nat, inst: nat, t: Tables)
    requires InstancesIn(wb, t.instances, t.units) && LoopRowIn(wb.claims, t.claims, t.instances, 4)
    requires 3 <= inst && si == inst + 1
    ensures EvalCell(wb, DClaims, 4, 9, si) == Val(VNumber(KelvinValue(wb)))
    ensures EvalCell(wb, DClaims, 4, 10, si) == Val(VNumber(KelvinValue(wb)))
    ensures EvalCell(wb, DClaims, 4, 11, si) == Val(VText(""))
  {
    TemperaturesSI(wb, inst, t);
    PairSIs(wb, 4, si, inst, t.instances, 4, 5, 6, 7, KelvinValue(wb), KelvinValue(wb));
  }

  lemma CL3Chain(wb: Workbook, pass: nat, range: nat, si: nat, inst: nat, t: Tables)
    requires Laid(wb, t)
    requires 3 <= inst && si == inst + 1 && range == si + 1 && pass == range + 1
    ensures EvalCell(wb, DClaims, 4, 12, range) == Val(VNumber(0.0))
    ensures EvalCell(wb, DClaims, 4, 13, pass) == Val(VBool(true))
  {
    LoopRowOf(wb, t, 4);
    CL3Inputs(wb, si, inst, t);
    RangeCell(wb, 4, range, si, KelvinValue(wb), KelvinValue(wb), None);
    PassCell(wb, 4, pass, range, 0.0, t.claims[2].tolerance);
  }

  /** CL3's range is 0 whatever temperature is typed in E6. */
  lemma CL3RangeZero(wb: Workbook, fuel: nat, t: Tables)
    requires Laid(wb, t) && 5 <= fuel
    ensures EvalCell(wb, DClaims, 4, 12, fuel) == Val(VNumber(0.0))
  {
    CL3Chain(wb, fuel + 1, fuel, fuel - 1, fuel - 2, t);
  }

  /** CL3 passes. */
  lemma CL3Passes(wb: Workbook, fuel: nat, t: Tables)
    requires Laid(wb, t) && 6 <= fuel
    ensures EvalCell(wb, DClaims, 4, 13, fuel) == Val(VBool(true))
  {
    CL3Chain(wb, fuel, fuel - 1, fuel - 2, fuel - 3, t);
  }

  // ---- CL2: E = m c^2 against the reference value ----

  /** Canonical_SI of I_Ecalc_J is F_Ecalc. */
  lemma JouleRow(wb: Workbook, inst: nat, lookup: nat, t: Tables)
    requires ConstantsIn(wb, t.constants, t.units) && CalcsIn(wb, t.calcs) && InstancesIn(wb, t.instances, t.units)
    requires 4 <= lookup && inst == lookup + 2
    ensures EvalCell(wb, DInstances, 2, 9, inst) == Val(VNumber(Energy(wb)))
  {
    EnergyLookup(wb, DInstances, lookup, t.constants, t.calcs, t.units);
    JouleSI(wb, inst, lookup, t.instances, t.units, Energy(wb));
  }

  /** Canonical_SI of I_Eexpected_J is the Value typed for C_mec2. */
  lemma ReferenceRow(wb: Workbook, inst: nat, lookup: nat, t: Tables)
    requires ConstantsIn(wb, t.constants, t.units) && InstancesIn(wb, t.instances, t.units)
    requires 3 <= lookup && inst == lookup + 2
    ensures EvalCell(wb, DInstances, 5, 9, inst) == Val(VNumber(ConstantValue(wb, 3)))
  {
    VConstValue(wb, DInstances, 3, lookup, t.constants, t.units);
    ReferenceSI(wb, inst, lookup, t.instances, t.units, ConstantValue(wb, 3));
  }

  /** CL2 compares Canonical_SI of I_Ecalc_J with that of I_Eexpected_J. */
  lemma CL2Inputs(wb: Workbook, si: nat, inst: nat, t: Tables, energy: real, expected: real)
    requires InstancesIn(wb, t.instances, t.units) && LoopRowIn(wb.claims, t.claims, t.instances, 3)
    requires 1 <= inst && si == inst + 1
    requires EvalCell(wb, DInstances, 2, 9, inst) == Val(VNumber(energy))
    requires EvalCell(wb, DInstances, 5, 9, inst) == Val(VNumber(expected))
    ensures EvalCell(wb, DClaims, 3, 9, si) == Val(VNumber(energy))
    ensures EvalCell(wb, DClaims, 3, 10, si) == Val(VNumber(expected))
    ensures EvalCell(wb, DClaims, 3, 11, si) == Val(VText(""))
  {
    PairSIs(wb, 3, si, inst, t.instances, 0, 3, 2, 5, energy, expected);
  }

  lemma CL2Chain(wb: Workbook, pass: nat, range: nat, si: nat, inst: nat, lookup: nat, t: Tables)
    requires Laid(wb, t)
    requires 4 <= lookup && inst == lookup + 2 && si == inst + 1 && range == si + 1 && pass == range + 1
    ensures EvalCell(wb, DClaims, 3, 12, range) == Val(VNumber(Meaning.Abs(Energy(wb) - ConstantValue(wb, 3))))
    ensures EvalCell(wb, DClaims, 3, 13, pass)
            == Val(VBool(Meaning.Abs(Energy(wb) - ConstantValue(wb, 3)) <= t.claims[1].tolerance))
  {
    JouleRow(wb, inst, lookup, t);
    ReferenceRow(wb, inst, lookup, t);
    LoopRowOf(wb, t, 3);
    CL2Inputs(wb, si, inst, t, Energy(wb), ConstantValue(wb, 3));
    RangeCell(wb, 3, range, si, Energy(wb), ConstantValue(wb, 3), None);
    PassCell(wb, 3, pass, range, Meaning.Abs(Energy(wb) - ConstantValue(wb, 3)), t.claims[1].tolerance);
  }

  /** CL2's range is |m_e c^2 - C_mec2| of the typed Values. */
  lemma CL2Range(wb: Workbook, fuel: nat, t: Tables)
    requires Laid(wb, t) && 8 <= fuel
    ensures EvalCell(wb, DClaims, 3, 12, fuel) == Val(VNumber(Meaning.Abs(Energy(wb) - ConstantValue(wb, 3))))
  {
    CL2Chain(wb, fuel + 1, fuel, fuel - 1, fuel - 2, fuel - 4, t);
  }

  /** CL2 passes exactly when m_e c^2 lies within its tolerance of C_mec2. */
  lemma CL2Pass(wb: Workbook, fuel: nat, t: Tables)
    requires Laid(wb, t) && 9 <= fuel
    ensures EvalCell(wb, DClaims, 3, 13, fuel)
            == Val(VBool(Meaning.Abs(Energy(wb) - ConstantValue(wb, 3)) <= t.claims[1].tolerance))
  {
    CL2Chain(wb, fuel, fuel - 1, fuel - 2, fuel - 3, fuel - 5, t);
  }

  // ---- CL1: the rest energy in J, eV and ft·lbf ----

  /** When C_e holds the electronvolt's factor, Canonical_SI of
      I_Ecalc_eV is F_Ecalc. */
  lemma ElectronvoltRow(wb: Workbook, inst: nat, lookup: nat, t: Tables)
    requires ConstantsIn(wb, t.constants, t.units) && CalcsIn(wb, t.calcs) && InstancesIn(wb, t.instances, t.units)
    requires 4 <= lookup && inst == lookup + 2
    requires ConstantValue(wb, 2) == ElectronvoltFactor(t.instances, t.units)
    ensures EvalCell(wb, DInstances, 3, 9, inst) == Val(VNumber(Energy(wb)))
  {
    EnergyLookup(wb, DInstances, lookup, t.constants, t.calcs, t.units);
    ChargeLookup(wb, DInstances, lookup, t.constants, t.calcs, t.units);
    ElectronvoltRoundTrip(wb, inst, lookup, t.instances, t.units, Energy(wb));
  }

  /** Canonical_SI of I_Ecalc_ftlbf is F_Ecalc. */
  lemma FootPoundRow(wb: Workbook, inst: nat, lookup: nat, t: Tables)
    requires ConstantsIn(wb, t.constants, t.units) && CalcsIn(wb, t.calcs) && InstancesIn(wb, t.instances, t.units)
    requires 4 <= lookup && inst == lookup + 2
    ensures EvalCell(wb, DInstances, 4, 9, inst) == Val(VNumber(Energy(wb)))
  {
    EnergyLookup(wb, DInstances, lookup, t.constants, t.calcs, t.units);
    FootPoundSI(wb, inst, lookup, t.instances, t.units, Energy(wb));
  }

  /** CL1 compares F_Ecalc with itself, three times. */
  lemma CL1Inputs(wb: Workbook, si: nat, inst: nat, lookup: nat, t: Tables)
    requires Laid(wb, t)
    requires 4 <= lookup && inst == lookup + 2 && si == inst + 1
    requires ConstantValue(wb, 2) == ElectronvoltFactor(t.instances, t.units)
    ensures EvalCell(wb, DClaims, 2, 9, si) == Val(VNumber(Energy(wb)))
    ensures EvalCell(wb, DClaims, 2, 10, si) == Val(VNumber(Energy(wb)))
    ensures EvalCell(wb, DClaims, 2, 11, si) == Val(VNumber(Energy(wb)))
  {
    JouleRow(wb, inst, lookup, t);
    ElectronvoltRow(wb, inst, lookup, t);
    FootPoundRow(wb, inst, lookup, t);
    LoopRowOf(wb, t, 2);
    TripleSIs(wb, 2, si, inst, t.instances, Energy(wb), Energy(wb), Energy(wb));
  }

  lemma CL1Chain(wb: Workbook, pass: nat, range: nat, si: nat, inst: nat, lookup: nat, t: Tables)
    requires Laid(wb, t)
    requires 4 <= lookup && inst == lookup + 2 && si == inst + 1 && range == si + 1 && pass == range + 1
    requires ConstantValue(wb, 2) == ElectronvoltFactor(t.instances, t.units)
    ensures EvalCell(wb, DClaims, 2, 12, range) == Val(VNumber(0.0))
    ensures EvalCell(wb, DClaims, 2, 13, pass) == Val(VBool(true))
  {
    CL1Inputs(wb, si, inst, lookup, t);
    LoopRowOf(wb, t, 2);
    RangeCell(wb, 2, range, si, Energy(wb), Energy(wb), Some(Energy(wb)));
    PassCell(wb, 2, pass, range, 0.0, t.claims[0].tolerance);
  }

  /** CL1's range is 0: converting to eV and ft·lbf and back loses nothing. */
  lemma CL1RangeZero(wb: Workbook, fuel: nat, t: Tables)
    requires Laid(wb, t) && 8 <= fuel
    requires ConstantValue(wb, 2) == ElectronvoltFactor(t.instances, t.units)
    ensures EvalCell(wb, DClaims, 2, 12, fuel) == Val(VNumber(0.0))
  {
    CL1Chain(wb, fuel + 1, fuel, fuel - 1, fuel - 2, fuel - 4, t);
  }

  /** CL1 passes. */
  lemma CL1Passes(wb: Workbook, fuel: nat, t: Tables)
    requires Laid(wb, t) && 9 <= fuel
    requires ConstantValue(wb, 2) == ElectronvoltFactor(t.instances, t.units)
    ensures EvalCell(wb, DClaims, 2, 13, fuel) == Val(VBool(true))
  {
    CL1Chain(wb, fuel, fuel - 1, fuel - 2, fuel - 3, fuel - 5, t);
  }

  // ---- All four ----

  /** When C_e holds the electronvolt's factor and m_e c^2 lies within
      CL2's tolerance of C_mec2, every claim passes. */
  lemma AllPass(wb: Workbook, f: nat, t: Tables)
    requires Laid(wb, t) && 9 <= f
    requires ConstantValue(wb, 2) == ElectronvoltFactor(t.instances, t.units)
    requires Meaning.Abs(Energy(wb) - ConstantValue(wb, 3)) <= t.claims[1].tolerance
    ensures EvalCell(wb, DClaims, 2, 13, f) == Val(VBool(true))
    ensures EvalCell(wb, DClaims, 3, 13, f) == Val(VBool(true))
    ensures EvalCell(wb, DClaims, 4, 13, f) == Val(VBool(true))
    ensures EvalCell(wb, DClaims, 5, 13, f) == Val(VBool(true))
  {
    CL1Passes(wb, f, t);
    CL2Pass(wb, f, t);
    CL3Passes(wb, f, t);
    CL4Passes(wb, f, t);
  }
}
