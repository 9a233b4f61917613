/** The formulas `build_workbook` writes, as expressions: the fixed lookup
    ranges, the helpers vconst / vcalc / vclaim_pass, and the per-row
    formulas of each sheet. The lemmas say what each formula computes. */
module Formulas {
  import opened ExactMatch
  import opened Sheets
  import Units
  import Schema
  import Meaning

  /** `Sheet!$A$2:$<right>${1 + nRows}`: the data rows under the header. */
  function DataRange(s: SheetId, nRows: nat, right: nat): Range
  {
    Range(s, 2, 1 + nRows, right)
  }

  /** The row counts `len(...)` gives for the literal tables; each sheet's
      build lemma in Builder checks its count against its table. */
  const UnitCount: nat := 8
  const ConstantCount: nat := 5
  const CalculationCount: nat := 3
  const InstanceCount: nat := 6
  const ClaimCount: nat := 4
  const QuestionCount: nat := 6

  const UnitsRange: Range := DataRange(DUnits, UnitCount, 7)
  const ConstRange: Range := DataRange(DConstants, ConstantCount, 10)
  const CalcsRange: Range := DataRange(FCalculations, CalculationCount, 5)
  const InstRange: Range := DataRange(DInstances, InstanceCount, 9)
  const ClaimsRange: Range := DataRange(DClaims, ClaimCount, 13)

  /** vconst(id): the Value_SI (column 10) of constant `id`. */
  function VConst(id: string): Expr { VLookup(Str(id), ConstRange, 10) }

  /** vcalc(id): the Result_SI (column 5) of calculation `id`. */
  function VCalc(id: string): Expr { VLookup(Str(id), CalcsRange, 5) }

  /** vclaim_pass(id): the Pass (column 13) of claim `id`. */
  function VClaimPass(id: string): Expr { VLookup(Str(id), ClaimsRange, 13) }

  /** VLOOKUP(<keyCol><r>, units_range, k, FALSE): factor k (5 = ToSI_Mult,
      6 = ToSI_Offset) of the unit named in column keyCol of row r. */
  function UnitFactor(r: nat, keyCol: nat, k: nat): Expr { VLookup(Ref(r, keyCol), UnitsRange, k) }

  /** <value><r>*<mult><r>+<offset><r>: the affine conversion to SI. */
  function Affine(r: nat, valueCol: nat, multCol: nat, offsetCol: nat): Expr
  {
    Add(Mul(Ref(r, valueCol), Ref(r, multCol)), Ref(r, offsetCol))
  }

  // ---- F_Calculations, column E ----

  /** E2: vconst('C_me') * (vconst('C_c') ^ 2). */
  const EcalcFormula: Expr := Mul(VConst("C_me"), Pow(VConst("C_c"), 2))
  /** E3: vconst('C_e'). */
  const EvToJFormula: Expr := VConst("C_e")

  // ---- D_Instances, column E ----

  const InstE2: Expr := VCalc("F_Ecalc")
  const InstE3: Expr := Div(VCalc("F_Ecalc"), VCalc("F_eV_to_J"))
  const InstE4: Expr := Div(VCalc("F_Ecalc"), VLookup(Str("U_ftlbf"), UnitsRange, 5))
  const InstE5: Expr := VConst("C_mec2")
  const InstE7: Expr := Sub(Ref(6, 5), Num(273.15))

  // ---- D_Claims, columns I to N ----

  /** IF(<idCol><r>="","",VLOOKUP(<idCol><r>, inst_range, 9, FALSE)). */
  function ClaimSI(r: nat, idCol: nat): Expr
  {
    If(EqText(Ref(r, idCol), ""), Str(""), VLookup(Ref(r, idCol), InstRange, 9))
  }

  /** IF(K="", ABS(I-J), MAX(I,J,K)-MIN(I,J,K)). */
  function ClaimRange(r: nat): Expr
  {
    If(EqText(Ref(r, 11), ""),
       Abs(Sub(Ref(r, 9), Ref(r, 10))),
       Sub(Max3(Ref(r, 9), Ref(r, 10), Ref(r, 11)), Min3(Ref(r, 9), Ref(r, 10), Ref(r, 11))))
  }

  /** L <= H. */
  function ClaimPass(r: nat): Expr { LessEq(Ref(r, 12), Ref(r, 8)) }

  /** IF(LEFT(C,11)="Constructed", <convention label>, <reality label>). */
  function TruthSourceFormula(r: nat): Expr
  {
    If(EqText(Left(Ref(r, 3), 11), "Constructed"), Str(Meaning.ConventionLabel), Str(Meaning.RealityLabel))
  }

  /** The CL4 row (row 5) after the patch. */
  const CL4Row: nat := 5
  const CL4SI1: Expr := VCalc("F_eV_to_J")
  const CL4SI2: Expr := VConst("C_e")
  const CL4Range: Expr := Abs(Sub(Ref(CL4Row, 9), Ref(CL4Row, 10)))

  // ---- D_Questions, column D ----

  const AnyInvariant: Expr := Or3(VClaimPass("CL1"), VClaimPass("CL2"), VClaimPass("CL3"))
  const QuestionD2: Expr := VClaimPass("CL4")
  const QuestionD3: Expr := AnyInvariant
  const QuestionD4: Expr := Not(VClaimPass("CL1"))
  const QuestionD5: Expr := VClaimPass("CL2")
  const QuestionD6: Expr := VClaimPass("CL3")
  const QuestionD7: Expr := AnyInvariant

  // ---- A_Dashboard ----

  /** B4, B5, B6: the calculated and the reference rest energy, absolute zero. */
  const DashboardEcalc: Expr := VCalc("F_Ecalc")
  const DashboardMec2: Expr := VConst("C_mec2")
  const DashboardAbs0: Expr := VConst("C_abs0")
  /** B8: COUNTIF(D_Claims!$M$2:$M${1 + len(claims)}, TRUE). */
  const PassingCount: Expr := CountTrue(DClaims, 2, 1 + ClaimCount, 13)
  /** B9: the number of claims. */
  const ClaimsTotal: Expr := Num(ClaimCount as real)
  /** A(r+10) and B(r+10) mirror the question text and the answer of question row r. */
  function DashboardQuestion(r: nat): Expr { SheetRef(DQuestions, r, 2) }
  function DashboardAnswer(r: nat): Expr { SheetRef(DQuestions, r, 4) }

  // ---- What the row formulas compute ----

  /** D*H+I (or E*G+H) is value * multiplier + offset of the looked-up
      unit: the unit's ToSI of the value. */
  lemma AffineIsToSI(wb: Workbook, s: SheetId, r: nat, valueCol: nat, multCol: nat, offsetCol: nat,
                     fuel: nat, u: Units.Unit, x: real)
    requires EvalCell(wb, s, r, valueCol, fuel) == Val(VNumber(x))
    requires EvalCell(wb, s, r, multCol, fuel) == Val(VNumber(u.mult))
    requires EvalCell(wb, s, r, offsetCol, fuel) == Val(VNumber(u.offset))
    ensures Eval(wb, s, Affine(r, valueCol, multCol, offsetCol), fuel) == Val(VNumber(Units.ToSI(u, x)))
  {
    AffineValue(wb, s, r, valueCol, multCol, offsetCol, fuel, x, u.mult, u.offset);
  }

  /** The affine formula on three numbers is the affine map of them. */
  lemma AffineValue(wb: Workbook, s: SheetId, r: nat, valueCol: nat, multCol: nat, offsetCol: nat,
                    fuel: nat, x: real, m: real, o: real)
    requires EvalCell(wb, s, r, valueCol, fuel) == Val(VNumber(x))
    requires EvalCell(wb, s, r, multCol, fuel) == Val(VNumber(m))
    requires EvalCell(wb, s, r, offsetCol, fuel) == Val(VNumber(o))
    ensures Eval(wb, s, Affine(r, valueCol, multCol, offsetCol), fuel) == Val(VNumber(Units.AffineMap(x, m, o)))
  {
    var product := Mul(Ref(r, valueCol), Ref(r, multCol));
    EvalArith(wb, s, Times, Ref(r, valueCol), Ref(r, multCol), fuel, x, m);
    assert Eval(wb, s, product, fuel) == Val(VNumber(x * m));
    EvalArith(wb, s, Plus, product, Ref(r, offsetCol), fuel, x * m, o);
  }

  /** When the unit lookup fails (#N/A), so does the conversion. */
  lemma AffineUnknownUnit(wb: Workbook, s: SheetId, r: nat, valueCol: nat, multCol: nat, offsetCol: nat,
                          fuel: nat, x: real)
    requires EvalCell(wb, s, r, valueCol, fuel) == Val(VNumber(x))
    requires EvalCell(wb, s, r, multCol, fuel) == Err(NotFound)
    ensures Eval(wb, s, Affine(r, valueCol, multCol, offsetCol), fuel) == Err(NotFound)
  {
    assert Eval(wb, s, Mul(Ref(r, valueCol), Ref(r, multCol)), fuel) == Err(NotFound);
  }

  /** SI_k is "" when InstanceID_k is "", and otherwise the exact-match
      lookup of that id in D_Instances, column 9. */
  lemma ClaimSIReadsInstance(wb: Workbook, r: nat, idCol: nat, id: string, fuel: nat)
    requires CellAt(wb, DClaims, r, idCol) == Text(id)
    requires 1 <= fuel
    ensures id == "" ==> Eval(wb, DClaims, ClaimSI(r, idCol), fuel) == Val(VText(""))
    ensures id != "" ==> Eval(wb, DClaims, ClaimSI(r, idCol), fuel)
                         == Lookup(wb, InstRange, VText(id), 9, InstRange.top, fuel)
  {
    assert Eval(wb, DClaims, Ref(r, idCol), fuel) == Val(VText(id));
    assert Eval(wb, DClaims, EqText(Ref(r, idCol), ""), fuel) == Val(VBool(id == ""));
  }

  /** The range formula computes RangeAbs: |SI_1 - SI_2| when SI_3 is "",
      the spread of all three when SI_3 is a number. */
  lemma ClaimRangeIsRangeAbs(wb: Workbook, r: nat, fuel: nat, a: real, b: real, c: Option<real>)
    requires EvalCell(wb, DClaims, r, 9, fuel) == Val(VNumber(a))
    requires EvalCell(wb, DClaims, r, 10, fuel) == Val(VNumber(b))
    requires EvalCell(wb, DClaims, r, 11, fuel) == (match c case None => Val(VText("")) case Some(z) => Val(VNumber(z)))
    ensures Eval(wb, DClaims, ClaimRange(r), fuel) == Val(VNumber(Meaning.RangeAbs(a, b, c)))
  {
    match c
    case None => PairRange(wb, r, fuel, a, b);
    case Some(z) => TripleRange(wb, r, fuel, a, b, z);
  }

  lemma PairRange(wb: Workbook, r: nat, fuel: nat, a: real, b: real)
    requires EvalCell(wb, DClaims, r, 9, fuel) == Val(VNumber(a))
    requires EvalCell(wb, DClaims, r, 10, fuel) == Val(VNumber(b))
    requires EvalCell(wb, DClaims, r, 11, fuel) == Val(VText(""))
    ensures Eval(wb, DClaims, ClaimRange(r), fuel) == Val(VNumber(Meaning.Abs(a - b)))
  {
    assert Eval(wb, DClaims, EqText(Ref(r, 11), ""), fuel) == Val(VBool(true));
    assert Eval(wb, DClaims, Sub(Ref(r, 9), Ref(r, 10)), fuel) == Val(VNumber(a - b));
  }

  lemma TripleRange(wb: Workbook, r: nat, fuel: nat, a: real, b: real, z: real)
    requires EvalCell(wb, DClaims, r, 9, fuel) == Val(VNumber(a))
    requires EvalCell(wb, DClaims, r, 10, fuel) == Val(VNumber(b))
    requires EvalCell(wb, DClaims, r, 11, fuel) == Val(VNumber(z))
    ensures Eval(wb, DClaims, ClaimRange(r), fuel) == Val(VNumber(Meaning.Max3(a, b, z) - Meaning.Min3(a, b, z)))
  {
    assert Eval(wb, DClaims, EqText(Ref(r, 11), ""), fuel) == Val(VBool(false));
    assert Eval(wb, DClaims, Max3(Ref(r, 9), Ref(r, 10), Ref(r, 11)), fuel) == Val(VNumber(Meaning.Max3(a, b, z)));
    assert Eval(wb, DClaims, Min3(Ref(r, 9), Ref(r, 10), Ref(r, 11)), fuel) == Val(VNumber(Meaning.Min3(a, b, z)));
  }

  /** The pass formula is the inclusive tolerance test. */
  lemma ClaimPassIsPasses(wb: Workbook, r: nat, fuel: nat, range: real, tolerance: real)
    requires EvalCell(wb, DClaims, r, 12, fuel) == Val(VNumber(range))
    requires EvalCell(wb, DClaims, r, 8, fuel) == Val(VNumber(tolerance))
    ensures Eval(wb, DClaims, ClaimPass(r), fuel) == Val(VBool(Meaning.Passes(range, tolerance)))
  {
  }

  /** LEFT of a text is its prefix. */
  lemma LeftOfText(wb: Workbook, s: SheetId, a: Expr, n: nat, fuel: nat, u: string)
    requires Eval(wb, s, a, fuel) == Val(VText(u))
    ensures Eval(wb, s, Left(a, n), fuel) == Val(VText(Meaning.Left(u, n)))
  {
  }

  /** Comparing a text with a literal is string equality. */
  lemma EqTextOfText(wb: Workbook, s: SheetId, a: Expr, t: string, fuel: nat, u: string)
    requires Eval(wb, s, a, fuel) == Val(VText(u))
    ensures Eval(wb, s, EqText(a, t), fuel) == Val(VBool(u == t))
  {
  }

  /** IF between two literal texts picks one by the condition. */
  lemma IfOfTexts(wb: Workbook, s: SheetId, c: Expr, yes: string, no: string, fuel: nat, b: bool)
    requires Eval(wb, s, c, fuel) == Val(VBool(b))
    ensures Eval(wb, s, If(c, Str(yes), Str(no)), fuel) == Val(VText(if b then yes else no))
  {
  }

  /** The label formula is TruthSource of the ClaimType text. */
  lemma TruthSourceFormulaIsTruthSource(wb: Workbook, r: nat, fuel: nat, claimType: string)
    requires EvalCell(wb, DClaims, r, 3, fuel) == Val(VText(claimType))
    ensures Eval(wb, DClaims, TruthSourceFormula(r), fuel) == Val(VText(Meaning.TruthSource(claimType)))
  {
    var left := Meaning.Left(claimType, 11);
    LeftOfText(wb, DClaims, Ref(r, 3), 11, fuel, claimType);
    EqTextOfText(wb, DClaims, Left(Ref(r, 3), 11), "Constructed", fuel, left);
    IfOfTexts(wb, DClaims, EqText(Left(Ref(r, 3), 11), "Constructed"), Meaning.ConventionLabel, Meaning.RealityLabel,
              fuel, left == "Constructed");
  }
}
