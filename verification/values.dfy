/** What the Value_SI, Result_SI and Canonical_SI cells of a workbook laid
    out by `build_workbook` evaluate to. The input cells (Value of each
    constant, Value of I_Tabs0_K) are left free: the lemmas hold for any
    numbers typed there, and the last ones specialise to the source's. */
module Values {
  import opened ExactMatch
  import opened Sheets
  import opened Formulas
  import opened Builder
  import Schema
  import Units

  /** The number in cell (r, c); 0 when the cell holds no number. */
  function NumberIn(sh: Sheet, r: nat, c: nat): real
  {
    match Get(sh, r, c)
    case Number(x) => x
    case _ => 0.0
  }

  /** The Value typed into constant row 2 + i (column D). */
  function ConstantValue(wb: Workbook, i: nat): real
  {
    NumberIn(wb.constants, 2 + i, 4)
  }

  /** The Value typed for I_Tabs0_K (cell E6 of D_Instances). */
  function KelvinValue(wb: Workbook): real
  {
    NumberIn(wb.instances, 6, 5)
  }

  /** m * c^2, the rest energy F_Ecalc computes. */
  function RestEnergy(m: real, c: real): real
  {
    m * RealPow(c, 2)
  }

  // ---- Key columns ----

  lemma UnitKeys(wb: Workbook, xs: seq<Units.Unit>)
    requires UnitsLaid(wb.units, xs) && |xs| == UnitCount
    ensures KeyColumn(wb, UnitsRange, Units.Ids(xs))
  {
    forall r | UnitsRange.top <= r <= UnitsRange.bottom
      ensures CellAt(wb, DUnits, r, 1) == Text(Units.Ids(xs)[r - UnitsRange.top])
    {
      assert Get(wb.units, r, 1) == Col(Schema.UnitCells(xs[r - 2]), 1);
    }
  }

  lemma ConstantKeys(wb: Workbook, xs: seq<Schema.Constant>)
    requires ConstantsLaid(wb.constants, xs) && |xs| == ConstantCount
    ensures KeyColumn(wb, ConstRange, Schema.ConstantIds(xs))
  {
  }

  lemma CalculationKeys(wb: Workbook, xs: seq<Schema.Calculation>)
    requires CalcsLaid(wb.calcs, xs) && |xs| == CalculationCount
    ensures KeyColumn(wb, CalcsRange, Schema.CalculationIds(xs))
  {
  }

  lemma InstanceKeys(wb: Workbook, xs: seq<Schema.Instance>)
    requires InstancesLaid(wb.instances, xs) && |xs| == InstanceCount
    ensures KeyColumn(wb, InstRange, Schema.InstanceIds(xs))
  {
  }

  // ---- Unit factors and the affine conversion ----

  /** VLOOKUP of a unit id in D_Units reads ToSI_Mult (k = 5) or
      ToSI_Offset (k = 6) of the first unit with that id, and is #N/A when
      no unit has it. */
  lemma UnitLookup(wb: Workbook, s: SheetId, key: Expr, id: string, k: nat, fuel: nat, xs: seq<Units.Unit>)
    requires UnitsLaid(wb.units, xs) && |xs| == UnitCount
    requires (k == 5 || k == 6) && 1 <= fuel
    requires Eval(wb, s, key, fuel) == Val(VText(id))
    ensures Eval(wb, s, VLookup(key, UnitsRange, k), fuel)
            == match Units.Find(xs, id)
               case None => Err(NotFound)
               case Some(u) => Val(VNumber(if k == 5 then u.mult else u.offset))
  {
    UnitKeys(wb, xs);
    LookupKey(wb, s, key, id, UnitsRange, Units.Ids(xs), k, fuel);
    match IndexOf(Units.Ids(xs), id)
    case None =>
    case Some(j) =>
      assert Get(wb.units, 2 + j, k) == Col(Schema.UnitCells(xs[j]), k);
  }

  /** A row converted to SI by the pattern both D_Constants and D_Instances
      use: two lookups of the row's UnitID and value * mult + offset. The
      converted cell is the unit's ToSI of the value, or #N/A when no unit
      has that id. */
  lemma ConvertedCell(wb: Workbook, s: SheetId, r: nat, valueCol: nat, unitCol: nat, siCol: nat,
                      fuel: nat, units: seq<Units.Unit>, id: string, x: real)
    requires UnitsLaid(wb.units, units) && |units| == UnitCount
    requires 2 <= siCol && 3 <= fuel
    requires CellAt(wb, s, r, unitCol) == Text(id)
    requires CellAt(wb, s, r, siCol - 2) == Formula(UnitFactor(r, unitCol, 5))
    requires CellAt(wb, s, r, siCol - 1) == Formula(UnitFactor(r, unitCol, 6))
    requires CellAt(wb, s, r, siCol) == Formula(Affine(r, valueCol, siCol - 2, siCol - 1))
    requires EvalCell(wb, s, r, valueCol, fuel - 1) == Val(VNumber(x))
    ensures EvalCell(wb, s, r, siCol, fuel)
            == match Units.Find(units, id)
               case None => Err(NotFound)
               case Some(u) => Val(VNumber(Units.ToSI(u, x)))
  {
    var f := fuel - 1;
    assert Eval(wb, s, Ref(r, unitCol), f - 1) == Val(VText(id));
    UnitLookup(wb, s, Ref(r, unitCol), id, 5, f - 1, units);
    UnitLookup(wb, s, Ref(r, unitCol), id, 6, f - 1, units);
    assert EvalCell(wb, s, r, siCol - 2, f) == Eval(wb, s, UnitFactor(r, unitCol, 5), f - 1);
    assert EvalCell(wb, s, r, siCol - 1, f) == Eval(wb, s, UnitFactor(r, unitCol, 6), f - 1);
    match Units.Find(units, id)
    case None => AffineUnknownUnit(wb, s, r, valueCol, siCol - 2, siCol - 1, f, x);
    case Some(u) => AffineIsToSI(wb, s, r, valueCol, siCol - 2, siCol - 1, f, u, x);
  }

  /** Value_SI (column J) of constant row r is Value * ToSI_Mult +
      ToSI_Offset of the first unit whose id is the row's UnitID, and #N/A
      when no unit has that id. */
  lemma ConstantSI(wb: Workbook, r: nat, fuel: nat, xs: seq<Schema.Constant>, units: seq<Units.Unit>)
    requires UnitsLaid(wb.units, units) && |units| == UnitCount
    requires ConstantsLaid(wb.constants, xs) && 2 <= r <= 1 + |xs| && 3 <= fuel
    ensures EvalCell(wb, DConstants, r, 10, fuel)
            == match Units.Find(units, xs[r - 2].unitId)
               case None => Err(NotFound)
               case Some(u) => Val(VNumber(Units.ToSI(u, NumberIn(wb.constants, r, 4))))
  {
    assert Get(wb.constants, r, 4).Number?;
    ConvertedCell(wb, DConstants, r, 4, 5, 10, fuel, units, xs[r - 2].unitId, NumberIn(wb.constants, r, 4));
  }

  /** Canonical_SI (column I) of instance row r is Value * ToSI_Mult +
      ToSI_Offset of the first unit whose id is the row's UnitID, and #N/A
      when no unit has that id. */
  lemma InstanceSI(wb: Workbook, r: nat, fuel: nat, xs: seq<Schema.Instance>, units: seq<Units.Unit>, x: real)
    requires UnitsLaid(wb.units, units) && |units| == UnitCount
    requires InstancesLaid(wb.instances, xs) && 2 <= r <= 1 + |xs| && 3 <= fuel
    requires EvalCell(wb, DInstances, r, 5, fuel - 1) == Val(VNumber(x))
    ensures EvalCell(wb, DInstances, r, 9, fuel)
            == match Units.Find(units, xs[r - 2].unitId)
               case None => Err(NotFound)
               case Some(u) => Val(VNumber(Units.ToSI(u, x)))
  {
    ConvertedCell(wb, DInstances, r, 5, 6, 9, fuel, units, xs[r - 2].unitId, x);
  }

  // ---- What the formulas assume of the tables ----

  /** No id occurs twice, so an exact-match lookup has one candidate row. */
  ghost predicate Distinct(ids: seq<string>)
  {
    forall a, b :: 0 <= a < b < |ids| ==> ids[a] != ids[b]
  }

  /** The unit registered under `id` converts with this factor and offset. */
  ghost predicate Registered(units: seq<Units.Unit>, id: string, mult: real, offset: real)
  {
    match Units.Find(units, id)
    case None => false
    case Some(u) => u.mult == mult && u.offset == offset
  }

  /** The unit registered under `id` has a non-zero factor and no offset. */
  ghost predicate Scaled(units: seq<Units.Unit>, id: string)
  {
    match Units.Find(units, id)
    case None => false
    case Some(u) => u.mult != 0.0 && u.offset == 0.0
  }

  /** The constants the formulas name, in their rows, each given in an SI
      base unit. */
  ghost predicate ConstantsShaped(cs: seq<Schema.Constant>, units: seq<Units.Unit>)
  {
    && Schema.ConstantIds(cs) == ["C_me", "C_c", "C_e", "C_mec2", "C_abs0"]
    && Distinct(Schema.ConstantIds(cs))
    && forall i :: 0 <= i < |cs| ==> Registered(units, cs[i].unitId, 1.0, 0.0)
  }

  /** The calculations the formulas name, in their rows. */
  ghost predicate CalculationsShaped(fs: seq<Schema.Calculation>)
  {
    Schema.CalculationIds(fs) == ["F_Ecalc", "F_eV_to_J", "F_T_C_from_K"] && Distinct(Schema.CalculationIds(fs))
  }

  /** The instances the Value formulas are written for, in their rows: the
      energy in joules, electronvolts (a scaled unit) and foot-pounds (the
      unit E4 names), the reference energy in joules, absolute zero in
      kelvin and in degrees Celsius (offset 273.15, the number E7 subtracts). */
  ghost predicate InstancesShaped(xs: seq<Schema.Instance>, units: seq<Units.Unit>)
  {
    && |xs| == InstanceCount && (forall j :: 0 <= j < |xs| ==> xs[j].id != "")
    && Distinct(Schema.InstanceIds(xs))
    && Registered(units, xs[0].unitId, 1.0, 0.0)
    && Scaled(units, xs[1].unitId)
    && xs[2].unitId == "U_ftlbf" && Scaled(units, "U_ftlbf")
    && Registered(units, xs[3].unitId, 1.0, 0.0)
    && Registered(units, xs[4].unitId, 1.0, 0.0)
    && Registered(units, xs[5].unitId, 1.0, 273.15)
  }

  /** The factor of the unit I_Ecalc_eV is given in. */
  ghost function ElectronvoltFactor(xs: seq<Schema.Instance>, units: seq<Units.Unit>): real
    requires InstancesShaped(xs, units)
  {
    Units.Find(units, xs[1].unitId).value.mult
  }

  // ---- Constants and calculations ----

  /** The units and constants sheets hold tables of the expected shape. */
  ghost predicate ConstantsIn(wb: Workbook, cs: seq<Schema.Constant>, units: seq<Units.Unit>)
  {
    && UnitsLaid(wb.units, units) && |units| == UnitCount
    && ConstantsLaid(wb.constants, cs) && ConstantsShaped(cs, units)
  }

  /** vconst(id) of a listed constant reads the Value_SI of its row. */
  lemma ConstantLookup(wb: Workbook, s: SheetId, i: nat, fuel: nat, cs: seq<Schema.Constant>)
    requires ConstantsLaid(wb.constants, cs) && |cs| == ConstantCount && Distinct(Schema.ConstantIds(cs))
    requires i < |cs| && 1 <= fuel
    ensures Eval(wb, s, VConst(cs[i].id), fuel) == BlankAsZero(EvalCell(wb, DConstants, 2 + i, 10, fuel))
  {
    var ids := Schema.ConstantIds(cs);
    ConstantKeys(wb, cs);
    IndexOfDistinct(ids, i);
    LookupKey(wb, s, Str(ids[i]), ids[i], ConstRange, ids, 10, fuel);
  }

  /** The Value_SI of a constant given in an SI base unit is its Value. */
  lemma BaseConstantSI(wb: Workbook, i: nat, fuel: nat, cs: seq<Schema.Constant>, units: seq<Units.Unit>)
    requires UnitsLaid(wb.units, units) && |units| == UnitCount
    requires ConstantsLaid(wb.constants, cs) && i < |cs| && 3 <= fuel
    requires Registered(units, cs[i].unitId, 1.0, 0.0)
    ensures EvalCell(wb, DConstants, 2 + i, 10, fuel) == Val(VNumber(ConstantValue(wb, i)))
  {
    ConstantSI(wb, 2 + i, fuel, cs, units);
    Units.BaseUnitToSI(Units.Find(units, cs[i].unitId).value, ConstantValue(wb, i));
  }

  /** vconst(id) of a listed constant is the Value typed for it: the lookup
      finds its row, and its unit converts with factor 1 and offset 0. */
  lemma VConstValue(wb: Workbook, s: SheetId, i: nat, fuel: nat, cs: seq<Schema.Constant>, units: seq<Units.Unit>)
    requires ConstantsIn(wb, cs, units)
    requires i < |cs| && 3 <= fuel
    ensures Eval(wb, s, VConst(cs[i].id), fuel) == Val(VNumber(ConstantValue(wb, i)))
  {
    ConstantLookup(wb, s, i, fuel, cs);
    BaseConstantSI(wb, i, fuel, cs, units);
  }

  /** vcalc(id) of a listed calculation reads its Result_SI. */
  lemma VCalcValue(wb: Workbook, s: SheetId, i: nat, fuel: nat, fs: seq<Schema.Calculation>, x: real)
    requires CalcsLaid(wb.calcs, fs) && CalculationsShaped(fs)
    requires i < |fs| && 1 <= fuel
    requires EvalCell(wb, FCalculations, 2 + i, 5, fuel) == Val(VNumber(x))
    ensures Eval(wb, s, VCalc(fs[i].id), fuel) == Val(VNumber(x))
  {
    var ids := Schema.CalculationIds(fs);
    CalculationKeys(wb, fs);
    IndexOfDistinct(ids, i);
    LookupKey(wb, s, Str(ids[i]), ids[i], CalcsRange, ids, 5, fuel);
  }

  // The two halves of ProductIsRestEnergy are proved apart: together they
  // leave the solver with more products than it can relate.
  lemma TimesSquare(m: real, c: real)
    ensures Apply(Times, m, RealPow(c, 2)) == Val(VNumber(m * RealPow(c, 2)))
  {
  }

  lemma RestEnergyUnfolds(m: real, c: real)
    ensures RestEnergy(m, c) == m * RealPow(c, 2)
  {
  }

  lemma ProductIsRestEnergy(m: real, c: real)
    ensures Apply(Times, m, RealPow(c, 2)) == Val(VNumber(RestEnergy(m, c)))
  {
    TimesSquare(m, c);
    RestEnergyUnfolds(m, c);
  }

  /** The E2 formula on the numbers m and c is the rest energy m * c^2. */
  lemma EcalcOf(wb: Workbook, f: nat, m: real, c: real)
    requires Eval(wb, FCalculations, VConst("C_me"), f) == Val(VNumber(m))
    requires Eval(wb, FCalculations, VConst("C_c"), f) == Val(VNumber(c))
    ensures Eval(wb, FCalculations, EcalcFormula, f) == Val(VNumber(RestEnergy(m, c)))
  {
    assert Eval(wb, FCalculations, Pow(VConst("C_c"), 2), f) == Val(VNumber(RealPow(c, 2)));
    EvalArith(wb, FCalculations, Times, VConst("C_me"), Pow(VConst("C_c"), 2), f, m, RealPow(c, 2));
    ProductIsRestEnergy(m, c);
  }

  /** vconst('C_me') and vconst('C_c') are the Values typed for them. */
  lemma MassAndSpeed(wb: Workbook, f: nat, cs: seq<Schema.Constant>, units: seq<Units.Unit>)
    requires ConstantsIn(wb, cs, units) && 3 <= f
    ensures Eval(wb, FCalculations, VConst("C_me"), f) == Val(VNumber(ConstantValue(wb, 0)))
    ensures Eval(wb, FCalculations, VConst("C_c"), f) == Val(VNumber(ConstantValue(wb, 1)))
  {
    VConstValue(wb, FCalculations, 0, f, cs, units);
    VConstValue(wb, FCalculations, 1, f, cs, units);
  }

  /** E2 of F_Calculations is m * c^2 when vconst('C_me') is m and vconst('C_c') is c. */
  lemma EcalcCell(wb: Workbook, fuel: nat, m: real, c: real)
    requires Get(wb.calcs, 2, 5) == Formula(EcalcFormula) && 1 <= fuel
    requires Eval(wb, FCalculations, VConst("C_me"), fuel - 1) == Val(VNumber(m))
    requires Eval(wb, FCalculations, VConst("C_c"), fuel - 1) == Val(VNumber(c))
    ensures EvalCell(wb, FCalculations, 2, 5, fuel) == Val(VNumber(RestEnergy(m, c)))
  {
    EcalcOf(wb, fuel - 1, m, c);
  }

  /** F_Ecalc (E2) is m_e * c^2 of the Values typed for C_me and C_c. */
  lemma EcalcValue(wb: Workbook, fuel: nat, cs: seq<Schema.Constant>, units: seq<Units.Unit>)
    requires ConstantsIn(wb, cs, units)
    requires Get(wb.calcs, 2, 5) == Formula(EcalcFormula) && 4 <= fuel
    ensures EvalCell(wb, FCalculations, 2, 5, fuel) == Val(VNumber(RestEnergy(ConstantValue(wb, 0), ConstantValue(wb, 1))))
  {
    MassAndSpeed(wb, fuel - 1, cs, units);
    EcalcCell(wb, fuel, ConstantValue(wb, 0), ConstantValue(wb, 1));
  }

  /** F_eV_to_J (E3) is the Value typed for C_e. */
  lemma EvToJValue(wb: Workbook, fuel: nat, cs: seq<Schema.Constant>, units: seq<Units.Unit>)
    requires ConstantsIn(wb, cs, units)
    requires Get(wb.calcs, 3, 5) == Formula(EvToJFormula) && 4 <= fuel
    ensures EvalCell(wb, FCalculations, 3, 5, fuel) == Val(VNumber(ConstantValue(wb, 2)))
  {
    VConstValue(wb, FCalculations, 2, fuel - 1, cs, units);
  }

  /** The calculations sheet holds a table of the expected shape. */
  ghost predicate CalcsIn(wb: Workbook, fs: seq<Schema.Calculation>)
  {
    CalcsLaid(wb.calcs, fs) && CalculationsShaped(fs)
  }

  /** vcalc('F_Ecalc'), from any sheet, is m_e * c^2 of the typed Values. */
  lemma EnergyLookup(wb: Workbook, s: SheetId, f: nat, cs: seq<Schema.Constant>, fs: seq<Schema.Calculation>,
                     units: seq<Units.Unit>)
    requires ConstantsIn(wb, cs, units) && CalcsIn(wb, fs) && 4 <= f
    ensures Eval(wb, s, VCalc("F_Ecalc"), f) == Val(VNumber(RestEnergy(ConstantValue(wb, 0), ConstantValue(wb, 1))))
  {
    EcalcValue(wb, f, cs, units);
    VCalcValue(wb, s, 0, f, fs, RestEnergy(ConstantValue(wb, 0), ConstantValue(wb, 1)));
  }

  /** vcalc('F_eV_to_J'), from any sheet, is the Value typed for C_e. */
  lemma ChargeLookup(wb: Workbook, s: SheetId, f: nat, cs: seq<Schema.Constant>, fs: seq<Schema.Calculation>,
                     units: seq<Units.Unit>)
    requires ConstantsIn(wb, cs, units) && CalcsIn(wb, fs) && 4 <= f
    ensures Eval(wb, s, VCalc("F_eV_to_J"), f) == Val(VNumber(ConstantValue(wb, 2)))
  {
    EvToJValue(wb, f, cs, units);
    VCalcValue(wb, s, 1, f, fs, ConstantValue(wb, 2));
  }

  // ---- Canonical_SI of the instances ----

  /** The units and instances sheets hold tables of the expected shape. */
  ghost predicate InstancesIn(wb: Workbook, xs: seq<Schema.Instance>, units: seq<Units.Unit>)
  {
    && UnitsLaid(wb.units, units) && |units| == UnitCount
    && InstancesLaid(wb.instances, xs) && InstancesShaped(xs, units)
  }

  /** An instance given in an SI base unit has its Value as Canonical_SI. */
  lemma BaseInstanceSI(wb: Workbook, r: nat, fuel: nat, xs: seq<Schema.Instance>, units: seq<Units.Unit>, x: real)
    requires UnitsLaid(wb.units, units) && |units| == UnitCount
    requires InstancesLaid(wb.instances, xs) && 2 <= r <= 1 + |xs| && 3 <= fuel
    requires Registered(units, xs[r - 2].unitId, 1.0, 0.0)
    requires EvalCell(wb, DInstances, r, 5, fuel - 1) == Val(VNumber(x))
    ensures EvalCell(wb, DInstances, r, 9, fuel) == Val(VNumber(x))
  {
    InstanceSI(wb, r, fuel, xs, units, x);
    Units.BaseUnitToSI(Units.Find(units, xs[r - 2].unitId).value, x);
  }

  /** I_Ecalc_J: F_Ecalc, in joules, is its own SI value. */
  lemma JouleSI(wb: Workbook, fuel: nat, g: nat, xs: seq<Schema.Instance>, units: seq<Units.Unit>, energy: real)
    requires InstancesIn(wb, xs, units)
    requires 1 <= g && fuel == g + 2 && Eval(wb, DInstances, VCalc("F_Ecalc"), g) == Val(VNumber(energy))
    ensures EvalCell(wb, DInstances, 2, 9, fuel) == Val(VNumber(energy))
  {
    BaseInstanceSI(wb, 2, fuel, xs, units, energy);
  }

  /** I_Eexpected_J: C_mec2, in joules, is its own SI value. */
  lemma ReferenceSI(wb: Workbook, fuel: nat, g: nat, xs: seq<Schema.Instance>, units: seq<Units.Unit>, expected: real)
    requires InstancesIn(wb, xs, units)
    requires 1 <= g && fuel == g + 2 && Eval(wb, DInstances, VConst("C_mec2"), g) == Val(VNumber(expected))
    ensures EvalCell(wb, DInstances, 5, 9, fuel) == Val(VNumber(expected))
  {
    BaseInstanceSI(wb, 5, fuel, xs, units, expected);
  }

  /** I_Tabs0_K: the Kelvin Value typed in E6 is its own SI value. */
  lemma KelvinSI(wb: Workbook, fuel: nat, xs: seq<Schema.Instance>, units: seq<Units.Unit>)
    requires InstancesIn(wb, xs, units) && 3 <= fuel
    ensures EvalCell(wb, DInstances, 6, 9, fuel) == Val(VNumber(KelvinValue(wb)))
  {
    assert Get(wb.instances, 6, 5).Number?;
    BaseInstanceSI(wb, 6, fuel, xs, units, KelvinValue(wb));
  }

  /** E3 is F_Ecalc / F_eV_to_J. */
  lemma ElectronvoltValue(wb: Workbook, fuel: nat, energy: real, charge: real)
    requires Get(wb.instances, 3, 5) == Formula(InstE3)
    requires 2 <= fuel && charge != 0.0
    requires Eval(wb, DInstances, VCalc("F_Ecalc"), fuel - 2) == Val(VNumber(energy))
    requires Eval(wb, DInstances, VCalc("F_eV_to_J"), fuel - 2) == Val(VNumber(charge))
    ensures EvalCell(wb, DInstances, 3, 5, fuel - 1) == Val(VNumber(energy / charge))
  {
    EvalArith(wb, DInstances, Divide, VCalc("F_Ecalc"), VCalc("F_eV_to_J"), fuel - 2, energy, charge);
  }

  /** When F_eV_to_J holds the factor of the electronvolt, I_Ecalc_eV
      converts back to F_Ecalc exactly. */
  lemma ElectronvoltRoundTrip(wb: Workbook, fuel: nat, g: nat, xs: seq<Schema.Instance>, units: seq<Units.Unit>,
                              energy: real)
    requires InstancesIn(wb, xs, units)
    requires 1 <= g && fuel == g + 2
    requires Eval(wb, DInstances, VCalc("F_Ecalc"), g) == Val(VNumber(energy))
    requires Eval(wb, DInstances, VCalc("F_eV_to_J"), g) == Val(VNumber(ElectronvoltFactor(xs, units)))
    ensures EvalCell(wb, DInstances, 3, 9, fuel) == Val(VNumber(energy))
  {
    var ev := Units.Find(units, xs[1].unitId).value;
    var charge := ev.mult;
    ElectronvoltValue(wb, fuel, energy, charge);
    InstanceSI(wb, 3, fuel, xs, units, energy / charge);
    Units.DivideRoundTrip(ev, energy, charge);
  }

  /** E4 is F_Ecalc divided by the factor looked up for U_ftlbf. */
  lemma FootPoundValue(wb: Workbook, fuel: nat, units: seq<Units.Unit>, energy: real, factor: real)
    requires UnitsLaid(wb.units, units) && |units| == UnitCount
    requires Get(wb.instances, 4, 5) == Formula(InstE4)
    requires 3 <= fuel && Eval(wb, DInstances, VCalc("F_Ecalc"), fuel - 2) == Val(VNumber(energy))
    requires Units.Find(units, "U_ftlbf").Some? && Units.Find(units, "U_ftlbf").value.mult == factor && factor != 0.0
    ensures EvalCell(wb, DInstances, 4, 5, fuel - 1) == Val(VNumber(energy / factor))
  {
    UnitLookup(wb, DInstances, Str("U_ftlbf"), "U_ftlbf", 5, fuel - 2, units);
    EvalArith(wb, DInstances, Divide, VCalc("F_Ecalc"), VLookup(Str("U_ftlbf"), UnitsRange, 5), fuel - 2, energy, factor);
  }

  /** I_Ecalc_ftlbf: F_Ecalc divided by the foot-pound's factor and
      converted back with the same factor is F_Ecalc. */
  lemma FootPoundSI(wb: Workbook, fuel: nat, g: nat, xs: seq<Schema.Instance>, units: seq<Units.Unit>, energy: real)
    requires InstancesIn(wb, xs, units)
    requires 1 <= g && fuel == g + 2 && Eval(wb, DInstances, VCalc("F_Ecalc"), g) == Val(VNumber(energy))
    ensures EvalCell(wb, DInstances, 4, 9, fuel) == Val(VNumber(energy))
  {
    var ft := Units.Find(units, "U_ftlbf").value;
    var factor := ft.mult;
    FootPoundValue(wb, fuel, units, energy, factor);
    InstanceSI(wb, 4, fuel, xs, units, energy / factor);
    Units.DivideRoundTrip(ft, energy, factor);
  }

  /** E7 is E6 - 273.15. */
  lemma CelsiusValue(wb: Workbook, fuel: nat, t: real, offset: real)
    requires Get(wb.instances, 7, 5) == Formula(InstE7) && Get(wb.instances, 6, 5) == Number(t)
    requires 3 <= fuel && offset == 273.15
    ensures EvalCell(wb, DInstances, 7, 5, fuel - 1) == Val(VNumber(t - offset))
  {
    EvalArith(wb, DInstances, Minus, Ref(6, 5), Num(offset), fuel - 2, t, offset);
  }

  /** I_Tabs0_C: E6 - 273.15, converted back with the Celsius offset, is
      the Kelvin Value again, whatever number E6 holds. */
  lemma CelsiusSI(wb: Workbook, fuel: nat, xs: seq<Schema.Instance>, units: seq<Units.Unit>)
    requires InstancesIn(wb, xs, units)
    requires 3 <= fuel
    ensures EvalCell(wb, DInstances, 7, 9, fuel) == Val(VNumber(KelvinValue(wb)))
  {
    var t, offset := KelvinValue(wb), 273.15;
    CelsiusValue(wb, fuel, t, offset);
    InstanceSI(wb, 7, fuel, xs, units, t - offset);
    Units.OffsetRoundTrip(Units.Find(units, xs[5].unitId).value, t, offset);
  }
}
