/** The workbook `build_workbook` writes, with the source's own tables and
    typed Values: every claim passes, the answers are TRUE except Q2's,
    and the dashboard counts four passing claims out of four. */
module BuiltWorkbook {
  import opened Sheets
  import opened Formulas
  import opened Builder
  import opened Values
  import opened Verdicts
  import opened Answers
  import Schema
  import Units
  import Meaning

  /** The tables the builder writes. */
  const Source: Tables := Tables(Units.Table, Schema.Constants, Schema.Calculations, Schema.Instances, Schema.Claims)

  // ---- The source's tables have the shape the formulas assume ----

  /** An id of the registry is registered with the factor and offset of its row. */
  lemma RegisteredAt(id: string, k: nat, mult: real, offset: real)
    requires k < |Units.Table| && Units.Table[k].id == id
    requires Units.Table[k].mult == mult && Units.Table[k].offset == offset
    ensures Registered(Units.Table, id, mult, offset)
  {
    Units.FindInTable(k);
  }

  lemma ConstantIdsListed()
    ensures Schema.ConstantIds(Schema.Constants) == ["C_me", "C_c", "C_e", "C_mec2", "C_abs0"]
  {
  }

  lemma ConstantIdsDistinct()
    ensures Distinct(["C_me", "C_c", "C_e", "C_mec2", "C_abs0"])
  {
  }

  lemma ConstantUnits()
    ensures forall i :: 0 <= i < |Schema.Constants| ==> Registered(Units.Table, Schema.Constants[i].unitId, 1.0, 0.0)
  {
    forall i | 0 <= i < |Schema.Constants|
      ensures Registered(Units.Table, Schema.Constants[i].unitId, 1.0, 0.0)
    {
      if i == 0 { RegisteredAt(Schema.Constants[i].unitId, 5, 1.0, 0.0); }
      else if i == 1 { RegisteredAt(Schema.Constants[i].unitId, 6, 1.0, 0.0); }
      else if i == 2 { RegisteredAt(Schema.Constants[i].unitId, 7, 1.0, 0.0); }
      else if i == 3 { RegisteredAt(Schema.Constants[i].unitId, 0, 1.0, 0.0); }
      else { RegisteredAt(Schema.Constants[i].unitId, 3, 1.0, 0.0); }
    }
  }

  /** Every constant of the table is given in an SI base unit. */
  lemma SourceConstantsShaped()
    ensures ConstantsShaped(Schema.Constants, Units.Table)
  {
    ConstantIdsListed();
    ConstantIdsDistinct();
    ConstantUnits();
  }

  lemma SourceCalculationsShaped()
    ensures CalculationsShaped(Schema.Calculations)
  {
    assert Schema.CalculationIds(Schema.Calculations) == ["F_Ecalc", "F_eV_to_J", "F_T_C_from_K"];
  }

  /** An id of the registry whose row has a non-zero factor and no offset is scaled. */
  lemma ScaledAt(id: string, k: nat)
    requires k < |Units.Table| && Units.Table[k].id == id
    requires Units.Table[k].mult != 0.0 && Units.Table[k].offset == 0.0
    ensures Scaled(Units.Table, id)
  {
    Units.FindInTable(k);
  }

  lemma InstanceIdsListed()
    ensures Schema.InstanceIds(Schema.Instances)
         == ["I_Ecalc_J", "I_Ecalc_eV", "I_Ecalc_ftlbf", "I_Eexpected_J", "I_Tabs0_K", "I_Tabs0_C"]
  {
  }

  lemma InstanceIdsDistinct()
    ensures Distinct(["I_Ecalc_J", "I_Ecalc_eV", "I_Ecalc_ftlbf", "I_Eexpected_J", "I_Tabs0_K", "I_Tabs0_C"])
  {
  }

  lemma InstanceIdsNonEmpty()
    ensures forall j :: 0 <= j < |Schema.Instances| ==> Schema.Instances[j].id != ""
  {
    forall j | 0 <= j < |Schema.Instances|
      ensures Schema.Instances[j].id != ""
    {
      assert Schema.Instances[j].id[0] == 'I';
    }
  }

  lemma EnergyUnits()
    ensures Registered(Units.Table, Schema.Instances[0].unitId, 1.0, 0.0)
    ensures Scaled(Units.Table, Schema.Instances[1].unitId)
    ensures Schema.Instances[2].unitId == "U_ftlbf" && Scaled(Units.Table, "U_ftlbf")
  {
    RegisteredAt(Schema.Instances[0].unitId, 0, 1.0, 0.0);
    ScaledAt(Schema.Instances[1].unitId, 1);
    ScaledAt("U_ftlbf", 2);
  }

  lemma ReferenceAndTemperatureUnits()
    ensures Registered(Units.Table, Schema.Instances[3].unitId, 1.0, 0.0)
    ensures Registered(Units.Table, Schema.Instances[4].unitId, 1.0, 0.0)
    ensures Registered(Units.Table, Schema.Instances[5].unitId, 1.0, 273.15)
  {
    RegisteredAt(Schema.Instances[3].unitId, 0, 1.0, 0.0);
    RegisteredAt(Schema.Instances[4].unitId, 3, 1.0, 0.0);
    RegisteredAt(Schema.Instances[5].unitId, 4, 1.0, 273.15);
  }

  /** The instances are registered in the units the Value formulas assume. */
  lemma SourceInstancesShaped()
    ensures InstancesShaped(Schema.Instances, Units.Table)
  {
    InstanceIdsListed();
    InstanceIdsDistinct();
    InstanceIdsNonEmpty();
    EnergyUnits();
    ReferenceAndTemperatureUnits();
  }

  /** The claims compare the instances the formulas are written for. */
  lemma SourceClaimsShaped()
    ensures ClaimsShaped(Schema.Claims, Schema.Instances) && ClaimsNamed(Schema.Claims)
  {
    assert Schema.ClaimIds(Schema.Claims) == ["CL1", "CL2", "CL3", "CL4"];
  }

  /** A workbook with the builder's layout is laid out for the source's tables. */
  lemma SourceLaid(wb: Workbook)
    requires Layout(wb)
    ensures Laid(wb, Source)
  {
    SourceConstantsShaped();
    SourceCalculationsShaped();
    SourceInstancesShaped();
    SourceClaimsShaped();
  }

  // ---- The typed Values ----

  /** C_e holds the electronvolt's factor from D_Units. */
  lemma SourceCharge(wb: Workbook)
    requires SourceConstantValues(wb.constants, Schema.Constants)
    ensures ConstantValue(wb, 2) == 1.602176634e-19
  {
    assert Get(wb.constants, 4, 4) == Number(Schema.Constants[2].value);
  }

  /** I_Ecalc_eV is given in U_eV, whose factor is e in joules. */
  lemma SourceElectronvolt()
    ensures InstancesShaped(Schema.Instances, Units.Table)
    ensures ElectronvoltFactor(Schema.Instances, Units.Table) == 1.602176634e-19
  {
    SourceInstancesShaped();
    RegisteredAt(Schema.Instances[1].unitId, 1, 1.602176634e-19, 0.0);
  }

  /** m_e c^2 of CODATA's m_e and c differs from CODATA's m_e c^2 by about
      3.2e-25 J, within CL2's tolerance of 1e-22 J. */
  lemma SourceEnergy(wb: Workbook)
    requires SourceConstantValues(wb.constants, Schema.Constants)
    ensures Meaning.Abs(Energy(wb) - ConstantValue(wb, 3)) <= Schema.Claims[1].tolerance
  {
    assert Get(wb.constants, 2, 4) == Number(Schema.Constants[0].value);
    assert Get(wb.constants, 3, 4) == Number(Schema.Constants[1].value);
    assert Get(wb.constants, 5, 4) == Number(Schema.Constants[3].value);
    RestEnergyUnfolds(9.1093837139e-31, 299792458.0);
    assert RealPow(299792458.0, 2) == 299792458.0 * 299792458.0;
    assert Energy(wb) == 9.1093837139e-31 * (299792458.0 * 299792458.0);
  }

  /** What the verdicts rely on holds of the builder's workbook. */
  lemma SourceFacts(wb: Workbook)
    requires Layout(wb) && SourceInputs(wb)
    ensures Laid(wb, Source)
    ensures ConstantValue(wb, 2) == ElectronvoltFactor(Source.instances, Source.units)
    ensures Meaning.Abs(Energy(wb) - ConstantValue(wb, 3)) <= Source.claims[1].tolerance
  {
    SourceLaid(wb);
    SourceCharge(wb);
    SourceElectronvolt();
    SourceEnergy(wb);
  }

  // ---- The verdicts ----

  /** With the builder's layout and Values all four claims pass. */
  lemma SourcePasses(wb: Workbook, f: nat)
    requires Layout(wb) && SourceInputs(wb) && 9 <= f
    ensures EvalCell(wb, DClaims, 2, 13, f) == Val(VBool(true))
    ensures EvalCell(wb, DClaims, 3, 13, f) == Val(VBool(true))
    ensures EvalCell(wb, DClaims, 4, 13, f) == Val(VBool(true))
    ensures EvalCell(wb, DClaims, 5, 13, f) == Val(VBool(true))
  {
    SourceFacts(wb);
    AllPass(wb, f, Source);
  }

  /** Of the three claim types only "Constructed (definition/convention)"
      starts with "Constructed". */
  lemma ClaimTypeLabels()
    ensures Meaning.TruthSource(Schema.RealityConstrained) == Meaning.RealityLabel
    ensures Meaning.TruthSource(Schema.MixedScale) == Meaning.RealityLabel
    ensures Meaning.TruthSource(Schema.Constructed) == Meaning.ConventionLabel
  {
    assert |Meaning.ConventionLabel| != |Meaning.RealityLabel|;
    assert Schema.RealityConstrained[0] == 'R';
    assert Schema.MixedScale[0] == 'M';
    assert Schema.Constructed[..11] == "Constructed";
  }

  /** Column N of the four claim rows: CL1, CL2 and CL3 are labelled as
      reality-constrained, CL4 alone as convention or definition. */
  lemma SourceLabels(wb: Workbook, fuel: nat)
    requires Layout(wb) && 2 <= fuel
    ensures EvalCell(wb, DClaims, 2, 14, fuel) == Val(VText(Meaning.RealityLabel))
    ensures EvalCell(wb, DClaims, 3, 14, fuel) == Val(VText(Meaning.RealityLabel))
    ensures EvalCell(wb, DClaims, 4, 14, fuel) == Val(VText(Meaning.RealityLabel))
    ensures EvalCell(wb, DClaims, 5, 14, fuel) == Val(VText(Meaning.ConventionLabel))
  {
    assert |Schema.Claims| == ClaimCount;
    assert Schema.Claims[0].claimType == Schema.Claims[1].claimType == Schema.RealityConstrained;
    assert Schema.Claims[2].claimType == Schema.MixedScale && Schema.Claims[3].claimType == Schema.Constructed;
    ClaimTypeLabels();
    LabelCell(wb, 2, fuel, fuel - 1, Schema.Claims);
    LabelCell(wb, 3, fuel, fuel - 1, Schema.Claims);
    LabelCell(wb, 4, fuel, fuel - 1, Schema.Claims);
    LabelCell(wb, 5, fuel, fuel - 1, Schema.Claims);
  }

  /** With the builder's layout and Values, Q0, Q1, Q3, Q4 and Q5 are
      answered TRUE, Q2 FALSE, and B8 counts all four claims. */
  lemma SourceAnswers(wb: Workbook, fuel: nat)
    requires Layout(wb) && SourceInputs(wb) && 10 <= fuel
    ensures EvalCell(wb, DQuestions, 2, 4, fuel) == Val(VBool(true))
    ensures EvalCell(wb, DQuestions, 3, 4, fuel) == Val(VBool(true))
    ensures EvalCell(wb, DQuestions, 4, 4, fuel) == Val(VBool(false))
    ensures EvalCell(wb, DQuestions, 5, 4, fuel) == Val(VBool(true))
    ensures EvalCell(wb, DQuestions, 6, 4, fuel) == Val(VBool(true))
    ensures EvalCell(wb, DQuestions, 7, 4, fuel) == Val(VBool(true))
    ensures EvalCell(wb, ADashboard, 8, 2, fuel) == Val(VNumber(4.0))
  {
    SourceFacts(wb);
    AllAnswersAt(wb, fuel, fuel - 1, Source, SourceQuestionIds);
  }
}
