/** The literal rows `build_workbook` appends to each sheet: headers and data. */
module Schema {
  import opened Sheets
  import Units
  import opened ExactMatch

  /** A row of literal texts, as `ws.append(headers)` writes it. */
  function TextRow(xs: seq<string>): seq<Cell>
  {
    seq(|xs|, i requires 0 <= i < |xs| => Text(xs[i]))
  }

  // ---- D_Units ----

  const UnitHeaders: seq<string> :=
    ["UnitID", "UnitName", "QuantityKind", "SI_UnitName", "ToSI_Mult", "ToSI_Offset", "Notes_URL"]

  function UnitCells(u: Units.Unit): seq<Cell>
  {
    [Text(u.id), Text(u.name), Text(u.kind), Text(u.siName), Number(u.mult), Number(u.offset), Text(u.notesUrl)]
  }

  // ---- D_Constants ----

  const ConstantHeaders: seq<string> :=
    ["ConstantID", "Name", "Symbol", "Value", "UnitID", "SourceLayer", "Authority_URL",
     "Unit_ToSI_Mult", "Unit_ToSI_Offset", "Value_SI", "Notes"]

  datatype Constant = Constant(id: string, name: string, symbol: string, value: real, unitId: string,
                               sourceLayer: string, authorityUrl: string, notes: string)

  const Constants: seq<Constant> := [
    Constant("C_me", "electron mass", "m_e", 9.1093837139e-31, "U_kg", "Measured (CODATA)",
             "https://physics.nist.gov/cgi-bin/cuu/Value?me=", "From NIST CODATA"),
    Constant("C_c", "speed of light in vacuum", "c", 299792458.0, "U_mps", "Defined (SI)",
             "https://www.bipm.org/en/measurement-units", "Exact by SI definition"),
    Constant("C_e", "elementary charge", "e", 1.602176634e-19, "U_Coul", "Defined (SI)",
             "https://www.bipm.org/en/measurement-units", "Exact by SI definition"),
    Constant("C_mec2", "electron mass energy equivalent", "m_e c^2", 8.1871057880e-14, "U_J", "Measured/Adjusted (CODATA)",
             "https://physics.nist.gov/cgi-bin/cuu/Value?mec2%7Csearch_for=electron+mass", "Reference value to validate E=mc^2 calc"),
    Constant("C_abs0", "absolute zero (thermodynamic)", "0 K", 0.0, "U_K", "Defined (scale anchor)",
             "https://www.bipm.org/documents/20126/41483022/SI-Brochure-9-concise-EN.pdf", "0 K is absolute zero on Kelvin scale")
  ]

  /** Columns H, I and J are written as "" and filled with formulas afterwards. */
  function ConstantCells(k: Constant): seq<Cell>
  {
    [Text(k.id), Text(k.name), Text(k.symbol), Number(k.value), Text(k.unitId), Text(k.sourceLayer),
     Text(k.authorityUrl), Text(""), Text(""), Text(""), Text(k.notes)]
  }

  /** The id column. */
  function ConstantIds(xs: seq<Constant>): seq<string>
  {
    Column(xs, (c: Constant) => c.id)
  }

  // ---- F_Calculations ----

  const CalculationHeaders: seq<string> := ["CalcID", "Name", "Expression", "Result_UnitID", "Result_SI", "Notes"]

  datatype Calculation = Calculation(id: string, name: string, expression: string, resultUnitId: string, notes: string)

  const Calculations: seq<Calculation> := [
    Calculation("F_Ecalc", "Electron rest energy from E=mc^2", "m_e * c^2", "U_J", "Uses constants C_me and C_c"),
    Calculation("F_eV_to_J", "eV to J conversion", "e (since 1 V = 1 J/C, so eV = e·J)", "U_J",
                "Checks constructed truth: conversion derives from defined constants"),
    Calculation("F_T_C_from_K", "Celsius from Kelvin", "t(°C)=T(K)-273.15", "U_C", "Uses BIPM relationship")
  ]

  /** Result_SI (column E) is written as "". */
  function CalculationCells(f: Calculation): seq<Cell>
  {
    [Text(f.id), Text(f.name), Text(f.expression), Text(f.resultUnitId), Text(""), Text(f.notes)]
  }

  /** The id column. */
  function CalculationIds(xs: seq<Calculation>): seq<string>
  {
    Column(xs, (c: Calculation) => c.id)
  }

  // ---- D_Instances ----

  const InstanceHeaders: seq<string> :=
    ["InstanceID", "Scenario", "QuantityName", "QuantityKind", "Value", "UnitID",
     "Unit_ToSI_Mult", "Unit_ToSI_Offset", "Canonical_SI", "Notes"]

  /** `value` is the literal written to column E: a number, or "" for the
      rows whose Value becomes a formula. */
  datatype Instance = Instance(id: string, scenario: string, quantityName: string, quantityKind: string,
                               value: Cell, unitId: string, notes: string)

  const Instances: seq<Instance> := [
    Instance("I_Ecalc_J", "ElectronRestEnergy", "E (calc)", "Energy", Text(""), "U_J", "From F_Ecalc"),
    Instance("I_Ecalc_eV", "ElectronRestEnergy", "E (calc)", "Energy", Text(""), "U_eV", "Converted from SI"),
    Instance("I_Ecalc_ftlbf", "ElectronRestEnergy", "E (calc)", "Energy", Text(""), "U_ftlbf", "Converted from SI"),
    Instance("I_Eexpected_J", "ElectronRestEnergy", "E (CODATA)", "Energy", Text(""), "U_J", "Reference constant C_mec2"),
    Instance("I_Tabs0_K", "AbsoluteZero", "T absolute", "Temperature", Number(0.0), "U_K", "0 Kelvin"),
    Instance("I_Tabs0_C", "AbsoluteZero", "T absolute", "Temperature", Text(""), "U_C", "Celsius representation of absolute zero")
  ]

  function InstanceCells(i: Instance): seq<Cell>
  {
    [Text(i.id), Text(i.scenario), Text(i.quantityName), Text(i.quantityKind), i.value, Text(i.unitId),
     Text(""), Text(""), Text(""), Text(i.notes)]
  }

  /** The id column. */
  function InstanceIds(xs: seq<Instance>): seq<string>
  {
    Column(xs, (i: Instance) => i.id)
  }

  // ---- D_Claims ----

  const ClaimHeaders: seq<string> :=
    ["ClaimID", "ClaimText", "ClaimType", "Criteria", "InstanceID_1", "InstanceID_2", "InstanceID_3",
     "ToleranceAbs_SI", "SI_1", "SI_2", "SI_3", "RangeAbs", "Pass", "TruthSource_Layer"]

  datatype Claim = Claim(id: string, text: string, claimType: string, criteria: string,
                         instance1: string, instance2: string, instance3: string, tolerance: real)

  /** The ClaimType texts of the four claims. */
  const RealityConstrained: string := "Reality-constrained invariant"
  const MixedScale: string := "Mixed (scale + reality)"
  const Constructed: string := "Constructed (definition/convention)"

  const Claims: seq<Claim> := [
    Claim("CL1", "Electron rest energy is invariant across units (J, eV, ft-lbf).", RealityConstrained,
          "Max(SI)-Min(SI) <= tolerance", "I_Ecalc_J", "I_Ecalc_eV", "I_Ecalc_ftlbf", 1e-25),
    Claim("CL2", "E = m c^2 (using m_e and c) matches CODATA m_e c^2 within tolerance.", RealityConstrained,
          "Abs(SI_calc - SI_ref) <= tolerance", "I_Ecalc_J", "I_Eexpected_J", "", 1e-22),
    Claim("CL3", "0 K and -273.15 °C represent the same absolute temperature.", MixedScale,
          "Abs(SI_K - SI_C) <= tolerance", "I_Tabs0_K", "I_Tabs0_C", "", 1e-9),
    Claim("CL4", "1 eV equals e joules (constructed via SI definition of e and volt).", Constructed,
          "Abs(eV_to_J - e) <= tolerance", "", "", "", 0.0)
  ]

  /** Columns I to N are written as "" and filled with formulas afterwards. */
  function ClaimCells(c: Claim): seq<Cell>
  {
    [Text(c.id), Text(c.text), Text(c.claimType), Text(c.criteria),
     Text(c.instance1), Text(c.instance2), Text(c.instance3), Number(c.tolerance),
     Text(""), Text(""), Text(""), Text(""), Text(""), Text("")]
  }

  /** The id column. */
  function ClaimIds(xs: seq<Claim>): seq<string>
  {
    Column(xs, (c: Claim) => c.id)
  }

  // ---- D_Questions ----

  const QuestionHeaders: seq<string> := ["QID", "Question", "Mapped_Claims", "Answer", "Explanation"]

  datatype Question = Question(id: string, question: string, mappedClaims: string, explanation: string)

  const Questions: seq<Question> := [
    Question("Q0", "Are some truths in the model constructed (true because defined)?", "CL4",
             "TRUE if the definitional/conventional check (CL4) passes."),
    Question("Q1", "Are there consistent truths that don’t come from construction (i.e., unit-independent invariants)?", "CL1,CL2,CL3",
             "TRUE if at least one reality-constrained invariant claim passes."),
    Question("Q2", "Does changing the measurement system (J vs ft-lbf vs eV) change the underlying electron rest energy?", "CL1",
             "FALSE if CL1 passes (energy is invariant after conversion)."),
    Question("Q3", "Does E=mc^2 hold as long as appropriate conversions are done?", "CL2",
             "TRUE if CL2 passes."),
    Question("Q4", "Is 0 K the same temperature as −273.15 °C (after conversion)?", "CL3",
             "TRUE if CL3 passes."),
    Question("Q5", "Is 'reality' the constraining source of truth for invariants in this model?", "CL1,CL2,CL3",
             "TRUE if at least one invariant passes; conventions set coordinates (units), reality constrains what fits.")
  ]

  /** Answer (column D) is written as "". */
  function QuestionCells(q: Question): seq<Cell>
  {
    [Text(q.id), Text(q.question), Text(q.mappedClaims), Text(""), Text(q.explanation)]
  }

  /** The id column. */
  function QuestionIds(xs: seq<Question>): seq<string>
  {
    Column(xs, (q: Question) => q.id)
  }
}
