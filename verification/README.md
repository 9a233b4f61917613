# CMCC truth model workbook, modelled in Dafny

`build_workbook` writes an Excel workbook that encodes a small "CMCC" model
of constructed versus reality-constrained truths. Its sheets are:

- `D_Units`: a unit registry. Each unit converts to its SI base unit by the affine map value·ToSI_Mult + ToSI_Offset.
- `D_Constants`: CODATA and SI constants, with VLOOKUP formulas that convert each to SI.
- `F_Calculations`: derived values. These are m_e·c² and the eV→J factor e.
- `D_Instances`: two quantities, the electron's rest energy (in J, eV and ft·lbf) and absolute zero (in K and °C), each converted back to SI.
- `D_Claims`: four claims. Each compares two or three SI values and has a tolerance. Each computes RangeAbs, Pass and a truth-source label. The fourth row (CL4) is patched by hand after the loop.
- `D_Questions`: six TRUE/FALSE answers built from the claims' Pass cells.
- `A_Dashboard`: key values, the number of passing claims, and a mirror of the questions.

The model has these parts:

- **Sheets** (`sheets.dfy`): a worksheet is a map from (row, column) to a cell. A cell is blank, a number, a text or a formula. It also holds an evaluator for the subset of Excel the builder emits:
  - exact-match VLOOKUP;
  - `+ - * / ^`, ABS, MAX and MIN of three arguments;
  - `<=`, `="…"`, LEFT, IF, OR of three arguments, NOT, and COUNTIF(…, TRUE).

  Errors (#N/A, #REF!, #DIV/0!, an operand type the model does not coerce) are values. Every cell read costs one unit of fuel, so a reference cycle ends in an `OutOfFuel` error.
- **Formulas** (`formulas.dfy`): the lookup ranges, the helpers `vconst`, `vcalc` and `vclaim_pass`, and every formula the builder writes, each as an expression. Lemmas say what each formula computes.
- **Units and Meaning** (`units.dfy`, `meaning.dfy`): what the formulas mean on plain reals:
  - affine conversion to SI and back, with the first exact match of a unit id;
  - RangeAbs, the inclusive tolerance test, and the TruthSource label.
- **Schema** (`schema.dfy`): the literal tables and headers the builder appends.
- **Builder** (`builder.dfy`): the imperative part. A `Worksheet` class holds the written cells and the last row written (openpyxl's `_current_row`).
  - `Append` is `ws.append`; `Set` is `ws.cell(r, c).value = …`.
  - One method per sheet runs the source's loops, with invariants, and the CL4 patch.
  - Each method is proved against a function that describes the sheet.
  - `BuildWorkbook` returns the seven sheets (`D_Units` holds literals only; the other six hold formulas) and proves their layout.
- **Values, Verdicts and Answers** (`values.dfy`, `verdicts.dfy`, `answers.dfy`): what the cells of any workbook with that layout evaluate to. The typed input cells are left free, so these hold for any numbers a user types in:
  - Value_SI and Canonical_SI;
  - each claim's SI values, RangeAbs, Pass and label;
  - the answers, and the dashboard's counts.
- **BuiltWorkbook** (`built.dfy`): the same lemmas, applied to the source's own tables and typed values. All four claims pass. Every answer is TRUE except Q2's. The dashboard counts 4 passing claims out of 4.

## Model

| member | source | states |
|---|---|---|
| ExactMatch.IndexOf | cmcc_truth_model_builder.py:204-205 | VLOOKUP(…, FALSE) on a key column: the index returned holds the key, and there is none exactly when the key is absent |
| ExactMatch.IndexOfFirst | cmcc_truth_model_builder.py:204-205 | the match found is the first row holding the key |
| ExactMatch.IndexOfDistinct | cmcc_truth_model_builder.py:227-228 | in a column of distinct ids, looking up row i's id finds row i |
| Units.Find | cmcc_truth_model_builder.py:164-173 | a unit found for an id carries that id and is in the registry |
| Units.FindFirst | cmcc_truth_model_builder.py:204-205 | Find returns the first unit with the id, and fails exactly when no unit has it |
| Units.Convert | cmcc_truth_model_builder.py:203-206 | conversion by unit id fails exactly when the id is unregistered; otherwise it is value·mult + offset of a registered unit with that id |
| Units.RoundTrip | cmcc_truth_model_builder.py:206 | converting to SI and back (or from SI and back) is the identity for a non-zero factor |
| Units.ToSIInjective | cmcc_truth_model_builder.py:206 | two values with the same SI value are equal |
| Units.TableInvertible | cmcc_truth_model_builder.py:164-173 | every registered factor is positive |
| Units.IdsUnique | cmcc_truth_model_builder.py:164-173 | no unit id occurs twice in D_Units |
| Units.OnlyCelsiusHasOffset | cmcc_truth_model_builder.py:164-173 | U_C is the only unit with a non-zero offset |
| Units.FindRow | cmcc_truth_model_builder.py:204-205 | with unique ids, looking up row i's id finds row i |
| Units.FindInTable | cmcc_truth_model_builder.py:164-173 | every registered id finds its own unit |
| Units.FindCelsius | cmcc_truth_model_builder.py:169 | looking up U_C finds degree Celsius, whose offset is 273.15 |
| Units.DivideRoundTrip | cmcc_truth_model_builder.py:285-286 | dividing by a unit's factor and converting back gives the SI value again |
| Units.OffsetRoundTrip | cmcc_truth_model_builder.py:288 | subtracting a unit's offset and converting back gives the SI value again |
| Meaning.RangeAbs | cmcc_truth_model_builder.py:333 | RangeAbs is never negative, and it is 0 exactly when every present SI value is equal |
| Meaning.PassesIffPairwiseClose | cmcc_truth_model_builder.py:333-334 | a claim passes exactly when every pair of its present values lies within the tolerance |
| Meaning.EqualValuesPass | cmcc_truth_model_builder.py:333-334 | equal values have range 0 and pass any non-negative tolerance |
| Meaning.Left | cmcc_truth_model_builder.py:335 | LEFT(s, n) is a prefix of s of length min(n, \|s\|) |
| Meaning.TruthSource | cmcc_truth_model_builder.py:335 | the label is "Convention/Definition" exactly when ClaimType starts with "Constructed"; otherwise it is the reality label |
| Sheets.EvalArith | cmcc_truth_model_builder.py:206 | an arithmetic formula on two numbers applies its operation |
| Sheets.LookupStep | cmcc_truth_model_builder.py:204-205 | one step of VLOOKUP's scan: it stops on a matching id and moves down otherwise |
| Sheets.LookupById | cmcc_truth_model_builder.py:183 | over a column of literal ids, VLOOKUP reads the first row whose id equals the key, and gives #N/A when none does |
| Sheets.LookupKey | cmcc_truth_model_builder.py:227-228 | VLOOKUP(key, range, k, FALSE) is cell k of the first matching row (an empty cell reads as 0), or #N/A |
| Sheets.CountAtMostRows | cmcc_truth_model_builder.py:408 | COUNTIF never counts more rows than its range has |
| Formulas.AffineIsToSI | cmcc_truth_model_builder.py:206 | D·H+I (or E·G+H) is the looked-up unit's ToSI of the value |
| Formulas.AffineValue | cmcc_truth_model_builder.py:292 | the affine formula on three numbers is value·mult + offset |
| Formulas.AffineUnknownUnit | cmcc_truth_model_builder.py:204-206 | when the unit lookup is #N/A, so is the SI value |
| Formulas.ClaimSIReadsInstance | cmcc_truth_model_builder.py:330-332 | SI_k is "" exactly when InstanceID_k is "", and otherwise the lookup of that id in D_Instances column 9 |
| Formulas.ClaimRangeIsRangeAbs | cmcc_truth_model_builder.py:333 | the RangeAbs formula computes Meaning.RangeAbs: \|I−J\| when K is "", MAX−MIN of the three otherwise |
| Formulas.PairRange | cmcc_truth_model_builder.py:333 | with K = "" the range is \|I−J\| |
| Formulas.TripleRange | cmcc_truth_model_builder.py:333 | with K a number the range is MAX(I,J,K) − MIN(I,J,K) |
| Formulas.ClaimPassIsPasses | cmcc_truth_model_builder.py:334 | Pass is L ≤ H, boundary included |
| Formulas.LeftOfText | cmcc_truth_model_builder.py:335 | LEFT of a text is its prefix |
| Formulas.EqTextOfText | cmcc_truth_model_builder.py:335 | comparing a text with a literal is string equality |
| Formulas.IfOfTexts | cmcc_truth_model_builder.py:335 | IF between two literal texts picks one by its condition |
| Formulas.TruthSourceFormulaIsTruthSource | cmcc_truth_model_builder.py:335 | the TruthSource_Layer formula evaluates to Meaning.TruthSource of ClaimType |
| Builder.GetAfterAppend | cmcc_truth_model_builder.py:174-175 | appending a row writes exactly the cells of that row, in the row after the last one |
| Builder.GetAppendRows | cmcc_truth_model_builder.py:174-175 | appending rows one by one puts row i at `_current_row` + 1 + i and writes nothing below the last |
| Builder.GetTabulated | cmcc_truth_model_builder.py:163-175 | after the header, data row i lies in sheet row 2 + i |
| Builder.GetPass | cmcc_truth_model_builder.py:329-335 | one pass of a formula loop writes its row's formula cells and no other cell |
| Builder.GetFillRows | cmcc_truth_model_builder.py:203-206 | a loop over rows lo..hi−1 writes each row's formula cells and leaves every other cell alone |
| Builder.FillRowsFilled | cmcc_truth_model_builder.py:279-281 | after a loop, every row in range carries the loop's formulas |
| Builder.Worksheet.constructor | cmcc_truth_model_builder.py:161 | a new sheet is empty; its last written row (openpyxl's `_current_row`) is 0 |
| Builder.Worksheet.Append | cmcc_truth_model_builder.py:163 | ws.append writes the row under the last written row (`_current_row` + 1), which becomes the last written row; no cell written before is overwritten |
| Builder.Worksheet.Set | cmcc_truth_model_builder.py:204 | ws.cell(r, c).value = x changes that cell only, and raises the last written row to r if needed |
| Builder.AppendAll | cmcc_truth_model_builder.py:174-175 | the append loop leaves the sheet equal to the rows appended one by one |
| Builder.RunPass | cmcc_truth_model_builder.py:329-335 | one loop body leaves the sheet equal to Pass of the old sheet |
| Builder.RunLoop | cmcc_truth_model_builder.py:203-206 | `for r in range(lo, hi)` leaves the sheet equal to FillRows of the old sheet; a loop over rows already written leaves the last written row alone |
| Builder.UnitsSheetLaid | cmcc_truth_model_builder.py:160-183 | D_Units holds unit i in row 2 + i, and units_range covers exactly the data rows |
| Builder.BuildUnits | cmcc_truth_model_builder.py:160-175 | building D_Units yields the sheet UnitsSheetLaid describes |
| Builder.ConstantsLaidFrom | cmcc_truth_model_builder.py:192-206 | the literal rows plus the loop give every constant row its id, Value, UnitID and H/I/J formulas; nothing lies below the last row |
| Builder.ConstantsSheetLaid | cmcc_truth_model_builder.py:185-225 | D_Constants is laid out with the source's Values, and const_range covers exactly its data rows |
| Builder.BuildConstants | cmcc_truth_model_builder.py:186-206 | building D_Constants yields the sheet ConstantsSheetLaid describes |
| Builder.CalcsLaidFrom | cmcc_truth_model_builder.py:234-250 | the rows plus E2 and E3 give F_Calculations its ids and formulas; E4 keeps the "" it was written with |
| Builder.CalculationsSheetLaid | cmcc_truth_model_builder.py:230-250 | F_Calculations is laid out, and calcs_range covers exactly its data rows |
| Builder.BuildCalculations | cmcc_truth_model_builder.py:231-250 | building F_Calculations yields the sheet CalculationsSheetLaid describes |
| Builder.InstanceValuesWritten | cmcc_truth_model_builder.py:284-288 | E2 to E5 and E7 hold the Value formulas, and every other cell is unchanged |
| Builder.FactorsLaidFrom | cmcc_truth_model_builder.py:279-281 | every instance row carries the two unit lookups in G and H |
| Builder.InstanceFactorsSheetLaid | cmcc_truth_model_builder.py:275-281 | after the rows and the factor loop, every instance row carries its lookups |
| Builder.InstancesLaidFrom | cmcc_truth_model_builder.py:279-292 | the instance layout follows from the rows, the factor loop, the Value formulas and the Canonical_SI loop; E6 keeps its typed Value |
| Builder.InstancesSheetLaid | cmcc_truth_model_builder.py:259-292 | D_Instances is laid out, and inst_range covers exactly its data rows |
| Builder.WriteInstanceValues | cmcc_truth_model_builder.py:284-288 | the five Value assignments leave the sheet equal to InstanceValues of the old one, with the last written row unchanged |
| Builder.BuildInstances | cmcc_truth_model_builder.py:260-294 | building D_Instances yields the sheet InstancesSheetLaid describes |
| Builder.CL4PatchOnlyRow5 | cmcc_truth_model_builder.py:339-345 | the CL4 patch rewrites columns 9–13 of row 5 with F_eV_to_J, C_e, "", ABS(I5−J5) and L5<=H5, and changes no other cell |
| Builder.ClaimsLaidFrom | cmcc_truth_model_builder.py:323-345 | the rows, the claims loop and the patch give D_Claims its layout |
| Builder.ClaimsSheetLaid | cmcc_truth_model_builder.py:302-345 | D_Claims is laid out, and claims_range covers exactly its data rows |
| Builder.BuildClaims | cmcc_truth_model_builder.py:303-345 | building D_Claims yields the sheet ClaimsSheetLaid describes |
| Builder.QuestionsLaidFrom | cmcc_truth_model_builder.py:372-384 | each question row keeps its id, and D2..D7 hold the answer formulas |
| Builder.QuestionsSheetLaid | cmcc_truth_model_builder.py:353-384 | D_Questions is laid out with its question ids |
| Builder.BuildQuestions | cmcc_truth_model_builder.py:354-384 | building D_Questions yields the sheet QuestionsSheetLaid describes |
| Builder.DashboardValuesWritten | cmcc_truth_model_builder.py:399-410 | B4, B5, B6, B8 and B9 hold vcalc(F_Ecalc), vconst(C_mec2), vconst(C_abs0), the COUNTIF and the claim count |
| Builder.DashboardLaidFrom | cmcc_truth_model_builder.py:399-417 | the dashboard's value cells and its question mirror rows are in place |
| Builder.DashboardSheetLaid | cmcc_truth_model_builder.py:393-417 | A_Dashboard is laid out for the six questions |
| Builder.BuildDashboard | cmcc_truth_model_builder.py:393-417 | building A_Dashboard yields the sheet DashboardSheetLaid describes |
| Builder.UnitsBuilt | cmcc_truth_model_builder.py:160-183 | the source's D_Units has the layout the formulas rely on |
| Builder.ConstantsBuilt | cmcc_truth_model_builder.py:185-225 | the source's D_Constants has that layout, with the source's Values typed in |
| Builder.CalcsBuilt | cmcc_truth_model_builder.py:230-250 | the source's F_Calculations has that layout |
| Builder.InstancesBuilt | cmcc_truth_model_builder.py:259-292 | the source's D_Instances has that layout, and E6 holds 0.0 |
| Builder.ClaimsBuilt | cmcc_truth_model_builder.py:302-345 | the source's D_Claims has that layout |
| Builder.SourceQuestionIdsListed | cmcc_truth_model_builder.py:358-371 | the questions are Q0 to Q5 in order |
| Builder.QuestionsBuilt | cmcc_truth_model_builder.py:353-384 | the source's D_Questions has that layout |
| Builder.BuildWorkbook | cmcc_truth_model_builder.py:88-417 | build_workbook returns the seven sheets the formulas read, laid out, with the source's inputs |
| Values.UnitKeys | cmcc_truth_model_builder.py:183 | column A of units_range holds the unit ids, row by row |
| Values.ConstantKeys | cmcc_truth_model_builder.py:225 | column A of const_range holds the constant ids |
| Values.CalculationKeys | cmcc_truth_model_builder.py:243 | column A of calcs_range holds the calculation ids |
| Values.InstanceKeys | cmcc_truth_model_builder.py:326 | column A of inst_range holds the instance ids |
| Values.UnitLookup | cmcc_truth_model_builder.py:204-205 | VLOOKUP of a unit id reads ToSI_Mult or ToSI_Offset of the first unit with that id, or #N/A |
| Values.ConvertedCell | cmcc_truth_model_builder.py:204-206 | an SI cell is the ToSI of the value by the first unit with the row's UnitID, or #N/A when none has it |
| Values.ConstantSI | cmcc_truth_model_builder.py:203-206 | Value_SI of a constant row is ToSI of its Value by its unit, or #N/A |
| Values.InstanceSI | cmcc_truth_model_builder.py:279-292 | Canonical_SI of an instance row is ToSI of its Value by its unit, or #N/A |
| Values.ConstantLookup | cmcc_truth_model_builder.py:227-228 | vconst(id) reads the Value_SI of that constant's row |
| Values.BaseConstantSI | cmcc_truth_model_builder.py:193-206 | a constant in an SI base unit has Value_SI equal to its Value |
| Values.VConstValue | cmcc_truth_model_builder.py:227-228 | vconst(id) is the typed Value of a constant in an SI base unit |
| Values.VCalcValue | cmcc_truth_model_builder.py:245-246 | vcalc(id) is the Result_SI of that calculation |
| Values.ProductIsRestEnergy | cmcc_truth_model_builder.py:248 | E2's product is the rest energy of m and c |
| Values.EcalcOf | cmcc_truth_model_builder.py:248 | E2's formula evaluates to m·c² of the looked-up constants |
| Values.MassAndSpeed | cmcc_truth_model_builder.py:248 | vconst('C_me') and vconst('C_c') are the typed m_e and c |
| Values.EcalcCell | cmcc_truth_model_builder.py:248 | cell E2 evaluates to m·c² |
| Values.EcalcValue | cmcc_truth_model_builder.py:248 | F_Ecalc's Result_SI is m_e·c² of the typed Values |
| Values.EvToJValue | cmcc_truth_model_builder.py:249 | F_eV_to_J's Result_SI is the typed e |
| Values.EnergyLookup | cmcc_truth_model_builder.py:284 | vcalc('F_Ecalc') is m_e·c² |
| Values.ChargeLookup | cmcc_truth_model_builder.py:285 | vcalc('F_eV_to_J') is e |
| Values.BaseInstanceSI | cmcc_truth_model_builder.py:292 | an instance in an SI base unit has Canonical_SI equal to its Value |
| Values.JouleSI | cmcc_truth_model_builder.py:284 | I_Ecalc_J's Canonical_SI is m_e·c² |
| Values.ReferenceSI | cmcc_truth_model_builder.py:287 | I_Eexpected_J's Canonical_SI is C_mec2 |
| Values.KelvinSI | cmcc_truth_model_builder.py:272 | I_Tabs0_K's Canonical_SI is its typed Value |
| Values.ElectronvoltValue | cmcc_truth_model_builder.py:285 | E3 is m_e·c² / e |
| Values.ElectronvoltRoundTrip | cmcc_truth_model_builder.py:285 | I_Ecalc_eV converts back to m_e·c² when e is the eV factor of D_Units |
| Values.FootPoundValue | cmcc_truth_model_builder.py:286 | E4 is m_e·c² divided by the ft·lbf factor |
| Values.FootPoundSI | cmcc_truth_model_builder.py:286 | I_Ecalc_ftlbf converts back to m_e·c² |
| Values.CelsiusValue | cmcc_truth_model_builder.py:288 | E7 is E6 − 273.15 |
| Values.CelsiusSI | cmcc_truth_model_builder.py:288 | I_Tabs0_C converts back to I_Tabs0_K's kelvin value |
| Verdicts.InstanceLookup | cmcc_truth_model_builder.py:326 | looking up an instance id finds its row's Canonical_SI |
| Verdicts.ClaimSIOf | cmcc_truth_model_builder.py:330-332 | SI_k of a claim naming an instance is that instance's SI value |
| Verdicts.ClaimSIBlank | cmcc_truth_model_builder.py:330-332 | SI_k of a claim with an empty InstanceID_k is "" |
| Verdicts.PairSIs | cmcc_truth_model_builder.py:330-332 | a two-instance claim has two SI numbers and an empty SI_3 |
| Verdicts.TripleSIs | cmcc_truth_model_builder.py:330-332 | a three-instance claim has three SI numbers |
| Verdicts.RangeCell | cmcc_truth_model_builder.py:333 | a claim's RangeAbs cell is Meaning.RangeAbs of its SI values |
| Verdicts.PassCell | cmcc_truth_model_builder.py:334 | a claim's Pass cell is its range ≤ its tolerance |
| Verdicts.LabelCell | cmcc_truth_model_builder.py:335 | every claim's TruthSource_Layer cell is Meaning.TruthSource of its ClaimType |
| Verdicts.LoopRowOf | cmcc_truth_model_builder.py:329-334 | rows 2–4 carry the claims loop's formulas and the table's inputs |
| Verdicts.PatchedRowOf | cmcc_truth_model_builder.py:339-345 | row 5 carries the patched formulas and CL4's tolerance |
| Verdicts.CL4SIs | cmcc_truth_model_builder.py:341-342 | CL4's SI_1 and SI_2 are vcalc('F_eV_to_J') and vconst('C_e') |
| Verdicts.CL4Inputs | cmcc_truth_model_builder.py:341-342 | both of CL4's SI cells hold the typed e |
| Verdicts.CL4RangeIs | cmcc_truth_model_builder.py:344 | CL4's range is \|SI_1 − SI_2\| |
| Verdicts.CL4Chain | cmcc_truth_model_builder.py:339-345 | CL4's range is 0 and it passes |
| Verdicts.CL4RangeZero | cmcc_truth_model_builder.py:344 | CL4's range is 0 whatever e is typed: 1 eV is e joules by construction |
| Verdicts.CL4Passes | cmcc_truth_model_builder.py:345 | CL4 passes with its tolerance of 0 |
| Verdicts.TemperaturesSI | cmcc_truth_model_builder.py:288-292 | both absolute-zero instances have the kelvin value as their SI value |
| Verdicts.CL3Inputs | cmcc_truth_model_builder.py:318-319 | CL3 compares the kelvin value with itself, and SI_3 is "" |
| Verdicts.CL3Chain | cmcc_truth_model_builder.py:333-334 | CL3's range is 0 and it passes |
| Verdicts.CL3RangeZero | cmcc_truth_model_builder.py:333 | CL3's range is 0 whatever temperature is typed into E6 |
| Verdicts.CL3Passes | cmcc_truth_model_builder.py:334 | CL3 passes: 0 K and −273.15 °C are the same temperature |
| Verdicts.JouleRow | cmcc_truth_model_builder.py:284 | I_Ecalc_J's SI value is m_e·c² |
| Verdicts.ReferenceRow | cmcc_truth_model_builder.py:287 | I_Eexpected_J's SI value is C_mec2 |
| Verdicts.CL2Inputs | cmcc_truth_model_builder.py:316-317 | CL2 compares m_e·c² with C_mec2, and SI_3 is "" |
| Verdicts.CL2Chain | cmcc_truth_model_builder.py:333-334 | CL2's range is \|m_e·c² − C_mec2\|, and it passes exactly when that is within its tolerance |
| Verdicts.CL2Range | cmcc_truth_model_builder.py:333 | CL2's range is \|m_e·c² − C_mec2\| |
| Verdicts.CL2Pass | cmcc_truth_model_builder.py:334 | CL2's Pass cell is TRUE exactly when \|m_e·c² − C_mec2\| is at most CL2's tolerance, for any typed constants |
| Verdicts.ElectronvoltRow | cmcc_truth_model_builder.py:285 | I_Ecalc_eV's SI value is m_e·c² when C_e is the eV factor |
| Verdicts.FootPoundRow | cmcc_truth_model_builder.py:286 | I_Ecalc_ftlbf's SI value is m_e·c² |
| Verdicts.CL1Inputs | cmcc_truth_model_builder.py:314-315 | CL1's three SI values are all m_e·c² |
| Verdicts.CL1Chain | cmcc_truth_model_builder.py:333-334 | CL1's range is 0 and it passes |
| Verdicts.CL1RangeZero | cmcc_truth_model_builder.py:333 | CL1's range is 0: the J→eV and J→ft·lbf round trips lose nothing |
| Verdicts.CL1Passes | cmcc_truth_model_builder.py:334 | CL1 passes |
| Verdicts.AllPass | cmcc_truth_model_builder.py:329-345 | when C_e equals the eV factor and m_e·c² lies within CL2's tolerance of C_mec2, all four Pass cells are TRUE |
| Answers.ClaimKeys | cmcc_truth_model_builder.py:375 | column A of claims_range holds CL1..CL4 |
| Answers.PassLookup | cmcc_truth_model_builder.py:376-377 | vclaim_pass(id) reads that claim's Pass cell |
| Answers.PassLookups | cmcc_truth_model_builder.py:376-377 | the four vclaim_pass lookups read the four Pass cells |
| Answers.AnswerCell | cmcc_truth_model_builder.py:379-384 | an answer cell shows its formula's value |
| Answers.AnyInvariantIs | cmcc_truth_model_builder.py:380 | OR of the three invariant passes is p1 ∨ p2 ∨ p3 |
| Answers.NotFirstIs | cmcc_truth_model_builder.py:381 | NOT(CL1's pass) is ¬p1 |
| Answers.AnswersFollow | cmcc_truth_model_builder.py:379-384 | Q0 = CL4, Q1 = Q5 = CL1 ∨ CL2 ∨ CL3, Q2 = ¬CL1, Q3 = CL2, Q4 = CL3, for any pass values |
| Answers.AnswersAt | cmcc_truth_model_builder.py:375-384 | the answers follow from the claims' Pass cells |
| Answers.CountPasses | cmcc_truth_model_builder.py:408 | COUNTIF(M2:M5, TRUE) is the number of TRUE Pass cells |
| Answers.PassingCountIs | cmcc_truth_model_builder.py:408 | B8 is the number of passing claims |
| Answers.PassingAtMostTotal | cmcc_truth_model_builder.py:408-410 | B9 is 4, and B8 lies between 0 and B9 whatever the claims evaluate to |
| Answers.Mirror | cmcc_truth_model_builder.py:414-417 | dashboard row 12 + i mirrors question i's text and answer |
| Answers.DashboardEnergy | cmcc_truth_model_builder.py:400 | B4 is m_e·c² |
| Answers.DashboardMec2Is | cmcc_truth_model_builder.py:402 | B5 is C_mec2 |
| Answers.DashboardAbs0Is | cmcc_truth_model_builder.py:404 | B6 is C_abs0 |
| Answers.AllAnswersAt | cmcc_truth_model_builder.py:379-408 | when every claim passes, Q0, Q1, Q3, Q4 and Q5 are TRUE, Q2 is FALSE, and B8 is 4 |
| BuiltWorkbook.RegisteredAt | cmcc_truth_model_builder.py:164-173 | each unit id is registered with its row's factor and offset |
| BuiltWorkbook.ConstantIdsListed | cmcc_truth_model_builder.py:192-198 | the constants are C_me, C_c, C_e, C_mec2, C_abs0 in order |
| BuiltWorkbook.ConstantIdsDistinct | cmcc_truth_model_builder.py:192-198 | no constant id occurs twice |
| BuiltWorkbook.ConstantUnits | cmcc_truth_model_builder.py:192-198 | every constant is given in an SI base unit |
| BuiltWorkbook.SourceConstantsShaped | cmcc_truth_model_builder.py:192-198 | the constants table has the shape the formulas assume |
| BuiltWorkbook.SourceCalculationsShaped | cmcc_truth_model_builder.py:234-238 | the calculations table has the shape the formulas assume |
| BuiltWorkbook.ScaledAt | cmcc_truth_model_builder.py:164-173 | a unit with a non-zero factor and no offset is scaled |
| BuiltWorkbook.InstanceIdsListed | cmcc_truth_model_builder.py:267-274 | the instances are the six listed ids, in order |
| BuiltWorkbook.InstanceIdsDistinct | cmcc_truth_model_builder.py:267-274 | no instance id occurs twice |
| BuiltWorkbook.InstanceIdsNonEmpty | cmcc_truth_model_builder.py:267-274 | no instance id is empty |
| BuiltWorkbook.EnergyUnits | cmcc_truth_model_builder.py:268-270 | the energy instances are in J, eV and ft·lbf, as registered |
| BuiltWorkbook.ReferenceAndTemperatureUnits | cmcc_truth_model_builder.py:271-273 | the reference is in J, absolute zero in K and in °C (offset 273.15) |
| BuiltWorkbook.SourceInstancesShaped | cmcc_truth_model_builder.py:267-274 | the instances table has the shape the Value formulas assume |
| BuiltWorkbook.SourceClaimsShaped | cmcc_truth_model_builder.py:313-322 | the claims compare the intended instances, with non-negative tolerances, and are CL1..CL4 |
| BuiltWorkbook.SourceLaid | cmcc_truth_model_builder.py:160-345 | the builder's layout is the layout for the source's tables |
| BuiltWorkbook.SourceCharge | cmcc_truth_model_builder.py:195 | the typed C_e is 1.602176634e-19 |
| BuiltWorkbook.SourceElectronvolt | cmcc_truth_model_builder.py:166 | U_eV's factor is 1.602176634e-19, the same number as C_e |
| BuiltWorkbook.SourceEnergy | cmcc_truth_model_builder.py:193-196 | m_e·c² of the CODATA m_e and c lies within CL2's 1e-22 J of the CODATA m_e c² |
| BuiltWorkbook.SourceFacts | cmcc_truth_model_builder.py:160-345 | the builder's workbook meets the premises of AllPass |
| BuiltWorkbook.ClaimTypeLabels | cmcc_truth_model_builder.py:334 | of the three claim types only "Constructed (definition/convention)" starts with "Constructed", so only it gets the convention label |
| BuiltWorkbook.SourceLabels | cmcc_truth_model_builder.py:313-335 | in the built workbook CL1, CL2 and CL3 are labelled reality-constrained and CL4 alone convention/definition |
| BuiltWorkbook.SourcePasses | cmcc_truth_model_builder.py:313-345 | in the built workbook all four claims pass |
| BuiltWorkbook.SourceAnswers | cmcc_truth_model_builder.py:379-408 | in the built workbook Q0, Q1, Q3, Q4 and Q5 are TRUE, Q2 is FALSE, and 4 claims pass |

## Left out

- README and S_Schema sheets: static prose with no formulas. They are not part of this model.
- Styling is not modelled: fonts, fills, borders, column widths, number formats, freeze panes, cell comments and Excel tables (`add_table`), and the gridline polish.
- `wb.save` and the output path are not modelled. `build_workbook` returns the sheets instead.
- Numbers are exact reals, not IEEE doubles. With doubles, CL1's range may be a few ulps rather than exactly 0. It is still far below its 1e-25 tolerance, but the model does not prove that.
- Text comparison and VLOOKUP are case-sensitive here. Excel compares case-insensitively. Every id in the workbook is distinct even ignoring case.
- Excel's implicit coercions are not modelled: numbers as text, text as numbers, TRUE as 1. An operand of the wrong type yields an explicit WrongType error.
- MAX, MIN and OR take exactly three arguments, which is the only form the builder writes.
- Evaluation carries a fuel bound: one unit per cell read. Every result is stated for a large enough fuel (at least 10 for the answers). A reference cycle shows as OutOfFuel rather than Excel's circular-reference warning.
- The cells the builder writes as "" are modelled as empty texts. The formulas that read such cells are the `IF(E{r}="",…)`, `IF(F{r}="",…)` and `IF(G{r}="",…)` tests in columns I to K of `D_Claims`, and they give the same answer for a blank cell. K5, which the CL4 patch writes as "", is not read: L5 is `ABS(I5-J5)`.
