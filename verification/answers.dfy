/** What the D_Questions answers and the A_Dashboard cells evaluate to once
    the Pass cells of the four claims are known. */
module Answers {
  import opened ExactMatch
  import opened Sheets
  import opened Formulas
  import opened Builder
  import opened Values
  import opened Verdicts
  import Schema
  import Meaning

  /** 1 for a passing claim, 0 for a failing one: what COUNTIF adds per row. */
  function Tally(pass: bool): nat
  {
    if pass then 1 else 0
  }

  // ---- vclaim_pass ----

  lemma ClaimKeys(wb: Workbook, cl: seq<Schema.Claim>)
    requires ClaimsLaid(wb.claims, cl) && |cl| == ClaimCount
    ensures KeyColumn(wb, ClaimsRange, Schema.ClaimIds(cl))
  {
    forall r | ClaimsRange.top <= r <= ClaimsRange.bottom
      ensures CellAt(wb, DClaims, r, 1) == Text(Schema.ClaimIds(cl)[r - ClaimsRange.top])
    {
      assert ClaimInputsAt(wb.claims, cl, r);
    }
  }

  /** vclaim_pass(id) of a listed claim, from any sheet, is the Pass cell
      of its row. */
  lemma PassLookup(wb: Workbook, s: SheetId, f: nat, cl: seq<Schema.Claim>, i: nat, row: nat, pass: bool)
    requires ClaimsLaid(wb.claims, cl) && |cl| == ClaimCount && Distinct(Schema.ClaimIds(cl))
    requires i < |cl| && row == i + 2 && 1 <= f
    requires EvalCell(wb, DClaims, row, 13, f) == Val(VBool(pass))
    ensures Eval(wb, s, VClaimPass(cl[i].id), f) == Val(VBool(pass))
  {
    var ids := Schema.ClaimIds(cl);
    ClaimKeys(wb, cl);
    IndexOfDistinct(ids, i);
    LookupKey(wb, s, Str(ids[i]), ids[i], ClaimsRange, ids, 13, f);
  }

  /** The four lookups the answers make, from D_Questions. */
  lemma PassLookups(wb: Workbook, f: nat, cl: seq<Schema.Claim>, p1: bool, p2: bool, p3: bool, p4: bool)
    requires ClaimsLaid(wb.claims, cl) && |cl| == ClaimCount && ClaimsNamed(cl) && 1 <= f
    requires EvalCell(wb, DClaims, 2, 13, f) == Val(VBool(p1))
    requires EvalCell(wb, DClaims, 3, 13, f) == Val(VBool(p2))
    requires EvalCell(wb, DClaims, 4, 13, f) == Val(VBool(p3))
    requires EvalCell(wb, DClaims, 5, 13, f) == Val(VBool(p4))
    ensures Eval(wb, DQuestions, VClaimPass("CL1"), f) == Val(VBool(p1))
    ensures Eval(wb, DQuestions, VClaimPass("CL2"), f) == Val(VBool(p2))
    ensures Eval(wb, DQuestions, VClaimPass("CL3"), f) == Val(VBool(p3))
    ensures Eval(wb, DQuestions, VClaimPass("CL4"), f) == Val(VBool(p4))
  {
    assert cl[0].id == "CL1" && cl[1].id == "CL2" && cl[2].id == "CL3" && cl[3].id == "CL4" by {
      assert Schema.ClaimIds(cl) == ["CL1", "CL2", "CL3", "CL4"];
    }
    PassLookup(wb, DQuestions, f, cl, 0, 2, p1);
    PassLookup(wb, DQuestions, f, cl, 1, 3, p2);
    PassLookup(wb, DQuestions, f, cl, 2, 4, p3);
    PassLookup(wb, DQuestions, f, cl, 3, 5, p4);
  }

  // ---- D_Questions ----

  /** A question cell holding a formula evaluates it one level down. */
  lemma AnswerCell(wb: Workbook, row: nat, fuel: nat, f: nat, e: Expr, answer: bool)
    requires Get(wb.questions, row, 4) == Formula(e) && fuel == f + 1
    requires Eval(wb, DQuestions, e, f) == Val(VBool(answer))
    ensures EvalCell(wb, DQuestions, row, 4, fuel) == Val(VBool(answer))
  {
  }

  /** OR over the three invariant claims is TRUE iff one of them passes. */
  lemma AnyInvariantIs(wb: Workbook, f: nat, p1: bool, p2: bool, p3: bool)
    requires Eval(wb, DQuestions, VClaimPass("CL1"), f) == Val(VBool(p1))
    requires Eval(wb, DQuestions, VClaimPass("CL2"), f) == Val(VBool(p2))
    requires Eval(wb, DQuestions, VClaimPass("CL3"), f) == Val(VBool(p3))
    ensures Eval(wb, DQuestions, AnyInvariant, f) == Val(VBool(p1 || p2 || p3))
  {
  }

  /** NOT CL1 is TRUE iff CL1 fails. */
  lemma NotFirstIs(wb: Workbook, f: nat, p1: bool)
    requires Eval(wb, DQuestions, VClaimPass("CL1"), f) == Val(VBool(p1))
    ensures Eval(wb, DQuestions, QuestionD4, f) == Val(VBool(!p1))
  {
  }

  /** The answers in terms of the four Pass values: Q0 is CL4, Q1 and Q5
      are OR(CL1, CL2, CL3), Q2 is NOT CL1, Q3 is CL2 and Q4 is CL3. */
  lemma AnswersFollow(wb: Workbook, fuel: nat, f: nat, ids: seq<string>, p1: bool, p2: bool, p3: bool, p4: bool)
    requires QuestionsLaid(wb.questions, ids) && fuel == f + 1
    requires Eval(wb, DQuestions, VClaimPass("CL1"), f) == Val(VBool(p1))
    requires Eval(wb, DQuestions, VClaimPass("CL2"), f) == Val(VBool(p2))
    requires Eval(wb, DQuestions, VClaimPass("CL3"), f) == Val(VBool(p3))
    requires Eval(wb, DQuestions, VClaimPass("CL4"), f) == Val(VBool(p4))
    ensures EvalCell(wb, DQuestions, 2, 4, fuel) == Val(VBool(p4))
    ensures EvalCell(wb, DQuestions, 3, 4, fuel) == Val(VBool(p1 || p2 || p3))
    ensures EvalCell(wb, DQuestions, 4, 4, fuel) == Val(VBool(!p1))
    ensures EvalCell(wb, DQuestions, 5, 4, fuel) == Val(VBool(p2))
    ensures EvalCell(wb, DQuestions, 6, 4, fuel) == Val(VBool(p3))
    ensures EvalCell(wb, DQuestions, 7, 4, fuel) == Val(VBool(p1 || p2 || p3))
  {
    AnyInvariantIs(wb, f, p1, p2, p3);
    NotFirstIs(wb, f, p1);
    AnswerCell(wb, 2, fuel, f, QuestionD2, p4);
    AnswerCell(wb, 3, fuel, f, QuestionD3, p1 || p2 || p3);
    AnswerCell(wb, 4, fuel, f, QuestionD4, !p1);
    AnswerCell(wb, 5, fuel, f, QuestionD5, p2);
    AnswerCell(wb, 6, fuel, f, QuestionD6, p3);
    AnswerCell(wb, 7, fuel, f, QuestionD7, p1 || p2 || p3);
  }

  /** The answers, read through the lookups of the Pass cells. */
  lemma AnswersAt(wb: Workbook, fuel: nat, f: nat, cl: seq<Schema.Claim>, ids: seq<string>,
                  p1: bool, p2: bool, p3: bool, p4: bool)
    requires ClaimsLaid(wb.claims, cl) && |cl| == ClaimCount && ClaimsNamed(cl)
    requires QuestionsLaid(wb.questions, ids) && 1 <= f && fuel == f + 1
    requires EvalCell(wb, DClaims, 2, 13, f) == Val(VBool(p1))
    requires EvalCell(wb, DClaims, 3, 13, f) == Val(VBool(p2))
    requires EvalCell(wb, DClaims, 4, 13, f) == Val(VBool(p3))
    requires EvalCell(wb, DClaims, 5, 13, f) == Val(VBool(p4))
    ensures EvalCell(wb, DQuestions, 2, 4, fuel) == Val(VBool(p4))
    ensures EvalCell(wb, DQuestions, 3, 4, fuel) == Val(VBool(p1 || p2 || p3))
    ensures EvalCell(wb, DQuestions, 4, 4, fuel) == Val(VBool(!p1))
    ensures EvalCell(wb, DQuestions, 5, 4, fuel) == Val(VBool(p2))
    ensures EvalCell(wb, DQuestions, 6, 4, fuel) == Val(VBool(p3))
    ensures EvalCell(wb, DQuestions, 7, 4, fuel) == Val(VBool(p1 || p2 || p3))
  {
    PassLookups(wb, f, cl, p1, p2, p3, p4);
    AnswersFollow(wb, fuel, f, ids, p1, p2, p3, p4);
  }

  // ---- A_Dashboard ----

  /** COUNTIF over the Pass column adds one per passing claim. */
  lemma {:induction false} CountPasses(wb: Workbook, f: nat, p1: bool, p2: bool, p3: bool, p4: bool)
    requires EvalCell(wb, DClaims, 2, 13, f) == Val(VBool(p1))
    requires EvalCell(wb, DClaims, 3, 13, f) == Val(VBool(p2))
    requires EvalCell(wb, DClaims, 4, 13, f) == Val(VBool(p3))
    requires EvalCell(wb, DClaims, 5, 13, f) == Val(VBool(p4))
    ensures Count(wb, DClaims, 2, 1 + ClaimCount, 13, f) == Tally(p1) + Tally(p2) + Tally(p3) + Tally(p4)
  {
    assert Count(wb, DClaims, 6, 5, 13, f) == 0;
    assert Count(wb, DClaims, 5, 5, 13, f) == Tally(p4);
    assert Count(wb, DClaims, 4, 5, 13, f) == Tally(p3) + Tally(p4);
    assert Count(wb, DClaims, 3, 5, 13, f) == Tally(p2) + Tally(p3) + Tally(p4);
  }

  /** B8 counts the passing claims. */
  lemma PassingCountIs(wb: Workbook, fuel: nat, f: nat, p1: bool, p2: bool, p3: bool, p4: bool)
    requires Get(wb.dashboard, 8, 2) == Formula(PassingCount) && fuel == f + 1
    requires EvalCell(wb, DClaims, 2, 13, f) == Val(VBool(p1))
    requires EvalCell(wb, DClaims, 3, 13, f) == Val(VBool(p2))
    requires EvalCell(wb, DClaims, 4, 13, f) == Val(VBool(p3))
    requires EvalCell(wb, DClaims, 5, 13, f) == Val(VBool(p4))
    ensures EvalCell(wb, ADashboard, 8, 2, fuel) == Val(VNumber((Tally(p1) + Tally(p2) + Tally(p3) + Tally(p4)) as real))
  {
    CountPasses(wb, f, p1, p2, p3, p4);
  }

  /** B8, the number of passing claims, never exceeds B9, the number of
      claims, whatever the Pass cells hold. */
  lemma PassingAtMostTotal(wb: Workbook, fuel: nat)
    requires Get(wb.dashboard, 8, 2) == Formula(PassingCount) && Get(wb.dashboard, 9, 2) == Formula(ClaimsTotal)
    requires 1 <= fuel
    ensures EvalCell(wb, ADashboard, 9, 2, fuel) == Val(VNumber(ClaimCount as real))
    ensures EvalCell(wb, ADashboard, 8, 2, fuel).Val? && EvalCell(wb, ADashboard, 8, 2, fuel).v.VNumber?
    ensures 0.0 <= EvalCell(wb, ADashboard, 8, 2, fuel).v.x <= ClaimCount as real
  {
    CountAtMostRows(wb, DClaims, 2, 1 + ClaimCount, 13, fuel - 1);
  }

  /** Row r + 10 of the dashboard mirrors question row r: its text and its answer. */
  lemma Mirror(wb: Workbook, r: nat, row: nat, fuel: nat, f: nat)
    requires DashboardLaid(wb.dashboard, QuestionCount) && 2 <= r <= 1 + QuestionCount && row == r + 10
    requires fuel == f + 1
    ensures EvalCell(wb, ADashboard, row, 1, fuel) == EvalCell(wb, DQuestions, r, 2, f)
    ensures EvalCell(wb, ADashboard, row, 2, fuel) == EvalCell(wb, DQuestions, r, 4, f)
  {
    assert Get(wb.dashboard, row, 1) == Formula(DashboardQuestion(r));
    assert Get(wb.dashboard, row, 2) == Formula(DashboardAnswer(r));
  }

  /** B4 is F_Ecalc, the rest energy m_e * c^2. */
  lemma DashboardEnergy(wb: Workbook, fuel: nat, f: nat, t: Tables)
    requires ConstantsIn(wb, t.constants, t.units) && CalcsIn(wb, t.calcs)
    requires Get(wb.dashboard, 4, 2) == Formula(DashboardEcalc) && 4 <= f && fuel == f + 1
    ensures EvalCell(wb, ADashboard, 4, 2, fuel) == Val(VNumber(Energy(wb)))
  {
    EnergyLookup(wb, ADashboard, f, t.constants, t.calcs, t.units);
  }

  /** B5 is the Value typed for C_mec2. */
  lemma DashboardMec2Is(wb: Workbook, fuel: nat, f: nat, t: Tables)
    requires ConstantsIn(wb, t.constants, t.units)
    requires Get(wb.dashboard, 5, 2) == Formula(DashboardMec2) && 3 <= f && fuel == f + 1
    ensures EvalCell(wb, ADashboard, 5, 2, fuel) == Val(VNumber(ConstantValue(wb, 3)))
  {
    VConstValue(wb, ADashboard, 3, f, t.constants, t.units);
  }

  /** B6 is the Value typed for C_abs0. */
  lemma DashboardAbs0Is(wb: Workbook, fuel: nat, f: nat, t: Tables)
    requires ConstantsIn(wb, t.constants, t.units)
    requires Get(wb.dashboard, 6, 2) == Formula(DashboardAbs0) && 3 <= f && fuel == f + 1
    ensures EvalCell(wb, ADashboard, 6, 2, fuel) == Val(VNumber(ConstantValue(wb, 4)))
  {
    VConstValue(wb, ADashboard, 4, f, t.constants, t.units);
  }

  // ---- All of it ----

  /** When every claim passes, Q0, Q1, Q3, Q4 and Q5 are TRUE, Q2 is
      FALSE and B8 counts four passing claims. */
  lemma AllAnswersAt(wb: Workbook, fuel: nat, f: nat, t: Tables, ids: seq<string>)
    requires Laid(wb, t) && QuestionsLaid(wb.questions, ids) && Get(wb.dashboard, 8, 2) == Formula(PassingCount)
    requires ConstantValue(wb, 2) == ElectronvoltFactor(t.instances, t.units)
    requires Meaning.Abs(Energy(wb) - ConstantValue(wb, 3)) <= t.claims[1].tolerance
    requires 9 <= f && fuel == f + 1
    ensures EvalCell(wb, DQuestions, 2, 4, fuel) == Val(VBool(true))
    ensures EvalCell(wb, DQuestions, 3, 4, fuel) == Val(VBool(true))
    ensures EvalCell(wb, DQuestions, 4, 4, fuel) == Val(VBool(false))
    ensures EvalCell(wb, DQuestions, 5, 4, fuel) == Val(VBool(true))
    ensures EvalCell(wb, DQuestions, 6, 4, fuel) == Val(VBool(true))
    ensures EvalCell(wb, DQuestions, 7, 4, fuel) == Val(VBool(true))
    ensures EvalCell(wb, ADashboard, 8, 2, fuel) == Val(VNumber(4.0))
  {
    AllPass(wb, f, t);
    AnswersAt(wb, fuel, f, t.claims, ids, true, true, true, true);
    PassingCountIs(wb, fuel, f, true, true, true, true);
  }
}
