/** Worksheets as maps from (row, column) to cell contents, and an evaluator
    for the subset of Excel formulas the truth-model workbook is built from. */
module Sheets {
  import opened ExactMatch

  /** (row, column), both 1-based as in `ws.cell(row, column)`. */
  type Pos = (nat, nat)

  /** The written cells of a worksheet; a position that was never written is blank. */
  type Sheet = map<Pos, Cell>

  datatype SheetId = DUnits | DConstants | FCalculations | DInstances | DClaims | DQuestions | ADashboard

  /** An absolute range `Sheet!$A$top:$<right>$bottom`; every lookup range starts in column A. */
  datatype Range = Range(sheet: SheetId, top: nat, bottom: nat, right: nat)

  datatype Expr =
    | Num(x: real)                                   // 273.15
    | Str(s: string)                                 // "C_me"
    | Ref(row: nat, col: nat)                        // D2, a cell of the same sheet
    | SheetRef(sheet: SheetId, row: nat, col: nat)   // D_Questions!D2
    | VLookup(key: Expr, table: Range, index: nat)   // VLOOKUP(key, table, index, FALSE)
    | Add(a: Expr, b: Expr)
    | Sub(a: Expr, b: Expr)
    | Mul(a: Expr, b: Expr)
    | Div(a: Expr, b: Expr)
    | Pow(base: Expr, n: nat)                        // base^n
    | Abs(a: Expr)
    | Max3(a: Expr, b: Expr, c: Expr)                // MAX(a, b, c)
    | Min3(a: Expr, b: Expr, c: Expr)                // MIN(a, b, c)
    | LessEq(a: Expr, b: Expr)                       // a <= b
    | EqText(a: Expr, s: string)                     // a = "s"
    | Left(a: Expr, n: nat)                          // LEFT(a, n)
    | If(cond: Expr, yes: Expr, no: Expr)            // IF(cond, yes, no)
    | Or3(a: Expr, b: Expr, c: Expr)                 // OR(a, b, c)
    | Not(a: Expr)                                   // NOT(a)
    | CountTrue(sheet: SheetId, top: nat, bottom: nat, col: nat)  // COUNTIF(col top:bottom, TRUE)

  datatype Cell = Blank | Number(x: real) | Text(s: string) | Formula(e: Expr)

  datatype Value = VNumber(x: real) | VText(s: string) | VBool(b: bool) | VBlank

  /** NotFound is VLOOKUP's #N/A, BadColumn its #REF!, DivByZero is #DIV/0!.
      WrongType marks an operand of a type this model does not coerce;
      OutOfFuel marks a reference chain longer than the fuel allowed. */
  datatype ErrorKind = NotFound | BadColumn | DivByZero | WrongType | OutOfFuel

  datatype Outcome = Val(v: Value) | Err(kind: ErrorKind)

  datatype Workbook = Workbook(units: Sheet, constants: Sheet, calcs: Sheet, instances: Sheet,
                               claims: Sheet, questions: Sheet, dashboard: Sheet)

  function SheetOf(wb: Workbook, s: SheetId): Sheet
  {
    match s
    case DUnits => wb.units
    case DConstants => wb.constants
    case FCalculations => wb.calcs
    case DInstances => wb.instances
    case DClaims => wb.claims
    case DQuestions => wb.questions
    case ADashboard => wb.dashboard
  }

  function Get(sh: Sheet, r: nat, c: nat): Cell
  {
    if (r, c) in sh then sh[(r, c)] else Blank
  }

  function CellAt(wb: Workbook, s: SheetId, r: nat, c: nat): Cell
  {
    Get(SheetOf(wb, s), r, c)
  }

  function RealPow(x: real, n: nat): real
  {
    if n == 0 then 1.0 else x * RealPow(x, n - 1)
  }

  datatype ArithOp = Plus | Minus | Times | Divide

  /** Binary arithmetic: the left error first, then the right one; numbers only. */
  function Arith(op: ArithOp, x: Outcome, y: Outcome): Outcome
  {
    if x.Err? then x
    else if y.Err? then y
    else if !x.v.VNumber? || !y.v.VNumber? then Err(WrongType)
    else Apply(op, x.v.x, y.v.x)
  }

  function Apply(op: ArithOp, a: real, b: real): Outcome
  {
    match op
    case Plus => Val(VNumber(a + b))
    case Minus => Val(VNumber(a - b))
    case Times => Val(VNumber(a * b))
    case Divide => if b == 0.0 then Err(DivByZero) else Val(VNumber(a / b))
  }

  /** MAX (isMax) or MIN of three numbers. */
  function Extreme(isMax: bool, x: Outcome, y: Outcome, z: Outcome): Outcome
  {
    if x.Err? then x
    else if y.Err? then y
    else if z.Err? then z
    else if !x.v.VNumber? || !y.v.VNumber? || !z.v.VNumber? then Err(WrongType)
    else
      var a, b, c := x.v.x, y.v.x, z.v.x;
      if isMax then Val(VNumber(if a >= b && a >= c then a else if b >= c then b else c))
      else Val(VNumber(if a <= b && a <= c then a else if b <= c then b else c))
  }

  /** OR of three logical values. */
  function AnyOf(x: Outcome, y: Outcome, z: Outcome): Outcome
  {
    if x.Err? then x
    else if y.Err? then y
    else if z.Err? then z
    else if !x.v.VBool? || !y.v.VBool? || !z.v.VBool? then Err(WrongType)
    else Val(VBool(x.v.b || y.v.b || z.v.b))
  }

  /** a <= b on two numbers. */
  function AtMost(x: Outcome, y: Outcome): Outcome
  {
    if x.Err? then x
    else if y.Err? then y
    else if !x.v.VNumber? || !y.v.VNumber? then Err(WrongType)
    else Val(VBool(x.v.x <= y.v.x))
  }

  /** A formula's value, evaluated in sheet `s`. */
  function Eval(wb: Workbook, s: SheetId, e: Expr, fuel: nat): Outcome
    decreases fuel, 2, e
  {
    match e
    case Num(x) => Val(VNumber(x))
    case Str(t) => Val(VText(t))
    case Ref(r, c) => EvalCell(wb, s, r, c, fuel)
    case SheetRef(t, r, c) => EvalCell(wb, t, r, c, fuel)
    case VLookup(key, t, k) =>
      (match Eval(wb, s, key, fuel)
       case Err(why) => Err(why)
       case Val(kv) => if k < 1 || t.right < k then Err(BadColumn) else Lookup(wb, t, kv, k, t.top, fuel))
    case Add(a, b) => Arith(Plus, Eval(wb, s, a, fuel), Eval(wb, s, b, fuel))
    case Sub(a, b) => Arith(Minus, Eval(wb, s, a, fuel), Eval(wb, s, b, fuel))
    case Mul(a, b) => Arith(Times, Eval(wb, s, a, fuel), Eval(wb, s, b, fuel))
    case Div(a, b) => Arith(Divide, Eval(wb, s, a, fuel), Eval(wb, s, b, fuel))
    case Pow(a, n) =>
      (match Eval(wb, s, a, fuel)
       case Err(why) => Err(why)
       case Val(VNumber(x)) => Val(VNumber(RealPow(x, n)))
       case Val(_) => Err(WrongType))
    case Abs(a) =>
      (match Eval(wb, s, a, fuel)
       case Err(why) => Err(why)
       case Val(VNumber(x)) => Val(VNumber(if x < 0.0 then -x else x))
       case Val(_) => Err(WrongType))
    case Max3(a, b, c) => Extreme(true, Eval(wb, s, a, fuel), Eval(wb, s, b, fuel), Eval(wb, s, c, fuel))
    case Min3(a, b, c) => Extreme(false, Eval(wb, s, a, fuel), Eval(wb, s, b, fuel), Eval(wb, s, c, fuel))
    case LessEq(a, b) => AtMost(Eval(wb, s, a, fuel), Eval(wb, s, b, fuel))
    case EqText(a, t) =>
      (match Eval(wb, s, a, fuel)
       case Err(why) => Err(why)
       case Val(VText(u)) => Val(VBool(u == t))
       case Val(VBlank) => Val(VBool(t == ""))
       case Val(_) => Val(VBool(false)))
    case Left(a, n) =>
      (match Eval(wb, s, a, fuel)
       case Err(why) => Err(why)
       case Val(VText(u)) => Val(VText(if n < |u| then u[..n] else u))
       case Val(VBlank) => Val(VText(""))
       case Val(_) => Err(WrongType))
    case If(c, yes, no) =>
      (match Eval(wb, s, c, fuel)
       case Err(why) => Err(why)
       case Val(VBool(true)) => Eval(wb, s, yes, fuel)
       case Val(VBool(false)) => Eval(wb, s, no, fuel)
       case Val(_) => Err(WrongType))
    case Or3(a, b, c) => AnyOf(Eval(wb, s, a, fuel), Eval(wb, s, b, fuel), Eval(wb, s, c, fuel))
    case Not(a) =>
      (match Eval(wb, s, a, fuel)
       case Err(why) => Err(why)
       case Val(VBool(x)) => Val(VBool(!x))
       case Val(_) => Err(WrongType))
    case CountTrue(sh, top, bottom, col) => Val(VNumber(Count(wb, sh, top, bottom, col, fuel) as real))
  }

  /** The formula applying `op` to a and b. */
  function BinOp(op: ArithOp, a: Expr, b: Expr): Expr
  {
    match op
    case Plus => Add(a, b)
    case Minus => Sub(a, b)
    case Times => Mul(a, b)
    case Divide => Div(a, b)
  }

  /** On two numbers, an arithmetic formula applies its operation. */
  lemma EvalArith(wb: Workbook, s: SheetId, op: ArithOp, a: Expr, b: Expr, fuel: nat, x: real, y: real)
    requires Eval(wb, s, a, fuel) == Val(VNumber(x)) && Eval(wb, s, b, fuel) == Val(VNumber(y))
    ensures Eval(wb, s, BinOp(op, a, b), fuel) == Apply(op, x, y)
  {
  }

  /** The value a cell shows; reading a cell costs one unit of fuel. */
  function EvalCell(wb: Workbook, s: SheetId, r: nat, c: nat, fuel: nat): Outcome
    decreases fuel, 0
  {
    if fuel == 0 then Err(OutOfFuel)
    else match CellAt(wb, s, r, c)
      case Blank => Val(VBlank)
      case Number(x) => Val(VNumber(x))
      case Text(t) => Val(VText(t))
      case Formula(e) => Eval(wb, s, e, fuel - 1)
  }

  /** Exact-match VLOOKUP scanning rows `row..t.bottom` of column A; an
      empty result cell reads as 0. */
  function Lookup(wb: Workbook, t: Range, key: Value, k: nat, row: nat, fuel: nat): Outcome
    decreases fuel, 1, t.bottom + 1 - row
  {
    if t.bottom < row then Err(NotFound)
    else if EvalCell(wb, t.sheet, row, 1, fuel) == Val(key) then BlankAsZero(EvalCell(wb, t.sheet, row, k, fuel))
    else Lookup(wb, t, key, k, row + 1, fuel)
  }

  /** VLOOKUP returns 0 for an empty result cell. */
  function BlankAsZero(o: Outcome): Outcome
  {
    if o == Val(VBlank) then Val(VNumber(0.0)) else o
  }

  /** COUNTIF(range, TRUE) over one column, rows `row..bottom`. */
  function Count(wb: Workbook, s: SheetId, row: nat, bottom: nat, col: nat, fuel: nat): nat
    decreases fuel, 1, bottom + 1 - row
  {
    if bottom < row then 0
    else (if EvalCell(wb, s, row, col, fuel) == Val(VBool(true)) then 1 else 0)
         + Count(wb, s, row + 1, bottom, col, fuel)
  }

  /** The key column holds the literal ids `ids` from row `t.top` down to `t.bottom`. */
  ghost predicate KeyColumn(wb: Workbook, t: Range, ids: seq<string>)
  {
    && t.bottom + 1 == t.top + |ids|
    && forall r :: t.top <= r <= t.bottom ==> CellAt(wb, t.sheet, r, 1) == Text(ids[r - t.top])
  }

  /** One step of the scan: on a row whose key cell holds `id`, VLOOKUP
      either stops there (id == key) or moves on to the next row. */
  lemma LookupStep(wb: Workbook, t: Range, key: string, id: string, k: nat, row: nat, fuel: nat)
    requires row <= t.bottom && 1 <= fuel
    requires CellAt(wb, t.sheet, row, 1) == Text(id)
    ensures Lookup(wb, t, VText(key), k, row, fuel)
            == if id == key then BlankAsZero(EvalCell(wb, t.sheet, row, k, fuel))
               else Lookup(wb, t, VText(key), k, row + 1, fuel)
  {
    assert EvalCell(wb, t.sheet, row, 1, fuel) == Val(VText(id));
  }

  /** What a scan from `row` returns when the first match lies `m` rows below it. */
  function Found(wb: Workbook, t: Range, k: nat, row: nat, fuel: nat, m: Option<nat>): Outcome
  {
    match m
    case None => Err(NotFound)
    case Some(j) => BlankAsZero(EvalCell(wb, t.sheet, row + j, k, fuel))
  }

  /** A match one row further down, seen from one row higher up. */
  lemma FoundShift(wb: Workbook, t: Range, k: nat, row: nat, fuel: nat, m: Option<nat>)
    ensures Found(wb, t, k, row, fuel, match m case None => None case Some(j) => Some(j + 1))
         == Found(wb, t, k, row + 1, fuel, m)
  {
    match m
    case None =>
    case Some(j) => assert row + (j + 1) == (row + 1) + j;
  }

  /** Over a column of literal ids, VLOOKUP finds the first row whose id
      equals the key, and fails with #N/A exactly when no id does. */
  lemma {:induction false} LookupById(wb: Workbook, t: Range, ids: seq<string>, key: string,
                                      k: nat, row: nat, fuel: nat)
    requires KeyColumn(wb, t, ids)
    requires t.top <= row <= t.bottom + 1
    requires 1 <= fuel
    ensures Lookup(wb, t, VText(key), k, row, fuel) == Found(wb, t, k, row, fuel, IndexOf(ids[row - t.top..], key))
    decreases t.bottom + 1 - row
  {
    var rest := ids[row - t.top..];
    if row <= t.bottom {
      LookupStep(wb, t, key, ids[row - t.top], k, row, fuel);
      if ids[row - t.top] != key {
        var tail := ids[row + 1 - t.top..];
        LookupById(wb, t, ids, key, k, row + 1, fuel);
        assert rest[1..] == tail;
        FoundShift(wb, t, k, row, fuel, IndexOf(tail, key));
      }
    } else {
      assert rest == [];
    }
  }

  /** VLOOKUP(key, t, k, FALSE) over a column of literal ids: cell k of the
      first row whose id is the key, #N/A when no row has it. */
  lemma LookupKey(wb: Workbook, s: SheetId, key: Expr, id: string, t: Range, ids: seq<string>, k: nat, fuel: nat)
    requires KeyColumn(wb, t, ids) && 1 <= k <= t.right && 1 <= fuel
    requires Eval(wb, s, key, fuel) == Val(VText(id))
    ensures Eval(wb, s, VLookup(key, t, k), fuel)
            == match IndexOf(ids, id)
               case None => Err(NotFound)
               case Some(j) => BlankAsZero(EvalCell(wb, t.sheet, t.top + j, k, fuel))
  {
    LookupById(wb, t, ids, id, k, t.top, fuel);
    assert ids[t.top - t.top..] == ids;
  }

  /** COUNTIF never counts more rows than the range has. */
  lemma {:induction false} CountAtMostRows(wb: Workbook, s: SheetId, row: nat, bottom: nat, col: nat, fuel: nat)
    requires row <= bottom + 1
    ensures Count(wb, s, row, bottom, col, fuel) <= bottom + 1 - row
    decreases bottom + 1 - row
  {
    if row <= bottom {
      CountAtMostRows(wb, s, row + 1, bottom, col, fuel);
    }
  }
}
