/** `build_workbook`: worksheets filled cell by cell, first with the literal
    rows, then with formulas in loops, then the in-place CL4 patch.

    Each method is proved equal to a function of the sheet it starts from
    (AppendRows, FillRows, CL4Patch, ...); the lemmas beside those
    functions say cell by cell what the finished sheets hold. */
module Builder {
  import opened Sheets
  import opened Formulas
  import Schema
  import Units

  // ---- Rows ----

  /** Column c (1-based) of a literal row; blank past its end. */
  function Col(row: seq<Cell>, c: nat): Cell
  {
    if 1 <= c <= |row| then row[c - 1] else Blank
  }

  /** The cells one appended row occupies: columns 1..|row| of row r. */
  function RowMap(r: nat, row: seq<Cell>): map<Pos, Cell>
  {
    map c: nat | 1 <= c <= |row| :: (r, c) := row[c - 1]
  }

  /** A row appended under everything written puts its columns in row r and
      changes nothing else. */
  lemma GetAfterAppend(sh: Sheet, r: nat, row: seq<Cell>)
    requires forall p :: p in sh ==> p.0 < r
    ensures forall r': nat, c': nat :: Get(sh + RowMap(r, row), r', c') == if r' == r then Col(row, c') else Get(sh, r', c')
    ensures forall p :: p in RowMap(r, row) ==> p.0 == r
  {
    forall r': nat, c': nat ensures Get(sh + RowMap(r, row), r', c') == if r' == r then Col(row, c') else Get(sh, r', c') {
      if r' == r && 1 <= c' <= |row| {
        assert (r', c') in RowMap(r, row);
      } else {
        assert (r', c') !in RowMap(r, row);
      }
    }
  }

  /** The sheet after `for row in rows: ws.append(row)` when `last` is the
      last written row. */
  function AppendRows(sh: Sheet, last: nat, rows: seq<seq<Cell>>): Sheet
    decreases |rows|
  {
    if |rows| == 0 then sh
    else AppendRows(sh, last, rows[..|rows| - 1]) + RowMap(last + |rows|, rows[|rows| - 1])
  }

  /** Appended row i lands in row last + 1 + i; nothing else changes and
      nothing lands below the last appended row. */
  lemma {:induction false} GetAppendRows(sh: Sheet, last: nat, rows: seq<seq<Cell>>)
    requires forall p :: p in sh ==> p.0 <= last
    ensures forall p :: p in AppendRows(sh, last, rows) ==> p.0 <= last + |rows|
    ensures forall r: nat, c: nat :: Get(AppendRows(sh, last, rows), r, c)
                                    == if last < r <= last + |rows| then Col(rows[r - last - 1], c) else Get(sh, r, c)
    decreases |rows|
  {
    if |rows| > 0 {
      var init := rows[..|rows| - 1];
      GetAppendRows(sh, last, init);
      GetAfterAppend(AppendRows(sh, last, init), last + |rows|, rows[|rows| - 1]);
      assert forall i :: 0 <= i < |init| ==> init[i] == rows[i];
    }
  }

  /** The rows `ws.append` writes for a table, one per record. */
  function Rows<T>(xs: seq<T>, cells: T -> seq<Cell>): (rows: seq<seq<Cell>>)
    ensures |rows| == |xs|
    ensures forall i :: 0 <= i < |rows| ==> rows[i] == cells(xs[i])
  {
    seq(|xs|, i requires 0 <= i < |xs| => cells(xs[i]))
  }

  /** A sheet holding a header row and the data rows under it. */
  function Tabulated(headers: seq<string>, rows: seq<seq<Cell>>): Sheet
  {
    AppendRows(map[] + RowMap(1, Schema.TextRow(headers)), 1, rows)
  }

  /** Rows 2 to 1 + |rows| of `sh` hold `rows`, and every row below them is empty. */
  ghost predicate RowsFrom2(sh: Sheet, rows: seq<seq<Cell>>)
  {
    forall r: nat, c: nat :: 2 <= r ==> Get(sh, r, c) == if r <= 1 + |rows| then Col(rows[r - 2], c) else Blank
  }

  lemma GetTabulated(headers: seq<string>, rows: seq<seq<Cell>>)
    ensures RowsFrom2(Tabulated(headers, rows), rows)
  {
    var head := map[] + RowMap(1, Schema.TextRow(headers));
    GetAfterAppend(map[], 1, Schema.TextRow(headers));
    GetAppendRows(head, 1, rows);
  }

  // ---- The formula loops ----

  /** The loops of build_workbook that write formulas row by row. Pass r
      of loop l writes columns First(l) to Last(l) of row r + Shift(l). */
  datatype Loop =
    | ConstantFactors   // D_Constants: H, I and J of every data row
    | InstanceFactors   // D_Instances: G and H
    | CanonicalSI       // D_Instances: I
    | ClaimFormulas     // D_Claims: I to N
    | QuestionMirror    // A_Dashboard: A and B of row r + 10 mirror D_Questions row r

  function First(l: Loop): nat
  {
    match l
    case ConstantFactors => 8
    case InstanceFactors => 7
    case CanonicalSI => 9
    case ClaimFormulas => 9
    case QuestionMirror => 1
  }

  function Last(l: Loop): nat
  {
    match l
    case ConstantFactors => 10
    case InstanceFactors => 8
    case CanonicalSI => 9
    case ClaimFormulas => 14
    case QuestionMirror => 2
  }

  function Shift(l: Loop): nat
  {
    if l == QuestionMirror then 10 else 0
  }

  /** The formula the claims loop writes in column c (I to N) of row r. */
  function ClaimFormula(r: nat, c: nat): Expr
  {
    if c == 9 then ClaimSI(r, 5)
    else if c == 10 then ClaimSI(r, 6)
    else if c == 11 then ClaimSI(r, 7)
    else if c == 12 then ClaimRange(r)
    else if c == 13 then ClaimPass(r)
    else TruthSourceFormula(r)
  }

  /** The formula pass r of loop l writes in column c. */
  function LoopFormula(l: Loop, r: nat, c: nat): Expr
  {
    match l
    case ConstantFactors =>
      if c == 8 then UnitFactor(r, 5, 5) else if c == 9 then UnitFactor(r, 5, 6) else Affine(r, 4, 8, 9)
    case InstanceFactors =>
      if c == 7 then UnitFactor(r, 6, 5) else UnitFactor(r, 6, 6)
    case CanonicalSI => Affine(r, 5, 7, 8)
    case ClaimFormulas => ClaimFormula(r, c)
    case QuestionMirror => if c == 1 then DashboardQuestion(r) else DashboardAnswer(r)
  }

  /** The sheet after pass r of loop l, in the order the loop body writes. */
  function Pass(l: Loop, sh: Sheet, r: nat): Sheet
  {
    match l
    case ConstantFactors =>
      sh[(r, 8) := Formula(LoopFormula(l, r, 8))][(r, 9) := Formula(LoopFormula(l, r, 9))]
        [(r, 10) := Formula(LoopFormula(l, r, 10))]
    case InstanceFactors =>
      sh[(r, 7) := Formula(LoopFormula(l, r, 7))][(r, 8) := Formula(LoopFormula(l, r, 8))]
    case CanonicalSI =>
      sh[(r, 9) := Formula(LoopFormula(l, r, 9))]
    case ClaimFormulas =>
      sh[(r, 9) := Formula(LoopFormula(l, r, 9))][(r, 10) := Formula(LoopFormula(l, r, 10))]
        [(r, 11) := Formula(LoopFormula(l, r, 11))][(r, 12) := Formula(LoopFormula(l, r, 12))]
        [(r, 13) := Formula(LoopFormula(l, r, 13))][(r, 14) := Formula(LoopFormula(l, r, 14))]
    case QuestionMirror =>
      sh[(r + 10, 1) := Formula(LoopFormula(l, r, 1))][(r + 10, 2) := Formula(LoopFormula(l, r, 2))]
  }

  /** A pass writes exactly its columns of its row. */
  lemma GetPass(l: Loop, sh: Sheet, r: nat)
    ensures forall r': nat, c: nat :: Get(Pass(l, sh, r), r', c)
                                     == if r' == r + Shift(l) && First(l) <= c <= Last(l) then Formula(LoopFormula(l, r, c))
                                        else Get(sh, r', c)
  {
  }

  /** The sheet after passes lo .. hi - 1 of loop l. */
  function FillRows(l: Loop, sh: Sheet, lo: nat, hi: nat): Sheet
    decreases hi
  {
    if hi <= lo then sh else Pass(l, FillRows(l, sh, lo, hi - 1), hi - 1)
  }

  /** `after` is `before` with passes lo to hi - 1 of loop l applied: the
      loop's formulas in its columns of rows lo + Shift(l) to
      hi - 1 + Shift(l), every other cell as before. */
  ghost predicate Filled(l: Loop, before: Sheet, after: Sheet, lo: nat, hi: nat)
  {
    forall r: nat, c: nat :: Get(after, r, c)
                               == if lo + Shift(l) <= r < hi + Shift(l) && First(l) <= c <= Last(l)
                                  then Formula(LoopFormula(l, r - Shift(l), c))
                                  else Get(before, r, c)
  }

  lemma {:induction false} GetFillRows(l: Loop, sh: Sheet, lo: nat, hi: nat)
    ensures forall r: nat, c: nat :: Get(FillRows(l, sh, lo, hi), r, c)
                                    == if lo + Shift(l) <= r < hi + Shift(l) && First(l) <= c <= Last(l)
                                       then Formula(LoopFormula(l, r - Shift(l), c))
                                       else Get(sh, r, c)
    decreases hi
  {
    if lo < hi {
      GetFillRows(l, sh, lo, hi - 1);
      GetPass(l, FillRows(l, sh, lo, hi - 1), hi - 1);
    }
  }

  lemma FillRowsFilled(l: Loop, sh: Sheet, lo: nat, hi: nat)
    ensures Filled(l, sh, FillRows(l, sh, lo, hi), lo, hi)
  {
    GetFillRows(l, sh, lo, hi);
  }

  // ---- The worksheet ----

  /** An openpyxl worksheet: the cells written so far and maxRow, the last
      row written (openpyxl's `_current_row`, which `append` writes under;
      0 while nothing is written). */
  class Worksheet {
    var cells: Sheet
    var maxRow: nat

    /** Every row below maxRow is empty. */
    ghost predicate Valid()
      reads this
    {
      forall r: nat, c: nat :: maxRow < r ==> Get(cells, r, c) == Blank
    }

    constructor ()
      ensures Valid() && cells == map[] && maxRow == 0
    {
      cells := map[];
      maxRow := 0;
    }

    /** ws.append(row): the row goes right under the last written row, so
        no cell written before is overwritten. */
    method Append(row: seq<Cell>)
      requires Valid()
      modifies this
      ensures Valid()
      ensures maxRow == old(maxRow) + 1
      ensures cells == old(cells) + RowMap(maxRow, row)
      ensures forall r: nat, c: nat :: Get(old(cells), r, c) != Blank ==> Get(cells, r, c) == Get(old(cells), r, c)
    {
      maxRow := maxRow + 1;
      cells := cells + RowMap(maxRow, row);
      forall r: nat, c: nat | maxRow < r
        ensures Get(cells, r, c) == Blank
      {
        assert (r, c) !in RowMap(maxRow, row);
        assert Get(cells, r, c) == Get(old(cells), r, c);
      }
      forall r: nat, c: nat | Get(old(cells), r, c) != Blank
        ensures Get(cells, r, c) == Get(old(cells), r, c)
      {
        assert r < maxRow;
        assert (r, c) !in RowMap(maxRow, row);
      }
    }

    /** ws.cell(r, c).value = x */
    method Set(r: nat, c: nat, x: Cell)
      requires Valid() && 1 <= r
      modifies this
      ensures Valid()
      ensures cells == old(cells)[(r, c) := x]
      ensures maxRow == if old(maxRow) < r then r else old(maxRow)
    {
      cells := cells[(r, c) := x];
      if maxRow < r {
        maxRow := r;
      }
      forall r': nat, c': nat | maxRow < r'
        ensures Get(cells, r', c') == Blank
      {
        assert Get(cells, r', c') == Get(old(cells), r', c');
      }
    }
  }

  /** `for row in rows: ws.append(list(row))`. */
  method AppendAll(ws: Worksheet, rows: seq<seq<Cell>>)
    requires ws.Valid()
    modifies ws
    ensures ws.Valid() && ws.maxRow == old(ws.maxRow) + |rows|
    ensures ws.cells == AppendRows(old(ws.cells), old(ws.maxRow), rows)
  {
    for i := 0 to |rows|
      invariant ws.Valid() && ws.maxRow == old(ws.maxRow) + i
      invariant ws.cells == AppendRows(old(ws.cells), old(ws.maxRow), rows[..i])
    {
      assert rows[..i + 1][..i] == rows[..i];
      ws.Append(rows[i]);
    }
    assert rows[..|rows|] == rows;
  }

  /** One pass of a formula loop, as its body writes it. */
  method RunPass(ws: Worksheet, l: Loop, r: nat)
    requires ws.Valid() && 1 <= r + Shift(l)
    modifies ws
    ensures ws.Valid()
    ensures ws.cells == Pass(l, old(ws.cells), r)
    ensures ws.maxRow == if old(ws.maxRow) < r + Shift(l) then r + Shift(l) else old(ws.maxRow)
  {
    match l
    case ConstantFactors =>
      ws.Set(r, 8, Formula(UnitFactor(r, 5, 5)));
      ws.Set(r, 9, Formula(UnitFactor(r, 5, 6)));
      ws.Set(r, 10, Formula(Affine(r, 4, 8, 9)));
    case InstanceFactors =>
      ws.Set(r, 7, Formula(UnitFactor(r, 6, 5)));
      ws.Set(r, 8, Formula(UnitFactor(r, 6, 6)));
    case CanonicalSI =>
      ws.Set(r, 9, Formula(Affine(r, 5, 7, 8)));
    case ClaimFormulas =>
      ws.Set(r, 9, Formula(ClaimSI(r, 5)));
      ws.Set(r, 10, Formula(ClaimSI(r, 6)));
      ws.Set(r, 11, Formula(ClaimSI(r, 7)));
      ws.Set(r, 12, Formula(ClaimRange(r)));
      ws.Set(r, 13, Formula(ClaimPass(r)));
      ws.Set(r, 14, Formula(TruthSourceFormula(r)));
    case QuestionMirror =>
      ws.Set(r + 10, 1, Formula(DashboardQuestion(r)));
      ws.Set(r + 10, 2, Formula(DashboardAnswer(r)));
  }

  /** `for r in range(lo, hi)`: the passes of loop l in order. A loop over
      written rows leaves maxRow alone. */
  method RunLoop(ws: Worksheet, l: Loop, lo: nat, hi: nat)
    requires ws.Valid() && 1 <= lo + Shift(l) && lo <= hi
    modifies ws
    ensures ws.Valid()
    ensures ws.cells == FillRows(l, old(ws.cells), lo, hi)
    ensures hi + Shift(l) <= old(ws.maxRow) + 1 ==> ws.maxRow == old(ws.maxRow)
  {
    for r := lo to hi
      invariant ws.Valid()
      invariant ws.cells == FillRows(l, old(ws.cells), lo, r)
      invariant hi + Shift(l) <= old(ws.maxRow) + 1 ==> ws.maxRow == old(ws.maxRow)
    {
      RunPass(ws, l, r);
    }
  }

  /** A lookup range covers exactly the data rows: it starts under the
      header, every row in it has an id in column A, and nothing is
      written below it. */
  ghost predicate CoversDataRows(sh: Sheet, t: Range)
  {
    && t.top == 2
    && (forall r :: t.top <= r <= t.bottom ==> Get(sh, r, 1).Text?)
    && (forall r: nat, c: nat :: t.bottom < r ==> Get(sh, r, c) == Blank)
  }

  // ---- D_Units ----

  function UnitRows(xs: seq<Units.Unit>): seq<seq<Cell>>
  {
    Rows(xs, Schema.UnitCells)
  }

  /** The units sheet built from a header and a table of units. */
  function UnitsSheet(headers: seq<string>, xs: seq<Units.Unit>): Sheet
  {
    Tabulated(headers, UnitRows(xs))
  }

  /** Row 2 + i holds unit i of the table, column by column. */
  ghost predicate UnitsLaid(sh: Sheet, xs: seq<Units.Unit>)
  {
    forall r: nat, c: nat :: 2 <= r <= 1 + |xs| ==> Get(sh, r, c) == Col(Schema.UnitCells(xs[r - 2]), c)
  }

  lemma UnitsSheetLaid(headers: seq<string>, xs: seq<Units.Unit>)
    requires |xs| == UnitCount
    ensures UnitsLaid(UnitsSheet(headers, xs), xs) && CoversDataRows(UnitsSheet(headers, xs), UnitsRange)
  {
    GetTabulated(headers, UnitRows(xs));
  }

  /** Fills D_Units with a header row and a table of units. */
  method BuildUnits(headers: seq<string>, xs: seq<Units.Unit>) returns (sheet: Sheet)
    ensures sheet == UnitsSheet(headers, xs)
  {
    var ws := new Worksheet();
    ws.Append(Schema.TextRow(headers));
    AppendAll(ws, UnitRows(xs));
    sheet := ws.cells;
  }

  // ---- D_Constants ----

  function ConstantRows(xs: seq<Schema.Constant>): seq<seq<Cell>>
  {
    Rows(xs, Schema.ConstantCells)
  }

  /** The constants sheet: the literal rows, then the first constants loop. */
  function ConstantsSheet(headers: seq<string>, xs: seq<Schema.Constant>): Sheet
  {
    FillRows(ConstantFactors, Tabulated(headers, ConstantRows(xs)), 2, 2 + |xs|)
  }

  /** Every constant row: its id, a number in Value (the input cell), its
      UnitID, and the three formulas. */
  ghost predicate ConstantsLaid(sh: Sheet, xs: seq<Schema.Constant>)
  {
    forall r :: 2 <= r <= 1 + |xs| ==>
      && Get(sh, r, 1) == Text(xs[r - 2].id)
      && Get(sh, r, 4).Number?
      && Get(sh, r, 5) == Text(xs[r - 2].unitId)
      && Get(sh, r, 8) == Formula(UnitFactor(r, 5, 5))
      && Get(sh, r, 9) == Formula(UnitFactor(r, 5, 6))
      && Get(sh, r, 10) == Formula(Affine(r, 4, 8, 9))
  }

  /** The input cells hold the values of the table. */
  ghost predicate SourceConstantValues(sh: Sheet, xs: seq<Schema.Constant>)
  {
    forall r :: 2 <= r <= 1 + |xs| ==> Get(sh, r, 4) == Number(xs[r - 2].value)
  }

  /** The constants layout follows from what the literal rows and the loop
      each write; the sheets are taken as given here. */
  lemma ConstantsLaidFrom(xs: seq<Schema.Constant>, rows: seq<seq<Cell>>, appended: Sheet, filled: Sheet)
    requires |rows| == |xs| == ConstantCount
    requires forall i :: 0 <= i < |rows| ==> rows[i] == Schema.ConstantCells(xs[i])
    requires RowsFrom2(appended, rows)
    requires Filled(ConstantFactors, appended, filled, 2, 2 + |xs|)
    ensures ConstantsLaid(filled, xs) && SourceConstantValues(filled, xs) && CoversDataRows(filled, ConstRange)
  {
    forall r: nat | 2 <= r <= 1 + |xs|
      ensures Get(filled, r, 1) == Text(xs[r - 2].id)
      ensures Get(filled, r, 4) == Number(xs[r - 2].value)
      ensures Get(filled, r, 5) == Text(xs[r - 2].unitId)
      ensures Get(filled, r, 8) == Formula(UnitFactor(r, 5, 5))
      ensures Get(filled, r, 9) == Formula(UnitFactor(r, 5, 6))
      ensures Get(filled, r, 10) == Formula(Affine(r, 4, 8, 9))
    {
      var row := rows[r - 2];
      assert row == Schema.ConstantCells(xs[r - 2]);
      assert Get(filled, r, 1) == Get(appended, r, 1) == Col(row, 1);
      assert Get(filled, r, 4) == Get(appended, r, 4) == Col(row, 4);
      assert Get(filled, r, 5) == Get(appended, r, 5) == Col(row, 5);
      assert Get(filled, r, 8) == Formula(LoopFormula(ConstantFactors, r, 8));
      assert Get(filled, r, 9) == Formula(LoopFormula(ConstantFactors, r, 9));
      assert Get(filled, r, 10) == Formula(LoopFormula(ConstantFactors, r, 10));
    }
    forall r: nat, c: nat | 1 + |xs| < r
      ensures Get(filled, r, c) == Blank
    {
      assert Get(filled, r, c) == Get(appended, r, c);
    }
  }

  lemma ConstantsSheetLaid(headers: seq<string>, xs: seq<Schema.Constant>)
    requires |xs| == ConstantCount
    ensures ConstantsLaid(ConstantsSheet(headers, xs), xs) && SourceConstantValues(ConstantsSheet(headers, xs), xs)
    ensures CoversDataRows(ConstantsSheet(headers, xs), ConstRange)
  {
    var rows := ConstantRows(xs);
    var appended := Tabulated(headers, rows);
    GetTabulated(headers, rows);
    FillRowsFilled(ConstantFactors, appended, 2, 2 + |xs|);
    ConstantsLaidFrom(xs, rows, appended, FillRows(ConstantFactors, appended, 2, 2 + |xs|));
  }

  /** Fills D_Constants: the header, the literal rows, then the loop that
      writes H, I and J of every data row. */
  method BuildConstants(headers: seq<string>, xs: seq<Schema.Constant>) returns (sheet: Sheet)
    ensures sheet == ConstantsSheet(headers, xs)
  {
    var ws := new Worksheet();
    ws.Append(Schema.TextRow(headers));
    AppendAll(ws, ConstantRows(xs));
    RunLoop(ws, ConstantFactors, 2, ws.maxRow + 1);
    sheet := ws.cells;
  }

  // ---- F_Calculations ----

  function CalculationRows(xs: seq<Schema.Calculation>): seq<seq<Cell>>
  {
    Rows(xs, Schema.CalculationCells)
  }

  /** E2 and E3 of the calculations sheet. */
  function CalculationResults(sh: Sheet): Sheet
  {
    sh[(2, 5) := Formula(EcalcFormula)][(3, 5) := Formula(EvToJFormula)]
  }

  function CalculationsSheet(headers: seq<string>, xs: seq<Schema.Calculation>): Sheet
  {
    CalculationResults(Tabulated(headers, CalculationRows(xs)))
  }

  /** E2 is m_e c^2, E3 passes C_e through, E4 keeps the "" it was written with. */
  ghost predicate CalcsLaid(sh: Sheet, xs: seq<Schema.Calculation>)
  {
    && (forall r :: 2 <= r <= 1 + |xs| ==> Get(sh, r, 1) == Text(xs[r - 2].id))
    && Get(sh, 2, 5) == Formula(EcalcFormula)
    && Get(sh, 3, 5) == Formula(EvToJFormula)
    && Get(sh, 4, 5) == Text("")
  }

  lemma CalcsLaidFrom(xs: seq<Schema.Calculation>, rows: seq<seq<Cell>>, appended: Sheet)
    requires |rows| == |xs| == CalculationCount
    requires forall i :: 0 <= i < |rows| ==> rows[i] == Schema.CalculationCells(xs[i])
    requires RowsFrom2(appended, rows)
    ensures CalcsLaid(CalculationResults(appended), xs) && CoversDataRows(CalculationResults(appended), CalcsRange)
  {
    var sh := CalculationResults(appended);
    forall r: nat | 2 <= r <= 1 + |xs|
      ensures Get(sh, r, 1) == Text(xs[r - 2].id)
    {
      assert rows[r - 2] == Schema.CalculationCells(xs[r - 2]);
      assert Get(sh, r, 1) == Get(appended, r, 1) == Col(rows[r - 2], 1);
    }
    assert rows[2] == Schema.CalculationCells(xs[2]);
    assert Get(sh, 4, 5) == Get(appended, 4, 5) == Col(rows[2], 5);
    forall r: nat, c: nat | 1 + |xs| < r
      ensures Get(sh, r, c) == Blank
    {
      assert Get(sh, r, c) == Get(appended, r, c);
    }
  }

  lemma CalculationsSheetLaid(headers: seq<string>, xs: seq<Schema.Calculation>)
    requires |xs| == CalculationCount
    ensures CalcsLaid(CalculationsSheet(headers, xs), xs) && CoversDataRows(CalculationsSheet(headers, xs), CalcsRange)
  {
    var rows := CalculationRows(xs);
    GetTabulated(headers, rows);
    CalcsLaidFrom(xs, rows, Tabulated(headers, rows));
  }

  /** Fills F_Calculations: the header, the literal rows, then E2 and E3. */
  method BuildCalculations(headers: seq<string>, xs: seq<Schema.Calculation>) returns (sheet: Sheet)
    ensures sheet == CalculationsSheet(headers, xs)
  {
    var ws := new Worksheet();
    ws.Append(Schema.TextRow(headers));
    AppendAll(ws, CalculationRows(xs));
    ws.Set(2, 5, Formula(EcalcFormula));
    ws.Set(3, 5, Formula(EvToJFormula));
    sheet := ws.cells;
  }

  // ---- D_Instances ----

  function InstanceRows(xs: seq<Schema.Instance>): seq<seq<Cell>>
  {
    Rows(xs, Schema.InstanceCells)
  }

  /** The Value formulas E2..E5 and E7; E6 keeps its literal. */
  function InstanceValues(sh: Sheet): Sheet
  {
    sh[(2, 5) := Formula(InstE2)][(3, 5) := Formula(InstE3)][(4, 5) := Formula(InstE4)]
      [(5, 5) := Formula(InstE5)][(7, 5) := Formula(InstE7)]
  }

  /** `after` is `before` with the Value formulas E2..E5 and E7 written,
      and every other cell, E6 included, as before. */
  ghost predicate ValuesWritten(before: Sheet, after: Sheet)
  {
    && (forall r: nat, c: nat :: !(c == 5 && 2 <= r <= 7 && r != 6) ==> Get(after, r, c) == Get(before, r, c))
    && Get(after, 2, 5) == Formula(InstE2) && Get(after, 3, 5) == Formula(InstE3)
    && Get(after, 4, 5) == Formula(InstE4) && Get(after, 5, 5) == Formula(InstE5)
    && Get(after, 7, 5) == Formula(InstE7)
  }

  lemma InstanceValuesWritten(sh: Sheet)
    ensures ValuesWritten(sh, InstanceValues(sh))
  {
  }

  /** The literal rows, then the unit-factor loop. */
  function InstanceFactorsSheet(headers: seq<string>, xs: seq<Schema.Instance>): Sheet
  {
    FillRows(InstanceFactors, Tabulated(headers, InstanceRows(xs)), 2, 2 + |xs|)
  }

  /** The instances sheet: the literal rows, the unit-factor loop, the
      Value formulas, then the Canonical_SI loop. */
  function InstancesSheet(headers: seq<string>, xs: seq<Schema.Instance>): Sheet
  {
    FillRows(CanonicalSI, InstanceValues(InstanceFactorsSheet(headers, xs)), 2, 2 + |xs|)
  }

  /** Every instance row: id, UnitID, the two unit-factor lookups and
      Canonical_SI; Value holds the five formulas and, in row 6, a number. */
  ghost predicate InstancesLaid(sh: Sheet, xs: seq<Schema.Instance>)
  {
    && (forall r :: 2 <= r <= 1 + |xs| ==>
          && Get(sh, r, 1) == Text(xs[r - 2].id)
          && Get(sh, r, 6) == Text(xs[r - 2].unitId)
          && Get(sh, r, 7) == Formula(UnitFactor(r, 6, 5))
          && Get(sh, r, 8) == Formula(UnitFactor(r, 6, 6))
          && Get(sh, r, 9) == Formula(Affine(r, 5, 7, 8)))
    && Get(sh, 2, 5) == Formula(InstE2)
    && Get(sh, 3, 5) == Formula(InstE3)
    && Get(sh, 4, 5) == Formula(InstE4)
    && Get(sh, 5, 5) == Formula(InstE5)
    && Get(sh, 6, 5).Number?
    && Get(sh, 7, 5) == Formula(InstE7)
  }

  /** After the unit-factor loop: the ids, the UnitIDs, the literal Value
      of I_Tabs0_K and the two lookups; nothing below the data rows. */
  ghost predicate FactorsLaid(sh: Sheet, xs: seq<Schema.Instance>)
    requires |xs| == InstanceCount
  {
    && (forall r :: 2 <= r <= 1 + |xs| ==>
          && Get(sh, r, 1) == Text(xs[r - 2].id)
          && Get(sh, r, 6) == Text(xs[r - 2].unitId)
          && Get(sh, r, 7) == Formula(UnitFactor(r, 6, 5))
          && Get(sh, r, 8) == Formula(UnitFactor(r, 6, 6)))
    && Get(sh, 6, 5) == xs[4].value
    && forall r: nat, c: nat :: 1 + |xs| < r ==> Get(sh, r, c) == Blank
  }

  lemma FactorsLaidFrom(xs: seq<Schema.Instance>, rows: seq<seq<Cell>>, appended: Sheet, factors: Sheet)
    requires |rows| == |xs| == InstanceCount
    requires forall i :: 0 <= i < |rows| ==> rows[i] == Schema.InstanceCells(xs[i])
    requires RowsFrom2(appended, rows)
    requires Filled(InstanceFactors, appended, factors, 2, 2 + |xs|)
    ensures FactorsLaid(factors, xs)
  {
    forall r: nat | 2 <= r <= 1 + |xs|
      ensures Get(factors, r, 1) == Text(xs[r - 2].id)
      ensures Get(factors, r, 6) == Text(xs[r - 2].unitId)
      ensures Get(factors, r, 7) == Formula(UnitFactor(r, 6, 5))
      ensures Get(factors, r, 8) == Formula(UnitFactor(r, 6, 6))
    {
      assert rows[r - 2] == Schema.InstanceCells(xs[r - 2]);
      assert Get(factors, r, 1) == Get(appended, r, 1) == Col(rows[r - 2], 1);
      assert Get(factors, r, 6) == Get(appended, r, 6) == Col(rows[r - 2], 6);
      assert Get(factors, r, 7) == Formula(LoopFormula(InstanceFactors, r, 7));
      assert Get(factors, r, 8) == Formula(LoopFormula(InstanceFactors, r, 8));
    }
    assert rows[4] == Schema.InstanceCells(xs[4]);
    assert Get(factors, 6, 5) == Get(appended, 6, 5) == Col(rows[4], 5);
  }

  lemma InstanceFactorsSheetLaid(headers: seq<string>, xs: seq<Schema.Instance>)
    requires |xs| == InstanceCount
    ensures FactorsLaid(InstanceFactorsSheet(headers, xs), xs)
  {
    var rows := InstanceRows(xs);
    var appended := Tabulated(headers, rows);
    GetTabulated(headers, rows);
    FillRowsFilled(InstanceFactors, appended, 2, 2 + |xs|);
    FactorsLaidFrom(xs, rows, appended, FillRows(InstanceFactors, appended, 2, 2 + |xs|));
  }

  /** The instances layout follows from the unit-factor sheet, the Value
      formulas and the Canonical_SI loop; the sheets are taken as given here. */
  lemma InstancesLaidFrom(xs: seq<Schema.Instance>, factors: Sheet, valued: Sheet, sh: Sheet)
    requires |xs| == InstanceCount && xs[4].value.Number? && FactorsLaid(factors, xs)
    requires ValuesWritten(factors, valued)
    requires Filled(CanonicalSI, valued, sh, 2, 2 + |xs|)
    ensures InstancesLaid(sh, xs) && Get(sh, 6, 5) == xs[4].value && CoversDataRows(sh, InstRange)
  {
    forall r: nat | 2 <= r <= 1 + |xs|
      ensures Get(sh, r, 1) == Text(xs[r - 2].id)
      ensures Get(sh, r, 6) == Text(xs[r - 2].unitId)
      ensures Get(sh, r, 7) == Formula(UnitFactor(r, 6, 5))
      ensures Get(sh, r, 8) == Formula(UnitFactor(r, 6, 6))
      ensures Get(sh, r, 9) == Formula(Affine(r, 5, 7, 8))
    {
      assert Get(sh, r, 1) == Get(valued, r, 1) == Get(factors, r, 1);
      assert Get(sh, r, 6) == Get(valued, r, 6) == Get(factors, r, 6);
      assert Get(sh, r, 7) == Get(valued, r, 7) == Get(factors, r, 7);
      assert Get(sh, r, 8) == Get(valued, r, 8) == Get(factors, r, 8);
      assert Get(sh, r, 9) == Formula(LoopFormula(CanonicalSI, r, 9));
    }
    assert Get(sh, 6, 5) == Get(valued, 6, 5) == Get(factors, 6, 5);
    assert Get(sh, 2, 5) == Get(valued, 2, 5);
    assert Get(sh, 3, 5) == Get(valued, 3, 5);
    assert Get(sh, 4, 5) == Get(valued, 4, 5);
    assert Get(sh, 5, 5) == Get(valued, 5, 5);
    assert Get(sh, 7, 5) == Get(valued, 7, 5);
  }

  lemma InstancesSheetLaid(headers: seq<string>, xs: seq<Schema.Instance>)
    requires |xs| == InstanceCount && xs[4].value.Number?
    ensures InstancesLaid(InstancesSheet(headers, xs), xs) && Get(InstancesSheet(headers, xs), 6, 5) == xs[4].value
    ensures CoversDataRows(InstancesSheet(headers, xs), InstRange)
  {
    var factors := InstanceFactorsSheet(headers, xs);
    var valued := InstanceValues(factors);
    InstanceFactorsSheetLaid(headers, xs);
    InstanceValuesWritten(factors);
    FillRowsFilled(CanonicalSI, valued, 2, 2 + |xs|);
    InstancesLaidFrom(xs, factors, valued, FillRows(CanonicalSI, valued, 2, 2 + |xs|));
  }

  /** The Value formulas of E2 to E5 and E7, written into a sheet that
      already reaches row 7. */
  method WriteInstanceValues(ws: Worksheet)
    requires ws.Valid() && 7 <= ws.maxRow
    modifies ws
    ensures ws.Valid() && ws.maxRow == old(ws.maxRow)
    ensures ws.cells == InstanceValues(old(ws.cells))
  {
    ws.Set(2, 5, Formula(InstE2));
    ws.Set(3, 5, Formula(InstE3));
    ws.Set(4, 5, Formula(InstE4));
    ws.Set(5, 5, Formula(InstE5));
    ws.Set(7, 5, Formula(InstE7));
  }

  /** Fills D_Instances: the header, the literal rows, the unit-factor
      loop, the Value formulas, then the Canonical_SI loop. */
  method BuildInstances(headers: seq<string>, xs: seq<Schema.Instance>) returns (sheet: Sheet)
    requires |xs| == InstanceCount
    ensures sheet == InstancesSheet(headers, xs)
  {
    var ws := new Worksheet();
    ws.Append(Schema.TextRow(headers));
    AppendAll(ws, InstanceRows(xs));
    RunLoop(ws, InstanceFactors, 2, ws.maxRow + 1);
    WriteInstanceValues(ws);
    RunLoop(ws, CanonicalSI, 2, ws.maxRow + 1);
    sheet := ws.cells;
  }

  // ---- D_Claims ----

  function ClaimRows(xs: seq<Schema.Claim>): seq<seq<Cell>>
  {
    Rows(xs, Schema.ClaimCells)
  }

  /** The CL4 patch: row 5 compares F_eV_to_J with C_e, SI_3 is emptied
      and RangeAbs and Pass are rewritten. */
  function CL4Patch(sh: Sheet): Sheet
  {
    sh[(CL4Row, 9) := Formula(CL4SI1)][(CL4Row, 10) := Formula(CL4SI2)][(CL4Row, 11) := Text("")]
      [(CL4Row, 12) := Formula(CL4Range)][(CL4Row, 13) := Formula(ClaimPass(CL4Row))]
  }

  /** The patch rewrites columns 9 to 13 of row 5 and no other cell. */
  lemma CL4PatchOnlyRow5(sh: Sheet)
    ensures forall r: nat, c: nat :: !(r == CL4Row && 9 <= c <= 13) ==> Get(CL4Patch(sh), r, c) == Get(sh, r, c)
    ensures Get(CL4Patch(sh), CL4Row, 9) == Formula(CL4SI1) && Get(CL4Patch(sh), CL4Row, 10) == Formula(CL4SI2)
    ensures Get(CL4Patch(sh), CL4Row, 11) == Text("") && Get(CL4Patch(sh), CL4Row, 12) == Formula(CL4Range)
    ensures Get(CL4Patch(sh), CL4Row, 13) == Formula(ClaimPass(CL4Row))
  {
  }

  /** The claims sheet: the literal rows, the claims loop, then the patch. */
  function ClaimsSheet(headers: seq<string>, xs: seq<Schema.Claim>): Sheet
  {
    CL4Patch(FillRows(ClaimFormulas, Tabulated(headers, ClaimRows(xs)), 2, 2 + |xs|))
  }

  /** The columns of claim row r that the formulas read, as written. */
  ghost predicate ClaimInputsAt(sh: Sheet, xs: seq<Schema.Claim>, r: nat)
    requires 2 <= r <= 1 + |xs|
  {
    && Get(sh, r, 1) == Text(xs[r - 2].id)
    && Get(sh, r, 3) == Text(xs[r - 2].claimType)
    && Get(sh, r, 5) == Text(xs[r - 2].instance1)
    && Get(sh, r, 6) == Text(xs[r - 2].instance2)
    && Get(sh, r, 7) == Text(xs[r - 2].instance3)
    && Get(sh, r, 8) == Number(xs[r - 2].tolerance)
  }

  /** Every claim row keeps its id, type, instance ids and tolerance;
      every row carries the formulas of the claims loop in columns I to N,
      except that the CL4 row carries the patched ones in columns I to M. */
  ghost predicate ClaimsLaid(sh: Sheet, xs: seq<Schema.Claim>)
  {
    && (forall r :: 2 <= r <= 1 + |xs| ==> ClaimInputsAt(sh, xs, r))
    && (forall r: nat, c: nat :: 2 <= r < CL4Row && 9 <= c <= 14 ==> Get(sh, r, c) == Formula(ClaimFormula(r, c)))
    && Get(sh, CL4Row, 14) == Formula(ClaimFormula(CL4Row, 14))
    && Get(sh, CL4Row, 9) == Formula(CL4SI1)
    && Get(sh, CL4Row, 10) == Formula(CL4SI2)
    && Get(sh, CL4Row, 11) == Text("")
    && Get(sh, CL4Row, 12) == Formula(CL4Range)
    && Get(sh, CL4Row, 13) == Formula(ClaimPass(CL4Row))
  }

  /** The claims layout follows from what the literal rows, the claims
      loop and the patch each write; the sheets are taken as given here. */
  lemma ClaimsLaidFrom(xs: seq<Schema.Claim>, rows: seq<seq<Cell>>, appended: Sheet, filled: Sheet, patched: Sheet)
    requires |rows| == |xs| == ClaimCount
    requires forall i :: 0 <= i < |rows| ==> rows[i] == Schema.ClaimCells(xs[i])
    requires RowsFrom2(appended, rows)
    requires Filled(ClaimFormulas, appended, filled, 2, 2 + |xs|)
    requires forall r: nat, c: nat :: !(r == CL4Row && 9 <= c <= 13) ==> Get(patched, r, c) == Get(filled, r, c)
    requires Get(patched, CL4Row, 9) == Formula(CL4SI1) && Get(patched, CL4Row, 10) == Formula(CL4SI2)
    requires Get(patched, CL4Row, 11) == Text("") && Get(patched, CL4Row, 12) == Formula(CL4Range)
    requires Get(patched, CL4Row, 13) == Formula(ClaimPass(CL4Row))
    ensures ClaimsLaid(patched, xs) && CoversDataRows(patched, ClaimsRange)
  {
    forall r: nat | 2 <= r <= 1 + |xs|
      ensures ClaimInputsAt(patched, xs, r)
    {
      var row := rows[r - 2];
      assert row == Schema.ClaimCells(xs[r - 2]);
      forall c: nat | 1 <= c <= 8 ensures Get(patched, r, c) == Col(row, c) {
        assert Get(patched, r, c) == Get(filled, r, c) == Get(appended, r, c);
      }
      assert Col(row, 1) == Text(xs[r - 2].id);
      assert Col(row, 3) == Text(xs[r - 2].claimType);
      assert Col(row, 5) == Text(xs[r - 2].instance1);
      assert Col(row, 6) == Text(xs[r - 2].instance2);
      assert Col(row, 7) == Text(xs[r - 2].instance3);
      assert Col(row, 8) == Number(xs[r - 2].tolerance);
    }
    forall r: nat, c: nat | 2 <= r < CL4Row && 9 <= c <= 14
      ensures Get(patched, r, c) == Formula(ClaimFormula(r, c))
    {
      assert Get(patched, r, c) == Get(filled, r, c);
    }
    assert Get(patched, CL4Row, 14) == Get(filled, CL4Row, 14);
  }

  lemma ClaimsSheetLaid(headers: seq<string>, xs: seq<Schema.Claim>)
    requires |xs| == ClaimCount
    ensures ClaimsLaid(ClaimsSheet(headers, xs), xs) && CoversDataRows(ClaimsSheet(headers, xs), ClaimsRange)
  {
    var rows := ClaimRows(xs);
    var appended := Tabulated(headers, rows);
    var filled := FillRows(ClaimFormulas, appended, 2, 2 + |xs|);
    GetTabulated(headers, rows);
    FillRowsFilled(ClaimFormulas, appended, 2, 2 + |xs|);
    CL4PatchOnlyRow5(filled);
    ClaimsLaidFrom(xs, rows, appended, filled, CL4Patch(filled));
  }

  /** Fills D_Claims: the header, the literal rows, the claims loop, then
      the CL4 patch. */
  method BuildClaims(headers: seq<string>, xs: seq<Schema.Claim>) returns (sheet: Sheet)
    ensures sheet == ClaimsSheet(headers, xs)
  {
    var ws := new Worksheet();
    ws.Append(Schema.TextRow(headers));
    AppendAll(ws, ClaimRows(xs));
    RunLoop(ws, ClaimFormulas, 2, ws.maxRow + 1);
    ws.Set(CL4Row, 9, Formula(CL4SI1));
    ws.Set(CL4Row, 10, Formula(CL4SI2));
    ws.Set(CL4Row, 11, Text(""));
    ws.Set(CL4Row, 12, Formula(CL4Range));
    ws.Set(CL4Row, 13, Formula(ClaimPass(CL4Row)));
    sheet := ws.cells;
  }

  // ---- D_Questions ----

  function QuestionRows(xs: seq<Schema.Question>): seq<seq<Cell>>
  {
    Rows(xs, Schema.QuestionCells)
  }

  /** D2 to D7: the answers to Q0 to Q5. */
  function Answers(sh: Sheet): Sheet
  {
    sh[(2, 4) := Formula(QuestionD2)][(3, 4) := Formula(QuestionD3)][(4, 4) := Formula(QuestionD4)]
      [(5, 4) := Formula(QuestionD5)][(6, 4) := Formula(QuestionD6)][(7, 4) := Formula(QuestionD7)]
  }

  function QuestionsSheet(headers: seq<string>, xs: seq<Schema.Question>): Sheet
  {
    Answers(Tabulated(headers, QuestionRows(xs)))
  }

  /** Every question row keeps its id; D2 to D7 hold the answers to Q0 to Q5. */
  ghost predicate QuestionsLaid(sh: Sheet, ids: seq<string>)
  {
    && (forall r :: 2 <= r <= 1 + |ids| ==> Get(sh, r, 1) == Text(ids[r - 2]))
    && Get(sh, 2, 4) == Formula(QuestionD2)
    && Get(sh, 3, 4) == Formula(QuestionD3)
    && Get(sh, 4, 4) == Formula(QuestionD4)
    && Get(sh, 5, 4) == Formula(QuestionD5)
    && Get(sh, 6, 4) == Formula(QuestionD6)
    && Get(sh, 7, 4) == Formula(QuestionD7)
  }

  lemma QuestionsLaidFrom(xs: seq<Schema.Question>, rows: seq<seq<Cell>>, appended: Sheet)
    requires |rows| == |xs|
    requires forall i :: 0 <= i < |rows| ==> rows[i] == Schema.QuestionCells(xs[i])
    requires forall r: nat, c: nat :: 2 <= r <= 1 + |rows| ==> Get(appended, r, c) == Col(rows[r - 2], c)
    ensures QuestionsLaid(Answers(appended), Schema.QuestionIds(xs))
  {
    var sh := Answers(appended);
    forall r: nat | 2 <= r <= 1 + |xs|
      ensures Get(sh, r, 1) == Text(xs[r - 2].id)
    {
      assert rows[r - 2] == Schema.QuestionCells(xs[r - 2]);
      assert Get(sh, r, 1) == Get(appended, r, 1) == Col(rows[r - 2], 1);
    }
  }

  lemma QuestionsSheetLaid(headers: seq<string>, xs: seq<Schema.Question>)
    ensures QuestionsLaid(QuestionsSheet(headers, xs), Schema.QuestionIds(xs))
  {
    var rows := QuestionRows(xs);
    GetTabulated(headers, rows);
    QuestionsLaidFrom(xs, rows, Tabulated(headers, rows));
  }

  /** Fills D_Questions: the header, the literal rows, then D2 to D7. */
  method BuildQuestions(headers: seq<string>, xs: seq<Schema.Question>) returns (sheet: Sheet)
    ensures sheet == QuestionsSheet(headers, xs)
  {
    var ws := new Worksheet();
    ws.Append(Schema.TextRow(headers));
    AppendAll(ws, QuestionRows(xs));
    ws.Set(2, 4, Formula(QuestionD2));
    ws.Set(3, 4, Formula(QuestionD3));
    ws.Set(4, 4, Formula(QuestionD4));
    ws.Set(5, 4, Formula(QuestionD5));
    ws.Set(6, 4, Formula(QuestionD6));
    ws.Set(7, 4, Formula(QuestionD7));
    sheet := ws.cells;
  }

  // ---- A_Dashboard ----

  /** The title and the labels in column A. */
  function DashboardLabels(sh: Sheet): Sheet
  {
    sh[(1, 1) := Text("Dashboard")][(3, 1) := Text("Key computed values (SI):")]
      [(4, 1) := Text("Electron rest energy (calc) [J]")][(5, 1) := Text("Electron rest energy (CODATA) [J]")]
      [(6, 1) := Text("Absolute zero [K]")][(8, 1) := Text("Claims passing")]
      [(9, 1) := Text("Claims total")][(11, 1) := Text("Questions (TRUE/FALSE):")]
  }

  /** B4, B5, B6, B8 and B9. */
  function DashboardValues(sh: Sheet): Sheet
  {
    sh[(4, 2) := Formula(DashboardEcalc)][(5, 2) := Formula(DashboardMec2)][(6, 2) := Formula(DashboardAbs0)]
      [(8, 2) := Formula(PassingCount)][(9, 2) := Formula(ClaimsTotal)]
  }

  /** The dashboard: labels, key values, then one mirrored row per question. */
  function DashboardSheet(labelled: Sheet, questions: nat): Sheet
  {
    FillRows(QuestionMirror, DashboardValues(labelled), 2, 2 + questions)
  }

  /** The key values, the pass count and total, and one mirrored row per question. */
  ghost predicate DashboardLaid(sh: Sheet, questions: nat)
  {
    && Get(sh, 4, 2) == Formula(DashboardEcalc)
    && Get(sh, 5, 2) == Formula(DashboardMec2)
    && Get(sh, 6, 2) == Formula(DashboardAbs0)
    && Get(sh, 8, 2) == Formula(PassingCount)
    && Get(sh, 9, 2) == Formula(ClaimsTotal)
    && forall r: nat :: 2 <= r <= 1 + questions ==>
         && Get(sh, r + 10, 1) == Formula(DashboardQuestion(r))
         && Get(sh, r + 10, 2) == Formula(DashboardAnswer(r))
  }

  /** DashboardValues writes B4, B5, B6, B8 and B9. */
  lemma DashboardValuesWritten(sh: Sheet)
    ensures Get(DashboardValues(sh), 4, 2) == Formula(DashboardEcalc)
    ensures Get(DashboardValues(sh), 5, 2) == Formula(DashboardMec2)
    ensures Get(DashboardValues(sh), 6, 2) == Formula(DashboardAbs0)
    ensures Get(DashboardValues(sh), 8, 2) == Formula(PassingCount)
    ensures Get(DashboardValues(sh), 9, 2) == Formula(ClaimsTotal)
  {
  }

  lemma DashboardLaidFrom(valued: Sheet, sh: Sheet, questions: nat)
    requires Get(valued, 4, 2) == Formula(DashboardEcalc)
    requires Get(valued, 5, 2) == Formula(DashboardMec2)
    requires Get(valued, 6, 2) == Formula(DashboardAbs0)
    requires Get(valued, 8, 2) == Formula(PassingCount)
    requires Get(valued, 9, 2) == Formula(ClaimsTotal)
    requires Filled(QuestionMirror, valued, sh, 2, 2 + questions)
    ensures DashboardLaid(sh, questions)
  {
    assert Get(sh, 4, 2) == Get(valued, 4, 2);
    assert Get(sh, 5, 2) == Get(valued, 5, 2);
    assert Get(sh, 6, 2) == Get(valued, 6, 2);
    assert Get(sh, 8, 2) == Get(valued, 8, 2);
    assert Get(sh, 9, 2) == Get(valued, 9, 2);
    forall r: nat | 2 <= r <= 1 + questions
      ensures Get(sh, r + 10, 1) == Formula(DashboardQuestion(r))
      ensures Get(sh, r + 10, 2) == Formula(DashboardAnswer(r))
    {
      assert Get(sh, r + 10, 1) == Formula(LoopFormula(QuestionMirror, r, 1));
      assert Get(sh, r + 10, 2) == Formula(LoopFormula(QuestionMirror, r, 2));
    }
  }

  lemma DashboardSheetLaid(labelled: Sheet, questions: nat)
    ensures DashboardLaid(DashboardSheet(labelled, questions), questions)
  {
    var valued := DashboardValues(labelled);
    DashboardValuesWritten(labelled);
    FillRowsFilled(QuestionMirror, valued, 2, 2 + questions);
    DashboardLaidFrom(valued, FillRows(QuestionMirror, valued, 2, 2 + questions), questions);
  }

  /** Fills A_Dashboard: labels, key values, then one row per question. */
  method BuildDashboard(questions: nat) returns (sheet: Sheet)
    ensures sheet == DashboardSheet(DashboardLabels(map[]), questions)
  {
    var ws := new Worksheet();
    ws.Set(1, 1, Text("Dashboard"));
    ws.Set(3, 1, Text("Key computed values (SI):"));
    ws.Set(4, 1, Text("Electron rest energy (calc) [J]"));
    ws.Set(5, 1, Text("Electron rest energy (CODATA) [J]"));
    ws.Set(6, 1, Text("Absolute zero [K]"));
    ws.Set(8, 1, Text("Claims passing"));
    ws.Set(9, 1, Text("Claims total"));
    ws.Set(11, 1, Text("Questions (TRUE/FALSE):"));
    ws.Set(4, 2, Formula(DashboardEcalc));
    ws.Set(5, 2, Formula(DashboardMec2));
    ws.Set(6, 2, Formula(DashboardAbs0));
    ws.Set(8, 2, Formula(PassingCount));
    ws.Set(9, 2, Formula(ClaimsTotal));
    RunLoop(ws, QuestionMirror, 2, 2 + questions);
    sheet := ws.cells;
  }

  // ---- The workbook ----

  /** Each sheet of the built workbook: the layout its formulas rely on,
      and, for the five lookup targets, a range that covers exactly its
      data rows. The constants' Value cells and the Value of I_Tabs0_K are
      inputs: any number may stand there and every formula still sits
      where it was written. */
  ghost predicate UnitsReady(sh: Sheet) { UnitsLaid(sh, Units.Table) && CoversDataRows(sh, UnitsRange) }
  ghost predicate ConstantsReady(sh: Sheet) { ConstantsLaid(sh, Schema.Constants) && CoversDataRows(sh, ConstRange) }
  ghost predicate CalcsReady(sh: Sheet) { CalcsLaid(sh, Schema.Calculations) && CoversDataRows(sh, CalcsRange) }
  ghost predicate InstancesReady(sh: Sheet) { InstancesLaid(sh, Schema.Instances) && CoversDataRows(sh, InstRange) }
  ghost predicate ClaimsReady(sh: Sheet) { ClaimsLaid(sh, Schema.Claims) && CoversDataRows(sh, ClaimsRange) }
  ghost predicate QuestionsReady(sh: Sheet) { QuestionsLaid(sh, SourceQuestionIds) }

  ghost predicate Layout(wb: Workbook)
  {
    && UnitsReady(wb.units)
    && ConstantsReady(wb.constants)
    && CalcsReady(wb.calcs)
    && InstancesReady(wb.instances)
    && ClaimsReady(wb.claims)
    && QuestionsReady(wb.questions)
    && DashboardLaid(wb.dashboard, QuestionCount)
  }

  /** The input cells hold the numbers the builder writes. */
  ghost predicate SourceInputs(wb: Workbook)
  {
    SourceConstantValues(wb.constants, Schema.Constants) && Get(wb.instances, 6, 5) == Number(0.0)
  }

  lemma UnitsBuilt()
    ensures UnitsReady(UnitsSheet(Schema.UnitHeaders, Units.Table))
  {
    assert |Units.Table| == UnitCount;
    UnitsSheetLaid(Schema.UnitHeaders, Units.Table);
  }

  lemma ConstantsBuilt()
    ensures ConstantsReady(ConstantsSheet(Schema.ConstantHeaders, Schema.Constants))
    ensures SourceConstantValues(ConstantsSheet(Schema.ConstantHeaders, Schema.Constants), Schema.Constants)
  {
    assert |Schema.Constants| == ConstantCount;
    ConstantsSheetLaid(Schema.ConstantHeaders, Schema.Constants);
  }

  lemma CalcsBuilt()
    ensures CalcsReady(CalculationsSheet(Schema.CalculationHeaders, Schema.Calculations))
  {
    assert |Schema.Calculations| == CalculationCount;
    CalculationsSheetLaid(Schema.CalculationHeaders, Schema.Calculations);
  }

  lemma InstancesBuilt()
    ensures InstancesReady(InstancesSheet(Schema.InstanceHeaders, Schema.Instances))
    ensures Get(InstancesSheet(Schema.InstanceHeaders, Schema.Instances), 6, 5) == Number(0.0)
  {
    assert |Schema.Instances| == InstanceCount && Schema.Instances[4].value == Number(0.0);
    InstancesSheetLaid(Schema.InstanceHeaders, Schema.Instances);
  }

  lemma ClaimsBuilt()
    ensures ClaimsReady(ClaimsSheet(Schema.ClaimHeaders, Schema.Claims))
  {
    assert |Schema.Claims| == ClaimCount;
    ClaimsSheetLaid(Schema.ClaimHeaders, Schema.Claims);
  }

  /** The ids of the source's questions. */
  const SourceQuestionIds: seq<string> := ["Q0", "Q1", "Q2", "Q3", "Q4", "Q5"]

  lemma SourceQuestionIdsListed()
    ensures Schema.QuestionIds(Schema.Questions) == SourceQuestionIds
  {
  }

  lemma QuestionsBuilt()
    ensures QuestionsReady(QuestionsSheet(Schema.QuestionHeaders, Schema.Questions))
  {
    QuestionsSheetLaid(Schema.QuestionHeaders, Schema.Questions);
    SourceQuestionIdsListed();
  }

  /** The workbook build_workbook writes, sheet by sheet. */
  function Built(): Workbook
  {
    Workbook(UnitsSheet(Schema.UnitHeaders, Units.Table),
             ConstantsSheet(Schema.ConstantHeaders, Schema.Constants),
             CalculationsSheet(Schema.CalculationHeaders, Schema.Calculations),
             InstancesSheet(Schema.InstanceHeaders, Schema.Instances),
             ClaimsSheet(Schema.ClaimHeaders, Schema.Claims),
             QuestionsSheet(Schema.QuestionHeaders, Schema.Questions),
             DashboardSheet(DashboardLabels(map[]), QuestionCount))
  }

  /** build_workbook, without styling, tables and the file write: the
      workbook it builds has the formula layout and the source's inputs. */
  method BuildWorkbook() returns (wb: Workbook)
    ensures wb == Built()
    ensures Layout(wb) && SourceInputs(wb)
  {
    assert |Schema.Instances| == InstanceCount && |Schema.Questions| == QuestionCount;
    var units := BuildUnits(Schema.UnitHeaders, Units.Table);
    var constants := BuildConstants(Schema.ConstantHeaders, Schema.Constants);
    var calcs := BuildCalculations(Schema.CalculationHeaders, Schema.Calculations);
    var instances := BuildInstances(Schema.InstanceHeaders, Schema.Instances);
    var claims := BuildClaims(Schema.ClaimHeaders, Schema.Claims);
    var questions := BuildQuestions(Schema.QuestionHeaders, Schema.Questions);
    var dashboard := BuildDashboard(QuestionCount);
    wb := Workbook(units, constants, calcs, instances, claims, questions, dashboard);
    UnitsBuilt();
    ConstantsBuilt();
    CalcsBuilt();
    InstancesBuilt();
    ClaimsBuilt();
    QuestionsBuilt();
    DashboardSheetLaid(DashboardLabels(map[]), QuestionCount);
  }
}
