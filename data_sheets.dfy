/**
 * The two editable sheets: "Interview" (`_build_interview_sheet_`), one row
 * per utterance with a blank column per coding property, and "Global
 * Ratings" (`_build_global_sheet_`), one row per global property.
 */
module DataSheets {
  import opened Wrappers
  import opened Spreadsheet
  import opened Config
  import opened Validation

  /** Coding columns are addressed with `chr(68 + j)`, a single letter only up to 'Z'. */
  const MaxCodingProperties: nat := 23

  /** `chr(68 + j)`: the column of the j-th coding property. */
  function CodingColumn(j: nat): (c: char)
    requires j < MaxCodingProperties
    ensures 'D' <= c <= 'Z'
  {
    (68 + j) as char
  }

  /** The 0-based position of a column letter in a row (A is 0). */
  function ColumnPosition(c: char): int
  {
    c as int - 'A' as int
  }

  /**
   * 23 is exactly the number of coding columns `chr(68 + j)` can address:
   * every cell of the first 23 is an address `Sheet.Unlock` accepts, the
   * 24th column `chr(91)` is '[' and yields no cell address, and a column
   * rule on it names no range.
   */
  lemma ColumnAddressingLimit(row: nat, dataMaxRow: nat)
    requires row >= 1
    ensures forall j :: 0 <= j < MaxCodingProperties ==> IsCellAddress(Coord(CodingColumn(j), row))
    ensures (68 + MaxCodingProperties) as char == '['
    ensures !IsCellAddress(Coord((68 + MaxCodingProperties) as char, row))
    ensures ParseRange(Target([(68 + MaxCodingProperties) as char], false, dataMaxRow)) == None
  {
  }

  // ---------------------------------------------------------------- Interview

  function DisplayNames(ps: seq<Property>): (cells: seq<Cell>)
  {
    seq(|ps|, j requires 0 <= j < |ps| => Str(ps[j].displayName))
  }

  /** `['Line', 'Utt', 'Role'] + [cp.display_name ...] + ['Text']` */
  function InterviewHeader(coding: seq<Property>): seq<Cell>
  {
    [Str("Line"), Str("Utt"), Str("Role")] + DisplayNames(coding) + [Str("Text")]
  }

  /** The row of one utterance: line, utterance number, role, k blank coding cells, text. */
  function UtteranceRow(u: Utterance, k: nat): seq<Cell>
  {
    [u.lineNumber, u.utteranceNumber, u.role] + seq(k, _ => Blank) + [u.text]
  }

  function UtteranceRows(utts: seq<Utterance>, k: nat): seq<seq<Cell>>
  {
    seq(|utts|, i requires 0 <= i < |utts| => UtteranceRow(utts[i], k))
  }

  /** Reads an utterance back from its row. */
  function RowUtterance(row: seq<Cell>, k: nat): Utterance
    requires |row| == k + 4
  {
    Utterance(row[0], row[1], row[2], row[k + 3])
  }

  /** The coding cells of columns `chr(68)` .. `chr(67 + k)` in rows `lo` .. `hi - 1`. */
  function CodingBlock(k: nat, lo: nat, hi: nat): set<Coord>
    requires k <= MaxCodingProperties
  {
    set j: nat, r: nat | j < k && lo <= r < hi :: Coord(CodingColumn(j), r)
  }

  /** The coding cells of the first `j` coding columns in row `r`. */
  function RowBlock(j: nat, r: nat): set<Coord>
    requires j <= MaxCodingProperties
  {
    set i: nat | i < j :: Coord(CodingColumn(i), r)
  }

  /** The Interview sheet after the builder, its coding cells unlocked from row `firstUnlocked` on. */
  function InterviewView(coding: seq<Property>, utts: seq<Utterance>, firstUnlocked: nat): SheetView
    requires |coding| <= MaxCodingProperties
  {
    SheetView("Interview", [InterviewHeader(coding)] + UtteranceRows(utts, |coding|),
              true, Some("Interview"), Visible,
              CodingBlock(|coding|, firstUnlocked, firstUnlocked + |utts|), [])
  }

  lemma RowBlockGrows(j: nat, r: nat)
    requires j < MaxCodingProperties
    ensures RowBlock(j + 1, r) == RowBlock(j, r) + {Coord(CodingColumn(j), r)}
  {
  }

  lemma CodingBlockGrows(k: nat, lo: nat, hi: nat)
    requires k <= MaxCodingProperties && lo <= hi
    ensures CodingBlock(k, lo, hi + 1) == CodingBlock(k, lo, hi) + RowBlock(k, hi)
  {
  }

  /** A cell lies in a coding block exactly when it is in a coding column and in the block's rows. */
  lemma CodingBlockMembership(k: nat, lo: nat, hi: nat, c: Coord)
    requires k <= MaxCodingProperties
    ensures c in CodingBlock(k, lo, hi) <==> 68 <= c.column as int < 68 + k && lo <= c.row < hi
  {
    if 68 <= c.column as int < 68 + k && lo <= c.row < hi {
      var j: nat := c.column as int - 68;
      assert CodingColumn(j) == c.column;
    }
  }

  /**
   * `_build_interview_sheet_` with the unlock loop addressing the data row
   * just appended (row i + 1 for the i-th utterance, counting from 1).
   */
  method BuildInterviewSheet(wb: Workbook, coding: seq<Property>, utts: seq<Utterance>) returns (sheet: Sheet)
    requires wb.Valid() && |wb.sheets| >= 1
    requires wb.sheets[0].View() == BlankView(wb.sheets[0].title)
    requires "Interview" !in wb.Titles()[1..]
    requires |coding| <= MaxCodingProperties
    modifies wb.sheets[0]
    ensures sheet == wb.sheets[0] && wb.sheets == old(wb.sheets)
    ensures wb.Valid() && wb.Titles() == ["Interview"] + old(wb.Titles())[1..]
    ensures sheet.View() == InterviewView(coding, utts, 2)
  {
    var k := |coding|;
    sheet := wb.sheets[0];
    StartInterviewSheet(wb, coding);
    var i := 0;
    while i < |utts|
      invariant 0 <= i <= |utts|
      invariant sheet.View() == InterviewView(coding, utts[..i], 2)
      modifies sheet`rows, sheet`unlocked
    {
      sheet.Append(UtteranceRow(utts[i], k));
      UnlockCodingCells(sheet, k, i + 2);
      CodingBlockGrows(k, 2, 2 + i);
      assert UtteranceRows(utts[..i + 1], k) == UtteranceRows(utts[..i], k) + [UtteranceRow(utts[i], k)];
      i := i + 1;
    }
    assert utts[..i] == utts;
  }

  /**
   * `_build_interview_sheet_` exactly as written: the unlock loop uses the
   * utterance's 1-based position `i` as the row, one row above its data.
   */
  method BuildInterviewSheetAsWritten(wb: Workbook, coding: seq<Property>, utts: seq<Utterance>) returns (sheet: Sheet)
    requires wb.Valid() && |wb.sheets| >= 1
    requires wb.sheets[0].View() == BlankView(wb.sheets[0].title)
    requires "Interview" !in wb.Titles()[1..]
    requires |coding| <= MaxCodingProperties
    modifies wb.sheets[0]
    ensures sheet == wb.sheets[0] && wb.sheets == old(wb.sheets)
    ensures wb.Valid() && wb.Titles() == ["Interview"] + old(wb.Titles())[1..]
    ensures sheet.View() == InterviewView(coding, utts, 1)
  {
    var k := |coding|;
    sheet := wb.sheets[0];
    StartInterviewSheet(wb, coding);
    var i := 0;
    while i < |utts|
      invariant 0 <= i <= |utts|
      invariant sheet.View() == InterviewView(coding, utts[..i], 1)
      modifies sheet`rows, sheet`unlocked
    {
      sheet.Append(UtteranceRow(utts[i], k));
      UnlockCodingCells(sheet, k, i + 1);
      CodingBlockGrows(k, 1, 1 + i);
      assert UtteranceRows(utts[..i + 1], k) == UtteranceRows(utts[..i], k) + [UtteranceRow(utts[i], k)];
      i := i + 1;
    }
    assert utts[..i] == utts;
  }

  /** `wb.active.title = t`, for a title no other sheet carries. */
  method RenameFirstSheet(wb: Workbook, sheet: Sheet, t: string)
    requires wb.Valid() && |wb.sheets| >= 1 && wb.sheets[0] == sheet
    requires t !in wb.Titles()[1..]
    modifies sheet`title
    ensures wb.Valid() && wb.Titles() == [t] + old(wb.Titles())[1..]
    ensures sheet.View() == old(sheet.View()).(title := t)
  {
    ghost var titles := wb.Titles();
    sheet.SetTitle(t);
    assert wb.Titles() == [t] + titles[1..];
    DistinctNewHead(titles, t);
  }

  lemma DistinctNewHead(titles: seq<string>, t: string)
    requires |titles| >= 1 && Distinct(titles) && t !in titles[1..]
    ensures Distinct([t] + titles[1..])
  {
    var s := [t] + titles[1..];
    forall i, j | 0 <= i < j < |s| ensures s[i] != s[j] {
      if i == 0 {
        assert s[j] in titles[1..];
      } else {
        assert s[i] == titles[i] && s[j] == titles[j];
      }
    }
  }

  /** Renames the active sheet, writes the header and protects the sheet with "Interview". */
  method StartInterviewSheet(wb: Workbook, coding: seq<Property>)
    requires wb.Valid() && |wb.sheets| >= 1
    requires wb.sheets[0].View() == BlankView(wb.sheets[0].title)
    requires "Interview" !in wb.Titles()[1..]
    requires |coding| <= MaxCodingProperties
    modifies wb.sheets[0]
    ensures wb.Valid() && wb.Titles() == ["Interview"] + old(wb.Titles())[1..]
    ensures wb.sheets[0].View() == InterviewView(coding, [], 1) && wb.sheets[0].View() == InterviewView(coding, [], 2)
  {
    var sheet := wb.sheets[0];
    RenameFirstSheet(wb, sheet, "Interview");
    ghost var titles := wb.Titles();
    sheet.Append(InterviewHeader(coding));
    sheet.EnableProtection();
    sheet.SetPassword("Interview");
    assert wb.Titles() == titles;
    assert UtteranceRows([], |coding|) == [];
  }

  /** The inner `for col, cp in enumerate(coding_properties, 68)` loop: unlocks the coding cells of one row. */
  method UnlockCodingCells(sheet: Sheet, k: nat, row: nat)
    requires k <= MaxCodingProperties && row >= 1
    modifies sheet`unlocked
    ensures sheet.View() == old(sheet.View()).(unlocked := old(sheet.unlocked) + RowBlock(k, row))
  {
    var j := 0;
    while j < k
      invariant 0 <= j <= k
      invariant sheet.View() == old(sheet.View()).(unlocked := old(sheet.unlocked) + RowBlock(j, row))
    {
      sheet.Unlock(Coord(CodingColumn(j), row));
      RowBlockGrows(j, row);
      j := j + 1;
    }
  }

  /** Row i + 1 holds utterance i: reading the data rows back gives the interview, in order. */
  lemma {:induction false} InterviewRowsRoundTrip(coding: seq<Property>, utts: seq<Utterance>, firstUnlocked: nat)
    requires |coding| <= MaxCodingProperties
    ensures var rows := InterviewView(coding, utts, firstUnlocked).rows;
      |rows| == |utts| + 1
      && rows[0] == InterviewHeader(coding)
      && forall i :: 0 <= i < |utts| ==>
           |rows[i + 1]| == |coding| + 4 && RowUtterance(rows[i + 1], |coding|) == utts[i]
           && rows[i + 1][3..3 + |coding|] == seq(|coding|, _ => Blank)
  {
  }

  /** The j-th coding property's header sits at the position of its column letter `chr(68 + j)`. */
  lemma CodingColumnHoldsHeader(coding: seq<Property>, j: nat)
    requires |coding| <= MaxCodingProperties && j < |coding|
    ensures |InterviewHeader(coding)| == |coding| + 4
    ensures ColumnPosition(CodingColumn(j)) == 3 + j
    ensures InterviewHeader(coding)[ColumnPosition(CodingColumn(j))] == Str(coding[j].displayName)
  {
  }

  /** As written, the coding cells of the header row are unlocked and those of the last utterance stay locked. */
  lemma AsWrittenUnlocksHeader(coding: seq<Property>, utts: seq<Utterance>)
    requires 1 <= |coding| <= MaxCodingProperties && |utts| >= 1
    ensures Coord('D', 1) in InterviewView(coding, utts, 1).unlocked
    ensures Coord('D', |utts| + 1) !in InterviewView(coding, utts, 1).unlocked
  {
    CodingBlockMembership(|coding|, 1, 1 + |utts|, Coord('D', 1));
    CodingBlockMembership(|coding|, 1, 1 + |utts|, Coord('D', |utts| + 1));
  }

  /** Corrected, a cell is unlocked exactly when it is a coding cell of a data row (rows 2 .. n + 1). */
  lemma CorrectedUnlocksDataRows(coding: seq<Property>, utts: seq<Utterance>, c: Coord)
    requires |coding| <= MaxCodingProperties
    ensures c in InterviewView(coding, utts, 2).unlocked <==>
      3 <= ColumnPosition(c.column) < 3 + |coding| && 2 <= c.row <= |utts| + 1
  {
    CodingBlockMembership(|coding|, 2, 2 + |utts|, c);
  }

  // ---------------------------------------------------------------- Global Ratings

  const GlobalHeader: seq<Cell> := [Str("Global"), Str("Rating")]

  function NameRows(globals: seq<Property>): seq<seq<Cell>>
  {
    seq(|globals|, j requires 0 <= j < |globals| => [Str(globals[j].displayName)])
  }

  /** Cells B1 .. B<m>. */
  function RatingCells(m: nat): set<Coord>
  {
    set r: nat | 1 <= r <= m :: Coord('B', r)
  }

  /** The Global Ratings sheet after the builder. */
  function GlobalView(globals: seq<Property>): SheetView
  {
    SheetView("Global Ratings", [GlobalHeader] + NameRows(globals), true, Some("Globals"), Visible,
              RatingCells(|globals| + 1), [])
  }

  /** `_build_global_sheet_`: created at index 1. */
  method BuildGlobalSheet(wb: Workbook, globals: seq<Property>) returns (sheet: Sheet)
    requires wb.Valid() && "Global Ratings" !in wb.Titles()
    modifies wb
    ensures fresh(sheet) && wb.sheets == Insert(old(wb.sheets), sheet, Some(1))
    ensures wb.Valid() && wb.Titles() == Insert(old(wb.Titles()), "Global Ratings", Some(1))
    ensures sheet.View() == GlobalView(globals)
  {
    assert ValidTitle("Global Ratings");
    var created := wb.CreateSheet("Global Ratings", Some(1));
    sheet := created.value;
    ghost var titles := wb.Titles();
    FillGlobalSheet(sheet, globals);
    assert wb.Titles() == titles;
  }

  /** Header, protection, one row per global, then `B<i>` unlocked for every row i. */
  method FillGlobalSheet(sheet: Sheet, globals: seq<Property>)
    requires sheet.View() == BlankView("Global Ratings")
    modifies sheet`rows, sheet`protected, sheet`password, sheet`unlocked
    ensures sheet.View() == GlobalView(globals)
  {
    sheet.Append(GlobalHeader);
    sheet.EnableProtection();
    sheet.SetPassword("Globals");
    var j := 0;
    while j < |globals|
      invariant 0 <= j <= |globals|
      invariant sheet.View() == BlankView("Global Ratings").(rows := [GlobalHeader] + NameRows(globals[..j]),
                                                             protected := true, password := Some("Globals"))
      modifies sheet`rows
    {
      sheet.Append([Str(globals[j].displayName)]);
      assert NameRows(globals[..j + 1]) == NameRows(globals[..j]) + [[Str(globals[j].displayName)]];
      j := j + 1;
    }
    assert globals[..j] == globals;
    var i := 1;
    while i <= |sheet.rows|
      invariant 1 <= i <= |sheet.rows| + 1
      invariant |sheet.rows| == |globals| + 1
      invariant sheet.View() == GlobalView(globals).(unlocked := RatingCells(i - 1))
      modifies sheet`unlocked
    {
      sheet.Unlock(Coord('B', i));
      assert RatingCells(i) == RatingCells(i - 1) + {Coord('B', i)};
      i := i + 1;
    }
  }

  /** The j-th global's name is in row j + 2, whose rating cell is unlocked; nothing outside column B is. */
  lemma GlobalRowHoldsName(globals: seq<Property>, j: nat, c: Coord)
    requires j < |globals|
    ensures GlobalView(globals).rows[j + 1] == [Str(globals[j].displayName)]
    ensures Coord('B', j + 2) in GlobalView(globals).unlocked
    ensures c in GlobalView(globals).unlocked <==> c.column == 'B' && 1 <= c.row <= |globals| + 1
  {
    if c.column == 'B' && 1 <= c.row <= |globals| + 1 {
      assert c == Coord('B', c.row);
    }
  }
}
