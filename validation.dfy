/**
 * Validation wiring (`_set_validation_`, `_set_global_validation_`): a
 * "list" rule whose source is column A, rows 2 to `max_row`, of a reference
 * sheet, allowing blanks, installed on a target range of a data sheet.
 */
module Validation {
  import opened Wrappers
  import opened Strings
  import opened Spreadsheet

  /** `f"{quote_sheetname(title)}!$A$2:$A${max_row}"` */
  function ListSource(title: string, maxRow: nat): string
  {
    QuoteSheetName(title) + "!$A$2:$A$" + NatToString(maxRow)
  }

  /** Reads back the sheet title and last row from a list source formula. */
  function ParseListSource(f: string): Option<(string, nat)>
  {
    match UnquoteSheetName(f)
    case None => None
    case Some((title, rest)) =>
      if |rest| >= 9 && rest[..9] == "!$A$2:$A$" then
        match ParseNat(rest[9..])
        case Some(m) => Some((title, m))
        case None => None
      else None
  }

  /** The source formula names its reference sheet and its last row unambiguously. */
  lemma ListSourceRoundTrip(title: string, maxRow: nat)
    ensures ParseListSource(ListSource(title, maxRow)) == Some((title, maxRow))
  {
    var tail := "!$A$2:$A$" + NatToString(maxRow);
    assert ListSource(title, maxRow) == QuoteSheetName(title) + tail;
    QuoteRoundTrip(title, tail);
    assert tail[..9] == "!$A$2:$A$" && tail[9..] == NatToString(maxRow);
    ParseNatToString(maxRow);
  }

  lemma ListSourceInjective(t1: string, m1: nat, t2: string, m2: nat)
    ensures ListSource(t1, m1) == ListSource(t2, m2) <==> t1 == t2 && m1 == m2
  {
    ListSourceRoundTrip(t1, m1);
    ListSourceRoundTrip(t2, m2);
  }

  /** The target address `_set_validation_` builds from `idx` (a column letter, or a row number in global mode). */
  function Target(idx: string, isGlobal: bool, dataMaxRow: nat): string
  {
    if isGlobal then "B" + idx else idx + "2:" + idx + NatToString(dataMaxRow)
  }

  /** The rule `_set_validation_` installs. */
  function ValidationRule(idx: string, isGlobal: bool, sourceTitle: string, sourceMaxRow: nat, dataMaxRow: nat): DataValidation
  {
    DataValidation("list", ListSource(sourceTitle, sourceMaxRow), true, Target(idx, isGlobal, dataMaxRow))
  }

  predicate IsColumnLetter(c: char) { 'A' <= c <= 'Z' }

  /** A rectangular range within one column: rows `first` to `last`. */
  datatype CellRange = CellRange(column: char, first: nat, last: nat)

  predicate InRange(c: Coord, r: CellRange)
  {
    c.column == r.column && r.first <= c.row <= r.last
  }

  function IndexOfColon(s: string): (r: Option<nat>)
    ensures r.Some? ==> r.value < |s| && s[r.value] == ':'
    ensures r.Some? ==> forall i :: 0 <= i < r.value ==> s[i] != ':'
    ensures r.None? ==> forall i :: 0 <= i < |s| ==> s[i] != ':'
  {
    if s == [] then None
    else if s[0] == ':' then Some(0)
    else match IndexOfColon(s[1..]) case None => None case Some(k) => Some(k + 1)
  }

  /** Reads a single-letter address `C<r>` or a range `C<a>:C<b>` back into a range. */
  function ParseRange(s: string): Option<CellRange>
  {
    if |s| < 2 || !IsColumnLetter(s[0]) then None
    else
      match IndexOfColon(s)
      case None =>
        (match ParseNat(s[1..]) case Some(r) => Some(CellRange(s[0], r, r)) case None => None)
      case Some(k) =>
        if 1 <= k && k + 1 < |s| && s[k + 1] == s[0] then
          match (ParseNat(s[1..k]), ParseNat(s[k + 2..]))
          case (Some(a), Some(b)) => Some(CellRange(s[0], a, b))
          case _ => None
        else None
  }

  /** In column mode the target is the whole column from row 2 to the data sheet's last row. */
  lemma ColumnTargetRange(c: char, dataMaxRow: nat)
    requires IsColumnLetter(c)
    ensures ParseRange(Target([c], false, dataMaxRow)) == Some(CellRange(c, 2, dataMaxRow))
  {
    var s := Target([c], false, dataMaxRow);
    assert s[1] == '2' && s[2] == ':' && s[3] == c;
    assert IndexOfColon(s) == Some(2) by {
      assert s[0] != ':' && s[1] != ':';
    }
    assert s[1..2] == "2";
    assert s[4..] == NatToString(dataMaxRow);
    ParseNatToString(dataMaxRow);
    assert ParseNat("2") == Some(2);
  }

  /** In global mode the target is the single cell in column B of the given row. */
  lemma GlobalTargetCell(row: nat, dataMaxRow: nat)
    ensures ParseRange(Target(NatToString(row), true, dataMaxRow)) == Some(CellRange('B', row, row))
  {
    var s := Target(NatToString(row), true, dataMaxRow);
    assert s[1..] == NatToString(row);
    assert forall i :: 1 <= i < |s| ==> IsDigit(s[i]) by {
      assert forall i :: 1 <= i < |s| ==> s[i] == NatToString(row)[i - 1];
    }
    assert IndexOfColon(s) == None;
    ParseNatToString(row);
  }

  /** `_set_validation_(data_sheet, idx, vsheet, is_global)` */
  method SetValidation(dataSheet: Sheet, idx: string, vsheet: Sheet, isGlobal: bool)
    modifies dataSheet`validations
    ensures dataSheet.View() == old(dataSheet.View()).(validations := old(dataSheet.validations) +
      [ValidationRule(idx, isGlobal, vsheet.title, vsheet.MaxRow(), dataSheet.MaxRow())])
  {
    var validationTitle := vsheet.title;
    var dv := DataValidation("list", ListSource(validationTitle, vsheet.MaxRow()), true, "");
    var column := if !isGlobal then idx else "B";
    var cellAddress := if isGlobal then "B" + idx else column + "2:" + column + NatToString(dataSheet.MaxRow());
    dv := dv.(sqref := cellAddress);
    dataSheet.AddDataValidation(dv);
  }

  /** `_set_global_validation_(data_sheet, row_number, vsheet)`: the same rule as global mode of `_set_validation_`. */
  method SetGlobalValidation(dataSheet: Sheet, rowNumber: int, vsheet: Sheet)
    modifies dataSheet`validations
    ensures dataSheet.View() == old(dataSheet.View()).(validations := old(dataSheet.validations) +
      [ValidationRule(IntToString(rowNumber), true, vsheet.title, vsheet.MaxRow(), dataSheet.MaxRow())])
  {
    var validationTitle := vsheet.title;
    var dv := DataValidation("list", ListSource(validationTitle, vsheet.MaxRow()), true, "");
    dv := dv.(sqref := "B" + IntToString(rowNumber));
    dataSheet.AddDataValidation(dv);
  }
}
