# ia2xl workbook assembly, modelled in Dafny

`ia2xl` turns a parsed behavioural-coding interview into a spreadsheet
workbook. The configuration says which coding and global properties exist
and lists each property's legal values. This project models the engine that
lays the workbook out:

- **Interview sheet.** The workbook's first sheet is renamed "Interview".
  Its header is `Line, Utt, Role`, one column per coding property, then
  `Text`. Below the header comes one row per utterance with blank coding
  cells. The sheet is protected with the password "Interview", and the
  coding cells are unlocked one by one.
- **Global Ratings sheet.** This sheet is inserted at index 1. Its header is
  `Global, Rating`, followed by one row per global property. It is protected
  with "Globals", and column B is unlocked.
- **Reference sheets.** Each property gets one reference sheet, named
  `<display_name>_<property_id>`. It holds a header and then one row per
  legal value. Each value is converted to the property's declared type
  (int, float or str). The sheet is then protected and hidden. When the name
  is already taken, no sheet is created and the function returns `None`.
- **List-validation rules.** Each rule takes its values from column A,
  rows 2 to `max_row`, of a reference sheet. It is installed either on a
  coding column of the Interview sheet, rows 2 to `max_row`, or on the
  single cell `B<row>` of the Global Ratings sheet.
- **Allocation loop.** The loop walks the coding properties and then the
  global properties. Each coding property gets the next column letter, from
  `chr(68)` = 'D' on. Each global property gets the next row, from 2 on.

The model has these modules, one file each:

- `Wrappers`: `Option` and `Result`.
- `Strings`: Python's `str()` and `int()` on decimals, and openpyxl's
  `quote_sheetname` in its openpyxl 3 form, which quotes every name and
  doubles its apostrophes. Each comes with the parser that inverts it.
- `Spreadsheet`: the part of openpyxl the engine uses.
  - `Sheet` is a class whose fields are its rows, protection flag,
    password, visibility, unlocked cells and validation rules.
  - `Workbook` is a class holding the ordered list of sheets. Its invariant
    is that no two sheets share a title. Creating a sheet whose title holds
    one of `\ * ? : / [ ]` raises ValueError, as openpyxl's title setter does.
- `Config`: properties, property values and utterances, taken as
  already-parsed input.
- `ReferenceSheets`: `_append_validation_sheet_`.
- `Validation`: `_set_validation_` and `_set_global_validation_`, plus a
  reader that parses a rule's source formula and target range back.
- `DataSheets`: `_build_interview_sheet_` and `_build_global_sheet_`.
- `Orchestrator`: the allocation loop of `ia2xl`.

Every state-changing method is specified by the snapshot `Sheet.View()` of
the sheets it changes. The snapshot is stated in terms of a specification
function of the inputs (`ReferenceView`, `InterviewView`, `GlobalView`,
`ColumnRules`, `RowRules`). Lemmas prove what those functions mean: round
trips, which cells are unlocked, which range each rule targets, and when a
run fails.

A reference-sheet name that is already taken is not skipped by the loop.
`_append_validation_sheet_` prints "Aborting" and returns `None`
(ia2xl.py:51-52). The loop passes that `None` on to `_set_validation_`
(ia2xl.py:209, ia2xl.py:221), which reads `vsheet.title` (ia2xl.py:76) and
so raises. `Orchestrator.Assemble` reports this as the error
`ReferenceSheetMissing`.

## Model

| member | source | states |
|---|---|---|
| Strings.NatToString | ia2xl.py:214 | `str(n)` of a non-negative integer is a non-empty string of decimal digits |
| Strings.NatToStringDenotes | ia2xl.py:214 | `str(n)` denotes `n`; it starts with '0' only for 0; it is one digit long exactly when n < 10 |
| Strings.ParseNatToString | ia2xl.py:214 | parsing `str(n)` gives back `n` |
| Strings.NatToStringInjective | ia2xl.py:214 | two numbers print the same exactly when they are equal, so distinct rows get distinct addresses |
| Strings.CanonicalDigits | ia2xl.py:214 | every digit string without a superfluous leading zero is `str()` of its value |
| Strings.ParseIntToString | ia2xl.py:36-42 | `int(str(i)) == i` for every integer, negative ones included |
| Strings.QuoteSheetName | ia2xl.py:80-83 | a quoted sheet name starts and ends with an apostrophe |
| Strings.ReadQuotedEscaped | ia2xl.py:80-83 | reading an escaped name back stops at the closing apostrophe and returns the name and what follows |
| Strings.QuoteRoundTrip | ia2xl.py:80-83 | unquoting `quote_sheetname(title) + rest` returns `title` and `rest` |
| Spreadsheet.Sheet.constructor | ia2xl.py:31 | a new sheet is blank: no rows, unprotected, visible, nothing unlocked, no rules |
| Spreadsheet.Sheet.SetTitle | ia2xl.py:138 | only the title changes |
| Spreadsheet.Sheet.Append | ia2xl.py:148 | the row is added below the last one; nothing else changes |
| Spreadsheet.Sheet.EnableProtection | ia2xl.py:46 | only the protection flag is set |
| Spreadsheet.Sheet.SetPassword | ia2xl.py:47 | only the password is set |
| Spreadsheet.Sheet.Hide | ia2xl.py:49 | only the visibility becomes hidden |
| Spreadsheet.Sheet.Unlock | ia2xl.py:153 | exactly the one addressed cell joins the unlocked set |
| Spreadsheet.Sheet.AddDataValidation | ia2xl.py:93 | exactly one rule is appended to the sheet's rules |
| Spreadsheet.TitlesOf | ia2xl.py:26 | `sheetnames` has one entry per sheet, its title, in order |
| Spreadsheet.Insert | ia2xl.py:105 | inserting into a list makes it one element longer |
| Spreadsheet.InsertKeepsDistinct | ia2xl.py:105 | inserting a title that is not yet present keeps the titles unique |
| Spreadsheet.TitlesOfInsert | ia2xl.py:105 | the titles after inserting a sheet are the old titles with its title inserted at the same index |
| Spreadsheet.Workbook.constructor | ia2xl.py:187 | a new workbook holds one blank sheet titled "Sheet" |
| Spreadsheet.Workbook.CreateSheet | ia2xl.py:31 | it raises (no sheet, workbook unchanged) exactly when the title holds a forbidden character; otherwise a fresh blank sheet is inserted at the index (appended without one); the titles stay unique |
| ReferenceSheets.ValueTypeOf | ia2xl.py:36-37 | int exactly when numeric with 0 decimal digits, float exactly when numeric otherwise, str exactly when not numeric |
| ReferenceSheets.CoerceRoundTrip | ia2xl.py:42 | converting `str(i)` with int gives `i`; str and float keep the text as it is |
| ReferenceSheets.FirstFailure | ia2xl.py:41-42 | every value before the returned index converts, and the value at the index does not |
| ReferenceSheets.AppendValidationSheet | ia2xl.py:24-52 | see below the table |
| ReferenceSheets.FillReferenceSheet | ia2xl.py:32-50 | after its header the sheet holds one converted row per value; then it is protected with `pwd` and hidden; if a conversion fails, it stops at that value |
| ReferenceSheets.WriteValues | ia2xl.py:41-42 | the result is true exactly when every value converts; the rows are the converted values in order, or the prefix before the first failure |
| ReferenceSheets.ReferenceColumnListsValues | ia2xl.py:41-42 | a sheet with m values has `max_row` = m + 1, and column A of row i + 2 holds the i-th converted value |
| Validation.ListSourceRoundTrip | ia2xl.py:80-83 | the source formula parses back to the reference sheet's title and its `max_row` |
| Validation.ListSourceInjective | ia2xl.py:58-61 | two source formulas are equal exactly when they name the same sheet and the same last row |
| Validation.ColumnTargetRange | ia2xl.py:89-90 | in column mode the target is column `idx`, rows 2 to the data sheet's `max_row` |
| Validation.GlobalTargetCell | ia2xl.py:62 | in global mode the target is exactly the one cell `B<row>` |
| Validation.SetValidation | ia2xl.py:66-93 | exactly one rule is appended to the data sheet: a list rule, blanks allowed, whose source is the reference sheet's column A and whose target is set by the mode; nothing else changes |
| Validation.SetGlobalValidation | ia2xl.py:55-63 | exactly one rule is appended: the same list rule, targeting `B<row_number>` |
| DataSheets.CodingColumn | ia2xl.py:152-153 | for at most 23 coding properties, `chr(68 + j)` is a column letter from 'D' to 'Z' |
| DataSheets.ColumnAddressingLimit | ia2xl.py:152-153 | 23 is the exact bound: every cell of columns `chr(68)`..`chr(90)` is an address `Sheet.Unlock` accepts, while the 24th column `chr(91)` = '[' gives no cell address and a column rule on it names no range |
| DataSheets.CodingBlockMembership | ia2xl.py:152-153 | a cell is in the unlocked block exactly when it lies in columns `chr(68)`..`chr(67 + k)` and in the block's rows |
| DataSheets.BuildInterviewSheet | ia2xl.py:137-153 | corrected builder: the active sheet becomes "Interview" with the header and one row per utterance, protected with "Interview", and its coding cells unlocked in rows 2..n+1; the titles stay unique |
| DataSheets.BuildInterviewSheetAsWritten | ia2xl.py:144-153 | the builder as written: the same sheet, but its coding cells are unlocked in rows 1..n |
| DataSheets.RenameFirstSheet | ia2xl.py:137-138 | the active sheet gets the new title, and the titles stay unique |
| DataSheets.StartInterviewSheet | ia2xl.py:137-142 | the renamed sheet holds only the header and is protected with "Interview" |
| DataSheets.UnlockCodingCells | ia2xl.py:152-153 | exactly the row's cells in columns `chr(68)`..`chr(67 + k)` are added to the unlocked set |
| DataSheets.InterviewRowsRoundTrip | ia2xl.py:139-148 | row 1 is the header; row i + 2 holds utterance i, read back unchanged, with k blank coding cells; so input order is kept |
| DataSheets.CodingColumnHoldsHeader | ia2xl.py:139 | coding property j's header sits at the position of its column letter `chr(68 + j)` |
| DataSheets.AsWrittenUnlocksHeader | ia2xl.py:144-153 | as written, cell D1 of the header row is unlocked and cell D<n + 1> of the last utterance stays locked |
| DataSheets.CorrectedUnlocksDataRows | ia2xl.py:144-153 | corrected, a cell is unlocked exactly when it is a coding cell of a data row, rows 2 to n + 1 |
| DataSheets.BuildGlobalSheet | ia2xl.py:105-129 | "Global Ratings" is inserted at index 1 and filled as described; the titles stay unique |
| DataSheets.FillGlobalSheet | ia2xl.py:106-127 | the header, one name row per global in order, protection with "Globals", and B1..B<g + 1> unlocked |
| DataSheets.GlobalRowHoldsName | ia2xl.py:112-127 | row j + 2 holds the j-th global's name and its B cell is unlocked; a cell is unlocked exactly when it is in column B, rows 1 to g + 1 |
| Orchestrator.ExpectedFailureStep | ia2xl.py:208-221 | one turn of the loop either raises that property's error or leaves the rest of the run with one more sheet name taken |
| Orchestrator.StepFailureCases | ia2xl.py:209-221 | a taken name raises `None.title`; a title with a forbidden character raises ValueError in `create_sheet`; a value that does not convert raises ValueError; otherwise the turn succeeds |
| Orchestrator.CoercibleIffNoFailure | ia2xl.py:41-42 | every value converts exactly when no conversion fails |
| Orchestrator.AdmissibleCons | ia2xl.py:208-209 | the properties are admissible exactly when the first one's name is fresh and a valid title, its values convert, and the rest are admissible with its name taken |
| Orchestrator.NoFailureIff | ia2xl.py:208-221 | a run raises nothing exactly when all reference-sheet names are distinct, none is "Interview" or "Global Ratings", none holds a forbidden title character, and every value converts |
| Orchestrator.DuplicateNameFails | ia2xl.py:209 | two properties with the same sheet name make the run fail on the second one with `ReferenceSheetMissing` |
| Orchestrator.ColumnRulesAt | ia2xl.py:217-221 | there is one Interview rule per coding property, the j-th for column `chr(68 + j)` |
| Orchestrator.RowRulesAt | ia2xl.py:213-221 | there is one Global Ratings rule per global property, the j-th for row j + 2 |
| Orchestrator.ColumnRulesGrow | ia2xl.py:217-221 | one more coding property adds exactly its rule at the end |
| Orchestrator.RowRulesGrow | ia2xl.py:213-221 | one more global property adds exactly its rule at the end |
| Orchestrator.CodingRuleAllocation | ia2xl.py:217-221 | see below the table |
| Orchestrator.CodingColumnsIncrease | ia2xl.py:217-218 | allocated columns strictly increase, so no two coding rules share a target |
| Orchestrator.GlobalRuleAllocation | ia2xl.py:213-215 | see below the table |
| Orchestrator.GlobalRowsIncrease | ia2xl.py:213-214 | allocated rows strictly increase, so no two global rules share a target |
| Orchestrator.EmptyPropertySource | ia2xl.py:80-83 | a property without values gives a sheet with `max_row` 1 and the source range `$A$2:$A$1` |
| Orchestrator.AppendTwice | ia2xl.py:26-52 | the first call returns `None` exactly when the name was taken; for a valid title the second call is the `None` no-op and the net effect is at most one new sheet with that name; for an invalid title both calls raise and nothing is added |
| Orchestrator.Assemble | ia2xl.py:172-223 | see below the table |
| Orchestrator.AllocateAll | ia2xl.py:208-221 | the loop raises exactly the first error the run predicts; without one, every reference sheet and rule is in place |
| Orchestrator.StartWorkbook | ia2xl.py:187-192 | the workbook holds just "Interview" and "Global Ratings"; the Interview sheet has its coding cells unlocked from row 1 (as written) or row 2 (corrected), as the flag says |
| Orchestrator.BuildInterview | ia2xl.py:191 | the Interview sheet is built as written (coding cells unlocked in rows 1..n) or corrected (rows 2..n+1), as the flag says; the workbook keeps its sheets and unique titles |
| Orchestrator.AssembledAsWrittenShiftsUnlock | ia2xl.py:144-153 | in the workbook the program as written returns, D1 is unlocked, D<n + 1> stays locked, and the rule on column D covers rows 2 to n + 1 |
| Orchestrator.AssembledAtEnd | ia2xl.py:208-223 | an admissible run that has handled every property has produced the workbook `AssembledAs` describes |
| Orchestrator.BuiltAsPlanned | ia2xl.py:208-223 | after the last turn, every sheet and every rule is the one planned for it |
| Orchestrator.AllocateProperty | ia2xl.py:208-221 | one turn adds the property's sheet and then its rule (next column, or next global row), and advances exactly one counter |
| Orchestrator.KindOfPosition | ia2xl.py:211 | properties are global exactly from position k on |
| Orchestrator.ReferenceStep | ia2xl.py:209 | the turn's reference sheet is appended with the planned contents and `max_row` m + 1, or the turn's error is raised |
| Orchestrator.AppendReference | ia2xl.py:209 | `_append_validation_sheet_` without a password, and the error it leads to |
| Orchestrator.GlobalStep | ia2xl.py:212-221 | the global's rule targets `B<global_row>` and is appended to the Global Ratings sheet |
| Orchestrator.CodingStep | ia2xl.py:216-221 | the coding property's rule targets column `chr(property_column)` and is appended to the Interview sheet |
| Orchestrator.SheetsApart | ia2xl.py:191-192 | the two data sheets are distinct objects, and distinct from every reference sheet |

These four rows need more than one sentence.

- **ReferenceSheets.AppendValidationSheet.** If the name is taken, the result
  is `None` and the workbook is unchanged. If the name holds a forbidden
  title character, `create_sheet` raises and the workbook is unchanged.
  Otherwise exactly one new sheet with that name is appended. If every value converts, that sheet holds the
  header and one row per value, in order. It is protected with the explicit
  password, or else with its own name, and it is hidden. If a conversion
  fails, the error names the first failing value.
- **Orchestrator.CodingRuleAllocation.** Coding property j's rule is a list
  rule that allows blanks. Its source parses back to the property's own
  reference sheet, rows 2 to m + 1. Its target parses to column
  `chr(68 + j)`, rows 2 to n + 1. That column's header is the property's
  name.
- **Orchestrator.GlobalRuleAllocation.** Global j's rule is a list rule that
  allows blanks, and its source is the global's own reference sheet. Its
  target parses to the single cell `B<j + 2>`. Row j + 2 holds the global's
  name, and that cell is unlocked.
- **Orchestrator.Assemble.** The run fails exactly when the failure
  prediction says it will, and then it fails with the predicted error.
  Its flag says whether the Interview builder runs as written (coding cells
  unlocked from row 1) or corrected (from row 2). Otherwise it returns the
  workbook with these sheets, in order:
  - Interview, Global Ratings, and one reference sheet per property.
  - Every rule in place.
  - No two titles alike.

## Left out

- Parsing of the configuration and the interview, which is done by `caastools`. Properties and utterances are parameters that arrive already parsed, and the kind of each property stands in for the `isinstance` test.
- Serialising the workbook to a file, and openpyxl's password hashing. The model stores the password as a string.
- Styling: borders, alignment, column widths and page setup. These do not change cell contents, protection or rules.
- The `print` on a duplicate name. It is output only; the model keeps the `None` result.
- Float conversion: a float value keeps the literal it was converted from. No floating-point arithmetic is modelled, and no float conversion fails.
- Int conversion accepts an optional sign followed by ASCII digits. Python's `int()` also accepts surrounding whitespace, underscores between digits and non-ASCII Unicode decimal digits (`int('٣') == 3`); these are not modelled.
- Spreadsheet.Workbook.CreateSheet: requires a title not already in `sheetnames`. openpyxl compares titles without regard to case and would rename a title equal to an existing one up to case by appending a number; this renaming is not modelled. The check at ia2xl.py:26 is case-sensitive, so two properties whose names differ only in case (`Mood_P1`, `mood_P1`) reach this renaming in the source. The model instead titles the second sheet `mood_P1`, where openpyxl would title it `mood_P11` and the rule's source would name that sheet.
- Spreadsheet.Workbook.CreateSheet: requires a non-empty title. openpyxl would substitute its default title for an empty one. A reference-sheet name always contains '_', so the engine never passes an empty title.
- Spreadsheet.Workbook.CreateSheet: the warning openpyxl gives for a title longer than 31 characters is output only and is not modelled.
- Orchestrator.NoFailureIff: the names are compared as Python's `in` compares them, case-sensitively, and the taken names are the unrenamed titles. Because openpyxl's renaming is not modelled, the "exactly when" does not hold for the program once a rename has happened. A later property whose name equals the renamed title makes the source fail, while `ExpectedFailure` predicts success. Example: three properties named `Mood_P1`, `mood_P1` and `mood_P11`, all with text values. openpyxl titles the second sheet `mood_P11`. So for the third property `"mood_P11" in workbook.sheetnames` holds (ia2xl.py:26), `None` is returned, and `vsheet.title` raises (ia2xl.py:76). The model takes `mood_P1` as the second name and predicts a clean run. Without such a later clash, names that differ only in case make neither the source nor the model fail.
- `max_row` is modelled as the number of appended rows, or 1 when none was appended. Apart from `append`, the engine addresses cells only in rows that `append` has already written (the unlock loops at ia2xl.py:124-127 and ia2xl.py:152-153), so `max_row` stays the number of appended rows.
- Orchestrator.Assemble: requires at most 23 coding properties. Past that, the 24th column `chr(91)` = '[' is no column letter (see `DataSheets.ColumnAddressingLimit`), and openpyxl would reject the address; that failure is not modelled as an error result.
- Orchestrator.Assemble: for reference-sheet names equal up to case, `AssembledAs` gives the second sheet the unrenamed title (see the `CreateSheet` line above). The source's workbook differs in that title and in the rule source that names it. `r.Failure? <==> ExpectedFailure(...)` also misses the failure that a later property named like the renamed title causes in the source. With `Mood_P1`, `mood_P1`, `mood_P11` the source raises on the third property, while `Assemble` succeeds (see the `Orchestrator.NoFailureIff` line).
- Orchestrator.Assemble: a failed run returns only the error. The partly built workbook it leaves behind is described by `AppendValidationSheet` (`PartialView`), not by `Assemble`.

## Findings

| source | as written | input that shows it | evidently intended | confidence | as-written member | corrected member |
|---|---|---|---|---|---|---|
| ia2xl.py:144-153 | the unlock loop numbers utterances from 1 and unlocks `chr(col)` of row `i`, which is one row above the data just appended (the header row for the first utterance) | one coding property and one utterance: D1, the header cell, is unlocked; D2, the utterance's coding cell, stays locked | unlock the coding cells of the data rows 2..n+1 | not executed | DataSheets.BuildInterviewSheetAsWritten, DataSheets.AsWrittenUnlocksHeader, Orchestrator.AssembledAsWrittenShiftsUnlock | DataSheets.BuildInterviewSheet, DataSheets.CorrectedUnlocksDataRows |
