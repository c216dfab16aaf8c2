/**
 * The orchestrator (`ia2xl`): builds the Interview and Global Ratings
 * sheets, then walks the coding properties followed by the global
 * properties, creating each one's reference sheet and validating the next
 * coding column (from `chr(68)` on) or the next global row (from 2 on).
 */
module Orchestrator {
  import opened Wrappers
  import opened Strings
  import opened Spreadsheet
  import opened Config
  import opened ReferenceSheets
  import opened Validation
  import opened DataSheets

  /** The exceptions that abort a run. */
  datatype AssemblyError =
    | ReferenceSheetMissing(name: string)              // `None.title`: the name was already taken
    | InvalidSheetTitle(name: string)                  // `create_sheet` raised ValueError on the title
    | ValueNotConvertible(sheetName: string, value: string)  // `int(value)` raised ValueError

  const DataSheetTitles: seq<string> := ["Interview", "Global Ratings"]

  function ReferenceNames(ps: seq<Property>): seq<string>
  {
    seq(|ps|, j requires 0 <= j < |ps| => ReferenceName(ps[j]))
  }

  /** The exception one turn of the loop raises for `p` when the workbook already holds the sheets `taken`. */
  function StepFailure(p: Property, taken: seq<string>): Option<AssemblyError>
  {
    var name := ReferenceName(p);
    var f := FirstFailure(ValueTypeOf(p), p.values);
    if name in taken then Some(ReferenceSheetMissing(name))
    else if !ValidTitle(name) then Some(InvalidSheetTitle(name))
    else if f < |p.values| then Some(ValueNotConvertible(name, p.values[f].value))
    else None
  }

  /**
   * The first exception the run raises, walking the properties in order with
   * `taken` the sheet names already in the workbook.
   */
  function ExpectedFailure(props: seq<Property>, taken: seq<string>): Option<AssemblyError>
  {
    if props == [] then None
    else if StepFailure(props[0], taken).Some? then StepFailure(props[0], taken)
    else ExpectedFailure(props[1..], taken + [ReferenceName(props[0])])
  }

  /** The loop's turn `i` either raises the step's exception or hands the rest of the run one more taken name. */
  lemma ExpectedFailureStep(props: seq<Property>, i: nat, base: seq<string>)
    requires i < |props|
    ensures var taken := base + ReferenceNames(props[..i]);
      StepFailure(props[i], taken).Some? ==> ExpectedFailure(props[i..], taken) == StepFailure(props[i], taken)
    ensures var taken := base + ReferenceNames(props[..i]);
      StepFailure(props[i], taken).None? ==>
        ExpectedFailure(props[i..], taken) == ExpectedFailure(props[i + 1..], base + ReferenceNames(props[..i + 1]))
  {
    assert props[i..][0] == props[i] && props[i..][1..] == props[i + 1..];
    assert props[..i + 1] == props[..i] + [props[i]];
    assert ReferenceNames(props[..i + 1]) == ReferenceNames(props[..i]) + [ReferenceName(props[i])];
    assert base + ReferenceNames(props[..i + 1]) == base + ReferenceNames(props[..i]) + [ReferenceName(props[i])];
  }

  /** The three outcomes of `StepFailure`, in terms of what `_append_validation_sheet_` sees. */
  lemma StepFailureCases(p: Property, taken: seq<string>)
    ensures ReferenceName(p) in taken ==> StepFailure(p, taken) == Some(ReferenceSheetMissing(ReferenceName(p)))
    ensures ReferenceName(p) !in taken && !ValidTitle(ReferenceName(p)) ==>
      StepFailure(p, taken) == Some(InvalidSheetTitle(ReferenceName(p)))
    ensures ReferenceName(p) !in taken && ValidTitle(ReferenceName(p)) && Coercible(p) ==> StepFailure(p, taken) == None
    ensures ReferenceName(p) !in taken && ValidTitle(ReferenceName(p)) && !Coercible(p) ==>
      StepFailure(p, taken) == Some(ValueNotConvertible(ReferenceName(p), p.values[FirstFailure(ValueTypeOf(p), p.values)].value))
  {
    CoercibleIffNoFailure(p);
  }

  lemma CoercibleIffNoFailure(p: Property)
    ensures Coercible(p) <==> FirstFailure(ValueTypeOf(p), p.values) == |p.values|
  {
  }

  /** Every property's sheet name is fresh (not taken, not repeated) and a valid title, and every value converts. */
  ghost predicate Admissible(props: seq<Property>, taken: seq<string>)
  {
    && Distinct(ReferenceNames(props))
    && forall j :: 0 <= j < |props| ==> Fits(props[j], taken)
  }

  /** One property's own conditions: its sheet name is not taken and is a valid title, and its values convert. */
  predicate Fits(p: Property, taken: seq<string>)
  {
    ReferenceName(p) !in taken && ValidTitle(ReferenceName(p)) && Coercible(p)
  }

  /** Peeling off the first property: admissible exactly when its name is fresh, it converts and the rest is admissible. */
  lemma AdmissibleCons(props: seq<Property>, taken: seq<string>)
    requires props != []
    ensures Admissible(props, taken) <==>
      && Fits(props[0], taken)
      && Admissible(props[1..], taken + [ReferenceName(props[0])])
  {
    var name := ReferenceName(props[0]);
    var rest := props[1..];
    var names, rn := ReferenceNames(props), ReferenceNames(rest);
    assert forall j :: 0 <= j < |rest| ==> rn[j] == names[j + 1];
    if Admissible(props, taken) {
      forall j | 0 <= j < |rest| ensures Fits(rest[j], taken + [name]) {
        assert names[0] != names[j + 1];
        assert rest[j] == props[j + 1];
      }
      forall j1, j2 | 0 <= j1 < j2 < |rn| ensures rn[j1] != rn[j2] {
        assert names[j1 + 1] != names[j2 + 1];
      }
    }
    if Fits(props[0], taken) && Admissible(rest, taken + [name]) {
      forall j | 0 <= j < |props| ensures Fits(props[j], taken) {
        if j > 0 {
          assert props[j] == rest[j - 1];
        }
      }
      forall j1, j2 | 0 <= j1 < j2 < |names| ensures names[j1] != names[j2] {
        if j1 > 0 {
          assert names[j1] == rn[j1 - 1] && names[j2] == rn[j2 - 1];
        } else {
          assert props[j2] == rest[j2 - 1];
          assert ReferenceName(rest[j2 - 1]) !in taken + [name];
        }
      }
    }
  }

  /**
   * A run succeeds exactly when every reference-sheet name is new (distinct
   * from the taken names and from each other) and a valid title, and every
   * value converts.
   */
  lemma {:induction false} NoFailureIff(props: seq<Property>, taken: seq<string>)
    ensures ExpectedFailure(props, taken) == None <==> Admissible(props, taken)
  {
    if props != [] {
      StepFailureCases(props[0], taken);
      AdmissibleCons(props, taken);
      NoFailureIff(props[1..], taken + [ReferenceName(props[0])]);
    }
  }

  /**
   * Two properties with the same sheet name: the second `_append_validation_sheet_`
   * returns `None` and the run stops on `None.title`.
   */
  lemma DuplicateNameFails(p: Property, q: Property, taken: seq<string>)
    requires ReferenceName(p) == ReferenceName(q) && Fits(p, taken)
    ensures ExpectedFailure([p, q], taken) == Some(ReferenceSheetMissing(ReferenceName(q)))
  {
    StepFailureCases(p, taken);
    assert [p, q][1..] == [q];
    StepFailureCases(q, taken + [ReferenceName(p)]);
  }

  /** The rules on the Interview sheet: the j-th coding property validates column `chr(68 + j)`, rows 2 .. n + 1. */
  function ColumnRules(coding: seq<Property>, n: nat): seq<DataValidation>
    requires |coding| <= MaxCodingProperties
  {
    if coding == [] then []
    else
      var j := |coding| - 1;
      ColumnRules(coding[..j], n) + [ColumnRule(coding[j], j, n)]
  }

  /** `_set_validation_(utterances, chr(68 + j), sheet)` for the j-th coding property `p`. */
  function ColumnRule(p: Property, j: nat, n: nat): DataValidation
    requires j < MaxCodingProperties
  {
    ValidationRule([CodingColumn(j)], false, ReferenceName(p), |p.values| + 1, n + 1)
  }

  /** `_set_validation_(global_data, str(j + 2), sheet, True)` for the j-th global property `p`. */
  function RowRule(p: Property, j: nat, dataMaxRow: nat): DataValidation
  {
    ValidationRule(NatToString(j + 2), true, ReferenceName(p), |p.values| + 1, dataMaxRow)
  }

  /** The rules on the Global Ratings sheet: the j-th global validates cell B<j + 2>. */
  function RowRules(globals: seq<Property>, dataMaxRow: nat): seq<DataValidation>
  {
    if globals == [] then []
    else
      var j := |globals| - 1;
      RowRules(globals[..j], dataMaxRow) + [RowRule(globals[j], j, dataMaxRow)]
  }

  /** One rule per coding property, the j-th on column `chr(68 + j)` listing the j-th property's sheet. */
  lemma {:induction false} ColumnRulesAt(coding: seq<Property>, n: nat)
    requires |coding| <= MaxCodingProperties
    ensures |ColumnRules(coding, n)| == |coding|
    ensures forall j :: 0 <= j < |coding| ==> ColumnRules(coding, n)[j] == ColumnRule(coding[j], j, n)
  {
    if coding != [] {
      var m := |coding| - 1;
      ColumnRulesAt(coding[..m], n);
      var r := ColumnRules(coding, n);
      assert r == ColumnRules(coding[..m], n) + [ColumnRule(coding[m], m, n)];
      forall j | 0 <= j < |coding| ensures r[j] == ColumnRule(coding[j], j, n) {
        if j < m {
          assert coding[..m][j] == coding[j];
        }
      }
    }
  }

  /** One rule per global property, the j-th on row `str(j + 2)` listing the j-th property's sheet. */
  lemma {:induction false} RowRulesAt(globals: seq<Property>, dataMaxRow: nat)
    ensures |RowRules(globals, dataMaxRow)| == |globals|
    ensures forall j :: 0 <= j < |globals| ==> RowRules(globals, dataMaxRow)[j] == RowRule(globals[j], j, dataMaxRow)
  {
    if globals != [] {
      var m := |globals| - 1;
      RowRulesAt(globals[..m], dataMaxRow);
      var r := RowRules(globals, dataMaxRow);
      assert r == RowRules(globals[..m], dataMaxRow) + [RowRule(globals[m], m, dataMaxRow)];
      forall j | 0 <= j < |globals| ensures r[j] == RowRule(globals[j], j, dataMaxRow) {
        if j < m {
          assert globals[..m][j] == globals[j];
        }
      }
    }
  }

  lemma ColumnRulesGrow(coding: seq<Property>, j: nat, n: nat)
    requires j < |coding| <= MaxCodingProperties
    ensures ColumnRules(coding[..j + 1], n) == ColumnRules(coding[..j], n) + [ColumnRule(coding[j], j, n)]
  {
    assert coding[..j + 1][..j] == coding[..j];
  }

  lemma RowRulesGrow(globals: seq<Property>, j: nat, dataMaxRow: nat)
    requires j < |globals|
    ensures RowRules(globals[..j + 1], dataMaxRow) == RowRules(globals[..j], dataMaxRow) + [RowRule(globals[j], j, dataMaxRow)]
  {
    assert globals[..j + 1][..j] == globals[..j];
  }

  // ---------------------------------------------------------------- What the allocation hands out

  /**
   * The j-th coding property's rule is a list rule, blanks allowed, whose
   * source is its own reference sheet's column A (rows 2 to m + 1 for m
   * values) and whose target is column `chr(68 + j)`, rows 2 to n + 1: the
   * column whose header cell names the property.
   */
  lemma CodingRuleAllocation(coding: seq<Property>, n: nat, j: nat)
    requires |coding| <= MaxCodingProperties && j < |coding|
    ensures |ColumnRules(coding, n)| == |coding|
    ensures ColumnRules(coding, n)[j].validationType == "list" && ColumnRules(coding, n)[j].allowBlank
    ensures ParseListSource(ColumnRules(coding, n)[j].formula1) == Some((ReferenceName(coding[j]), |coding[j].values| + 1))
    ensures ParseRange(ColumnRules(coding, n)[j].sqref) == Some(CellRange(CodingColumn(j), 2, n + 1))
    ensures InterviewHeader(coding)[ColumnPosition(CodingColumn(j))] == Str(coding[j].displayName)
  {
    ColumnRulesAt(coding, n);
    ListSourceRoundTrip(ReferenceName(coding[j]), |coding[j].values| + 1);
    ColumnTargetRange(CodingColumn(j), n + 1);
    CodingColumnHoldsHeader(coding, j);
  }

  /** Columns are handed out in increasing order, so no two coding rules share a target. */
  lemma CodingColumnsIncrease(coding: seq<Property>, n: nat, j1: nat, j2: nat)
    requires |coding| <= MaxCodingProperties && j1 < j2 < |coding|
    ensures CodingColumn(j1) < CodingColumn(j2)
    ensures |ColumnRules(coding, n)| == |coding|
    ensures ColumnRules(coding, n)[j1].sqref != ColumnRules(coding, n)[j2].sqref
  {
    CodingRuleAllocation(coding, n, j1);
    CodingRuleAllocation(coding, n, j2);
  }

  /**
   * The j-th global property's rule is a list rule, blanks allowed, whose
   * source is its own reference sheet's column A and whose target is the
   * single cell B<j + 2>: the rating cell of the row holding its name.
   */
  lemma GlobalRuleAllocation(globals: seq<Property>, j: nat)
    requires j < |globals|
    ensures |RowRules(globals, |globals| + 1)| == |globals|
    ensures RowRules(globals, |globals| + 1)[j].validationType == "list" && RowRules(globals, |globals| + 1)[j].allowBlank
    ensures ParseListSource(RowRules(globals, |globals| + 1)[j].formula1) ==
      Some((ReferenceName(globals[j]), |globals[j].values| + 1))
    ensures ParseRange(RowRules(globals, |globals| + 1)[j].sqref) == Some(CellRange('B', j + 2, j + 2))
    ensures GlobalView(globals).rows[j + 1] == [Str(globals[j].displayName)]
    ensures Coord('B', j + 2) in GlobalView(globals).unlocked
  {
    RowRulesAt(globals, |globals| + 1);
    ListSourceRoundTrip(ReferenceName(globals[j]), |globals[j].values| + 1);
    GlobalTargetCell(j + 2, |globals| + 1);
    GlobalRowHoldsName(globals, j, Coord('B', j + 2));
  }

  /** Rows are handed out in increasing order, so no two global rules share a target. */
  lemma GlobalRowsIncrease(globals: seq<Property>, j1: nat, j2: nat)
    requires j1 < j2 < |globals|
    ensures |RowRules(globals, |globals| + 1)| == |globals|
    ensures ParseRange(RowRules(globals, |globals| + 1)[j1].sqref).Some?
    ensures ParseRange(RowRules(globals, |globals| + 1)[j2].sqref).Some?
    ensures ParseRange(RowRules(globals, |globals| + 1)[j1].sqref).value.first <
            ParseRange(RowRules(globals, |globals| + 1)[j2].sqref).value.first
    ensures RowRules(globals, |globals| + 1)[j1].sqref != RowRules(globals, |globals| + 1)[j2].sqref
  {
    GlobalRuleAllocation(globals, j1);
    GlobalRuleAllocation(globals, j2);
  }

  /** A property without values yields the empty source range `$A$2:$A$1`. */
  lemma EmptyPropertySource(p: Property)
    requires p.values == []
    ensures Coercible(p) && MaxRowOf(ReferenceView(p, ReferenceName(p)).rows) == 1
    ensures ListSource(ReferenceName(p), 1) == QuoteSheetName(ReferenceName(p)) + "!$A$2:$A$1"
  {
    ReferenceColumnListsValues(p, ReferenceName(p));
    assert NatToString(1) == "1";
  }

  /** `_append_validation_sheet_` called twice for one property: the second call is the `None` no-op. */
  method AppendTwice(wb: Workbook, p: Property) returns (first: Appended, second: Appended)
    requires wb.Valid()
    modifies wb
    ensures ValidTitle(ReferenceName(p)) || ReferenceName(p) in old(wb.Titles()) ==> second == AlreadyExists
    ensures first == AlreadyExists <==> ReferenceName(p) in old(wb.Titles())
    ensures ReferenceName(p) in old(wb.Titles()) ==> wb.sheets == old(wb.sheets)
    ensures ReferenceName(p) !in old(wb.Titles()) && ValidTitle(ReferenceName(p)) ==>
      wb.Titles() == old(wb.Titles()) + [ReferenceName(p)]
    ensures ReferenceName(p) !in old(wb.Titles()) && !ValidTitle(ReferenceName(p)) ==>
      first == TitleRejected && second == TitleRejected && wb.sheets == old(wb.sheets)
  {
    first := AppendValidationSheet(wb, p, None);
    second := AppendValidationSheet(wb, p, None);
  }

  /** The row from which the Interview builder unlocks coding cells: 1 as written, 2 once corrected. */
  function FirstUnlockedRow(asWritten: bool): nat
  {
    if asWritten then 1 else 2
  }

  /** The workbook a successful run returns, its coding cells unlocked from row `firstUnlocked` on. */
  ghost predicate AssembledAs(wb: Workbook, coding: seq<Property>, globals: seq<Property>, utts: seq<Utterance>,
                              firstUnlocked: nat)
    requires |coding| <= MaxCodingProperties
    reads wb, wb.sheets
  {
    var props := coding + globals;
    && wb.Valid()
    && |wb.sheets| == 2 + |props|
    && wb.Titles() == DataSheetTitles + ReferenceNames(props)
    && wb.sheets[0].View() == InterviewView(coding, utts, firstUnlocked).(validations := ColumnRules(coding, |utts|))
    && wb.sheets[1].View() == GlobalView(globals).(validations := RowRules(globals, |globals| + 1))
    && forall t :: 0 <= t < |props| ==>
         Coercible(props[t]) && wb.sheets[2 + t].View() == ReferenceView(props[t], ReferenceName(props[t]))
  }

  /**
   * In the workbook the program as written returns, the header's first coding
   * cell is unlocked and the last utterance's stays locked, although a rule
   * validates it.
   */
  lemma AssembledAsWrittenShiftsUnlock(wb: Workbook, coding: seq<Property>, globals: seq<Property>, utts: seq<Utterance>)
    requires 1 <= |coding| <= MaxCodingProperties && |utts| >= 1
    requires AssembledAs(wb, coding, globals, utts, FirstUnlockedRow(true))
    ensures Coord('D', 1) in wb.sheets[0].unlocked
    ensures Coord('D', |utts| + 1) !in wb.sheets[0].unlocked
    ensures |wb.sheets[0].validations| == |coding|
    ensures ParseRange(wb.sheets[0].validations[0].sqref) == Some(CellRange('D', 2, |utts| + 1))
  {
    AsWrittenUnlocksHeader(coding, utts);
    assert wb.sheets[0].unlocked == InterviewView(coding, utts, 1).unlocked;
    CodingRuleAllocation(coding, |utts|, 0);
  }

  /** The sheet `_append_validation_sheet_` leaves for each property: finished, or cut short by a failing conversion. */
  function ReferenceViews(ps: seq<Property>): seq<SheetView>
  {
    seq(|ps|, t requires 0 <= t < |ps| =>
      if Coercible(ps[t]) then ReferenceView(ps[t], ReferenceName(ps[t])) else PartialView(ps[t]))
  }

  /** The sheets and rules a run is meant to produce, written down before the loop builds them. */
  datatype Blueprint = Blueprint(interview: SheetView, globalRatings: SheetView, references: seq<SheetView>,
                                 columnRules: seq<DataValidation>, rowRules: seq<DataValidation>)

  function BlueprintOf(coding: seq<Property>, globals: seq<Property>, utts: seq<Utterance>, firstUnlocked: nat): Blueprint
    requires |coding| <= MaxCodingProperties
  {
    Blueprint(InterviewView(coding, utts, firstUnlocked), GlobalView(globals), ReferenceViews(coding + globals),
              ColumnRules(coding, |utts|), RowRules(globals, |globals| + 1))
  }

  /** What turn `i` of the loop adds according to `bp`: the property's sheet and its coding-column or global-row rule. */
  ghost predicate PlannedAt(bp: Blueprint, coding: seq<Property>, globals: seq<Property>, utts: seq<Utterance>, i: nat)
    requires |coding| <= MaxCodingProperties && i < |coding + globals|
  {
    var props := coding + globals;
    var k := |coding|;
    && |bp.references| == |props| && |bp.columnRules| == k && |bp.rowRules| == |globals|
    && MaxRowOf(bp.interview.rows) == |utts| + 1 && MaxRowOf(bp.globalRatings.rows) == |globals| + 1
    && (Coercible(props[i]) ==> bp.references[i] == ReferenceView(props[i], ReferenceName(props[i])))
    && (i < k ==> bp.columnRules[i] == ColumnRule(coding[i], i, |utts|))
    && (k <= i ==> bp.rowRules[i - k] == RowRule(globals[i - k], i - k, |globals| + 1))
  }

  ghost predicate Planned(bp: Blueprint, coding: seq<Property>, globals: seq<Property>, utts: seq<Utterance>)
    requires |coding| <= MaxCodingProperties
  {
    forall i :: 0 <= i < |coding + globals| ==> PlannedAt(bp, coding, globals, utts, i)
  }

  lemma BlueprintPlanned(coding: seq<Property>, globals: seq<Property>, utts: seq<Utterance>, firstUnlocked: nat)
    requires |coding| <= MaxCodingProperties
    ensures Planned(BlueprintOf(coding, globals, utts, firstUnlocked), coding, globals, utts)
  {
    var bp := BlueprintOf(coding, globals, utts, firstUnlocked);
    var props := coding + globals;
    ColumnRulesAt(coding, |utts|);
    RowRulesAt(globals, |globals| + 1);
    forall i | 0 <= i < |props| ensures PlannedAt(bp, coding, globals, utts, i) {
      if i < |coding| {
        assert bp.columnRules[i] == ColumnRule(coding[i], i, |utts|);
      } else {
        assert bp.rowRules[i - |coding|] == RowRule(globals[i - |coding|], i - |coding|, |globals| + 1);
      }
    }
  }

  function Min(a: int, b: int): int { if a <= b then a else b }

  /** `ss` show the views `vs`, in order. */
  ghost predicate ReferencesDone(ss: seq<Sheet>, vs: seq<SheetView>)
    reads ss
  {
    |ss| == |vs| && forall t :: 0 <= t < |ss| ==> ss[t].View() == vs[t]
  }

  lemma ReferencesGrow(ss: seq<Sheet>, vs: seq<SheetView>, s: Sheet, v: SheetView)
    requires ReferencesDone(ss, vs) && s.View() == v
    ensures ReferencesDone(ss + [s], vs + [v])
  {
  }

  /**
   * The workbook once `refs` reference sheets exist (one per property, in
   * order), the first `cols` coding columns carry their rules and the first
   * `rows` global rows carry theirs, all as `bp` says.
   */
  ghost predicate Stage(wb: Workbook, bp: Blueprint, props: seq<Property>, refs: nat, cols: nat, rows: nat)
    reads wb, wb.sheets
  {
    && refs <= |props| && refs <= |bp.references| && cols <= |bp.columnRules| && rows <= |bp.rowRules|
    && wb.Valid()
    && |wb.sheets| == 2 + refs
    && wb.Titles() == DataSheetTitles + ReferenceNames(props[..refs])
    && wb.sheets[0].View() == bp.interview.(validations := bp.columnRules[..cols])
    && wb.sheets[1].View() == bp.globalRatings.(validations := bp.rowRules[..rows])
    && ReferencesDone(wb.sheets[2..], bp.references[..refs])
  }

  /** The workbook after the allocation loop has handled the first `i` properties. */
  ghost predicate Progress(wb: Workbook, bp: Blueprint, coding: seq<Property>, globals: seq<Property>, i: nat)
    reads wb, wb.sheets
  {
    var c := Min(i, |coding|);
    i <= |coding + globals| && Stage(wb, bp, coding + globals, i, c, i - c)
  }

  /**
   * `ia2xl` once the configuration and the interview are parsed, with the
   * Interview builder as written (`asWritten`) or with its unlock rows corrected.
   */
  method Assemble(coding: seq<Property>, globals: seq<Property>, utts: seq<Utterance>, asWritten: bool)
    returns (r: Result<Workbook, AssemblyError>)
    requires AllOfKind(coding, Coding) && AllOfKind(globals, Global)
    requires |coding| <= MaxCodingProperties
    ensures r.Failure? <==> ExpectedFailure(coding + globals, DataSheetTitles).Some?
    ensures r.Failure? ==> ExpectedFailure(coding + globals, DataSheetTitles) == Some(r.error)
    ensures r.Success? ==> AssembledAs(r.value, coding, globals, utts, FirstUnlockedRow(asWritten))
  {
    ghost var bp := BlueprintOf(coding, globals, utts, FirstUnlockedRow(asWritten));
    BlueprintPlanned(coding, globals, utts, FirstUnlockedRow(asWritten));
    var wb, utterances, globalData := StartWorkbook(coding, globals, utts, asWritten);
    var failure := AllocateAll(wb, utterances, globalData, bp, coding, globals, utts);
    if failure.Some? {
      return Failure(failure.value);
    }
    NoFailureIff(coding + globals, DataSheetTitles);
    AssembledAtEnd(wb, coding, globals, utts, FirstUnlockedRow(asWritten));
    r := Success(wb);
  }

  /** The allocation loop: a reference sheet and a rule per property, coding properties first. */
  method AllocateAll(wb: Workbook, utterances: Sheet, globalData: Sheet, ghost bp: Blueprint,
                     coding: seq<Property>, globals: seq<Property>, utts: seq<Utterance>)
    returns (failure: Option<AssemblyError>)
    requires AllOfKind(coding, Coding) && AllOfKind(globals, Global)
    requires |coding| <= MaxCodingProperties && Planned(bp, coding, globals, utts)
    requires Progress(wb, bp, coding, globals, 0)
    requires wb.sheets[0] == utterances && wb.sheets[1] == globalData && wb.Titles() == DataSheetTitles
    modifies wb, utterances`validations, globalData`validations
    ensures failure == ExpectedFailure(coding + globals, DataSheetTitles)
    ensures failure.None? ==> Progress(wb, bp, coding, globals, |coding + globals|)
  {
    var propertyColumn := 67;
    var globalRow := 1;
    var props := coding + globals;
    var i := 0;
    while i < |props|
      // the first i properties have their reference sheets and rules (written `== true`
      // so that the verifier checks the predicate as one fact instead of clause by clause)
      invariant Progress(wb, bp, coding, globals, i) == true
      invariant wb.sheets[0] == utterances && wb.sheets[1] == globalData
      invariant ExpectedFailure(props, DataSheetTitles) ==
        ExpectedFailure(props[i..], DataSheetTitles + ReferenceNames(props[..i]))
      invariant propertyColumn == 67 + Min(i, |coding|) && globalRow == 1 + (i - Min(i, |coding|))
    {
      ExpectedFailureStep(props, i, DataSheetTitles);
      failure, propertyColumn, globalRow :=
        AllocateProperty(wb, utterances, globalData, bp, coding, globals, utts, i, propertyColumn, globalRow);
      if failure.Some? {
        return;
      }
      i := i + 1;
    }
    assert props[i..] == [];
    failure := None;
  }

  /** `openpyxl.Workbook()`, then the Interview sheet (as written, or corrected) and the Global Ratings sheet. */
  method StartWorkbook(coding: seq<Property>, globals: seq<Property>, utts: seq<Utterance>, asWritten: bool)
    returns (wb: Workbook, utterances: Sheet, globalData: Sheet)
    requires |coding| <= MaxCodingProperties
    ensures fresh(wb) && fresh(utterances) && fresh(globalData)
    ensures Progress(wb, BlueprintOf(coding, globals, utts, FirstUnlockedRow(asWritten)), coding, globals, 0)
    ensures wb.sheets[0] == utterances && wb.sheets[1] == globalData
    ensures wb.Titles() == DataSheetTitles
  {
    wb := new Workbook();
    utterances := BuildInterview(wb, coding, utts, asWritten);
    globalData := BuildGlobalSheet(wb, globals);
    assert wb.Titles() == DataSheetTitles;
    assert (coding + globals)[..0] == [];
  }

  /** `_build_interview_sheet_` as written, or corrected. */
  method BuildInterview(wb: Workbook, coding: seq<Property>, utts: seq<Utterance>, asWritten: bool) returns (sheet: Sheet)
    requires wb.Valid() && |wb.sheets| >= 1
    requires wb.sheets[0].View() == BlankView(wb.sheets[0].title)
    requires "Interview" !in wb.Titles()[1..]
    requires |coding| <= MaxCodingProperties
    modifies wb.sheets[0]
    ensures sheet == wb.sheets[0] && wb.sheets == old(wb.sheets)
    ensures wb.Valid() && wb.Titles() == ["Interview"] + old(wb.Titles())[1..]
    ensures sheet.View() == InterviewView(coding, utts, FirstUnlockedRow(asWritten))
  {
    if asWritten {
      sheet := BuildInterviewSheetAsWritten(wb, coding, utts);
    } else {
      sheet := BuildInterviewSheet(wb, coding, utts);
    }
  }

  lemma AssembledAtEnd(wb: Workbook, coding: seq<Property>, globals: seq<Property>, utts: seq<Utterance>,
                       firstUnlocked: nat)
    requires |coding| <= MaxCodingProperties
    requires Progress(wb, BlueprintOf(coding, globals, utts, firstUnlocked), coding, globals, |coding + globals|)
    requires Admissible(coding + globals, DataSheetTitles)
    ensures AssembledAs(wb, coding, globals, utts, firstUnlocked)
  {
    var props := coding + globals;
    var bp := BlueprintOf(coding, globals, utts, firstUnlocked);
    ColumnRulesAt(coding, |utts|);
    RowRulesAt(globals, |globals| + 1);
    BuiltAsPlanned(wb, bp, coding, globals);
    forall t | 0 <= t < |props|
      ensures Coercible(props[t]) && wb.sheets[2 + t].View() == ReferenceView(props[t], ReferenceName(props[t]))
    {
      assert bp.references[t] == ReferenceViews(props)[t];
    }
  }

  /** After the last turn the workbook holds exactly what `bp` plans. */
  lemma BuiltAsPlanned(wb: Workbook, bp: Blueprint, coding: seq<Property>, globals: seq<Property>)
    requires Progress(wb, bp, coding, globals, |coding + globals|)
    requires |bp.references| == |coding + globals| && |bp.columnRules| == |coding| && |bp.rowRules| == |globals|
    ensures wb.Valid() && |wb.sheets| == 2 + |coding + globals|
    ensures wb.Titles() == DataSheetTitles + ReferenceNames(coding + globals)
    ensures wb.sheets[0].View() == bp.interview.(validations := bp.columnRules)
    ensures wb.sheets[1].View() == bp.globalRatings.(validations := bp.rowRules)
    ensures forall t :: 0 <= t < |coding + globals| ==> wb.sheets[2 + t].View() == bp.references[t]
  {
    var props := coding + globals;
    assert props[..|props|] == props;
    assert Min(|props|, |coding|) == |coding|;
    assert bp.columnRules[..|coding|] == bp.columnRules && bp.rowRules[..|globals|] == bp.rowRules;
    assert bp.references[..|props|] == bp.references;
    forall t | 0 <= t < |props| ensures wb.sheets[2 + t].View() == bp.references[t] {
      assert wb.sheets[2 + t] == wb.sheets[2..][t];
    }
  }

  /**
   * One turn of the allocation loop: the property's reference sheet, then
   * its rule on the next coding column or the next global row.
   */
  method AllocateProperty(wb: Workbook, utterances: Sheet, globalData: Sheet, ghost bp: Blueprint,
                          coding: seq<Property>, globals: seq<Property>, utts: seq<Utterance>, i: nat,
                          propertyColumn: int, globalRow: int)
    returns (failure: Option<AssemblyError>, propertyColumn': int, globalRow': int)
    requires AllOfKind(coding, Coding) && AllOfKind(globals, Global)
    requires |coding| <= MaxCodingProperties && i < |coding + globals| && PlannedAt(bp, coding, globals, utts, i)
    requires Progress(wb, bp, coding, globals, i)
    requires wb.sheets[0] == utterances && wb.sheets[1] == globalData
    requires propertyColumn == 67 + Min(i, |coding|) && globalRow == 1 + (i - Min(i, |coding|))
    modifies wb, utterances`validations, globalData`validations
    ensures |wb.sheets| >= 2 && wb.sheets[0] == utterances && wb.sheets[1] == globalData
    ensures failure == StepFailure((coding + globals)[i], old(wb.Titles()))
    ensures failure.None? ==> Progress(wb, bp, coding, globals, i + 1)
    ensures propertyColumn' == 67 + Min(i + 1, |coding|) && globalRow' == 1 + (i + 1 - Min(i + 1, |coding|))
  {
    var props := coding + globals;
    var p := props[i];
    var k := |coding|;
    ghost var c := Min(i, k);
    KindOfPosition(coding, globals, i);
    var outcome;
    failure, outcome := ReferenceStep(wb, utterances, globalData, bp, props, i, c, i - c);
    propertyColumn', globalRow' := propertyColumn, globalRow;
    if p.kind == Global {
      globalRow' := globalRow + 1;
    } else {
      propertyColumn' := propertyColumn + 1;
    }
    if failure.Some? {
      return;
    }
    var sheet := outcome.sheet;
    if p.kind == Global {
      GlobalStep(wb, globalData, bp, coding, globals, utts, i, globalRow', sheet);
    } else {
      CodingStep(wb, utterances, bp, coding, globals, utts, i, propertyColumn', sheet);
    }
  }

  /** The loop meets every coding property before the first global one. */
  lemma KindOfPosition(coding: seq<Property>, globals: seq<Property>, i: nat)
    requires AllOfKind(coding, Coding) && AllOfKind(globals, Global) && i < |coding + globals|
    ensures (coding + globals)[i].kind == Global <==> i >= |coding|
  {
    if i < |coding| {
      assert (coding + globals)[i] == coding[i];
    } else {
      assert (coding + globals)[i] == globals[i - |coding|];
    }
  }

  /** `_append_validation_sheet_(wb, p)` inside the loop, and the exception it leads to. */
  method ReferenceStep(wb: Workbook, utterances: Sheet, globalData: Sheet, ghost bp: Blueprint,
                       props: seq<Property>, i: nat, ghost cols: nat, ghost rows: nat)
    returns (failure: Option<AssemblyError>, outcome: Appended)
    requires i < |props| && Stage(wb, bp, props, i, cols, rows)
    requires i < |bp.references| && (Coercible(props[i]) ==> bp.references[i] == ReferenceView(props[i], ReferenceName(props[i])))
    requires wb.sheets[0] == utterances && wb.sheets[1] == globalData
    modifies wb
    ensures |wb.sheets| >= 2 && wb.sheets[0] == utterances && wb.sheets[1] == globalData
    ensures failure == StepFailure(props[i], old(wb.Titles()))
    ensures failure.None? ==> Stage(wb, bp, props, i + 1, cols, rows)
    ensures failure.None? ==> outcome.Created? && outcome.sheet == wb.sheets[2 + i]
    ensures failure.None? ==> outcome.sheet.title == ReferenceName(props[i]) && outcome.sheet.MaxRow() == |props[i].values| + 1
  {
    var p := props[i];
    ghost var before := wb.sheets;
    failure, outcome := AppendReference(wb, p);
    if failure.Some? {
      return;
    }
    var sheet := outcome.sheet;
    ReferenceColumnListsValues(p, ReferenceName(p));
    assert wb.sheets[0] == before[0] && wb.sheets[1] == before[1];
    assert wb.sheets[2..] == before[2..] + [sheet];
    PrefixGrows(props, i);
    assert bp.references[..i + 1] == bp.references[..i] + [bp.references[i]];
    ReferencesGrow(before[2..], bp.references[..i], sheet, bp.references[i]);
  }

  lemma PrefixGrows(props: seq<Property>, i: nat)
    requires i < |props|
    ensures props[..i + 1] == props[..i] + [props[i]]
    ensures ReferenceNames(props[..i + 1]) == ReferenceNames(props[..i]) + [ReferenceName(props[i])]
  {
    assert props[..i + 1] == props[..i] + [props[i]];
  }

  /** `_append_validation_sheet_(wb, p)` without a password, and the exception the loop then raises. */
  method AppendReference(wb: Workbook, p: Property) returns (failure: Option<AssemblyError>, outcome: Appended)
    requires wb.Valid()
    modifies wb
    ensures failure == StepFailure(p, old(wb.Titles()))
    ensures |wb.sheets| >= |old(wb.sheets)| && wb.sheets[..|old(wb.sheets)|] == old(wb.sheets)
    ensures failure.None? ==> outcome.Created? && wb.sheets == old(wb.sheets) + [outcome.sheet]
    ensures failure.None? ==> Coercible(p) && outcome.sheet.View() == ReferenceView(p, ReferenceName(p))
    ensures failure.None? ==> wb.Valid() && wb.Titles() == old(wb.Titles()) + [ReferenceName(p)]
  {
    StepFailureCases(p, wb.Titles());
    outcome := AppendValidationSheet(wb, p, None);
    if outcome.AlreadyExists? {
      return Some(ReferenceSheetMissing(ReferenceName(p))), outcome;
    }
    if outcome.TitleRejected? {
      return Some(InvalidSheetTitle(ReferenceName(p))), outcome;
    }
    if outcome.CoercionFailed? {
      return Some(ValueNotConvertible(ReferenceName(p), outcome.value)), outcome;
    }
    failure := None;
    assert wb.sheets == old(wb.sheets) + [outcome.sheet];
  }

  /** `_set_validation_(global_data, str(global_row), sheet, True)` for the global property `i`. */
  method GlobalStep(wb: Workbook, globalData: Sheet, ghost bp: Blueprint,
                    coding: seq<Property>, globals: seq<Property>, utts: seq<Utterance>, i: nat, globalRow: int, sheet: Sheet)
    requires |coding| <= MaxCodingProperties && |coding| <= i < |coding + globals| && PlannedAt(bp, coding, globals, utts, i)
    requires Stage(wb, bp, coding + globals, i + 1, |coding|, i - |coding|)
    requires globalRow == 2 + (i - |coding|)
    requires sheet == wb.sheets[2 + i] && sheet.title == ReferenceName((coding + globals)[i])
    requires sheet.MaxRow() == |(coding + globals)[i].values| + 1
    requires wb.sheets[1] == globalData
    modifies globalData`validations
    ensures Progress(wb, bp, coding, globals, i + 1)
    ensures wb.sheets == old(wb.sheets)
  {
    ghost var j := i - |coding|;
    assert (coding + globals)[i] == globals[j];
    SheetsApart(wb);
    ghost var titles := wb.Titles();
    assert globalData !in wb.sheets[2..];
    assert globalData.MaxRow() == |globals| + 1;
    assert bp.rowRules[..j + 1] == globalData.validations + [bp.rowRules[j]];
    SetValidation(globalData, NatToString(globalRow), sheet, true);
    assert wb.Titles() == titles;
  }

  /** `_set_validation_(utterances, chr(property_column), sheet)` for the coding property `i`. */
  method CodingStep(wb: Workbook, utterances: Sheet, ghost bp: Blueprint,
                    coding: seq<Property>, globals: seq<Property>, utts: seq<Utterance>, i: nat, propertyColumn: int, sheet: Sheet)
    requires |coding| <= MaxCodingProperties && i < |coding| && PlannedAt(bp, coding, globals, utts, i)
    requires Stage(wb, bp, coding + globals, i + 1, i, 0)
    requires propertyColumn == 68 + i
    requires sheet == wb.sheets[2 + i] && sheet.title == ReferenceName((coding + globals)[i])
    requires sheet.MaxRow() == |(coding + globals)[i].values| + 1
    requires wb.sheets[0] == utterances
    modifies utterances`validations
    ensures Progress(wb, bp, coding, globals, i + 1)
    ensures wb.sheets == old(wb.sheets)
  {
    assert (coding + globals)[i] == coding[i];
    SheetsApart(wb);
    ghost var titles := wb.Titles();
    assert utterances !in wb.sheets[2..];
    assert utterances.MaxRow() == |utts| + 1;
    assert bp.columnRules[..i + 1] == utterances.validations + [bp.columnRules[i]];
    SetValidation(utterances, [propertyColumn as char], sheet, false);
    assert wb.Titles() == titles;
  }

  /** The data sheets are distinct from every reference sheet (their titles differ). */
  lemma SheetsApart(wb: Workbook)
    requires wb.Valid() && |wb.sheets| >= 2
    ensures wb.sheets[0] != wb.sheets[1]
    ensures forall t :: 2 <= t < |wb.sheets| ==> wb.sheets[t] != wb.sheets[0] && wb.sheets[t] != wb.sheets[1]
  {
    assert wb.Titles()[0] != wb.Titles()[1];
    forall t | 2 <= t < |wb.sheets| ensures wb.sheets[t] != wb.sheets[0] && wb.sheets[t] != wb.sheets[1] {
      assert wb.Titles()[0] != wb.Titles()[t] && wb.Titles()[1] != wb.Titles()[t];
    }
  }
}
