/**
 * The part of openpyxl the engine relies on, over abstract cells: a
 * workbook is an ordered list of uniquely titled sheets; a sheet holds its
 * appended rows, its protection flag and password, its visibility, the
 * addresses of the cells whose lock was lifted, and its validation rules.
 */
module Spreadsheet {
  import opened Wrappers

  /** A cell value; `Float` keeps the literal it was coerced from (no floating point here). */
  datatype Cell = Blank | Str(s: string) | Int(i: int) | Float(literal: string)

  /** A cell address: a column letter and a 1-based row number. */
  datatype Coord = Coord(column: char, row: nat)

  /** The addresses openpyxl accepts in `sheet["<letter><row>"]` for a single-letter column. */
  predicate IsCellAddress(c: Coord)
  {
    'A' <= c.column <= 'Z' && c.row >= 1
  }

  datatype SheetState = Visible | Hidden

  /** A data-validation rule: its type, its source formula, whether blanks pass, and its target range. */
  datatype DataValidation = DataValidation(validationType: string, formula1: string, allowBlank: bool, sqref: string)

  /** Everything about a sheet that the engine sets, as one value. */
  datatype SheetView = SheetView(
    title: string,
    rows: seq<seq<Cell>>,
    protected: bool,
    password: Option<string>,
    state: SheetState,
    unlocked: set<Coord>,
    validations: seq<DataValidation>)

  /** A freshly created sheet. */
  function BlankView(title: string): SheetView
  {
    SheetView(title, [], false, None, Visible, {}, [])
  }

  /** openpyxl's `max_row` for a sheet whose cells were all written by `append`: 1 when empty. */
  function MaxRowOf(rows: seq<seq<Cell>>): nat
  {
    if |rows| == 0 then 1 else |rows|
  }

  class Sheet {
    var title: string
    var rows: seq<seq<Cell>>
    var protected: bool
    var password: Option<string>
    var state: SheetState
    var unlocked: set<Coord>
    var validations: seq<DataValidation>

    constructor (title: string)
      ensures View() == BlankView(title)
    {
      this.title := title;
      rows := [];
      protected := false;
      password := None;
      state := Visible;
      unlocked := {};
      validations := [];
    }

    function View(): SheetView
      reads this
    {
      SheetView(title, rows, protected, password, state, unlocked, validations)
    }

    function MaxRow(): nat
      reads this
    {
      MaxRowOf(rows)
    }

    /** `sheet.title = t` */
    method SetTitle(t: string)
      modifies this`title
      ensures View() == old(View()).(title := t)
    {
      title := t;
    }

    /** `sheet.append(row)`: the row goes below the last one. */
    method Append(row: seq<Cell>)
      modifies this`rows
      ensures View() == old(View()).(rows := old(rows) + [row])
    {
      rows := rows + [row];
    }

    /** `sheet.protection.enable()` */
    method EnableProtection()
      modifies this`protected
      ensures View() == old(View()).(protected := true)
    {
      protected := true;
    }

    /** `sheet.protection.password = p` (the hash is not modelled; the password is stored). */
    method SetPassword(p: string)
      modifies this`password
      ensures View() == old(View()).(password := Some(p))
    {
      password := Some(p);
    }

    /** `sheet.sheet_state = 'hidden'` */
    method Hide()
      modifies this`state
      ensures View() == old(View()).(state := Hidden)
    {
      state := Hidden;
    }

    /** `sheet[address].protection = Protection(locked=False, hidden=False)` */
    method Unlock(c: Coord)
      requires IsCellAddress(c)
      modifies this`unlocked
      ensures View() == old(View()).(unlocked := old(unlocked) + {c})
    {
      unlocked := unlocked + {c};
    }

    /** `sheet.add_data_validation(dv)` */
    method AddDataValidation(dv: DataValidation)
      modifies this`validations
      ensures View() == old(View()).(validations := old(validations) + [dv])
    {
      validations := validations + [dv];
    }
  }

  /** The characters openpyxl's title setter refuses in a sheet title. */
  const ForbiddenTitleChars: set<char> := {'\\', '*', '?', ':', '/', '[', ']'}

  /** A title the setter accepts: none of its characters is forbidden. */
  predicate ValidTitle(t: string)
  {
    forall i :: 0 <= i < |t| ==> t[i] !in ForbiddenTitleChars
  }

  /** The titles of a list of sheets, in order. */
  function TitlesOf(ss: seq<Sheet>): (ts: seq<string>)
    reads ss`title
    ensures |ts| == |ss| && forall i :: 0 <= i < |ss| ==> ts[i] == ss[i].title
  {
    if ss == [] then [] else TitlesOf(ss[..|ss| - 1]) + [ss[|ss| - 1].title]
  }

  predicate Distinct<T(==)>(s: seq<T>)
  {
    forall i, j :: 0 <= i < j < |s| ==> s[i] != s[j]
  }

  /** Python's `list.insert(index, x)` (an index past the end appends), or `append` when there is no index. */
  function Insert<T(==)>(s: seq<T>, x: T, index: Option<nat>): (r: seq<T>)
    ensures |r| == |s| + 1
  {
    match index
    case None => s + [x]
    case Some(k) =>
      var at := if k <= |s| then k else |s|;
      assert s == s[..at] + s[at..];
      s[..at] + [x] + s[at..]
  }

  lemma InsertKeepsDistinct<T>(s: seq<T>, x: T, index: Option<nat>)
    requires Distinct(s) && x !in s
    ensures Distinct(Insert(s, x, index))
  {
    var r := Insert(s, x, index);
    var at := if index.None? then |s| else if index.value <= |s| then index.value else |s|;
    assert r == s[..at] + [x] + s[at..];
    forall i, j | 0 <= i < j < |r| ensures r[i] != r[j] {
      if i < at && j < at {
        assert r[i] == s[i] && r[j] == s[j];
      } else if i < at && j == at {
        assert r[i] == s[i];
      } else if i < at {
        assert r[i] == s[i] && r[j] == s[j - 1];
      } else if i == at {
        assert r[j] == s[j - 1];
      } else {
        assert r[i] == s[i - 1] && r[j] == s[j - 1];
      }
    }
  }

  lemma TitlesOfInsert(ss: seq<Sheet>, s: Sheet, index: Option<nat>)
    ensures TitlesOf(Insert(ss, s, index)) == Insert(TitlesOf(ss), s.title, index)
  {
    var at := if index.None? then |ss| else if index.value <= |ss| then index.value else |ss|;
    var r := Insert(ss, s, index);
    var ts := TitlesOf(ss);
    assert r == ss[..at] + [s] + ss[at..];
    assert Insert(ts, s.title, index) == ts[..at] + [s.title] + ts[at..];
  }

  class Workbook {
    var sheets: seq<Sheet>

    /** `openpyxl.Workbook()`: one blank sheet titled "Sheet", which is the active one. */
    constructor ()
      ensures |sheets| == 1 && fresh(sheets[0])
      ensures sheets[0].View() == BlankView("Sheet")
      ensures Valid()
    {
      var s := new Sheet("Sheet");
      sheets := [s];
    }

    /** `workbook.sheetnames` */
    function Titles(): seq<string>
      reads this, sheets`title
    {
      TitlesOf(sheets)
    }

    /** Sheet titles are unique (so no sheet object appears twice). */
    predicate Valid()
      reads this, sheets`title
    {
      Distinct(Titles())
    }

    /**
     * `workbook.create_sheet(title, index)` for a non-empty title not yet in
     * use: the title setter raises ValueError (here `None`, nothing added)
     * when the title holds a character Excel forbids.
     */
    method CreateSheet(title: string, index: Option<nat>) returns (r: Option<Sheet>)
      requires Valid() && title != [] && title !in Titles()
      modifies this
      ensures r.None? <==> !ValidTitle(title)
      ensures r.None? ==> sheets == old(sheets)
      ensures r.Some? ==> fresh(r.value) && r.value.View() == BlankView(title)
      ensures r.Some? ==> sheets == Insert(old(sheets), r.value, index)
      ensures r.Some? ==> Titles() == Insert(old(Titles()), title, index)
      ensures Valid()
    {
      if !ValidTitle(title) {
        return None;
      }
      ghost var before := Titles();
      ghost var was := sheets;
      var s := new Sheet(title);
      sheets := Insert(sheets, s, index);
      assert TitlesOf(was) == before;
      TitlesOfInsert(was, s, index);
      InsertKeepsDistinct(before, title, index);
      r := Some(s);
    }
  }
}
