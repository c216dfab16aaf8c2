/**
 * The reference-sheet builder (`_append_validation_sheet_`): one hidden,
 * protected sheet per property listing its legal values, coerced to the
 * property's declared type.
 */
module ReferenceSheets {
  import opened Wrappers
  import opened Strings
  import opened Spreadsheet
  import opened Config

  /** `f"{display_name}_{property_id}"` */
  function ReferenceName(p: Property): string
  {
    p.displayName + "_" + p.propertyId
  }

  /** The password the sheet is locked with: the explicit one, else the sheet's own name. */
  function PasswordFor(p: Property, sheetPassword: Option<string>): string
  {
    if sheetPassword.Some? then sheetPassword.value else ReferenceName(p)
  }

  const ReferenceHeader: seq<Cell> :=
    [Str("property_value"), Str("property_description"), Str("property_value_id"), Str("property_id")]

  /** The Python type a property's values are converted with before they are written. */
  datatype ValueType = IntType | FloatType | StrType

  function ValueTypeOf(p: Property): (t: ValueType)
    ensures t == IntType <==> p.dataType == "numeric" && p.decimalDigits == 0
    ensures t == FloatType <==> p.dataType == "numeric" && p.decimalDigits != 0
    ensures t == StrType <==> p.dataType != "numeric"
  {
    if p.dataType == "numeric" && p.decimalDigits == 0 then IntType
    else if p.dataType == "numeric" then FloatType
    else StrType
  }

  /** `data_type(value)`: `None` where `int()` would raise ValueError. */
  function Coerce(t: ValueType, value: string): Option<Cell>
  {
    match t
    case IntType => (match ParseInt(value) case Some(i) => Some(Int(i)) case None => None)
    case FloatType => Some(Float(value))
    case StrType => Some(Str(value))
  }

  /** Coercion writes back exactly what `str()` printed: integers survive, text is kept verbatim. */
  lemma CoerceRoundTrip(i: int, s: string)
    ensures Coerce(IntType, IntToString(i)) == Some(Int(i))
    ensures Coerce(StrType, s) == Some(Str(s))
    ensures Coerce(FloatType, s) == Some(Float(s))
  {
    ParseIntToString(i);
  }

  predicate Coerces(t: ValueType, pv: PropertyValue)
  {
    Coerce(t, pv.value).Some?
  }

  predicate AllCoerce(t: ValueType, vs: seq<PropertyValue>)
  {
    forall i :: 0 <= i < |vs| ==> Coerces(t, vs[i])
  }

  /** Every value of the property is acceptable to its type's conversion. */
  predicate Coercible(p: Property)
  {
    AllCoerce(ValueTypeOf(p), p.values)
  }

  /** The row written for one value: the coerced value, then description, value id and property id. */
  function ValueRow(t: ValueType, pv: PropertyValue): seq<Cell>
    requires Coerces(t, pv)
  {
    [Coerce(t, pv.value).value, Str(pv.description), Str(pv.valueId), Str(pv.propertyId)]
  }

  function ValueRows(t: ValueType, vs: seq<PropertyValue>): (rows: seq<seq<Cell>>)
    requires AllCoerce(t, vs)
  {
    seq(|vs|, i requires 0 <= i < |vs| => ValueRow(t, vs[i]))
  }

  /** The index of the first value whose conversion fails, or the number of values if none does. */
  function FirstFailure(t: ValueType, vs: seq<PropertyValue>): (f: nat)
    ensures f <= |vs|
    ensures forall i :: 0 <= i < f ==> Coerces(t, vs[i])
    ensures f < |vs| ==> !Coerces(t, vs[f])
  {
    if vs == [] then 0
    else if !Coerces(t, vs[0]) then 0
    else 1 + FirstFailure(t, vs[1..])
  }

  /** The finished reference sheet of a property whose values all convert. */
  function ReferenceView(p: Property, password: string): SheetView
    requires Coercible(p)
  {
    SheetView(ReferenceName(p), [ReferenceHeader] + ValueRows(ValueTypeOf(p), p.values),
              true, Some(password), Hidden, {}, [])
  }

  /** The sheet left behind when a conversion raises: header and the rows written before it, still unlocked and visible. */
  function PartialView(p: Property): SheetView
  {
    var t := ValueTypeOf(p);
    SheetView(ReferenceName(p), [ReferenceHeader] + ValueRows(t, p.values[..FirstFailure(t, p.values)]),
              false, None, Visible, {}, [])
  }

  /**
   * What `_append_validation_sheet_` gives back: the new sheet, `None`, the
   * ValueError `create_sheet` raises on a forbidden title character, or the
   * ValueError a conversion raises.
   */
  datatype Appended = Created(sheet: Sheet) | AlreadyExists | TitleRejected | CoercionFailed(value: string)

  method AppendValidationSheet(wb: Workbook, p: Property, sheetPassword: Option<string>) returns (outcome: Appended)
    requires wb.Valid()
    modifies wb
    ensures wb.Valid()
    ensures ReferenceName(p) in old(wb.Titles()) ==> outcome == AlreadyExists && wb.sheets == old(wb.sheets)
    ensures ReferenceName(p) !in old(wb.Titles()) && !ValidTitle(ReferenceName(p)) ==>
      outcome == TitleRejected && wb.sheets == old(wb.sheets)
    ensures ReferenceName(p) !in old(wb.Titles()) && ValidTitle(ReferenceName(p)) ==>
      |wb.sheets| == |old(wb.sheets)| + 1 && wb.sheets[..|old(wb.sheets)|] == old(wb.sheets)
    ensures ReferenceName(p) !in old(wb.Titles()) && ValidTitle(ReferenceName(p)) ==> fresh(wb.sheets[|old(wb.sheets)|])
    ensures ReferenceName(p) !in old(wb.Titles()) && ValidTitle(ReferenceName(p)) ==>
      wb.Titles() == old(wb.Titles()) + [ReferenceName(p)]
    ensures ReferenceName(p) !in old(wb.Titles()) && ValidTitle(ReferenceName(p)) && Coercible(p) ==>
      outcome == Created(wb.sheets[|old(wb.sheets)|])
      && wb.sheets[|old(wb.sheets)|].View() == ReferenceView(p, PasswordFor(p, sheetPassword))
    ensures ReferenceName(p) !in old(wb.Titles()) && ValidTitle(ReferenceName(p)) && !Coercible(p) ==>
      && outcome == CoercionFailed(p.values[FirstFailure(ValueTypeOf(p), p.values)].value)
      && wb.sheets[|old(wb.sheets)|].View() == PartialView(p)
  {
    var name := ReferenceName(p);
    var pwd := if sheetPassword.Some? then sheetPassword.value else name;
    if name in wb.Titles() {
      return AlreadyExists;
    }
    var created := wb.CreateSheet(name, None);
    if created.None? {
      return TitleRejected;
    }
    var s := created.value;
    assert wb.sheets == old(wb.sheets) + [s];
    assert pwd == PasswordFor(p, sheetPassword);
    outcome := FillReferenceSheet(s, p, pwd);
    assert wb.sheets[|old(wb.sheets)|] == s;
  }

  /** Everything `_append_validation_sheet_` does to the sheet it has just created. */
  method FillReferenceSheet(s: Sheet, p: Property, pwd: string) returns (outcome: Appended)
    requires s.View() == BlankView(ReferenceName(p))
    modifies s`rows, s`protected, s`password, s`state
    ensures Coercible(p) ==> outcome == Created(s) && s.View() == ReferenceView(p, pwd)
    ensures !Coercible(p) ==>
      outcome == CoercionFailed(p.values[FirstFailure(ValueTypeOf(p), p.values)].value) && s.View() == PartialView(p)
  {
    s.Append(ReferenceHeader);
    var ok := WriteValues(s, p);
    if ok {
      s.EnableProtection();
      s.SetPassword(pwd);
      s.Hide();
      outcome := Created(s);
    } else {
      outcome := CoercionFailed(p.values[FirstFailure(ValueTypeOf(p), p.values)].value);
    }
  }

  /**
   * The `for pv in property` loop: appends one converted row per value and
   * stops where a conversion raises.
   */
  method WriteValues(s: Sheet, p: Property) returns (ok: bool)
    requires s.View() == BlankView(ReferenceName(p)).(rows := [ReferenceHeader])
    modifies s`rows
    ensures ok == Coercible(p)
    ensures ok ==> s.View() == BlankView(ReferenceName(p)).(rows := [ReferenceHeader] + ValueRows(ValueTypeOf(p), p.values))
    ensures !ok ==> s.View() == PartialView(p)
  {
    var t := ValueTypeOf(p);
    var i := 0;
    while i < |p.values|
      invariant 0 <= i <= |p.values|
      invariant AllCoerce(t, p.values[..i])
      invariant s.View() == BlankView(ReferenceName(p)).(rows := [ReferenceHeader] + ValueRows(t, p.values[..i]))
    {
      var pv := p.values[i];
      var c := Coerce(t, pv.value);
      if c.None? {
        assert FirstFailure(t, p.values) == i;
        return false;
      }
      s.Append([c.value, Str(pv.description), Str(pv.valueId), Str(pv.propertyId)]);
      assert ValueRows(t, p.values[..i + 1]) == ValueRows(t, p.values[..i]) + [ValueRow(t, pv)];
      i := i + 1;
    }
    assert p.values[..i] == p.values;
    ok := true;
  }

  /** The referenced column A, rows 2 to `max_row`, lists the coerced values in their order. */
  lemma ReferenceColumnListsValues(p: Property, password: string)
    requires Coercible(p)
    ensures MaxRowOf(ReferenceView(p, password).rows) == |p.values| + 1
    ensures forall i :: 0 <= i < |p.values| ==>
      ReferenceView(p, password).rows[i + 1][0] == Coerce(ValueTypeOf(p), p.values[i].value).value
  {
  }
}
