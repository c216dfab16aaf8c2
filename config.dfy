/**
 * The inputs the engine receives already parsed: coding and global
 * properties with their legal values, and the interview's utterances.
 */
module Config {
  import opened Spreadsheet

  /** Which list of the configuration a property comes from (the source tests it with `isinstance`). */
  datatype PropertyKind = Coding | Global

  /** One legal value of a property, kept as text as the configuration stores it. */
  datatype PropertyValue = PropertyValue(value: string, description: string, valueId: string, propertyId: string)

  /** A coding or global property; `dataType` is the configuration's tag, e.g. "numeric". */
  datatype Property = Property(
    kind: PropertyKind,
    displayName: string,
    propertyId: string,
    dataType: string,
    decimalDigits: int,
    values: seq<PropertyValue>)

  /** One utterance; its fields are written to the sheet exactly as the interview parser supplies them. */
  datatype Utterance = Utterance(lineNumber: Cell, utteranceNumber: Cell, role: Cell, text: Cell)

  predicate AllOfKind(ps: seq<Property>, kind: PropertyKind)
  {
    forall j :: 0 <= j < |ps| ==> ps[j].kind == kind
  }
}
