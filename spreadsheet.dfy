/** A parsed workbook as `DataFrame.to_dict()` leaves it, per sheet: sheet
    name -> column name -> row index -> cell, every level a Python dict
    whose insertion order is kept. */
module Spreadsheet {
  import opened Lists
  import opened OrderedMap

  /** Cells are taken as text; pandas' own value types are not modelled. */
  type Cell = string

  /** Row index -> cell. */
  type Column = OMap<int, Cell>

  /** Column name (the header row) -> column. */
  type Sheet = OMap<string, Column>

  /** Sheet name -> sheet. */
  type Workbook = OMap<string, Sheet>

  /** Distinct keys at every level, as Python dicts have. */
  predicate WellFormedSheet(sheet: Sheet)
  {
    DistinctKeys(sheet) && forall i :: 0 <= i < |sheet| ==> DistinctKeys(sheet[i].1)
  }

  predicate WellFormed(book: Workbook)
  {
    DistinctKeys(book) && forall i :: 0 <= i < |book| ==> WellFormedSheet(book[i].1)
  }
}
