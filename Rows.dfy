/** The values that flow from the normaliser into the warehouse: a row to be loaded is
    a record from column name to value, as one entry of `DataFrame.to_dict('records')`. */
module Rows {
  import opened Wrappers

  /** A calendar date, as Python's `datetime.date`. */
  datatype Date = Date(year: int, month: int, day: int)

  /** A column value: SQL NULL (Python's None), text, an integer, a date, or a list of
      strings (the video tags). */
  datatype Value = Null | Text(s: string) | Int(i: int) | Day(d: Date) | TextList(items: seq<string>)

  /** One row of a batch: column name to value. */
  type Record = map<string, Value>

  /** An optional string as a column value: None becomes NULL. */
  function OptText(o: Option<string>): (v: Value)
    ensures v == Null <==> o.None?
  {
    match o
    case Some(t) => Text(t)
    case None => Null
  }
}
