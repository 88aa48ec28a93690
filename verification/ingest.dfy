/**
 * A spreadsheet row as the two bulk-upload paths receive it from pandas, once the file has
 * been decoded. Decoding the file and parsing date text are outside the model: a date cell
 * carries what each of the two date parsers makes of it.
 */
module Ingest {
  import opened Wrappers
  import opened Models

  /** The outcome of reading a cell into a column: the value, or the exception reading it raises. */
  datatype Read<+T> = Got(value: T) | Raise

  /**
   * A cell read as text: the column is absent, the cell is empty (pandas NaN), it holds a
   * value Python counts as true, or one it counts as false (the number 0 or 0.0, `False`).
   * `text` is the value as `str()` shows it. NaN is a float Python counts as true.
   */
  datatype Cell = Missing | NaN | Text(text: string) | Falsy(text: string)

  /** A cell that holds a value, `pd.notnull`. */
  predicate Present(c: Cell)
  {
    c.Text? || c.Falsy?
  }

  /** A numeric cell: the column is absent, a value `int()`/`float()` accept, or one they reject (NaN, words). */
  datatype Number = NoNumber | Amount(n: int) | NotANumber

  /**
   * What Django's `parse_date` makes of a text: a date, no match (it returns None), or text of
   * the right shape that names no calendar day (it raises ValueError).
   */
  datatype DateParse = Parsed(d: Date) | NoMatch | Impossible

  /**
   * A date cell: the column is absent, the cell is empty (NaN or NaT), or it holds a value.
   * For a value, `isText` says whether pandas hands over a `str` (a spreadsheet date arrives as
   * a timestamp instead), `text` is `str(value)`, `django` is `parse_date(str(value))`, and `iso`
   * is the date part of `datetime.fromisoformat(value)`, `None` where that raises ValueError.
   */
  datatype DateCell =
    | NoDate
    | BlankDate
    | DateValue(isText: bool, text: string, django: DateParse, iso: Option<Date>)

  /**
   * A cell read into a `BooleanField`: the column is absent, or the cell holds a value the
   * field converts (`True`/`False`, `1`/`0`, `"t"`/`"f"`, `"True"`/`"False"`, `"1"`/`"0"`), or
   * one it rejects with ValidationError (NaN among them).
   */
  datatype Flag = NoFlag | Boolean(b: bool) | NotABoolean

  /**
   * One row of an upload. `othersOk` stands for every column the paths read but no rule
   * inspects (payment mode, shipment type, pins, vehicle, consignor, consignee, value, weights,
   * pack type): true when each is present and converts, false when reading one raises. The
   * origin, destination and invoice columns are read with `row[column]` on both paths.
   */
  datatype Row = Row(
    consignmentNo: Cell,
    billto: Cell,
    date: DateCell,
    estimatedDeliveryDate: DateCell,
    deliveryDate: DateCell,
    appointmentDate: DateCell,
    freight: Number,
    noArticle: Number,
    status: Cell,
    appointmentDelivery: Flag,
    origin: Cell,
    destination: Cell,
    invoiceRef: Cell,
    othersOk: bool)

  /** The reader a path hands a file to. */
  datatype FileFormat = Csv | Excel

  /**
   * An uploaded file: its name, and the rows each reader decodes from it (`None` where that
   * reader raises).
   */
  datatype Upload = Upload(name: string, asCsv: Option<seq<Row>>, asExcel: Option<seq<Row>>)

  /** The rows the chosen reader makes of the file. */
  function ReadAs(u: Upload, f: FileFormat): Option<seq<Row>>
  {
    if f == Csv then u.asCsv else u.asExcel
  }

  /**
   * `row.get(column, default)` as a text column stores it: the default when the column is
   * absent, the text `"nan"` for an empty cell (a CharField stores `str(value)`), else the text.
   * A column read with `row[column]` raises KeyError when absent instead.
   */
  function StoredText(c: Cell, default: string): string
  {
    match c
    case Missing => default
    case NaN => "nan"
    case Text(t) => t
    case Falsy(t) => t
  }
}
