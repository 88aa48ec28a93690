/**
 * `ShipmentAdmin.upload_shipments`: the admin site's own bulk upload. It picks the reader by
 * the file name, skips a row whose dates do not read (with a message naming the row), creates
 * the others through `Shipment.save`, and gives up on the rest of the file at the first
 * exception anywhere else, keeping the shipments already created.
 */
module Admin {
  import opened Wrappers
  import opened PyText
  import opened Models
  import opened Ingest
  import Views

  // ---------------------------------------------------------------- the reader

  /** `pd.read_csv` for a name ending in `.csv` (case matters), `pd.read_excel` for any other. */
  function AdminFormat(name: string): FileFormat
  {
    if EndsWith(name, ".csv") then Csv else Excel
  }

  /** A name ending in `.csv` goes to the csv reader on both upload paths. */
  lemma CsvNameAgrees(name: string)
    requires EndsWith(name, ".csv")
    ensures AdminFormat(name) == Csv && Views.ViewFormat(name) == Some(Csv)
  {
    var base := name[..|name| - 4];
    assert name == base + "." + "csv" by {
      assert name[|name| - 4..] == ".csv";
    }
    Views.ExtensionAfterLastDot(base, "csv");
    assert Lower("csv") == "csv";
  }

  /**
   * The two paths part ways on the case of the extension: a name whose extension lower-cases
   * to `csv` is read as csv by the view, but by the admin only when it is `csv` exactly; a
   * name such as `shipments.CSV` is handed to the Excel reader.
   */
  lemma CsvCaseDiverges(base: string, ext: string)
    requires '.' !in ext && Lower(ext) == "csv"
    ensures Views.ViewFormat(base + "." + ext) == Some(Csv)
    ensures AdminFormat(base + "." + ext) == Csv <==> ext == "csv"
  {
    Views.ExtensionAfterLastDot(base, ext);
    DottedSuffix(base, ext);
  }

  /** A three-letter extension after the last dot: the name ends in `.csv` exactly when it is `csv`. */
  lemma DottedSuffix(base: string, ext: string)
    requires |ext| == 3
    ensures EndsWith(base + "." + ext, ".csv") <==> ext == "csv"
  {
    var name := base + "." + ext;
    assert name[|name| - 4..] == "." + ext;
    if EndsWith(name, ".csv") {
      assert name[|name| - 4..] == ".csv";
      assert ext == ("." + ext)[1..] == ".csv"[1..];
    }
  }

  // ---------------------------------------------------------------- one row

  /** The exception reading a cell raises: a bad date text, or a column the file does not have. */
  datatype ReadError = ValueError | KeyError

  /**
   * One date column as the admin reads it: a missing column raises KeyError; only a non-empty
   * text is parsed, with `datetime.fromisoformat`, raising ValueError when that rejects it;
   * an empty cell or a spreadsheet date (not a text) leaves the date unset.
   */
  function AdminDate(c: DateCell): Result<Option<Date>, ReadError>
  {
    match c
    case NoDate => Err(KeyError)
    case BlankDate => Ok(None)
    case DateValue(isText, text, _, iso) =>
      if isText && text != "" then (if iso.Some? then Ok(iso) else Err(ValueError)) else Ok(None)
  }

  /** The four dates of a row. */
  datatype Dates = Dates(date: Option<Date>, estimated: Option<Date>, delivered: Option<Date>, appointment: Option<Date>)

  /** The date cells of a row, in the order the admin reads them. */
  function DateCells(row: Row): (cells: seq<DateCell>)
    ensures |cells| == 4
  {
    [row.date, row.estimatedDeliveryDate, row.deliveryDate, row.appointmentDate]
  }

  /** The four dates read one after another inside one `try`: the first exception ends the reading. */
  function AdminDates(row: Row): Result<Dates, ReadError>
  {
    var date := AdminDate(row.date);
    if date.Err? then Err(date.error)
    else
      var estimated := AdminDate(row.estimatedDeliveryDate);
      if estimated.Err? then Err(estimated.error)
      else
        var delivered := AdminDate(row.deliveryDate);
        if delivered.Err? then Err(delivered.error)
        else
          var appointment := AdminDate(row.appointmentDate);
          if appointment.Err? then Err(appointment.error)
          else Ok(Dates(date.value, estimated.value, delivered.value, appointment.value))
  }

  /**
   * Reading the dates fails exactly when one of the four cells fails, and then with the error
   * of the first cell that fails; otherwise each date is what its own cell reads as.
   */
  lemma AdminDatesFirstFailure(row: Row)
    ensures AdminDates(row).Ok? <==> forall j | 0 <= j < 4 :: AdminDate(DateCells(row)[j]).Ok?
    ensures AdminDates(row).Err? ==>
      exists j | 0 <= j < 4 ::
        && (forall j' | 0 <= j' < j :: AdminDate(DateCells(row)[j']).Ok?)
        && AdminDate(DateCells(row)[j]) == Err(AdminDates(row).error)
    ensures AdminDates(row).Ok? ==>
      && AdminDates(row).value.date == AdminDate(row.date).value
      && AdminDates(row).value.estimated == AdminDate(row.estimatedDeliveryDate).value
      && AdminDates(row).value.delivered == AdminDate(row.deliveryDate).value
      && AdminDates(row).value.appointment == AdminDate(row.appointmentDate).value
  {
    var cells := DateCells(row);
    if AdminDate(cells[0]).Err? {
      assert AdminDate(cells[0]) == Err(AdminDates(row).error);
    } else if AdminDate(cells[1]).Err? {
      assert AdminDate(cells[1]) == Err(AdminDates(row).error);
    } else if AdminDate(cells[2]).Err? {
      assert AdminDate(cells[2]) == Err(AdminDates(row).error);
    } else if AdminDate(cells[3]).Err? {
      assert AdminDate(cells[3]) == Err(AdminDates(row).error);
    }
  }

  /** A message the admin shows. */
  datatype AdminMessage =
    | DateFormatError(rowLabel: string)   // "Error in date format for row …"
    | UnexpectedError(rowLabel: string)   // "Unexpected error for row …"
    | Uploaded(count: nat)             // "Successfully uploaded … shipments."
    | UploadError                      // "Error: …", from the handler around the whole upload

  /** A message about one skipped row. */
  predicate RowMessage(m: AdminMessage)
  {
    m.DateFormatError? || m.UnexpectedError?
  }

  /**
   * What one pass of the loop makes of a row: skip it with a message, give up on the upload
   * (a column the create reads is missing or does not convert), or create this shipment.
   */
  datatype AdminStep = Skip(message: AdminMessage) | Abort | Create(shipment: Shipment)

  /**
   * The `consignment_no` the create passes on: `row.get('consignment_no', None)`. A value
   * Python counts as false (absent, 0, `False`) leaves the number to `save`, written here as
   * the empty text; any other value is stored as its text, NaN as `nan`.
   */
  function CreateConsignmentNo(c: Cell): (no: string)
    ensures c.Missing? || c.Falsy? ==> no == ""
    ensures c.NaN? ==> no == "nan"
    ensures c.Text? ==> no == c.text
  {
    if c.Falsy? then "" else StoredText(c, "")
  }

  /** Whether the create raises on a column it reads with `row[column]` or converts. */
  predicate CreateRaises(row: Row)
  {
    || !row.othersOk || !row.freight.Amount? || !row.noArticle.Amount?
    || row.origin.Missing? || row.destination.Missing? || row.invoiceRef.Missing?
    || row.appointmentDelivery.NotABoolean?
  }

  /** The step for one row; `boe` is the `boe_num` a created shipment is given, `BOE_DEFAULT` as written. */
  function AdminStepOf(row: Row, boe: Option<string>): AdminStep
  {
    var rowLabel := StoredText(row.consignmentNo, "Unknown");
    match AdminDates(row)
    case Err(ValueError) => Skip(DateFormatError(rowLabel))
    case Err(KeyError) => Skip(UnexpectedError(rowLabel))
    case Ok(ds) =>
      if CreateRaises(row) then Abort
      else
        Create(Shipment(0, CreateConsignmentNo(row.consignmentNo), ds.date, row.freight.n, None,
                        StoredText(row.origin, ""), StoredText(row.destination, ""),
                        StoredText(row.invoiceRef, ""), row.noArticle.n, StoredText(row.status, BOOKED),
                        ds.estimated, ds.delivered, None, row.appointmentDelivery == Boolean(true),
                        ds.appointment, boe))
  }

  /**
   * A row is skipped exactly when its dates do not read, with a message naming the row by its
   * consignment number (`Unknown` without the column) and saying which exception it was; the
   * upload is abandoned at a row whose dates read but whose other columns do not; otherwise
   * the shipment created is new, billed to no customer, carries the row's values and dates,
   * its status cell's text (`nan` for an empty cell), and takes the defaults: status Booked
   * without the column, appointment delivery only for a cell that says so,
   * and the `boe_num` it is given.
   */
  lemma AdminStepCases(row: Row, boe: Option<string>)
    ensures AdminStepOf(row, boe).Skip? <==> AdminDates(row).Err?
    ensures AdminStepOf(row, boe).Skip? ==>
      && AdminStepOf(row, boe).message.rowLabel == StoredText(row.consignmentNo, "Unknown")
      && (AdminStepOf(row, boe).message.DateFormatError? <==> AdminDates(row).error == ValueError)
      && RowMessage(AdminStepOf(row, boe).message)
    ensures AdminStepOf(row, boe).Abort? <==>
      && AdminDates(row).Ok?
      && (|| !row.othersOk || !row.freight.Amount? || !row.noArticle.Amount?
          || row.origin.Missing? || row.destination.Missing? || row.invoiceRef.Missing?
          || row.appointmentDelivery.NotABoolean?)
    ensures AdminStepOf(row, boe).Create? ==>
      var s := AdminStepOf(row, boe).shipment;
      && s.pk == 0 && s.billto.None? && s.podScan.None?
      && s.consignmentNo == CreateConsignmentNo(row.consignmentNo)
      && s.freight == row.freight.n && s.noArticle == row.noArticle.n
      && s.invoiceRef == StoredText(row.invoiceRef, "") && s.origin == StoredText(row.origin, "")
      && s.destination == StoredText(row.destination, "")
      && s.date == AdminDate(row.date).value && s.estimatedDeliveryDate == AdminDate(row.estimatedDeliveryDate).value
      && s.deliveryDate == AdminDate(row.deliveryDate).value && s.appointmentDate == AdminDate(row.appointmentDate).value
      && s.status == StoredText(row.status, BOOKED) && (row.status.Missing? ==> s.status == BOOKED)
      && (s.appointmentDelivery <==> row.appointmentDelivery == Boolean(true))
      && s.boeNum == boe
  {
    AdminDatesFirstFailure(row);
  }

  /**
   * The consignment number a created row gets: the next one of the year without the column or
   * for a value Python counts as false (0, 0.0, an empty text), the text `nan` for an empty
   * cell (a float NaN is not falsy, so `save` keeps it), and the cell's own text otherwise; the
   * internal id is the next one.
   */
  lemma AdminConsignmentNo(t: seq<Shipment>, row: Row, year: nat, boe: Option<string>)
    requires AdminStepOf(row, boe).Create?
    requires SaveShipmentOutcome(t, AdminStepOf(row, boe).shipment, year).Ok?
    ensures var x := SaveShipmentOutcome(t, AdminStepOf(row, boe).shipment, year).value;
      && x.pk == |t| + 1
      && (row.consignmentNo.Missing? || row.consignmentNo.Falsy? || row.consignmentNo == Text("") ==>
          x.consignmentNo == NextConsignmentNo(t, year))
      && (row.consignmentNo.NaN? ==> x.consignmentNo == "nan")
      && (row.consignmentNo.Text? && row.consignmentNo.text != "" ==> x.consignmentNo == row.consignmentNo.text)
  {
    AdminStepCases(row, boe);
  }

  /**
   * A row whose booking date is empty, or a spreadsheet date rather than a text, reaches the
   * create with no date, which the database refuses: the upload is abandoned there.
   */
  lemma AdminUndatedRowFails(t: seq<Shipment>, row: Row, year: nat, boe: Option<string>)
    requires AdminStepOf(row, boe).Create?
    requires row.date.BlankDate? || (row.date.DateValue? && (!row.date.isText || row.date.text == ""))
    ensures SaveShipmentOutcome(t, AdminStepOf(row, boe).shipment, year) == Err(NullDate)
  {
    AdminStepCases(row, boe);
  }

  /** A step a row can give: a skip says why the row was skipped, a create is of a new shipment. */
  predicate Proper(step: AdminStep)
  {
    && (step.Skip? ==> RowMessage(step.message))
    && (step.Create? ==> step.shipment.pk == 0)
  }

  function AdminSteps(rows: seq<Row>, boe: Option<string>): (steps: seq<AdminStep>)
    ensures |steps| == |rows|
    ensures forall k | 0 <= k < |rows| :: steps[k] == AdminStepOf(rows[k], boe) && Proper(steps[k])
  {
    seq(|rows|, k requires 0 <= k < |rows| => AdminStepOf(rows[k], boe))
  }

  // ---------------------------------------------------------------- the loop

  /** The messages shown, whether the admin redirects (on success), and the shipment table afterwards. */
  datatype Outcome = Outcome(messages: seq<AdminMessage>, redirected: bool, table: seq<Shipment>)

  /**
   * The row loop from row `i` on, with table `t`, `created` shipments created so far and the
   * messages shown so far.
   */
  function AdminFrom(t: seq<Shipment>, steps: seq<AdminStep>, i: nat, created: nat,
                     messages: seq<AdminMessage>, year: nat): Outcome
    requires i <= |steps|
    decreases |steps| - i
  {
    if i == |steps| then Outcome(messages + [Uploaded(created)], true, t)
    else
      match steps[i]
      case Skip(m) => AdminFrom(t, steps, i + 1, created, messages + [m], year)
      case Abort => Outcome(messages + [UploadError], false, t)
      case Create(s) =>
        match SaveShipmentOutcome(t, s, year)
        case Err(_) => Outcome(messages + [UploadError], false, t)
        case Ok(x) => AdminFrom(t + [x], steps, i + 1, created + 1, messages, year)
  }

  /**
   * `upload_shipments`: with no valid form nothing happens; a file no reader takes ends in the
   * error message. The create leaves `boe_num` unset.
   */
  function UploadOutcome(t: seq<Shipment>, upload: Option<Upload>, year: nat): Outcome
  {
    if upload.None? then Outcome([], false, t)
    else
      match ReadAs(upload.value, AdminFormat(upload.value.name))
      case None => Outcome([UploadError], false, t)
      case Some(rows) => AdminFrom(t, AdminSteps(rows, BOE_DEFAULT), 0, 0, [], year)
  }

  /** The messages from position `from` on, all but the last, are about skipped rows. */
  predicate RowMessagesFrom(ms: seq<AdminMessage>, from: nat)
  {
    forall k | from <= k < |ms| - 1 :: RowMessage(ms[k])
  }

  /**
   * The loop keeps the rows that were there and the messages already shown, and adds one
   * message per skipped row followed by one final message.
   */
  lemma {:induction false} AdminFromKeeps(t: seq<Shipment>, steps: seq<AdminStep>, i: nat, created: nat,
                                          messages: seq<AdminMessage>, year: nat)
    requires i <= |steps| && forall k | 0 <= k < |steps| :: Proper(steps[k])
    ensures var o := AdminFrom(t, steps, i, created, messages, year);
      && |t| <= |o.table| && o.table[..|t|] == t
      && |messages| < |o.messages| && o.messages[..|messages|] == messages
      && RowMessagesFrom(o.messages, |messages|)
    decreases |steps| - i
  {
    if i < |steps| {
      match steps[i]
      case Skip(m) =>
        var messages' := messages + [m];
        AdminFromKeeps(t, steps, i + 1, created, messages', year);
        var o := AdminFrom(t, steps, i + 1, created, messages', year);
        assert o.messages[..|messages|] == o.messages[..|messages'|][..|messages|] == messages;
        assert o.messages[|messages|] == o.messages[..|messages'|][|messages|] == m;
      case Abort =>
      case Create(s) =>
        if SaveShipmentOutcome(t, s, year).Ok? {
          var t' := t + [SaveShipmentOutcome(t, s, year).value];
          AdminFromKeeps(t', steps, i + 1, created + 1, messages, year);
          var o := AdminFrom(t', steps, i + 1, created + 1, messages, year);
          assert o.table[..|t|] == o.table[..|t'|][..|t|] == t'[..|t|] == t;
        }
    }
  }

  /**
   * The final message: on success the count of shipments created, every row having been
   * either created or skipped; otherwise the error, shown before the end of the file.
   */
  lemma {:induction false} AdminFromEnds(t: seq<Shipment>, steps: seq<AdminStep>, i: nat, created: nat,
                                         messages: seq<AdminMessage>, year: nat)
    requires i <= |steps|
    ensures var o := AdminFrom(t, steps, i, created, messages, year);
      && |t| <= |o.table| && |messages| < |o.messages|
      && (o.redirected ==>
        && o.messages[|o.messages| - 1] == Uploaded(created + (|o.table| - |t|))
        && (|o.table| - |t|) + (|o.messages| - 1 - |messages|) == |steps| - i)
      && (!o.redirected ==>
        && o.messages[|o.messages| - 1] == UploadError
        && (|o.table| - |t|) + (|o.messages| - 1 - |messages|) < |steps| - i)
    decreases |steps| - i
  {
    if i < |steps| {
      match steps[i]
      case Skip(m) =>
        AdminFromEnds(t, steps, i + 1, created, messages + [m], year);
      case Abort =>
      case Create(s) =>
        if SaveShipmentOutcome(t, s, year).Ok? {
          AdminFromEnds(t + [SaveShipmentOutcome(t, s, year).value], steps, i + 1, created + 1, messages, year);
        }
    }
  }

  /** From position `from` on, each row of the table has the internal id of its position. */
  predicate IdsFrom(table: seq<Shipment>, from: nat)
  {
    forall k | from <= k < |table| :: table[k].pk == k + 1
  }

  /** Each shipment the loop creates gets the next internal id. */
  lemma {:induction false} AdminFromIds(t: seq<Shipment>, steps: seq<AdminStep>, i: nat, created: nat,
                                        messages: seq<AdminMessage>, year: nat)
    requires i <= |steps| && forall k | 0 <= k < |steps| :: Proper(steps[k])
    ensures IdsFrom(AdminFrom(t, steps, i, created, messages, year).table, |t|)
    decreases |steps| - i
  {
    if i < |steps| {
      match steps[i]
      case Skip(m) =>
        AdminFromIds(t, steps, i + 1, created, messages + [m], year);
      case Abort =>
      case Create(s) =>
        if SaveShipmentOutcome(t, s, year).Ok? {
          var x := SaveShipmentOutcome(t, s, year).value;
          var t' := t + [x];
          AdminFromKeeps(t', steps, i + 1, created + 1, messages, year);
          AdminFromIds(t', steps, i + 1, created + 1, messages, year);
          var table := AdminFrom(t', steps, i + 1, created + 1, messages, year).table;
          assert table[|t|] == t'[|t|] == x;
        }
    }
  }

  /**
   * The upload's failure policy: rows already in the table stay; with no valid form nothing is
   * shown; a file the reader rejects shows only the error. Otherwise each skipped row shows its
   * message, and the admin either redirects after reporting how many shipments it created,
   * every row having been created or skipped, or shows the error and stays on the form, the
   * shipments created before the failing row remaining, each with the next internal id.
   */
  lemma UploadPolicy(t: seq<Shipment>, upload: Option<Upload>, year: nat)
    ensures var o := UploadOutcome(t, upload, year);
      && |t| <= |o.table| && o.table[..|t|] == t && IdsFrom(o.table, |t|)
      && (upload.None? ==> o == Outcome([], false, t))
      && (upload.Some? && ReadAs(upload.value, AdminFormat(upload.value.name)).None? ==>
          o == Outcome([UploadError], false, t))
      && (upload.Some? ==> |o.messages| > 0 && forall k | 0 <= k < |o.messages| - 1 :: RowMessage(o.messages[k]))
      && (o.redirected ==>
        && upload.Some? && ReadAs(upload.value, AdminFormat(upload.value.name)).Some?
        && o.messages[|o.messages| - 1] == Uploaded(|o.table| - |t|)
        && (|o.table| - |t|) + (|o.messages| - 1) == |ReadAs(upload.value, AdminFormat(upload.value.name)).value|)
      && (upload.Some? && !o.redirected ==> o.messages[|o.messages| - 1] == UploadError)
  {
    if upload.Some? && ReadAs(upload.value, AdminFormat(upload.value.name)).Some? {
      var steps := AdminSteps(ReadAs(upload.value, AdminFormat(upload.value.name)).value, BOE_DEFAULT);
      AdminFromKeeps(t, steps, 0, 0, [], year);
      AdminFromEnds(t, steps, 0, 0, [], year);
      AdminFromIds(t, steps, 0, 0, [], year);
    }
  }

  /**
   * From row `i` on, when no shipment to create has a `boe_num`, the loop creates nothing: it
   * redirects, with the count so far, exactly when every remaining row is skipped, and
   * otherwise ends with the error at the first row it does not skip.
   */
  lemma {:induction false} AdminFromUnsetBoe(t: seq<Shipment>, steps: seq<AdminStep>, i: nat, created: nat,
                                             messages: seq<AdminMessage>, year: nat)
    requires i <= |steps| && forall k | i <= k < |steps| :: steps[k].Create? ==> steps[k].shipment.boeNum.None?
    ensures var o := AdminFrom(t, steps, i, created, messages, year);
      && o.table == t && |messages| < |o.messages|
      && (o.redirected <==> forall k | i <= k < |steps| :: steps[k].Skip?)
      && o.messages[|o.messages| - 1] == (if o.redirected then Uploaded(created) else UploadError)
    decreases |steps| - i
  {
    if i < |steps| && steps[i].Skip? {
      AdminFromUnsetBoe(t, steps, i + 1, created, messages + [steps[i].message], year);
    }
  }

  /**
   * As written, every shipment the admin creates keeps `boe_num` at its default `None`, which
   * the NOT NULL constraint refuses: no upload creates a shipment. It redirects, reporting 0
   * shipments, only when every row is skipped for its dates; otherwise it shows the error.
   */
  lemma UploadCreatesNothing(t: seq<Shipment>, upload: Option<Upload>, year: nat)
    ensures var o := UploadOutcome(t, upload, year);
      && o.table == t
      && (o.redirected ==> o.messages != [] && o.messages[|o.messages| - 1] == Uploaded(0))
      && (upload.Some? && ReadAs(upload.value, AdminFormat(upload.value.name)).Some? ==>
          var rows := ReadAs(upload.value, AdminFormat(upload.value.name)).value;
          o.redirected <==> forall k | 0 <= k < |rows| :: AdminDates(rows[k]).Err?)
  {
    if upload.Some? && ReadAs(upload.value, AdminFormat(upload.value.name)).Some? {
      var rows := ReadAs(upload.value, AdminFormat(upload.value.name)).value;
      var steps := AdminSteps(rows, BOE_DEFAULT);
      forall k | 0 <= k < |steps|
        ensures (steps[k].Skip? <==> AdminDates(rows[k]).Err?)
        ensures steps[k].Create? ==> steps[k].shipment.boeNum.None?
      {
        AdminStepCases(rows[k], BOE_DEFAULT);
      }
      AdminFromUnsetBoe(t, steps, 0, 0, [], year);
    }
  }

  /**
   * With a `boe_num` supplied, a one-row upload whose row reads with a booking date and no
   * consignment number creates the shipment when the year's next number is free: it redirects
   * reporting one shipment, stored with that number, the next internal id and the `boe_num`.
   */
  lemma IntendedRowCreated(t: seq<Shipment>, row: Row, year: nat, boe: string)
    requires AdminStepOf(row, Some(boe)).Create? && AdminStepOf(row, Some(boe)).shipment.date.Some?
    requires row.consignmentNo.Missing? || row.consignmentNo.Falsy?
    requires NextConsignmentNo(t, year) !in ConsignmentNos(t)
    ensures var o := AdminFrom(t, AdminSteps([row], Some(boe)), 0, 0, [], year);
      && o.redirected && o.messages == [Uploaded(1)] && |o.table| == |t| + 1 && o.table[..|t|] == t
      && o.table[|t|].pk == |t| + 1 && o.table[|t|].consignmentNo == NextConsignmentNo(t, year)
      && o.table[|t|].boeNum == Some(boe)
  {
    AdminStepCases(row, Some(boe));
    var steps := AdminSteps([row], Some(boe));
    assert steps[0] == AdminStepOf(row, Some(boe));
  }

  /** The create of one row through `Shipment.save`: the new row is appended, or the save is refused. */
  method CreateRow(db: Database, s: Shipment, year: nat) returns (ok: bool)
    requires db.Valid() && s.pk == 0
    modifies db
    ensures db.Valid()
    ensures ok == SaveShipmentOutcome(old(db.shipments), s, year).Ok?
    ensures db.shipments == if ok then old(db.shipments) + [SaveShipmentOutcome(old(db.shipments), s, year).value]
                            else old(db.shipments)
    ensures db.customers == old(db.customers) && db.manifests == old(db.manifests)
    ensures db.vendors == old(db.vendors) && db.trips == old(db.trips)
  {
    var saved := db.SaveShipment(s, year);
    ok := saved.Ok?;
  }

  /** `upload_shipments` on a POST with a valid form: choose the reader, then the row loop. */
  method UploadShipments(db: Database, upload: Option<Upload>, year: nat)
    returns (messages: seq<AdminMessage>, redirected: bool)
    requires db.Valid()
    modifies db
    ensures db.Valid()
    ensures Outcome(messages, redirected, db.shipments) == UploadOutcome(old(db.shipments), upload, year)
    ensures db.customers == old(db.customers) && db.manifests == old(db.manifests)
    ensures db.vendors == old(db.vendors) && db.trips == old(db.trips)
  {
    if upload.None? {
      return [], false;
    }
    var read := ReadAs(upload.value, AdminFormat(upload.value.name));
    if read.None? {
      return [UploadError], false;
    }
    messages, redirected := CreateRows(db, read.value, year, BOE_DEFAULT);
  }

  /**
   * The row loop of `upload_shipments`: a row whose dates do not read is skipped with a
   * message, the others are created through `Shipment.save`, and the first other exception
   * ends the upload with the error message. `boe` is the `boe_num` the shipments are created
   * with: `upload_shipments` gives them none (`BOE_DEFAULT`).
   */
  method CreateRows(db: Database, rows: seq<Row>, year: nat, boe: Option<string>)
    returns (messages: seq<AdminMessage>, redirected: bool)
    requires db.Valid()
    modifies db
    ensures db.Valid()
    ensures Outcome(messages, redirected, db.shipments) == AdminFrom(old(db.shipments), AdminSteps(rows, boe), 0, 0, [], year)
    ensures db.customers == old(db.customers) && db.manifests == old(db.manifests)
    ensures db.vendors == old(db.vendors) && db.trips == old(db.trips)
  {
    ghost var steps := AdminSteps(rows, boe);
    messages := [];
    var created := 0;
    var i := 0;
    while i < |rows|
      invariant i <= |rows|
      invariant db.Valid()
      invariant AdminFrom(db.shipments, steps, i, created, messages, year)
             == AdminFrom(old(db.shipments), steps, 0, 0, [], year)
      invariant db.customers == old(db.customers) && db.manifests == old(db.manifests)
      invariant db.vendors == old(db.vendors) && db.trips == old(db.trips)
    {
      var step := AdminStepOf(rows[i], boe);
      assert step == steps[i];
      if step.Skip? {
        messages := messages + [step.message];
        i := i + 1;
        continue;
      }
      if step.Abort? {
        return messages + [UploadError], false;
      }
      var ok := CreateRow(db, step.shipment, year);
      if !ok {
        return messages + [UploadError], false;
      }
      created := created + 1;
      i := i + 1;
    }
    return messages + [Uploaded(created)], true;
  }
}
