/**
 * The request handlers with rules of their own: the bulk upload of shipments from a
 * spreadsheet, the label sheet, the totals of the manifest page and the shipment list.
 * Requests, rendering and the PDF canvas are left out; the database is the `Database` object.
 */
module Views {
  import opened Wrappers
  import opened PyText
  import opened PyTextFacts
  import opened Models
  import opened Ingest
  import opened Forms

  // ---------------------------------------------------------------- bulk upload: one row

  /** A line of the summary CSV the upload returns. */
  datatype SummaryEntry = SummaryEntry(
    invoiceRef: string, consignmentNo: string, date: Option<Date>,
    origin: string, destination: string, freight: int)

  /** The answers of `shipment_bulk_upload`. */
  datatype Response =
    | UploadPage                                    // no file posted: the upload page
    | UnsupportedFormat                             // 400 "Unsupported file format"
    | UnreadableFile                                // 400 "Error reading file: ..."
    | UnknownCustomer(row: nat, customerId: string) // 400 "Row n failed: Customer with ID '...' not found"
    | RowFailed(row: nat)                           // 500 "Row n failed: ..."
    | SummaryCsv(entries: seq<SummaryEntry>)        // 200, the summary of every row

  /** The HTTP status of a response. */
  function StatusCode(r: Response): int
  {
    match r
    case UploadPage => 200
    case UnsupportedFormat => 400
    case UnreadableFile => 400
    case UnknownCustomer(_, _) => 400
    case RowFailed(_) => 500
    case SummaryCsv(_) => 200
  }

  /** `file.name.split('.')[-1].lower()`. */
  function Extension(name: string): string
  {
    Lower(AfterLast(name, '.'))
  }

  /** The reader the view picks: csv, or Excel for xls and xlsx; `None` for any other extension. */
  function ViewFormat(name: string): Option<FileFormat>
  {
    var ext := Extension(name);
    if ext == "csv" then Some(Csv) else if ext == "xls" || ext == "xlsx" then Some(Excel) else None
  }

  /**
   * The extension is the text after the last dot, in lower case: `base + "." + ext` with no dot
   * in `ext` has extension `ext` lower-cased, whatever dots `base` holds.
   */
  lemma ExtensionAfterLastDot(base: string, ext: string)
    requires '.' !in ext
    ensures Extension(base + "." + ext) == Lower(ext)
  {
    AfterLastOfSuffix(base, '.', ext);
  }

  /** The text after the last separator is everything after a separator followed by none. */
  lemma {:induction false} AfterLastOfSuffix(base: string, sep: char, ext: string)
    requires sep !in ext
    ensures AfterLast(base + [sep] + ext, sep) == ext
    decreases |ext|
  {
    var name := base + [sep] + ext;
    if ext == [] {
      assert name[|name| - 1] == sep;
    } else {
      var init := ext[..|ext| - 1];
      assert sep !in init by {
        forall k | 0 <= k < |init| ensures init[k] != sep { assert init[k] == ext[k]; }
      }
      var last := ext[|ext| - 1];
      assert last != sep;
      AfterLastOfSuffix(base, sep, init);
      assert name[..|name| - 1] == base + [sep] + init;
      assert name[|name| - 1] == last;
      assert AfterLast(name, sep) == AfterLast(base + [sep] + init, sep) + [last];
      assert init + [last] == ext;
    }
  }

  /** The rows of the file as the reader the view picks decodes them; `None` for no reader or a reader error. */
  function ViewRead(u: Upload): Option<seq<Row>>
  {
    match ViewFormat(u.name)
    case None => None
    case Some(f) => ReadAs(u, f)
  }

  /** The customer id a row names: `str(cell).strip()` for a present, non-empty cell. */
  function CustomerCell(c: Cell): Option<string>
  {
    if Present(c) then Some(Strip(c.text)) else None
  }

  /** `parse_date` applied to a present date cell. */
  function ParseCell(c: DateCell): Read<Option<Date>>
    requires c.DateValue?
  {
    match c.django
    case Parsed(d) => Got(Some(d))
    case NoMatch => Got(None)
    case Impossible => Raise
  }

  /** The `date` column: required (`row['date']`); an empty cell becomes today. */
  function BookingDate(c: DateCell, today: Date): Read<Option<Date>>
  {
    match c
    case NoDate => Raise
    case BlankDate => Got(Some(today))
    case DateValue(_, _, _, _) => ParseCell(c)
  }

  /** An optional date column (`row.get(...)`): absent or empty gives `None`. */
  function OptionalDate(c: DateCell): Read<Option<Date>>
  {
    if c.DateValue? then ParseCell(c) else Got(None)
  }

  /** `float(row['freight'])`. */
  function FreightCell(c: Number): Read<int>
  {
    if c.Amount? then Got(c.n) else Raise
  }

  /** `int(row.get('no_article', 0))`. */
  function ArticlesCell(c: Number): Read<int>
  {
    match c
    case NoNumber => Got(0)
    case Amount(n) => Got(n)
    case NotANumber => Raise
  }

  /** Whether a date cell holds text of the date shape that names no calendar day. */
  predicate ImpossibleDate(c: DateCell)
  {
    c.DateValue? && c.django.Impossible?
  }

  /**
   * The unsaved `Shipment(...)` the view builds from a row, or the exception; the customer,
   * looked up beforehand, is filled in by the loop (`ViewRow`). `boe` is the `boe_num` the
   * shipment is given: the view passes none, so as written it is `BOE_DEFAULT`.
   */
  function ViewShipment(row: Row, today: Date, boe: Option<string>): Read<Shipment>
  {
    var date := BookingDate(row.date, today);
    var estimated := OptionalDate(row.estimatedDeliveryDate);
    var delivered := OptionalDate(row.deliveryDate);
    var freight := FreightCell(row.freight);
    var articles := ArticlesCell(row.noArticle);
    if || !row.othersOk || date.Raise? || estimated.Raise? || delivered.Raise? || freight.Raise? || articles.Raise?
       || row.origin.Missing? || row.destination.Missing? || row.invoiceRef.Missing?
    then
      Raise
    else
      Got(Shipment(0, "", date.value, freight.value, None, StoredText(row.origin, ""),
                   StoredText(row.destination, ""), StoredText(row.invoiceRef, ""),
                   articles.value, StoredText(row.status, BOOKED), estimated.value, delivered.value,
                   None, false, None, boe))
  }

  /**
   * Building the shipment raises exactly when a column the view reads is missing or does not
   * convert; otherwise the shipment is new and unnumbered, stores the row's values (its
   * freight, article count, status, origin, destination, invoice and each date `parse_date`
   * reads), and takes the defaults: today for an empty date, 0 articles, status Booked, no
   * estimated or delivery date, `None` for a date text `parse_date` does not recognise, and
   * the `boe_num` it is given.
   */
  lemma ViewShipmentDefaults(row: Row, today: Date, boe: Option<string>)
    ensures ViewShipment(row, today, boe).Raise? <==>
      || !row.othersOk || row.date.NoDate? || ImpossibleDate(row.date)
      || ImpossibleDate(row.estimatedDeliveryDate) || ImpossibleDate(row.deliveryDate)
      || !row.freight.Amount? || row.noArticle.NotANumber?
      || row.origin.Missing? || row.destination.Missing? || row.invoiceRef.Missing?
    ensures ViewShipment(row, today, boe).Got? ==>
      var s := ViewShipment(row, today, boe).value;
      && s.pk == 0 && s.consignmentNo == ""
      && s.invoiceRef == StoredText(row.invoiceRef, "") && s.origin == StoredText(row.origin, "")
      && s.destination == StoredText(row.destination, "")
      && s.freight == row.freight.n && (row.noArticle.Amount? ==> s.noArticle == row.noArticle.n)
      && s.status == StoredText(row.status, BOOKED)
      && (row.date.DateValue? && row.date.django.Parsed? ==> s.date == Some(row.date.django.d))
      && (row.estimatedDeliveryDate.DateValue? && row.estimatedDeliveryDate.django.Parsed? ==>
          s.estimatedDeliveryDate == Some(row.estimatedDeliveryDate.django.d))
      && (row.deliveryDate.DateValue? && row.deliveryDate.django.Parsed? ==>
          s.deliveryDate == Some(row.deliveryDate.django.d))
      && (row.date.BlankDate? ==> s.date == Some(today))
      && (row.date.DateValue? && row.date.django.NoMatch? ==> s.date.None?)
      && (row.noArticle.NoNumber? ==> s.noArticle == 0)
      && (row.status.Missing? ==> s.status == BOOKED)
      && (!row.estimatedDeliveryDate.DateValue? ==> s.estimatedDeliveryDate.None?)
      && (!row.deliveryDate.DateValue? ==> s.deliveryDate.None?)
      && s.podScan.None? && !s.appointmentDelivery && s.appointmentDate.None? && s.boeNum == boe
  {
  }

  /**
   * What the loop reads from one row: the customer id it names and the shipment built from
   * it. Building reads no state, so building before or after the lookup is the same.
   */
  datatype Candidate = Candidate(customerId: Option<string>, built: Read<Shipment>)

  function CandidateOf(row: Row, today: Date, boe: Option<string>): Candidate
  {
    Candidate(CustomerCell(row.billto), ViewShipment(row, today, boe))
  }

  /** A candidate whose shipment, if built, is still unsaved and unnumbered. */
  predicate Unsaved(c: Candidate)
  {
    c.built.Got? ==> c.built.value.pk == 0 && c.built.value.consignmentNo == ""
  }

  function Candidates(rows: seq<Row>, today: Date, boe: Option<string>): (cs: seq<Candidate>)
    ensures |cs| == |rows|
    ensures forall k | 0 <= k < |rows| :: cs[k] == CandidateOf(rows[k], today, boe) && Unsaved(cs[k])
  {
    seq(|rows|, k requires 0 <= k < |rows| => CandidateOf(rows[k], today, boe))
  }

  /** What one pass of the loop does: the shipment it saves, or the response it returns early with. */
  datatype RowResult = Saved(shipment: Shipment) | Stopped(response: Response)

  /** One iteration of the row loop for the row at DataFrame index `index`. */
  function ViewRow(t: seq<Shipment>, customers: seq<Customer>, c: Candidate, index: nat, year: nat): RowResult
  {
    var cid := c.customerId;
    if cid.Some? && cid.value != "" && cid.value !in CustomerIds(customers) then
      Stopped(UnknownCustomer(index + 1, cid.value))
    else
      var billto := if cid.Some? && cid.value != "" then cid else None;
      match c.built
      case Raise => Stopped(RowFailed(index + 1))
      case Got(s) =>
        match SaveShipmentOutcome(t, s.(billto := billto), year)
        case Err(_) => Stopped(RowFailed(index + 1))
        case Ok(x) => Saved(x)
  }

  /**
   * A row whose customer cell is absent, empty or only whitespace triggers no lookup: it never
   * stops the upload as an unknown customer, and the shipment it saves has no customer; a
   * named customer that exists is the one the saved shipment is billed to.
   */
  lemma CustomerLookup(t: seq<Shipment>, customers: seq<Customer>, row: Row, index: nat, year: nat, today: Date,
                       boe: Option<string>)
    ensures var r := ViewRow(t, customers, CandidateOf(row, today, boe), index, year);
      && (!Present(row.billto) || AllSpace(row.billto.text) ==>
          !(r.Stopped? && r.response.UnknownCustomer?) && (r.Saved? ==> r.shipment.billto.None?))
      && (Present(row.billto) && !AllSpace(row.billto.text) && r.Saved? ==>
          r.shipment.billto == Some(Strip(row.billto.text)) && Strip(row.billto.text) in CustomerIds(customers))
  {
    if Present(row.billto) {
      StripEmpty(row.billto.text);
    }
  }

  /** A row saved by the view gets the next consignment number of the year and the next internal id. */
  lemma ViewRowAllocates(t: seq<Shipment>, customers: seq<Customer>, c: Candidate, index: nat, year: nat)
    requires Unsaved(c) && ViewRow(t, customers, c, index, year).Saved?
    ensures c.built.Got?
    ensures var x := ViewRow(t, customers, c, index, year).shipment;
      && x.pk == |t| + 1 && x.consignmentNo == NextConsignmentNo(t, year)
      && x.invoiceRef == c.built.value.invoiceRef && x.origin == c.built.value.origin
      && x.destination == c.built.value.destination
  {
  }

  // ---------------------------------------------------------------- bulk upload: the loop

  function EntryOf(x: Shipment): SummaryEntry
  {
    SummaryEntry(x.invoiceRef, x.consignmentNo, x.date, x.origin, x.destination, x.freight)
  }

  function Entries(xs: seq<Shipment>): (es: seq<SummaryEntry>)
    ensures |es| == |xs| && forall k | 0 <= k < |xs| :: es[k] == EntryOf(xs[k])
  {
    seq(|xs|, k requires 0 <= k < |xs| => EntryOf(xs[k]))
  }

  /**
   * The row loop from row `i` on, with table `t` and the summary `entries` collected so far:
   * the response and the shipment table it leaves.
   */
  function ViewFrom(t: seq<Shipment>, customers: seq<Customer>, cs: seq<Candidate>, i: nat,
                    entries: seq<SummaryEntry>, year: nat): (Response, seq<Shipment>)
    requires i <= |cs|
    decreases |cs| - i
  {
    if i == |cs| then (SummaryCsv(entries), t)
    else
      match ViewRow(t, customers, cs[i], i, year)
      case Stopped(resp) => (resp, t)
      case Saved(x) => ViewFrom(t + [x], customers, cs, i + 1, entries + [EntryOf(x)], year)
  }

  /** `shipment_bulk_upload`: the response and the shipment table afterwards; `boe_num` is left unset. */
  function BulkUploadOutcome(t: seq<Shipment>, customers: seq<Customer>, upload: Option<Upload>,
                             year: nat, today: Date): (Response, seq<Shipment>)
  {
    if upload.None? then (UploadPage, t)
    else if ViewFormat(upload.value.name).None? then (UnsupportedFormat, t)
    else if ViewRead(upload.value).None? then (UnreadableFile, t)
    else ViewFrom(t, customers, Candidates(ViewRead(upload.value).value, today, BOE_DEFAULT), 0, [], year)
  }

  /** The loop never rewrites or removes a row that was there before it, and adds at most one per row. */
  lemma {:induction false} ViewFromKeeps(t: seq<Shipment>, customers: seq<Customer>, cs: seq<Candidate>, i: nat,
                                         entries: seq<SummaryEntry>, year: nat)
    requires i <= |cs|
    ensures var table := ViewFrom(t, customers, cs, i, entries, year).1;
      |t| <= |table| <= |t| + (|cs| - i) && table[..|t|] == t
    decreases |cs| - i
  {
    if i < |cs| {
      var r := ViewRow(t, customers, cs[i], i, year);
      if r.Saved? {
        var t' := t + [r.shipment];
        ViewFromKeeps(t', customers, cs, i + 1, entries + [EntryOf(r.shipment)], year);
        var table := ViewFrom(t', customers, cs, i + 1, entries + [EntryOf(r.shipment)], year).1;
        assert table[..|t|] == t'[..|t|] == t;
      }
    }
  }

  /** The saved shipment `x` carries the text columns of the shipment built for candidate `j`. */
  predicate FromCandidate(x: Shipment, cs: seq<Candidate>, j: int)
  {
    && 0 <= j < |cs| && cs[j].built.Got?
    && x.invoiceRef == cs[j].built.value.invoiceRef && x.origin == cs[j].built.value.origin
    && x.destination == cs[j].built.value.destination && x.freight == cs[j].built.value.freight
  }

  /** The rows of `table` from position `from` on come from the candidates from `i` on, in order. */
  predicate InFileOrder(table: seq<Shipment>, from: nat, cs: seq<Candidate>, i: nat)
  {
    forall k | from <= k < |table| :: FromCandidate(table[k], cs, i + (k - from))
  }

  /** Each shipment the loop appends comes from the row in the same position: file order is kept. */
  lemma {:induction false} ViewFromOrder(t: seq<Shipment>, customers: seq<Customer>, cs: seq<Candidate>, i: nat,
                                         entries: seq<SummaryEntry>, year: nat)
    requires i <= |cs| && forall k | 0 <= k < |cs| :: Unsaved(cs[k])
    ensures InFileOrder(ViewFrom(t, customers, cs, i, entries, year).1, |t|, cs, i)
    decreases |cs| - i
  {
    if i < |cs| {
      var r := ViewRow(t, customers, cs[i], i, year);
      if r.Saved? {
        var x := r.shipment;
        SavedFromCandidate(t, customers, cs, i, year);
        var t' := t + [x];
        ViewFromKeeps(t', customers, cs, i + 1, entries + [EntryOf(x)], year);
        ViewFromOrder(t', customers, cs, i + 1, entries + [EntryOf(x)], year);
        var table := ViewFrom(t', customers, cs, i + 1, entries + [EntryOf(x)], year).1;
        assert table[|t|] == t'[|t|] == x;
        InFileOrderStep(table, |t|, cs, i);
      }
    }
  }

  /** The shipment a row saves carries the text columns built for that row. */
  lemma SavedFromCandidate(t: seq<Shipment>, customers: seq<Customer>, cs: seq<Candidate>, i: nat, year: nat)
    requires i < |cs| && Unsaved(cs[i]) && ViewRow(t, customers, cs[i], i, year).Saved?
    ensures FromCandidate(ViewRow(t, customers, cs[i], i, year).shipment, cs, i)
  {
    ViewRowAllocates(t, customers, cs[i], i, year);
  }

  lemma InFileOrderStep(table: seq<Shipment>, from: nat, cs: seq<Candidate>, i: nat)
    requires from < |table| && FromCandidate(table[from], cs, i)
    requires InFileOrder(table, from + 1, cs, i + 1)
    ensures InFileOrder(table, from, cs, i)
  {
    forall k | from < k < |table| ensures FromCandidate(table[k], cs, i + (k - from)) {
      assert i + (k - from) == (i + 1) + (k - (from + 1));
    }
  }

  /** From position `from` on, each row has the next internal id and consignment number of the rows before it. */
  predicate NumberedFrom(table: seq<Shipment>, from: nat, year: nat)
  {
    forall k | from <= k < |table| :: table[k].pk == k + 1 && table[k].consignmentNo == NextConsignmentNo(table[..k], year)
  }

  /**
   * Each shipment the loop appends gets the next internal id and the next consignment number
   * of the table before it.
   */
  lemma {:induction false} ViewFromNumbers(t: seq<Shipment>, customers: seq<Customer>, cs: seq<Candidate>, i: nat,
                                           entries: seq<SummaryEntry>, year: nat)
    requires i <= |cs| && forall k | 0 <= k < |cs| :: Unsaved(cs[k])
    ensures NumberedFrom(ViewFrom(t, customers, cs, i, entries, year).1, |t|, year)
    decreases |cs| - i
  {
    if i < |cs| {
      var r := ViewRow(t, customers, cs[i], i, year);
      if r.Saved? {
        var x := r.shipment;
        ViewRowAllocates(t, customers, cs[i], i, year);
        var t' := t + [x];
        ViewFromKeeps(t', customers, cs, i + 1, entries + [EntryOf(x)], year);
        ViewFromNumbers(t', customers, cs, i + 1, entries + [EntryOf(x)], year);
        var table := ViewFrom(t', customers, cs, i + 1, entries + [EntryOf(x)], year).1;
        assert table[..|t|] == table[..|t'|][..|t|] == t'[..|t|] == t;
        assert table[|t|] == t'[|t|] == x;
        NumberedStep(table, |t|, year);
      }
    }
  }

  lemma NumberedStep(table: seq<Shipment>, from: nat, year: nat)
    requires from < |table| && table[from].pk == from + 1
    requires table[from].consignmentNo == NextConsignmentNo(table[..from], year)
    requires NumberedFrom(table, from + 1, year)
    ensures NumberedFrom(table, from, year)
  {
  }

  /**
   * `summary` is `entries` followed by the entries of the `n` shipments the table holds from
   * position `from` on, in table order, and the table ends there.
   */
  predicate Summarizes(summary: seq<SummaryEntry>, entries: seq<SummaryEntry>, table: seq<Shipment>, from: nat, n: nat)
  {
    && |table| == from + n && |summary| == |entries| + n && summary[..|entries|] == entries
    && forall k | from <= k < |table| :: summary[|entries| + (k - from)] == EntryOf(table[k])
  }

  /**
   * The loop ends with the summary of every remaining row, in order, or stops at the first
   * row that fails, reporting its 1-based position, having saved exactly the rows before it.
   */
  lemma {:induction false} ViewFromEnds(t: seq<Shipment>, customers: seq<Customer>, cs: seq<Candidate>, i: nat,
                                        entries: seq<SummaryEntry>, year: nat)
    requires i <= |cs|
    ensures var resp, table := ViewFrom(t, customers, cs, i, entries, year).0, ViewFrom(t, customers, cs, i, entries, year).1;
      && (resp.SummaryCsv? || resp.UnknownCustomer? || resp.RowFailed?)
      && (resp.SummaryCsv? ==> Summarizes(resp.entries, entries, table, |t|, |cs| - i))
      && (!resp.SummaryCsv? ==> i < resp.row <= |cs| && |table| == |t| + (resp.row - 1 - i))
    decreases |cs| - i
  {
    if i < |cs| {
      var r := ViewRow(t, customers, cs[i], i, year);
      if r.Saved? {
        var x := r.shipment;
        var t' := t + [x];
        var entries' := entries + [EntryOf(x)];
        ViewFromEnds(t', customers, cs, i + 1, entries', year);
        var resp, table := ViewFrom(t', customers, cs, i + 1, entries', year).0, ViewFrom(t', customers, cs, i + 1, entries', year).1;
        if resp.SummaryCsv? {
          ViewFromKeeps(t', customers, cs, i + 1, entries', year);
          assert table[|t|] == t'[|t|] == x;
          SummarizesStep(resp.entries, entries, x, table, |t|, |cs| - (i + 1));
        }
      }
    }
  }

  /** A summary of the rows after the one that saved `x`, with `x`'s entry before them, summarises that row too. */
  lemma SummarizesStep(summary: seq<SummaryEntry>, entries: seq<SummaryEntry>, x: Shipment, table: seq<Shipment>,
                       from: nat, n: nat)
    requires from < |table| && table[from] == x
    requires Summarizes(summary, entries + [EntryOf(x)], table, from + 1, n)
    ensures Summarizes(summary, entries, table, from, n + 1)
  {
    var entries' := entries + [EntryOf(x)];
    assert summary[..|entries|] == summary[..|entries'|][..|entries|] == entries;
    forall k | from <= k < |table| ensures summary[|entries| + (k - from)] == EntryOf(table[k]) {
      if k == from {
        assert summary[|entries|] == summary[..|entries'|][|entries|] == EntryOf(x);
      } else {
        assert |entries| + (k - from) == |entries'| + (k - (from + 1));
      }
    }
  }

  /** An unknown customer stops the loop with the id the row names, which no customer has. */
  lemma {:induction false} ViewFromUnknownCustomer(t: seq<Shipment>, customers: seq<Customer>, cs: seq<Candidate>,
                                                   i: nat, entries: seq<SummaryEntry>, year: nat)
    requires i <= |cs|
    ensures var resp := ViewFrom(t, customers, cs, i, entries, year).0;
      resp.UnknownCustomer? ==>
        && i < resp.row <= |cs| && cs[resp.row - 1].customerId == Some(resp.customerId)
        && resp.customerId != "" && resp.customerId !in CustomerIds(customers)
    decreases |cs| - i
  {
    if i < |cs| {
      var r := ViewRow(t, customers, cs[i], i, year);
      if r.Saved? {
        ViewFromUnknownCustomer(t + [r.shipment], customers, cs, i + 1, entries + [EntryOf(r.shipment)], year);
      }
    }
  }

  /**
   * `summary` is the summary of `rows` saved from position `from` of `table` on: one entry per
   * row, in file order, each the entry of the shipment saved for that row, which carries the
   * row's invoice reference and the next consignment number of the rows before it.
   */
  predicate SummaryOfRows(summary: seq<SummaryEntry>, table: seq<Shipment>, from: nat, rows: seq<Row>, year: nat)
  {
    && |summary| == |rows| && |table| == from + |rows|
    && forall k | 0 <= k < |rows| ::
      && summary[k] == EntryOf(table[from + k])
      && summary[k].consignmentNo == NextConsignmentNo(table[..from + k], year)
      && summary[k].invoiceRef == StoredText(rows[k].invoiceRef, "")
      && rows[k].freight == Amount(summary[k].freight)
  }

  /**
   * The row loop over a file's rows saves them in order until the first failing row, whose
   * 1-based number is reported and whose predecessors stay saved; on success the summary holds
   * one entry per row, in file order, each with the consignment number its shipment was given.
   * This holds whatever `boe_num` the shipments are built with.
   */
  lemma RowsPolicy(t: seq<Shipment>, customers: seq<Customer>, rows: seq<Row>, year: nat, today: Date,
                   boe: Option<string>)
    ensures var resp, table := ViewFrom(t, customers, Candidates(rows, today, boe), 0, [], year).0,
                               ViewFrom(t, customers, Candidates(rows, today, boe), 0, [], year).1;
      && |t| <= |table| && table[..|t|] == t
      && (resp.SummaryCsv? || resp.UnknownCustomer? || resp.RowFailed?)
      && (!resp.SummaryCsv? ==> 1 <= resp.row <= |rows| && |table| == |t| + resp.row - 1)
      && (resp.SummaryCsv? ==> SummaryOfRows(resp.entries, table, |t|, rows, year))
  {
    var cs := Candidates(rows, today, boe);
    ViewFromKeeps(t, customers, cs, 0, [], year);
    ViewFromEnds(t, customers, cs, 0, [], year);
    var resp, table := ViewFrom(t, customers, cs, 0, [], year).0, ViewFrom(t, customers, cs, 0, [], year).1;
    if resp.SummaryCsv? {
      ViewFromNumbers(t, customers, cs, 0, [], year);
      ViewFromOrder(t, customers, cs, 0, [], year);
      SavedRowsSummary(resp.entries, table, |t|, rows, today, boe, year);
    }
  }

  /** A summary in table order of rows saved in file order and numbered in turn is the summary of the rows. */
  lemma SavedRowsSummary(summary: seq<SummaryEntry>, table: seq<Shipment>, from: nat, rows: seq<Row>, today: Date,
                         boe: Option<string>, year: nat)
    requires Summarizes(summary, [], table, from, |rows|)
    requires InFileOrder(table, from, Candidates(rows, today, boe), 0) && NumberedFrom(table, from, year)
    ensures SummaryOfRows(summary, table, from, rows, year)
  {
    forall k | 0 <= k < |rows|
      ensures summary[k] == EntryOf(table[from + k])
      ensures summary[k].consignmentNo == NextConsignmentNo(table[..from + k], year)
      ensures summary[k].invoiceRef == StoredText(rows[k].invoiceRef, "")
      ensures rows[k].freight == Amount(summary[k].freight)
    {
      var j := from + k;
      assert FromCandidate(table[j], Candidates(rows, today, boe), 0 + (j - from));
      assert summary[k] == EntryOf(table[j]);
      ViewShipmentDefaults(rows[k], today, boe);
    }
  }

  /**
   * The upload's failure policy: an unsupported extension or an unreadable file is answered
   * with 400 before any row is read and leaves the table as it was; otherwise the rows the
   * reader made of the file are saved under the row loop's policy.
   */
  lemma BulkUploadPolicy(t: seq<Shipment>, customers: seq<Customer>, upload: Option<Upload>, year: nat, today: Date)
    ensures var resp, table := BulkUploadOutcome(t, customers, upload, year, today).0, BulkUploadOutcome(t, customers, upload, year, today).1;
      && |t| <= |table| && table[..|t|] == t
      && (upload.None? ==> resp == UploadPage && table == t)
      && (upload.Some? && ViewFormat(upload.value.name).None? ==> resp == UnsupportedFormat && table == t)
      && (upload.Some? && ViewRead(upload.value).None? ==> table == t && StatusCode(resp) == 400)
      && (resp.UnknownCustomer? || resp.RowFailed? ==>
        && upload.Some? && ViewRead(upload.value).Some?
        && 1 <= resp.row <= |ViewRead(upload.value).value| && |table| == |t| + resp.row - 1)
      && (resp.SummaryCsv? ==>
        && upload.Some? && ViewRead(upload.value).Some?
        && SummaryOfRows(resp.entries, table, |t|, ViewRead(upload.value).value, year))
  {
    if upload.Some? && ViewRead(upload.value).Some? {
      RowsPolicy(t, customers, ViewRead(upload.value).value, year, today, BOE_DEFAULT);
    }
  }

  /**
   * As written, every shipment the view builds keeps `boe_num` at its default `None`, which
   * the NOT NULL constraint refuses: no upload stores a shipment. A readable file with rows is
   * answered at its first row, with 400 for an unknown customer and 500 otherwise.
   */
  lemma BulkUploadStoresNothing(t: seq<Shipment>, customers: seq<Customer>, upload: Option<Upload>, year: nat,
                                today: Date)
    ensures var resp, table := BulkUploadOutcome(t, customers, upload, year, today).0, BulkUploadOutcome(t, customers, upload, year, today).1;
      && table == t
      && (upload.Some? && ViewRead(upload.value).Some? && ViewRead(upload.value).value != [] ==>
          (resp.UnknownCustomer? || resp.RowFailed?) && resp.row == 1
          && StatusCode(resp) == (if resp.UnknownCustomer? then 400 else 500))
  {
    if upload.Some? && ViewFormat(upload.value.name).Some? && ViewRead(upload.value).Some? {
      var rows := ViewRead(upload.value).value;
      var cs := Candidates(rows, today, BOE_DEFAULT);
      if rows != [] {
        ViewShipmentDefaults(rows[0], today, BOE_DEFAULT);
        assert cs[0] == CandidateOf(rows[0], today, BOE_DEFAULT);
      }
    }
  }

  /**
   * With a `boe_num` supplied, a row that builds with a booking date and names no customer or
   * an existing one is saved whenever the year's next consignment number is free: it gets that
   * number, the next internal id and the `boe_num` given.
   */
  lemma IntendedRowSaved(t: seq<Shipment>, customers: seq<Customer>, row: Row, index: nat, year: nat, today: Date,
                         boe: string)
    requires ViewShipment(row, today, Some(boe)).Got? && ViewShipment(row, today, Some(boe)).value.date.Some?
    requires CustomerCell(row.billto).None? || CustomerCell(row.billto).value == ""
             || CustomerCell(row.billto).value in CustomerIds(customers)
    requires NextConsignmentNo(t, year) !in ConsignmentNos(t)
    ensures var r := ViewRow(t, customers, CandidateOf(row, today, Some(boe)), index, year);
      && r.Saved? && r.shipment.pk == |t| + 1 && r.shipment.consignmentNo == NextConsignmentNo(t, year)
      && r.shipment.boeNum == Some(boe)
  {
    ViewShipmentDefaults(row, today, Some(boe));
  }

  /** `shipment_bulk_upload` on a POST: the extension and reader checks, then the row loop. */
  method ShipmentBulkUpload(db: Database, upload: Option<Upload>, year: nat, today: Date) returns (resp: Response)
    requires db.Valid()
    modifies db
    ensures db.Valid()
    ensures (resp, db.shipments) == BulkUploadOutcome(old(db.shipments), old(db.customers), upload, year, today)
    ensures db.customers == old(db.customers) && db.manifests == old(db.manifests)
    ensures db.vendors == old(db.vendors) && db.trips == old(db.trips)
  {
    if upload.None? {
      return UploadPage;
    }
    var u := upload.value;
    if ViewFormat(u.name).None? {
      return UnsupportedFormat;
    }
    if ViewRead(u).None? {
      return UnreadableFile;
    }
    resp := SaveRows(db, ViewRead(u).value, year, today, BOE_DEFAULT);
  }

  /**
   * The row loop of `shipment_bulk_upload`: row by row until one stops it, collecting the
   * summary entry of each shipment saved. `boe` is the `boe_num` the shipments are built with:
   * `shipment_bulk_upload` gives them none (`BOE_DEFAULT`).
   */
  method SaveRows(db: Database, rows: seq<Row>, year: nat, today: Date, boe: Option<string>) returns (resp: Response)
    requires db.Valid()
    modifies db
    ensures db.Valid()
    ensures (resp, db.shipments) == ViewFrom(old(db.shipments), old(db.customers), Candidates(rows, today, boe), 0, [], year)
    ensures db.customers == old(db.customers) && db.manifests == old(db.manifests)
    ensures db.vendors == old(db.vendors) && db.trips == old(db.trips)
  {
    ghost var cs := Candidates(rows, today, boe);
    ghost var customers := db.customers;
    ghost var outcome := ViewFrom(db.shipments, customers, cs, 0, [], year);
    var generated: seq<SummaryEntry> := [];
    var i := 0;
    while i < |rows|
      invariant i <= |rows|
      invariant db.Valid()
      invariant ViewFrom(db.shipments, customers, cs, i, generated, year) == outcome
      invariant db.customers == customers && db.manifests == old(db.manifests)
      invariant db.vendors == old(db.vendors) && db.trips == old(db.trips)
    {
      var r := SaveRow(db, CandidateOf(rows[i], today, boe), i, year);
      if r.Stopped? {
        return r.response;
      }
      generated := generated + [EntryOf(r.shipment)];
      i := i + 1;
    }
    return SummaryCsv(generated);
  }

  /**
   * One pass of the loop: the customer lookup, then the save of the shipment built from the
   * row; a failure stops the upload with the row's 1-based number.
   */
  method SaveRow(db: Database, c: Candidate, index: nat, year: nat) returns (r: RowResult)
    requires db.Valid() && Unsaved(c)
    modifies db
    ensures db.Valid()
    ensures r == ViewRow(old(db.shipments), old(db.customers), c, index, year)
    ensures db.shipments == if r.Saved? then old(db.shipments) + [r.shipment] else old(db.shipments)
    ensures db.customers == old(db.customers) && db.manifests == old(db.manifests)
    ensures db.vendors == old(db.vendors) && db.trips == old(db.trips)
  {
    var cid := c.customerId;
    var billto: Option<string> := None;
    if cid.Some? && cid.value != "" {
      if cid.value !in CustomerIds(db.customers) {
        return Stopped(UnknownCustomer(index + 1, cid.value));
      }
      billto := cid;
    }
    if c.built.Raise? {
      return Stopped(RowFailed(index + 1));
    }
    var saved := db.SaveShipment(c.built.value.(billto := billto), year);
    if saved.Err? {
      return Stopped(RowFailed(index + 1));
    }
    return Saved(saved.value);
  }

  // ---------------------------------------------------------------- labels

  /** One label page: the consignment number and "Package: i of n". */
  datatype Label = Label(consignmentNo: string, package: int, of: int)

  /** `Shipment.objects.filter(consignment_no__in=text.strip().split())`, in table order. */
  function MatchedShipments(t: seq<Shipment>, consignments: string): (r: seq<Shipment>)
    ensures forall s :: s in r <==> s in t && s.consignmentNo in Words(Strip(consignments))
  {
    if t == [] then []
    else
      MatchedShipments(t[..|t| - 1], consignments)
      + (if t[|t| - 1].consignmentNo in Words(Strip(consignments)) then [t[|t| - 1]] else [])
  }

  /** The number of pages `range(no_article)` gives a shipment: none for zero or fewer articles. */
  function PagesFor(s: Shipment): nat
  {
    if s.noArticle > 0 then s.noArticle else 0
  }

  /** The pages of one shipment: one per article. */
  function PagesOf(s: Shipment): (ps: seq<Label>)
    ensures |ps| == PagesFor(s)
  {
    seq(PagesFor(s), i requires 0 <= i < PagesFor(s) => Label(s.consignmentNo, i + 1, s.noArticle))
  }

  /** The label sheet of a list of shipments, in order. */
  function LabelSheet(ss: seq<Shipment>): seq<Label>
  {
    if ss == [] then [] else LabelSheet(ss[..|ss| - 1]) + PagesOf(ss[|ss| - 1])
  }

  /** The number of pages of the label sheet. */
  function PageTotal(ss: seq<Shipment>): nat
  {
    if ss == [] then 0 else PageTotal(ss[..|ss| - 1]) + PagesFor(ss[|ss| - 1])
  }

  /**
   * The sheet has one page per article: its length is the page total, which is the sum of
   * `no_article` when no shipment has a negative count.
   */
  lemma {:induction false} LabelCount(ss: seq<Shipment>)
    ensures |LabelSheet(ss)| == PageTotal(ss)
    ensures (forall k | 0 <= k < |ss| :: ss[k].noArticle >= 0) ==> PageTotal(ss) == TotalArticles(ss)
  {
    if ss != [] {
      var init, last := ss[..|ss| - 1], ss[|ss| - 1];
      LabelCount(init);
      assert ss == init + [last];
      TotalsAppend(init, [last]);
      if forall k | 0 <= k < |ss| :: ss[k].noArticle >= 0 {
        forall k | 0 <= k < |init| ensures init[k].noArticle >= 0 { assert init[k] == ss[k]; }
      }
    }
  }

  /**
   * Page `i + 1` of the `j`-th shipment sits after the pages of the shipments before it and
   * reads "Package: i+1 of no_article" with that shipment's number.
   */
  lemma {:induction false} LabelAt(ss: seq<Shipment>, j: nat, i: nat)
    requires j < |ss| && i < PagesFor(ss[j])
    ensures PageTotal(ss[..j]) + i < |LabelSheet(ss)|
    ensures LabelSheet(ss)[PageTotal(ss[..j]) + i] == Label(ss[j].consignmentNo, i + 1, ss[j].noArticle)
  {
    var init := ss[..|ss| - 1];
    LabelCount(ss);
    LabelCount(init);
    if j == |ss| - 1 {
      assert ss[..j] == init;
    } else {
      assert init[..j] == ss[..j];
      assert init[j] == ss[j];
      LabelAt(init, j, i);
    }
  }

  /** `download_labels` on a POST: one page per article of each matched shipment; `None` when no `consignments` field was posted, where the view raises. */
  method DownloadLabels(t: seq<Shipment>, consignments: Option<string>) returns (pages: Option<seq<Label>>)
    ensures consignments.None? ==> pages.None?
    ensures consignments.Some? ==> pages == Some(LabelSheet(MatchedShipments(t, consignments.value)))
  {
    if consignments.None? {
      return None;
    }
    var ss := MatchedShipments(t, consignments.value);
    var out: seq<Label> := [];
    var j := 0;
    while j < |ss|
      invariant j <= |ss|
      invariant out == LabelSheet(ss[..j])
    {
      var s := ss[j];
      var i := 0;
      while i < s.noArticle
        invariant 0 <= i <= PagesFor(s)
        invariant out == LabelSheet(ss[..j]) + PagesOf(s)[..i]
      {
        out := out + [Label(s.consignmentNo, i + 1, s.noArticle)];
        i := i + 1;
      }
      assert ss[..j + 1][..j] == ss[..j];
      assert PagesOf(s)[..i] == PagesOf(s);
      j := j + 1;
    }
    assert ss[..j] == ss;
    return Some(out);
  }

  // ---------------------------------------------------------------- manifest page

  /** The shipments of a manifest, in table order (`manifest.shipments.all()`). */
  function ManifestMembers(t: seq<Shipment>, m: Manifest): (r: seq<Shipment>)
    ensures forall s :: s in r <==> s in t && s.pk in m.shipments
  {
    if t == [] then []
    else ManifestMembers(t[..|t| - 1], m) + (if t[|t| - 1].pk in m.shipments then [t[|t| - 1]] else [])
  }

  datatype Totals = Totals(articles: int, freight: int)

  /** The totals `manifest_detail` shows for internal id `pk`; `None` is the 404 for an unknown id. */
  function ManifestDetail(manifests: seq<Manifest>, t: seq<Shipment>, pk: int): Option<Totals>
  {
    if 1 <= pk <= |manifests| then
      var members := ManifestMembers(t, manifests[pk - 1]);
      Some(Totals(TotalArticles(members), TotalFreight(members)))
    else None
  }

  /**
   * The detail page agrees with the manifest form: when the manifest holds the shipments the
   * form selected, in whatever order, the page shows the totals `clean()` computed.
   */
  lemma DetailAgreesWithForm(manifests: seq<Manifest>, t: seq<Shipment>, pk: int, selection: seq<Shipment>)
    requires 1 <= pk <= |manifests|
    requires multiset(selection) == multiset(ManifestMembers(t, manifests[pk - 1]))
    ensures ManifestDetail(manifests, t, pk) == Some(Totals(TotalArticles(selection), TotalFreight(selection)))
  {
    TotalsPermutation(selection, ManifestMembers(t, manifests[pk - 1]));
  }

  // ---------------------------------------------------------------- shipment list

  /** The signed-in user, as far as the list is concerned: user type and company (a customer id). */
  datatype User = User(usertype: string, company: Option<string>)

  /** The shipments billed to `company`; for `None` the query is `billto_customer IS NULL`. */
  function BilledTo(t: seq<Shipment>, company: Option<string>): (r: seq<Shipment>)
    ensures forall s :: s in r <==> s in t && s.billto == company
  {
    if t == [] then []
    else BilledTo(t[..|t| - 1], company) + (if t[|t| - 1].billto == company then [t[|t| - 1]] else [])
  }

  /** The shipments a user may see: all for Internal users, their company's for others, none for anonymous. */
  function VisibleShipments(t: seq<Shipment>, user: Option<User>): seq<Shipment>
  {
    if user.None? then []
    else if user.value.usertype == INTERNAL then t
    else BilledTo(t, user.value.company)
  }

  /** `order_by('-date')` compares `a` before `b`: `a` is no older (a missing date sorts last). */
  predicate NewerOrSame(a: Shipment, b: Shipment)
  {
    b.date.None? || (a.date.Some? && a.date.value.day >= b.date.value.day)
  }

  predicate NewestFirst(ss: seq<Shipment>)
  {
    forall i, j | 0 <= i < j < |ss| :: NewerOrSame(ss[i], ss[j])
  }

  /** Inserts `x` into a list before the first shipment it is no older than. */
  function InsertByDate(x: Shipment, ss: seq<Shipment>): (r: seq<Shipment>)
    ensures multiset(r) == multiset(ss) + multiset{x}
  {
    if ss == [] then [x]
    else if NewerOrSame(x, ss[0]) then [x] + ss
    else
      assert ss == [ss[0]] + ss[1..];
      [ss[0]] + InsertByDate(x, ss[1..])
  }

  /** Putting a shipment no older than any in a newest-first list at its head keeps it newest first. */
  lemma ConsKeepsOrder(a: Shipment, rest: seq<Shipment>)
    requires NewestFirst(rest) && forall k | 0 <= k < |rest| :: NewerOrSame(a, rest[k])
    ensures NewestFirst([a] + rest)
  {
    forall i, j | 0 <= i < j < |[a] + rest| ensures NewerOrSame(([a] + rest)[i], ([a] + rest)[j]) {
      if i > 0 {
        assert ([a] + rest)[i] == rest[i - 1];
      }
      assert ([a] + rest)[j] == rest[j - 1];
    }
  }

  /** Inserting into a newest-first list keeps it newest first. */
  lemma {:induction false} InsertKeepsOrder(x: Shipment, ss: seq<Shipment>)
    requires NewestFirst(ss)
    ensures NewestFirst(InsertByDate(x, ss))
  {
    if ss == [] {
    } else if NewerOrSame(x, ss[0]) {
      assert forall j | 0 <= j < |ss| :: NewerOrSame(x, ss[j]);
      ConsKeepsOrder(x, ss);
    } else {
      var tail := ss[1..];
      var rest := InsertByDate(x, tail);
      InsertKeepsOrder(x, tail);
      forall k | 0 <= k < |rest| ensures NewerOrSame(ss[0], rest[k]) {
        assert rest[k] in multiset(rest);
        if rest[k] != x {
          assert rest[k] in multiset(tail);
          var j :| 0 <= j < |tail| && tail[j] == rest[k];
          assert tail[j] == ss[j + 1];
        }
      }
      ConsKeepsOrder(ss[0], rest);
    }
  }

  /** The list ordered newest first; shipments of the same date keep no promised order. */
  function SortByDate(ss: seq<Shipment>): (r: seq<Shipment>)
    ensures multiset(r) == multiset(ss)
  {
    if ss == [] then []
    else
      assert ss == [ss[0]] + ss[1..];
      InsertByDate(ss[0], SortByDate(ss[1..]))
  }

  /** Sorting puts the newest shipments first. */
  lemma {:induction false} SortedNewestFirst(ss: seq<Shipment>)
    ensures NewestFirst(SortByDate(ss))
  {
    if ss != [] {
      SortedNewestFirst(ss[1..]);
      InsertKeepsOrder(ss[0], SortByDate(ss[1..]));
    }
  }

  /** `shipment_list`: the visible shipments, newest first. */
  function ShipmentList(t: seq<Shipment>, user: Option<User>): seq<Shipment>
  {
    SortByDate(VisibleShipments(t, user))
  }

  /**
   * Internal users see every shipment, other users exactly the shipments billed to their
   * company (those billed to nobody when they have none), anonymous users nothing; every
   * list is a rearrangement of what is visible, newest first.
   */
  lemma ShipmentListVisibility(t: seq<Shipment>, user: Option<User>)
    ensures var r := ShipmentList(t, user);
      && NewestFirst(r)
      && multiset(r) == multiset(VisibleShipments(t, user))
      && (user.Some? && user.value.usertype == INTERNAL ==> multiset(r) == multiset(t))
      && (forall s :: s in r <==>
            s in t && user.Some? && (user.value.usertype == INTERNAL || s.billto == user.value.company))
  {
    var r := ShipmentList(t, user);
    SortedNewestFirst(VisibleShipments(t, user));
    forall s ensures s in r <==> s in VisibleShipments(t, user) {
      assert s in r <==> s in multiset(r);
    }
  }
}
