# Transport management core, modelled in Dafny

This project models the part of a Django transport management system that holds real rules.
It covers four areas:

- **The record identifiers.** `save()` gives each new record a readable id:
  - consignment numbers `CN-YYNNN`;
  - manifest ids `MF-YYNNN`;
  - vendor codes `VND-NNN`;
  - trip ids `TRP-YYNNN`;
  - customer ids `CUST-XXXXXX`.

  A trip's bill total is derived when it is blank.
- **The forms' rules.** These are:
  - the company rule of user creation;
  - the manifest totals;
  - the columns each shipment form may change;
  - the proof-of-delivery form, which forces the status to "Delivered".
- **The request handlers with logic:**
  - the spreadsheet bulk upload of shipments, which stops at the first failing row;
  - the label sheet, one page per article;
  - the manifest detail totals;
  - the shipment list, filtered by user type and ordered newest first.
- **The admin's spreadsheet upload.** It skips rows with bad dates and aborts on any other error.

The database is the class `Models.Database`. Its tables are sequences in insertion order, so
"the latest record by internal id" is the last one. Each `save()` is a method that appends a
record. The method keeps the table's invariants: ids are 1..n and business keys are unique.
It can be refused the way the database refuses a row: a NOT NULL date, a NOT NULL
bill-of-entry number (`boe_num`, declared with the default `None`), a duplicate key, or an
`int()` that raises. The year of the clock, today's date, the random hex digits of the
customer id and the rows a spreadsheet reader decodes from a file are parameters. A cell
keeps what the two date parsers make of it: `parse_date` in the view and
`datetime.fromisoformat` in the admin. Python's text operations are written out in
`PyText`: `isdigit`, `str(n)`, `{:03d}`, `strip`, `split`, `int()` and slicing.

Files:

- `wrappers.dfy`: `Option` and `Result`.
- `pytext.dfy`: Python string semantics and their facts.
- `models.dfy`: the records, the allocators and the `Database` class.
- `identifiers.dfy`: what the allocators promise and where they break.
- `forms.dfy`: the form rules.
- `ingest.dfy`: a spreadsheet row as pandas hands it over.
- `views.dfy`: the views.
- `admin.dfy`: the admin upload.

Some behaviour of the allocators is stated as written rather than corrected:

- After `999` the counter writes `1000`. The next number after that is `1`, which collides
  with an existing number (`IdentifierFacts.CounterAfter999`, `IdentifierFacts.RestartCollides`).
- The trip id counter ignores the year (`IdentifierFacts.TripCounterIgnoresYear`).
- The manifest allocator calls `int()` without an `isdigit` guard. So it raises on letters,
  and it accepts signs, blanks and underscores (`IdentifierFacts.ManifestRaisesOnLetters`).

Neither bulk upload gives a shipment a `boe_num`, so as written the database refuses every
shipment they build (see "## Findings"). The step that builds a shipment from a row takes
the `boe_num` as a parameter. The upload functions and methods pass `Models.BOE_DEFAULT`
(`None`), as the source does. The loop lemmas hold for any value, so they also describe the
corrected uploads that supply one.

The two upload paths choose a reader differently. The view lowercases the text after the
last dot. The admin tests `endswith('.csv')`, so `a.CSV` goes to the Excel reader
(`Admin.CsvCaseDiverges`).

## Model

| member | source | states |
|---|---|---|
| Models.LastIndexBelow | main/models.py:246-248 | the result is the position of the last id in the prefix that starts with the scope, or -1 when none does |
| Models.LatestInScope | main/models.py:246-248 | the latest id with the prefix is the id at the last position whose id has the prefix, the row `order_by('-id').first()` returns; with none, no id has the prefix |
| Models.NextNumber | main/models.py:250-254 | the next counter is between 1 and 1000 |
| Models.CustomerIdFrom | main/models.py:42-43 | a customer id is `CUST-` followed by the six hex digits in upper case, 11 characters |
| Models.BillTotal | main/models.py:364-366 | a blank or zero bill total becomes trip charge plus additional charge; a non-zero one is kept |
| Models.Database.SaveShipment | main/models.py:222-258 | a new shipment with no number gets the next `CN-` number and the next id; the table grows by that row or is rewritten in place for an existing id; a NULL date or `boe_num` or a duplicate number is refused and leaves every table unchanged |
| Models.Database.SaveManifest | main/models.py:277-287 | a manifest without an id gets `MF-YY` plus the next number; the save fails with BadSuffix when `int()` of the last id's suffix raises; only the manifest table changes |
| Models.Database.SaveVendor | main/models.py:314-323 | a vendor without a code gets `VND-` plus the next number after the last vendor's code; only the vendor table changes |
| Models.Database.SaveTrip | main/models.py:353-368 | a trip without an id gets `TRP-YY` plus the next number after the last trip of any year; a blank total is derived; only the trip table changes |
| Models.Database.SaveCustomer | main/models.py:37-43 | a customer without an id gets `CUST-` and the hex digits; only the customer table changes |
| Models.SaveKeepsShipmentTable | main/models.py:241-258 | an accepted save keeps the table's ids 1..n, a date and a `boe_num` on every row, and its consignment numbers distinct |
| IdentifierFacts.NextNumberAfter | main/models.py:250-256 | after an id written with counter n, the next counter is n mod 1000 plus 1 |
| IdentifierFacts.FormatIdInjective | main/models.py:256 | two ids written with the same prefix are equal only when their counters are |
| IdentifierFacts.CounterAfter999 | main/models.py:250-256 | after 999 the counter writes `1000`, four digits long, and the id after that restarts at 1 |
| IdentifierFacts.RestartCollides | main/models.py:241-258 | when the latest number in the year is `...1000` and `...001` exists, saving a new dated shipment is refused as a duplicate key, or for its NULL `boe_num` before that |
| IdentifierFacts.OtherScopeIgnored | main/models.py:246-248 | an id outside the year's prefix does not change the latest id in that scope |
| IdentifierFacts.SameScopeLatest | main/models.py:246-248 | an id appended inside the scope becomes the latest one |
| IdentifierFacts.YearParts | main/models.py:244 | for four-digit years `str(year)[2:4]` and `str(year)[2:]` agree and are the year's last two digits |
| IdentifierFacts.YearScopesDisjoint | main/models.py:244-247 | years with different last two digits have different five-character scopes |
| IdentifierFacts.YearsDoNotInterfere | main/models.py:246-256 | a shipment numbered in another year does not change the next consignment number of this year |
| IdentifierFacts.ConsignmentNoShape | main/models.py:256 | a consignment number is 8 characters: `CN-`, two year digits, three counter digits |
| IdentifierFacts.AllocationsCountUp | main/models.py:241-258 | from a year with no numbers, k saves in a row issue counters 1, 2, ..., k |
| IdentifierFacts.RunIsDistinct | main/models.py:241-258 | up to 999 saves in a row from an empty year issue pairwise distinct numbers |
| IdentifierFacts.NewShipmentAllocates | main/models.py:241-258 | saving a new shipment appends one allocation step to the table's numbers and gives the next id |
| IdentifierFacts.ExistingNumberKept | main/models.py:242 | a shipment that has an id or a number keeps its number on save |
| IdentifierFacts.TripCounterIgnoresYear | main/models.py:355-362 | the trip counter continues from the last trip whatever its year |
| IdentifierFacts.VendorCodeFollows | main/models.py:316-322 | the next vendor code follows the last vendor's counter |
| IdentifierFacts.ManifestAgreesOnDigits | main/models.py:280-285 | when the last three characters are digits, the manifest counter agrees with the guarded allocators |
| IdentifierFacts.ManifestRaisesOnLetters | main/models.py:282 | a letter in the last three characters makes the manifest save raise, where the guarded allocators restart at 1 |
| Forms.CompanyRule | main/forms.py:40-51 | an External user with no company gets "must have a company"; an Internal user with one gets "should not have"; nothing else gets an error, and only the company field does |
| Forms.UserCreationForm.Clean | main/forms.py:40-51 | the form's errors grow by exactly the company rule's errors, the field is dropped from the cleaned data when it has one, and the cleaned data is returned |
| Forms.BookedShipments | main/forms.py:62 | the form offers exactly the shipments whose status is "Booked" |
| Forms.TotalsAppend | main/forms.py:69-70 | the sums of articles and freight over two lists add |
| Forms.TotalsPermutation | main/forms.py:69-70 | the sums do not depend on the order of the shipments |
| Forms.Selected | main/forms.py:62 | the shipments selected are exactly the offered ones whose id was submitted |
| Forms.SelectedAscending | main/forms.py:62 | selecting from shipments in ascending id order keeps that order, so no shipment is selected twice |
| Forms.BookedAscending | main/forms.py:62 | the booked shipments of a table keep its ascending id order |
| Forms.CleanSelection | main/forms.py:60-62 | the required shipments field has a value exactly when ids were submitted and each is an offered shipment's; the value is every offered shipment whose id was submitted, each once |
| Forms.ManifestForm.constructor | main/forms.py:59-62 | the choices are the booked shipments; the selection is cleaned from the submitted ids: none when nothing or an id outside the choices was submitted, otherwise exactly the chosen booked shipments, without repeats |
| Forms.ManifestForm.Clean | main/forms.py:64-74 | a cleaned selection sets the totals to its sums of articles and freight; with none the totals stay as submitted |
| Forms.ConstructColumn | main/forms.py:5-14 | a form writes a submitted column when it is one of its fields, otherwise the instance keeps its value |
| Forms.UpdateKeepsNumberAndDate | main/forms.py:11-14 | the update form never changes the consignment number or the booking date |
| Forms.CreateLeavesDelivery | main/forms.py:5-8 | the create form never sets the delivery date or the POD scan |
| Forms.PodFormColumns | main/forms.py:77-80 | the POD form sets the delivery date, replaces the scan only when a file is given, and changes no other column |
| Forms.PodSaveDelivers | main/forms.py:86-91 | the saved instance is "Delivered" and keeps its number, booking date and id |
| Forms.PodUploadSave | main/forms.py:86-91 | without commit nothing is written; with commit the save is the model save of the delivered instance |
| Views.ExtensionAfterLastDot | main/views.py:210 | the extension is the lower-cased text after the last dot |
| Views.ViewShipmentDefaults | main/views.py:234-264 | building a shipment raises exactly on a missing date, origin, destination or invoice column, an impossible date, a bad freight or article count or another unreadable column; otherwise it stores the row's freight, article count, status, origin, destination and invoice, and each date `parse_date` reads, and the defaults hold: today for an empty date, 0 articles, "Booked" without a status column, no delivery dates, and the `boe_num` it is given |
| Views.Candidates | main/views.py:222-264 | one candidate per row, in file order, none saved yet |
| Views.CustomerLookup | main/views.py:225-231 | a blank customer cell bills nobody and never fails the lookup; a saved row bills the stripped id of an existing customer |
| Views.ViewRowAllocates | main/views.py:265 | a saved row gets the next id and the next consignment number and keeps the row's invoice, origin and destination |
| Views.Entries | main/views.py:268-275 | one summary line per saved shipment, in order |
| Views.ViewFromKeeps | main/views.py:222-277 | the upload only appends, at most one shipment per row |
| Views.ViewFromOrder | main/views.py:222-265 | the appended shipments come from the rows in file order |
| Views.ViewFromNumbers | main/views.py:265 | each appended shipment got the next id and the consignment number following the table before it |
| Views.ViewFromEnds | main/views.py:222-285 | the upload ends in the summary of every row or stops at row n, with exactly the rows before n saved |
| Views.ViewFromUnknownCustomer | main/views.py:228-231 | an unknown-customer answer names a row whose non-blank id no customer has |
| Views.RowsPolicy | main/views.py:221-285 | whatever `boe_num` the shipments are built with, the rows of a readable file either all save, with a summary line per row carrying the allocated number and the row's invoice and freight, or stop at a row n with the n-1 rows before it saved |
| Views.BulkUploadStoresNothing | main/views.py:222-265 | as written, no upload stores a shipment; a readable file with rows is answered at row 1, with 400 for an unknown customer and 500 otherwise |
| Views.IntendedRowSaved | main/views.py:225-265 | with a `boe_num` supplied, a row that builds with a date, names no customer or an existing one, and meets a free next number is saved with that number, the next id and the `boe_num` |
| Views.BulkUploadPolicy | main/views.py:207-287 | no file gives the page; an unknown extension gives "Unsupported file format" and an unreadable file a 400, both writing nothing; otherwise the rows policy holds |
| Views.ShipmentBulkUpload | main/views.py:207-287 | the response and the new shipment table are the upload's outcome on the old tables, shipments built without a `boe_num` as in the source; the other tables are unchanged |
| Views.SaveRows | main/views.py:221-285 | the row loop gives the outcome of the rows on the old table, for the `boe_num` the shipments are built with |
| Views.SaveRow | main/views.py:223-277 | one row's lookup, build and save give the row's outcome, and only a saved row extends the table |
| Views.MatchedShipments | main/views.py:299-301 | the labels cover exactly the shipments whose number is one of the whitespace-separated words |
| Views.LabelCount | main/views.py:306-307 | the sheet has one page per article, the total of `no_article` when none is negative |
| Views.LabelAt | main/views.py:306-332 | page i+1 of a shipment follows the pages of the shipments before it and reads "i+1 of no_article" |
| Views.DownloadLabels | main/views.py:297-340 | the pages drawn are the label sheet of the matched shipments; no `consignments` field raises |
| Views.ManifestMembers | main/views.py:428 | the manifest's shipments are exactly those whose id it holds |
| Views.DetailAgreesWithForm | main/views.py:426-435 | the detail page shows the totals the form computed for the same selection in any order |
| Views.BilledTo | main/views.py:110-112 | exactly the shipments billed to the company |
| Views.InsertKeepsOrder | main/views.py:107 | inserting into a newest-first list keeps it newest first |
| Views.SortedNewestFirst | main/views.py:107-112 | the list is ordered newest date first |
| Views.ShipmentListVisibility | main/views.py:102-119 | internal users see every shipment, others exactly their company's, anonymous users none; each list is a rearrangement of that, newest first |
| Admin.CsvNameAgrees | main/admin.py:145-148 | a name ending in `.csv` goes to the CSV reader on both upload paths |
| Admin.CsvCaseDiverges | main/admin.py:145-148 | `.CSV` goes to the CSV reader in the view but to the Excel reader in the admin |
| Admin.AdminDatesFirstFailure | main/admin.py:153-170 | the dates are read in order and the first one that raises decides the error; otherwise each date is its cell's value |
| Admin.AdminStepCases | main/admin.py:162-216 | a date that raises skips the row with a date-format or unexpected-error message naming its number or "Unknown"; a missing origin, destination or invoice column, an appointment-delivery cell that is not a boolean, or a bad freight, article or other column aborts the upload; otherwise a shipment with the row's values, its status cell's text ("nan" for an empty cell, "Booked" without the column), appointment delivery only when the cell says true, no customer, and the `boe_num` it is given |
| Admin.AdminConsignmentNo | main/admin.py:183 | a row without the column, or with a value Python counts as false (0, 0.0, an empty text), gets the next number; an empty cell gets the text "nan"; any other cell its text; the shipment gets the next id |
| Admin.AdminUndatedRowFails | main/admin.py:163-184 | a row without a text date is refused on save (NOT NULL date) |
| Admin.AdminSteps | main/admin.py:151-216 | one step per row, in order |
| Admin.AdminFromKeeps | main/admin.py:150-223 | the upload only appends shipments and messages, and every message before the last is about a row |
| Admin.AdminFromEnds | main/admin.py:150-223 | a finished upload reports "uploaded n" with n the rows created and every other row skipped; an abort reports an error and handled fewer rows |
| Admin.AdminFromIds | main/admin.py:182-216 | every shipment the upload creates got the next id |
| Admin.UploadPolicy | main/admin.py:139-231 | no upload writes nothing; an unreadable file gives one error message; a redirect says "uploaded n", where created plus skipped rows are all of the rows |
| Admin.AdminFromUnsetBoe | main/admin.py:150-223 | when no shipment to create has a `boe_num`, the loop creates nothing, redirects exactly when every remaining row is skipped, and otherwise ends with the error |
| Admin.UploadCreatesNothing | main/admin.py:182-223 | as written, no upload creates a shipment; it redirects, reporting 0, only when every row is skipped for its dates |
| Admin.IntendedRowCreated | main/admin.py:182-221 | with a `boe_num` supplied, a one-row upload whose row reads with a date and no number creates the shipment with the free next number, the next id and the `boe_num`, and reports one created |
| Admin.UploadShipments | main/admin.py:139-231 | the messages, the redirect and the new shipment table are the upload's outcome on the old table, shipments created without a `boe_num` as in the source |
| Admin.CreateRow | main/admin.py:182-216 | the create appends the row `Shipment.save` writes, or leaves every table as it was when the save is refused |
| Admin.CreateRows | main/admin.py:150-223 | the row loop gives the outcome of the rows, for the `boe_num` the shipments are created with; a skipped row continues, an abort stops |

## Findings

| source | as written | input that shows it | evidently intended | confidence | as-written member | corrected member |
|---|---|---|---|---|---|---|
| main/models.py:222, main/views.py:234-264, main/admin.py:182-216 | `boe_num` is a `TextField` with `default=None` and without `null=True`, so its column is NOT NULL. Neither bulk upload sets it, so every shipment they build is refused on save | a readable file whose one row has every column well formed and a blank customer: the view answers 500 at row 1, the admin shows the error, and neither stores the shipment | every well-formed row is stored | high; not executed | Views.BulkUploadStoresNothing, Admin.UploadCreatesNothing | Views.IntendedRowSaved, Admin.IntendedRowCreated |

## Left out

- Decoding files, reading cells and parsing dates are not modelled as algorithms. A row
  carries what pandas, `parse_date` and `datetime.fromisoformat` make of each cell.
- Money and weights are whole numbers. Decimal and float arithmetic is not modelled.
- A freight or article cell that `float()` or `int()` rejects is read as a row failure in
  the view and as an abort in the admin.
- The columns no rule reads are one flag that says whether they convert: payment mode,
  shipment type, pins, vehicle, consignor, consignee, value, weights and pack type.
- The text of exception messages is left out. The responses and messages say which case
  happened.
- Concurrency is left out. Two saves that read the same latest id could issue the same
  number; the model runs one request at a time.
- The database's order for the label query and the manifest's shipments is left out. Both
  are taken in table order.
- Shipments of the same date come back in no promised order.
- Authentication, the request method checks and "Only POST method allowed." are left out.
  So are rendering, redirects, the PDF canvas and its barcodes, the CSV writer and the
  template download.
- The other admin classes are left out.
- The admin upload's per-row `print` of the row being processed is left out. It only writes
  to the server console.
- Views.SortedNewestFirst: a shipment without a date is placed last. The table holds none,
  because the date is NOT NULL, and where a database puts NULLs under `order_by('-date')`
  is not modelled.
- `CustomUser.save` and its default password are left out.
- The view decides in the same order as the source: the customer lookup first, then the
  built shipment. `Views.Candidates` computes each row's shipment before the loop, as a
  value; building writes nothing, so computing it early changes no outcome.
- Views.DownloadLabels: a page is a record of the number, the package index and the article
  count, not the drawn page.
- Views.ShipmentListVisibility: an External user's company is compared with the customer id
  the shipment is billed to, which is the key the foreign key points at.
- Models.Database.SaveManifest: models the first save of a manifest, an insert; saving an
  existing manifest again is not modelled. The same holds for Models.Database.SaveVendor,
  Models.Database.SaveTrip and Models.Database.SaveCustomer.
- PyText.IsDigits, PyText.PyInt, PyText.Strip, PyText.Words and PyText.Lower follow Python
  on ASCII text only. Python's `isdigit`, `int()`, `strip()`, `split()` and `lower()` also
  accept Unicode digits, superscripts and separators such as U+00A0. So Models.NextNumber,
  Models.NextManifestNumber, the allocators built on them, Views.ExtensionAfterLastDot,
  Views.CustomerLookup and Views.MatchedShipments can differ from the source on such text.
  For example, a latest number ending in `²` makes `int()` raise in the source, while the
  model restarts at 1.
