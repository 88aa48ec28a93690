/**
 * The rules of the web forms: the user-type/company consistency check of the registration
 * form, the manifest form's choice of shipments and its recomputed totals, the columns each
 * shipment form may write, and the proof-of-delivery save that marks a shipment delivered.
 */
module Forms {
  import opened Wrappers
  import opened Models

  // ---------------------------------------------------------------- registration

  const INTERNAL: string := "Internal"
  const EXTERNAL: string := "External"
  const COMPANY_FIELD: string := "company_name"
  const NEEDS_COMPANY: string := "External users must have a company assigned."
  const NO_COMPANY: string := "Internal users should not have a company assigned."

  /** An error attached to one form field (`add_error(field, message)`). */
  datatype FieldError = FieldError(field: string, message: string)

  /** `cleaned_data.get(key)`: the cleaned value, `None` when the key is absent or the value blank. */
  function Lookup(data: map<string, Option<string>>, key: string): Option<string>
  {
    if key in data then data[key] else None
  }

  /**
   * The errors the registration check adds for a user type and a company (the customer's id,
   * `None` when no company was chosen): one for an External user without a company, one for
   * an Internal user with one.
   */
  function CompanyErrors(usertype: Option<string>, company: Option<string>): seq<FieldError>
  {
    (if usertype == Some(EXTERNAL) && company.None? then [FieldError(COMPANY_FIELD, NEEDS_COMPANY)] else [])
    + (if usertype == Some(INTERNAL) && company.Some? then [FieldError(COMPANY_FIELD, NO_COMPANY)] else [])
  }

  /**
   * The registration check flags exactly the two inconsistent combinations, each with its own
   * message on `company_name`; an External user with a company, an Internal user without one
   * and any other user type pass.
   */
  lemma CompanyRule(usertype: Option<string>, company: Option<string>)
    ensures var e := CompanyErrors(usertype, company);
      && |e| <= 1
      && (forall k | 0 <= k < |e| :: e[k].field == COMPANY_FIELD)
      && (e == [FieldError(COMPANY_FIELD, NEEDS_COMPANY)] <==> usertype == Some(EXTERNAL) && company.None?)
      && (e == [FieldError(COMPANY_FIELD, NO_COMPANY)] <==> usertype == Some(INTERNAL) && company.Some?)
      && (e == [] <==> !(usertype == Some(EXTERNAL) && company.None?) && !(usertype == Some(INTERNAL) && company.Some?))
  {
    var e := CompanyErrors(usertype, company);
    assert FieldError(COMPANY_FIELD, NEEDS_COMPANY) != FieldError(COMPANY_FIELD, NO_COMPANY) by {
      assert NEEDS_COMPANY[0] != NO_COMPANY[0];
    }
    if usertype == Some(EXTERNAL) {
      assert usertype != Some(INTERNAL) by { assert EXTERNAL[0] != INTERNAL[0]; }
      if company.None? {
        assert e == [FieldError(COMPANY_FIELD, NEEDS_COMPANY)];
      } else {
        assert e == [];
      }
    } else if usertype == Some(INTERNAL) && company.Some? {
      assert e == [FieldError(COMPANY_FIELD, NO_COMPANY)];
    } else {
      assert e == [];
    }
  }

  /** `CustomUserCreationForm` once its fields are cleaned: the cleaned values and the errors so far. */
  class UserCreationForm {
    var cleanedData: map<string, Option<string>>
    var errors: seq<FieldError>

    constructor (data: map<string, Option<string>>, fieldErrors: seq<FieldError>)
      ensures cleanedData == data && errors == fieldErrors
    {
      cleanedData, errors := data, fieldErrors;
    }

    /** `add_error(field, message)`: records the error and drops the field from the cleaned data. */
    method AddError(field: string, message: string)
      modifies this
      ensures errors == old(errors) + [FieldError(field, message)]
      ensures cleanedData == old(cleanedData) - {field}
    {
      errors := errors + [FieldError(field, message)];
      cleanedData := cleanedData - {field};
    }

    /** `clean()`: the user-type/company consistency check. */
    method Clean() returns (cleaned: map<string, Option<string>>)
      modifies this
      ensures var e := CompanyErrors(Lookup(old(cleanedData), "usertype"), Lookup(old(cleanedData), COMPANY_FIELD));
        && errors == old(errors) + e
        && cleanedData == (if e == [] then old(cleanedData) else old(cleanedData) - {COMPANY_FIELD})
      ensures cleaned == cleanedData
    {
      var usertype := Lookup(cleanedData, "usertype");
      var company := Lookup(cleanedData, COMPANY_FIELD);
      if usertype == Some(EXTERNAL) && company.None? {
        AddError(COMPANY_FIELD, NEEDS_COMPANY);
      }
      if usertype == Some(INTERNAL) && company.Some? {
        AddError(COMPANY_FIELD, NO_COMPANY);
      }
      cleaned := cleanedData;
    }
  }

  // ---------------------------------------------------------------- manifest form

  /** The shipments the manifest form offers: those with status Booked, in table order. */
  function BookedShipments(t: seq<Shipment>): (r: seq<Shipment>)
    ensures |r| <= |t|
    ensures forall s :: s in r <==> s in t && s.status == BOOKED
  {
    if t == [] then []
    else (if t[0].status == BOOKED then [t[0]] else []) + BookedShipments(t[1..])
  }

  /** Internal ids strictly increase along `ss`, as they do along the table; no shipment occurs twice. */
  predicate Ascending(ss: seq<Shipment>)
  {
    forall i, j | 0 <= i < j < |ss| :: ss[i].pk < ss[j].pk
  }

  /** Keeping the booked shipments of an ascending sequence keeps it ascending. */
  lemma {:induction false} BookedAscending(t: seq<Shipment>)
    requires Ascending(t)
    ensures Ascending(BookedShipments(t))
  {
    if t != [] {
      BookedAscending(t[1..]);
      forall s | s in BookedShipments(t[1..]) ensures t[0].pk < s.pk {
        var j :| 0 <= j < |t[1..]| && t[1..][j] == s;
        assert t[1 + j] == s;
      }
    }
  }

  /** The internal ids of `ss`, in order. */
  function Pks(ss: seq<Shipment>): (pks: seq<nat>)
    ensures |pks| == |ss| && forall i | 0 <= i < |ss| :: pks[i] == ss[i].pk
  {
    seq(|ss|, i requires 0 <= i < |ss| => ss[i].pk)
  }

  /** `queryset.filter(pk__in=submitted)`: the offered shipments whose internal id was submitted, in table order. */
  function Selected(choices: seq<Shipment>, submitted: seq<nat>): (r: seq<Shipment>)
    ensures forall s :: s in r <==> s in choices && s.pk in submitted
  {
    if choices == [] then []
    else (if choices[0].pk in submitted then [choices[0]] else []) + Selected(choices[1..], submitted)
  }

  /** Filtering an ascending sequence keeps it ascending, so no shipment is selected twice. */
  lemma {:induction false} SelectedAscending(choices: seq<Shipment>, submitted: seq<nat>)
    requires Ascending(choices)
    ensures Ascending(Selected(choices, submitted))
  {
    if choices != [] {
      SelectedAscending(choices[1..], submitted);
      forall s | s in Selected(choices[1..], submitted) ensures choices[0].pk < s.pk {
        var j :| 0 <= j < |choices[1..]| && choices[1..][j] == s;
        assert choices[1 + j] == s;
      }
    }
  }

  /**
   * `ModelMultipleChoiceField.clean` on the submitted internal ids, for the required
   * `shipments` field: nothing submitted, or an id that is not one of the offered shipments,
   * is a field error and leaves no cleaned value (`None`); otherwise the cleaned value is every
   * offered shipment whose id was submitted, each once however often its id was.
   */
  function CleanSelection(choices: seq<Shipment>, submitted: seq<nat>): (r: Option<seq<Shipment>>)
    ensures r.Some? <==> submitted != [] && forall pk | pk in submitted :: pk in Pks(choices)
    ensures r.Some? ==> r.value != [] && forall s :: s in r.value <==> s in choices && s.pk in submitted
    ensures r.Some? && Ascending(choices) ==> Ascending(r.value)
  {
    if submitted != [] && forall pk | pk in submitted :: pk in Pks(choices) then
      assert submitted[0] in submitted;
      var i :| 0 <= i < |choices| && Pks(choices)[i] == submitted[0];
      var selected := Selected(choices, submitted);
      assert choices[i] in selected;
      assert Ascending(choices) ==> Ascending(selected) by {
        if Ascending(choices) {
          SelectedAscending(choices, submitted);
        }
      }
      Some(selected)
    else
      None
  }

  /** `sum(s.no_article for s in shipments)`. */
  function TotalArticles(ss: seq<Shipment>): int
  {
    if ss == [] then 0 else ss[0].noArticle + TotalArticles(ss[1..])
  }

  /** `sum(s.freight for s in shipments)`. */
  function TotalFreight(ss: seq<Shipment>): int
  {
    if ss == [] then 0 else ss[0].freight + TotalFreight(ss[1..])
  }

  /** The totals of a concatenation are the sums of the totals of its parts. */
  lemma {:induction false} TotalsAppend(a: seq<Shipment>, b: seq<Shipment>)
    ensures TotalArticles(a + b) == TotalArticles(a) + TotalArticles(b)
    ensures TotalFreight(a + b) == TotalFreight(a) + TotalFreight(b)
  {
    if a == [] {
      assert a + b == b;
    } else {
      assert (a + b)[1..] == a[1..] + b;
      TotalsAppend(a[1..], b);
    }
  }

  /**
   * The totals do not depend on the order the shipments come in: a selection and any
   * rearrangement of it have the same totals.
   */
  lemma {:induction false} TotalsPermutation(a: seq<Shipment>, b: seq<Shipment>)
    requires multiset(a) == multiset(b)
    ensures TotalArticles(a) == TotalArticles(b) && TotalFreight(a) == TotalFreight(b)
    decreases |a|
  {
    if a != [] {
      assert a[0] in multiset(b);
      var k :| 0 <= k < |b| && b[k] == a[0];
      var rest := b[..k] + b[k + 1..];
      RemoveMatching(a, b, k);
      TotalsPermutation(a[1..], rest);
      TotalsRemove(b, k);
    }
  }

  /** Taking the first element out of `a` and an equal one out of its rearrangement `b` leaves rearrangements. */
  lemma RemoveMatching(a: seq<Shipment>, b: seq<Shipment>, k: nat)
    requires multiset(a) == multiset(b) && a != [] && k < |b| && b[k] == a[0]
    ensures multiset(a[1..]) == multiset(b[..k] + b[k + 1..])
  {
    var rest := b[..k] + b[k + 1..];
    assert multiset(b) == multiset(rest) + multiset{b[k]} by {
      assert b == b[..k] + [b[k]] + b[k + 1..];
    }
    assert multiset(a) == multiset(a[1..]) + multiset{a[0]} by {
      assert a == [a[0]] + a[1..];
    }
    CancelOne(multiset(a[1..]), multiset(rest), a[0]);
  }

  lemma CancelOne<T>(x: multiset<T>, y: multiset<T>, e: T)
    requires x + multiset{e} == y + multiset{e}
    ensures x == y
  {
    forall z ensures x[z] == y[z] {
      assert (x + multiset{e})[z] == x[z] + multiset{e}[z];
      assert (y + multiset{e})[z] == y[z] + multiset{e}[z];
    }
  }

  /** Taking one shipment out of a selection takes its articles and freight out of the totals. */
  lemma TotalsRemove(b: seq<Shipment>, k: nat)
    requires k < |b|
    ensures TotalArticles(b) == b[k].noArticle + TotalArticles(b[..k] + b[k + 1..])
    ensures TotalFreight(b) == b[k].freight + TotalFreight(b[..k] + b[k + 1..])
  {
    assert b == b[..k] + ([b[k]] + b[k + 1..]);
    TotalsAppend(b[..k], [b[k]] + b[k + 1..]);
    TotalsAppend(b[..k], b[k + 1..]);
    assert ([b[k]] + b[k + 1..])[1..] == b[k + 1..];
  }

  /** `ManifestForm` with its choices set up and its fields cleaned; `None` is an absent or blank value. */
  class ManifestForm {
    var choices: seq<Shipment>
    var selection: Option<seq<Shipment>>
    var totalArticles: Option<int>
    var totalFreight: Option<int>

    /**
     * `__init__`, which offers only Booked shipments, followed by the cleaning of each field
     * that precedes `clean()`: the selection is cleaned from the submitted internal ids, the
     * totals are taken as submitted.
     */
    constructor (t: seq<Shipment>, submitted: seq<nat>, articles: Option<int>, freight: Option<int>)
      ensures choices == BookedShipments(t)
      ensures selection.Some? <==> submitted != [] && forall pk | pk in submitted :: pk in Pks(choices)
      ensures selection.Some? ==> forall s :: s in selection.value <==> s in choices && s.pk in submitted
      ensures selection.Some? && ShipmentTable(t) ==> Ascending(selection.value)
      ensures totalArticles == articles && totalFreight == freight
    {
      var offered := BookedShipments(t);
      if ShipmentTable(t) {
        assert Ascending(t);
        BookedAscending(t);
      }
      choices := offered;
      selection := CleanSelection(offered, submitted);
      totalArticles, totalFreight := articles, freight;
    }

    /** `clean()`: a non-empty selection overrides both totals with its sums; otherwise nothing changes. */
    method Clean()
      modifies this
      ensures old(selection).Some? && old(selection).value != [] ==>
        && totalArticles == Some(TotalArticles(old(selection).value))
        && totalFreight == Some(TotalFreight(old(selection).value))
      ensures old(selection).None? || old(selection).value == [] ==>
        totalArticles == old(totalArticles) && totalFreight == old(totalFreight)
      ensures choices == old(choices) && selection == old(selection)
    {
      if selection.Some? && selection.value != [] {
        totalArticles := Some(TotalArticles(selection.value));
        totalFreight := Some(TotalFreight(selection.value));
      }
    }
  }

  // ---------------------------------------------------------------- shipment forms

  /** The columns of a shipment a model form can name. */
  datatype Field =
    | ConsignmentNoField | DateField | FreightField | BilltoField | OriginField | DestinationField
    | InvoiceRefField | NoArticleField | StatusField | EstimatedDeliveryField | DeliveryDateField
    | PodScanField | AppointmentDeliveryField | AppointmentDateField | BoeNumField

  /** A column value of a shipment, for stating which columns a form writes. */
  datatype Value =
    | Text(s: string)
    | MaybeText(o: Option<string>)
    | Day(d: Option<Date>)
    | Whole(n: int)
    | Flag(b: bool)

  /** The value a shipment holds in column `f`. */
  function Column(s: Shipment, f: Field): Value
  {
    match f
    case ConsignmentNoField => Text(s.consignmentNo)
    case DateField => Day(s.date)
    case FreightField => Whole(s.freight)
    case BilltoField => MaybeText(s.billto)
    case OriginField => Text(s.origin)
    case DestinationField => Text(s.destination)
    case InvoiceRefField => Text(s.invoiceRef)
    case NoArticleField => Whole(s.noArticle)
    case StatusField => Text(s.status)
    case EstimatedDeliveryField => Day(s.estimatedDeliveryDate)
    case DeliveryDateField => Day(s.deliveryDate)
    case PodScanField => MaybeText(s.podScan)
    case AppointmentDeliveryField => Flag(s.appointmentDelivery)
    case AppointmentDateField => Day(s.appointmentDate)
    case BoeNumField => MaybeText(s.boeNum)
  }

  /** The columns a model form can write: every column but `consignment_no`, declared `editable=False`. */
  const EDITABLE: set<Field> := {
    DateField, FreightField, BilltoField, OriginField, DestinationField, InvoiceRefField,
    NoArticleField, StatusField, EstimatedDeliveryField, DeliveryDateField, PodScanField,
    AppointmentDeliveryField, AppointmentDateField, BoeNumField }

  /** `ShipmentForm`: every editable column except `delivery_date` and `pod_scan`. */
  const CREATE_FIELDS: set<Field> := EDITABLE - {DeliveryDateField, PodScanField}

  /** `ShipmentUpdateForm`: every editable column except `consignment_no` and `date`. */
  const UPDATE_FIELDS: set<Field> := EDITABLE - {ConsignmentNoField, DateField}

  /** `PODUploadForm`: only `pod_scan` and `delivery_date`. */
  const POD_FIELDS: set<Field> := {PodScanField, DeliveryDateField}

  /** Whether `construct_instance` copies the submitted value of column `f` for a form over `fields`. */
  predicate Copies(fields: set<Field>, f: Field, data: Shipment)
  {
    f in fields && f in EDITABLE && (f == PodScanField ==> data.podScan.Some?)
  }

  /** The submitted value where the form copies a column, the current one elsewhere. */
  function Pick<T>(copy: bool, submitted: T, current: T): T
  {
    if copy then submitted else current
  }

  /**
   * `construct_instance`: the instance `s` with the editable columns the form has taken from
   * the submitted values `data`. A file column with no upload keeps its current file.
   */
  function Construct(s: Shipment, fields: set<Field>, data: Shipment): (r: Shipment)
    ensures r.pk == s.pk
  {
    Shipment(
      s.pk,
      s.consignmentNo,
      Pick(DateField in fields, data.date, s.date),
      Pick(FreightField in fields, data.freight, s.freight),
      Pick(BilltoField in fields, data.billto, s.billto),
      Pick(OriginField in fields, data.origin, s.origin),
      Pick(DestinationField in fields, data.destination, s.destination),
      Pick(InvoiceRefField in fields, data.invoiceRef, s.invoiceRef),
      Pick(NoArticleField in fields, data.noArticle, s.noArticle),
      Pick(StatusField in fields, data.status, s.status),
      Pick(EstimatedDeliveryField in fields, data.estimatedDeliveryDate, s.estimatedDeliveryDate),
      Pick(DeliveryDateField in fields, data.deliveryDate, s.deliveryDate),
      Pick(PodScanField in fields && data.podScan.Some?, data.podScan, s.podScan),
      Pick(AppointmentDeliveryField in fields, data.appointmentDelivery, s.appointmentDelivery),
      Pick(AppointmentDateField in fields, data.appointmentDate, s.appointmentDate),
      Pick(BoeNumField in fields, data.boeNum, s.boeNum))
  }

  /** Column by column, the constructed instance holds the submitted value exactly where the form copies it. */
  lemma ConstructColumn(s: Shipment, fields: set<Field>, data: Shipment, f: Field)
    ensures Column(Construct(s, fields, data), f)
      == if Copies(fields, f, data) then Column(data, f) else Column(s, f)
  {
  }

  /** The update form can never change a shipment's consignment number or booking date. */
  lemma UpdateKeepsNumberAndDate(s: Shipment, data: Shipment)
    ensures var r := Construct(s, UPDATE_FIELDS, data);
      r.pk == s.pk && r.consignmentNo == s.consignmentNo && r.date == s.date
  {
    ConstructColumn(s, UPDATE_FIELDS, data, ConsignmentNoField);
    ConstructColumn(s, UPDATE_FIELDS, data, DateField);
  }

  /** The create form leaves `delivery_date` and `pod_scan` as the new instance has them. */
  lemma CreateLeavesDelivery(s: Shipment, data: Shipment)
    ensures var r := Construct(s, CREATE_FIELDS, data);
      r.deliveryDate == s.deliveryDate && r.podScan == s.podScan
  {
    ConstructColumn(s, CREATE_FIELDS, data, DeliveryDateField);
    ConstructColumn(s, CREATE_FIELDS, data, PodScanField);
  }

  /** The POD form writes `delivery_date`, and `pod_scan` when a file is uploaded, and no other column. */
  lemma PodFormColumns(s: Shipment, data: Shipment)
    ensures var r := Construct(s, POD_FIELDS, data);
      && r.deliveryDate == data.deliveryDate
      && r.podScan == (if data.podScan.Some? then data.podScan else s.podScan)
      && forall f | f != DeliveryDateField && f != PodScanField :: Column(r, f) == Column(s, f)
  {
    ConstructColumn(s, POD_FIELDS, data, DeliveryDateField);
    ConstructColumn(s, POD_FIELDS, data, PodScanField);
    forall f | f != DeliveryDateField && f != PodScanField
      ensures Column(Construct(s, POD_FIELDS, data), f) == Column(s, f)
    {
      ConstructColumn(s, POD_FIELDS, data, f);
    }
  }

  // ---------------------------------------------------------------- proof of delivery

  /** The instance `PODUploadForm.save` ends up with: the POD columns written, status forced to Delivered. */
  function PodEdit(s: Shipment, data: Shipment): Shipment
  {
    Construct(s, POD_FIELDS, data).(status := DELIVERED)
  }

  /**
   * Whatever status the shipment had, the POD save leaves it Delivered; when the database
   * accepts the row, the stored row is Delivered too and keeps its number and booking date.
   */
  lemma PodSaveDelivers(t: seq<Shipment>, s: Shipment, data: Shipment, year: nat)
    ensures PodEdit(s, data).status == DELIVERED
    ensures s.pk != 0 && SaveShipmentOutcome(t, PodEdit(s, data), year).Ok? ==>
      var x := SaveShipmentOutcome(t, PodEdit(s, data), year).value;
      x.status == DELIVERED && x.consignmentNo == s.consignmentNo && x.date == s.date && x.pk == s.pk
  {
    ConstructColumn(s, POD_FIELDS, data, ConsignmentNoField);
    ConstructColumn(s, POD_FIELDS, data, DateField);
  }

  /**
   * `PODUploadForm.save(commit)`: builds the edited instance and writes it through
   * `Shipment.save` only when `commit` is true; otherwise the database is left as it was.
   */
  method PodUploadSave(db: Database, s: Shipment, data: Shipment, commit: bool, year: nat)
    returns (r: Result<Shipment, SaveError>)
    requires db.Valid() && s.pk <= |db.shipments|
    modifies db
    ensures db.Valid()
    ensures !commit ==> r == Ok(PodEdit(s, data)) && db.shipments == old(db.shipments)
    ensures commit ==> r == SaveShipmentOutcome(old(db.shipments), PodEdit(s, data), year)
    ensures commit && r.Ok? ==> db.shipments == Written(old(db.shipments), r.value)
    ensures r.Err? ==> db.shipments == old(db.shipments)
    ensures db.customers == old(db.customers) && db.manifests == old(db.manifests)
    ensures db.vendors == old(db.vendors) && db.trips == old(db.trips)
  {
    var instance := Construct(s, POD_FIELDS, data);
    instance := instance.(status := DELIVERED);
    if commit {
      r := db.SaveShipment(instance, year);
    } else {
      r := Ok(instance);
    }
  }
}
