/**
 * The records of the transport management system and the rules their `save()` methods
 * apply: the human-readable identifiers (consignment numbers `CN-YYNNN`, manifest ids
 * `MF-YYNNN`, vendor codes `VND-NNN`, trip ids `TRP-YYNNN`, customer ids `CUST-XXXXXX`)
 * and the derived trip bill total. The database is a `Database` object whose tables are
 * sequences in insertion order, so "the latest record by internal id" is the last one.
 * The current year and the random hex digits are parameters.
 */
module Models {
  import opened Wrappers
  import opened PyText
  import opened PyTextFacts

  // ---------------------------------------------------------------- records

  /** A calendar date, as a day number counted from a fixed epoch. */
  datatype Date = Date(day: int)

  const BOOKED: string := "Booked"
  const DELIVERED: string := "Delivered"

  /**
   * A consignment. `pk` is the internal id, 0 until the first save; `consignmentNo` is ""
   * until allocated; money is in paise; `billto` holds the billed customer's `customer_id`;
   * `boeNum` is the bill-of-entry number, a NOT NULL text column whose declared default is
   * `None`, so a shipment nobody gives one is refused by the database.
   * Descriptive columns that no rule reads (consignor, consignee, vehicle, pins, weights,
   * pack type, remark, links) are not carried.
   */
  datatype Shipment = Shipment(
    pk: nat,
    consignmentNo: string,
    date: Option<Date>,
    freight: int,
    billto: Option<string>,
    origin: string,
    destination: string,
    invoiceRef: string,
    noArticle: int,
    status: string,
    estimatedDeliveryDate: Option<Date>,
    deliveryDate: Option<Date>,
    podScan: Option<string>,
    appointmentDelivery: bool,
    appointmentDate: Option<Date>,
    boeNum: Option<string>)

  /**
   * The `boe_num` of a shipment built without one: the column's declared default `None`,
   * which its NOT NULL constraint then refuses.
   */
  const BOE_DEFAULT: Option<string> := None

  datatype Customer = Customer(customerId: string, companyName: Option<string>)

  /** A vehicle load; `shipments` holds the internal ids of its shipments. */
  datatype Manifest = Manifest(manifestId: string, shipments: set<nat>, totalArticles: int, totalFreight: int)

  datatype Vendor = Vendor(vendorCode: string, vendorName: string)

  /** A trip hired out to a vendor; a blank bill total is `None`. */
  datatype Trip = Trip(tripId: string, vendorCode: string, tripCharge: int, additionalCharge: int,
                       totalBillAmount: Option<int>)

  /** Why the database refuses a save (the exception `save()` raises). */
  datatype SaveError =
    | NullDate          // NOT NULL constraint on `Shipment.date`
    | NullBoeNum        // NOT NULL constraint on `Shipment.boe_num`
    | DuplicateKey      // unique constraint on the business id
    | BadSuffix         // `int()` of a manifest id suffix raised ValueError

  // ---------------------------------------------------------------- identifier rules

  /** `str(year)[2:4]`: the two-digit year of consignment numbers. */
  function YearPrefix(year: nat): string { Slice(Decimal(year), 2, 4) }

  /** `str(year)[2:]`: the year part of manifest and trip ids. */
  function YearTail(year: nat): string { Slice(Decimal(year), 2, |Decimal(year)|) }

  /** Position of the last of the first `n` ids that starts with `scope`, or -1 when none does. */
  function LastIndexBelow(ids: seq<string>, scope: string, n: nat): (k: int)
    requires n <= |ids|
    ensures -1 <= k < n
    ensures k >= 0 ==> StartsWith(ids[k], scope)
    ensures forall j | k < j < n :: !StartsWith(ids[j], scope)
  {
    if n == 0 then -1
    else if StartsWith(ids[n - 1], scope) then n - 1
    else LastIndexBelow(ids, scope, n - 1)
  }

  /**
   * `filter(id__startswith=scope).order_by('-id').first()`, reduced to the id it holds: the
   * matching id inserted last, which `LastIndexBelow` locates.
   */
  function LatestInScope(ids: seq<string>, scope: string): (r: Option<string>)
    ensures r.Some? ==> r.value in ids && StartsWith(r.value, scope)
    ensures r.Some? ==> 0 <= LastIndexBelow(ids, scope, |ids|) && r.value == ids[LastIndexBelow(ids, scope, |ids|)]
    ensures r.None? ==> forall j | 0 <= j < |ids| :: !StartsWith(ids[j], scope)
  {
    var k := LastIndexBelow(ids, scope, |ids|);
    if k < 0 then None else Some(ids[k])
  }

  /**
   * The counter rule of Shipment, VendorMaster and TripOutToVendor: when the last three
   * characters of the latest id are all digits, their value plus one; otherwise, or when
   * there is no latest id, 1.
   */
  function NextNumber(latest: Option<string>): (n: nat)
    ensures 1 <= n <= 1000
  {
    if latest.Some? && IsDigits(LastThree(latest.value)) then
      PrefixValueBound(LastThree(latest.value), |LastThree(latest.value)|);
      Pow10UpToThree(|LastThree(latest.value)|);
      DigitsValue(LastThree(latest.value)) + 1
    else
      1
  }

  /**
   * The counter rule of Manifest: `int()` of the last three characters plus one, without an
   * `isdigit()` guard; `None` is the ValueError raised when `int()` rejects the suffix.
   */
  function NextManifestNumber(latest: Option<string>): Option<int>
  {
    if latest.None? then Some(1)
    else
      match PyInt(LastThree(latest.value))
      case None => None
      case Some(v) => Some(v + 1)
  }

  /** `f"{prefix}{n:03d}"`. */
  function FormatId(prefix: string, n: int): string { prefix + Format03(n) }

  function ConsignmentNos(t: seq<Shipment>): (ids: seq<string>)
    ensures |ids| == |t| && forall i | 0 <= i < |t| :: ids[i] == t[i].consignmentNo
  {
    seq(|t|, i requires 0 <= i < |t| => t[i].consignmentNo)
  }

  function CustomerIds(t: seq<Customer>): (ids: seq<string>)
    ensures |ids| == |t| && forall i | 0 <= i < |t| :: ids[i] == t[i].customerId
  {
    seq(|t|, i requires 0 <= i < |t| => t[i].customerId)
  }

  function ManifestIds(t: seq<Manifest>): (ids: seq<string>)
    ensures |ids| == |t| && forall i | 0 <= i < |t| :: ids[i] == t[i].manifestId
  {
    seq(|t|, i requires 0 <= i < |t| => t[i].manifestId)
  }

  function VendorCodes(t: seq<Vendor>): (ids: seq<string>)
    ensures |ids| == |t| && forall i | 0 <= i < |t| :: ids[i] == t[i].vendorCode
  {
    seq(|t|, i requires 0 <= i < |t| => t[i].vendorCode)
  }

  function TripIds(t: seq<Trip>): (ids: seq<string>)
    ensures |ids| == |t| && forall i | 0 <= i < |t| :: ids[i] == t[i].tripId
  {
    seq(|t|, i requires 0 <= i < |t| => t[i].tripId)
  }

  /** `"CN-" + str(year)[2:4]`: the prefix the shipment allocator filters on and writes. */
  function ConsignmentScope(year: nat): string { "CN-" + YearPrefix(year) }

  /** `"MF-" + str(year)[2:]`: the prefix the manifest allocator filters on and writes. */
  function ManifestScope(year: nat): string { "MF-" + YearTail(year) }

  /** The consignment number `Shipment.save` gives a new shipment in `year`. */
  function NextConsignmentNo(t: seq<Shipment>, year: nat): string
  {
    var scope := ConsignmentScope(year);
    FormatId(scope, NextNumber(LatestInScope(ConsignmentNos(t), scope)))
  }

  /** The id `Manifest.save` gives a new manifest in `year`, or `None` where it raises. */
  function NextManifestId(t: seq<Manifest>, year: nat): Option<string>
  {
    var scope := ManifestScope(year);
    match NextManifestNumber(LatestInScope(ManifestIds(t), scope))
    case None => None
    case Some(n) => Some(FormatId(scope, n))
  }

  /** The code `VendorMaster.save` gives a new vendor: the latest vendor overall, no year. */
  function NextVendorCode(t: seq<Vendor>): string
  {
    FormatId("VND-", NextNumber(LatestInScope(VendorCodes(t), "")))
  }

  /** The id `TripOutToVendor.save` gives a new trip: the latest trip overall, whatever its year. */
  function NextTripId(t: seq<Trip>, year: nat): string
  {
    FormatId("TRP-" + YearTail(year), NextNumber(LatestInScope(TripIds(t), "")))
  }

  /** `generate_customer_id`: "CUST-" and the first six hex digits of a random uuid, upper-cased. */
  function CustomerIdFrom(hex: string): (id: string)
    requires |hex| == 6 && forall i | 0 <= i < 6 :: IsHexChar(hex[i])
    ensures |id| == 11 && id[..5] == "CUST-"
    ensures forall i | 5 <= i < 11 :: IsUpperHexChar(id[i])
    ensures Lower(id[5..]) == Lower(hex)
  {
    var up := Upper(hex);
    forall i | 0 <= i < 6 ensures LowerChar(up[i]) == LowerChar(hex[i]) && IsUpperHexChar(up[i]) {
      assert up[i] == UpperChar(hex[i]) && IsHexChar(hex[i]);
      if 'a' <= hex[i] <= 'f' {
        assert up[i] as int == hex[i] as int - 32;
        assert 'A' <= up[i] <= 'F';
      } else if 'A' <= hex[i] <= 'F' {
        assert up[i] == hex[i];
      } else {
        assert '0' <= hex[i] <= '9';
        assert up[i] == hex[i];
      }
    }
    assert Lower(up) == Lower(hex);
    assert ("CUST-" + up)[5..] == up;
    "CUST-" + up
  }

  /** The trip bill: a blank or zero `total_bill_amount` becomes the trip charge plus the additional charge. */
  function BillTotal(given: Option<int>, tripCharge: int, additionalCharge: int): (total: int)
    ensures given.None? || given == Some(0) ==> total == tripCharge + additionalCharge
    ensures given.Some? && given.value != 0 ==> total == given.value
  {
    if given.None? || given.value == 0 then tripCharge + additionalCharge else given.value
  }

  // ---------------------------------------------------------------- what a save writes

  predicate Distinct(ids: seq<string>)
  {
    forall i, j | 0 <= i < j < |ids| :: ids[i] != ids[j]
  }

  /** No id other than the one at position `self` equals `id` (the unique constraint). */
  predicate KeyFree(ids: seq<string>, id: string, self: int)
  {
    forall i | 0 <= i < |ids| && i != self :: ids[i] != id
  }

  /**
   * The shipment table as the database keeps it: internal ids 1, 2, ... in insertion order,
   * a date and a bill-of-entry number on every row (NOT NULL) and unique consignment numbers.
   */
  predicate ShipmentTable(t: seq<Shipment>)
  {
    && (forall i | 0 <= i < |t| :: t[i].pk == i + 1 && t[i].date.Some? && t[i].boeNum.Some?)
    && Distinct(ConsignmentNos(t))
  }

  /** The allocation step of `Shipment.save`: only an unsaved instance without a number gets one. */
  function Allocated(t: seq<Shipment>, s: Shipment, year: nat): Shipment
  {
    if s.pk == 0 && s.consignmentNo == "" then s.(consignmentNo := NextConsignmentNo(t, year)) else s
  }

  /** The row `Shipment.save` writes, or the constraint the database rejects it with. */
  function SaveShipmentOutcome(t: seq<Shipment>, s: Shipment, year: nat): Result<Shipment, SaveError>
  {
    var x := Allocated(t, s, year);
    if x.date.None? then Err(NullDate)
    else if x.boeNum.None? then Err(NullBoeNum)
    else if !KeyFree(ConsignmentNos(t), x.consignmentNo, x.pk - 1) then Err(DuplicateKey)
    else if x.pk == 0 then Ok(x.(pk := |t| + 1))
    else Ok(x)
  }

  /** The table once the row is written: appended when new, replaced in place otherwise. */
  function Written(t: seq<Shipment>, x: Shipment): seq<Shipment>
    requires 1 <= x.pk <= |t| + 1
  {
    if x.pk == |t| + 1 then t + [x] else t[x.pk - 1 := x]
  }

  /** The manifest `Manifest.save` inserts, or why it fails. */
  function SaveManifestOutcome(t: seq<Manifest>, m: Manifest, year: nat): Result<Manifest, SaveError>
  {
    var id := if m.manifestId != "" then Some(m.manifestId) else NextManifestId(t, year);
    if id.None? then Err(BadSuffix)
    else if id.value in ManifestIds(t) then Err(DuplicateKey)
    else Ok(m.(manifestId := id.value))
  }

  /** The vendor `VendorMaster.save` inserts, or why it fails. */
  function SaveVendorOutcome(t: seq<Vendor>, v: Vendor): Result<Vendor, SaveError>
  {
    var code := if v.vendorCode != "" then v.vendorCode else NextVendorCode(t);
    if code in VendorCodes(t) then Err(DuplicateKey) else Ok(v.(vendorCode := code))
  }

  /** The trip `TripOutToVendor.save` inserts, or why it fails. */
  function SaveTripOutcome(t: seq<Trip>, tr: Trip, year: nat): Result<Trip, SaveError>
  {
    var id := if tr.tripId != "" then tr.tripId else NextTripId(t, year);
    var total := BillTotal(tr.totalBillAmount, tr.tripCharge, tr.additionalCharge);
    if id in TripIds(t) then Err(DuplicateKey)
    else Ok(tr.(tripId := id, totalBillAmount := Some(total)))
  }

  /** The customer `CustomerMaster.save` inserts, or why it fails. */
  function SaveCustomerOutcome(t: seq<Customer>, c: Customer, hex: string): Result<Customer, SaveError>
    requires |hex| == 6 && forall i | 0 <= i < 6 :: IsHexChar(hex[i])
  {
    var id := if c.customerId != "" then c.customerId else CustomerIdFrom(hex);
    if id in CustomerIds(t) then Err(DuplicateKey) else Ok(c.(customerId := id))
  }

  // ---------------------------------------------------------------- the database

  /** The tables, each in insertion order (internal id order). */
  class Database {
    var shipments: seq<Shipment>
    var customers: seq<Customer>
    var manifests: seq<Manifest>
    var vendors: seq<Vendor>
    var trips: seq<Trip>

    /** The constraints the database enforces on every table. */
    ghost predicate Valid()
      reads this
    {
      && ShipmentTable(shipments)
      && Distinct(CustomerIds(customers))
      && Distinct(ManifestIds(manifests))
      && Distinct(VendorCodes(vendors))
      && Distinct(TripIds(trips))
    }

    constructor ()
      ensures Valid()
      ensures shipments == [] && customers == [] && manifests == [] && vendors == [] && trips == []
    {
      shipments, customers, manifests, vendors, trips := [], [], [], [], [];
    }

    /** `Shipment.save()` on a new instance (`pk` 0) or on one loaded from the table. */
    method SaveShipment(s: Shipment, year: nat) returns (r: Result<Shipment, SaveError>)
      requires Valid() && s.pk <= |shipments|
      modifies this
      ensures Valid()
      ensures r == SaveShipmentOutcome(old(shipments), s, year)
      ensures r.Ok? ==> 1 <= r.value.pk <= |old(shipments)| + 1 && shipments == Written(old(shipments), r.value)
      ensures r.Err? ==> shipments == old(shipments)
      ensures customers == old(customers) && manifests == old(manifests)
      ensures vendors == old(vendors) && trips == old(trips)
    {
      r := SaveShipmentOutcome(shipments, s, year);
      if r.Ok? {
        SaveKeepsShipmentTable(shipments, s, year);
        shipments := Written(shipments, r.value);
      }
    }

    /** `Manifest.save()` on a new manifest. */
    method SaveManifest(m: Manifest, year: nat) returns (r: Result<Manifest, SaveError>)
      requires Valid()
      modifies this
      ensures Valid()
      ensures r == SaveManifestOutcome(old(manifests), m, year)
      ensures manifests == if r.Ok? then old(manifests) + [r.value] else old(manifests)
      ensures shipments == old(shipments) && customers == old(customers)
      ensures vendors == old(vendors) && trips == old(trips)
    {
      r := SaveManifestOutcome(manifests, m, year);
      if r.Ok? {
        AppendDistinct(ManifestIds(manifests), r.value.manifestId);
        assert ManifestIds(manifests + [r.value]) == ManifestIds(manifests) + [r.value.manifestId];
        manifests := manifests + [r.value];
      }
    }

    /** `VendorMaster.save()` on a new vendor. */
    method SaveVendor(v: Vendor) returns (r: Result<Vendor, SaveError>)
      requires Valid()
      modifies this
      ensures Valid()
      ensures r == SaveVendorOutcome(old(vendors), v)
      ensures vendors == if r.Ok? then old(vendors) + [r.value] else old(vendors)
      ensures shipments == old(shipments) && customers == old(customers)
      ensures manifests == old(manifests) && trips == old(trips)
    {
      r := SaveVendorOutcome(vendors, v);
      if r.Ok? {
        AppendDistinct(VendorCodes(vendors), r.value.vendorCode);
        assert VendorCodes(vendors + [r.value]) == VendorCodes(vendors) + [r.value.vendorCode];
        vendors := vendors + [r.value];
      }
    }

    /** `TripOutToVendor.save()` on a new trip. */
    method SaveTrip(tr: Trip, year: nat) returns (r: Result<Trip, SaveError>)
      requires Valid()
      modifies this
      ensures Valid()
      ensures r == SaveTripOutcome(old(trips), tr, year)
      ensures trips == if r.Ok? then old(trips) + [r.value] else old(trips)
      ensures shipments == old(shipments) && customers == old(customers)
      ensures manifests == old(manifests) && vendors == old(vendors)
    {
      r := SaveTripOutcome(trips, tr, year);
      if r.Ok? {
        AppendDistinct(TripIds(trips), r.value.tripId);
        assert TripIds(trips + [r.value]) == TripIds(trips) + [r.value.tripId];
        trips := trips + [r.value];
      }
    }

    /** `CustomerMaster.save()` on a new customer; `hex` stands for `uuid4().hex[:6]`. */
    method SaveCustomer(c: Customer, hex: string) returns (r: Result<Customer, SaveError>)
      requires Valid()
      requires |hex| == 6 && forall i | 0 <= i < 6 :: IsHexChar(hex[i])
      modifies this
      ensures Valid()
      ensures r == SaveCustomerOutcome(old(customers), c, hex)
      ensures customers == if r.Ok? then old(customers) + [r.value] else old(customers)
      ensures shipments == old(shipments) && manifests == old(manifests)
      ensures vendors == old(vendors) && trips == old(trips)
    {
      r := SaveCustomerOutcome(customers, c, hex);
      if r.Ok? {
        AppendDistinct(CustomerIds(customers), r.value.customerId);
        assert CustomerIds(customers + [r.value]) == CustomerIds(customers) + [r.value.customerId];
        customers := customers + [r.value];
      }
    }
  }

  // ---------------------------------------------------------------- table invariants

  lemma AppendDistinct(ids: seq<string>, id: string)
    requires Distinct(ids) && id !in ids
    ensures Distinct(ids + [id])
  {
    var r := ids + [id];
    forall i, j | 0 <= i < j < |r| ensures r[i] != r[j] {
      if j == |ids| { assert r[i] == ids[i]; }
    }
  }

  /**
   * A save the database accepts keeps the shipment table well formed: a new row gets the next
   * internal id, an existing row keeps its place, and consignment numbers stay unique.
   */
  lemma SaveKeepsShipmentTable(t: seq<Shipment>, s: Shipment, year: nat)
    requires ShipmentTable(t) && s.pk <= |t|
    requires SaveShipmentOutcome(t, s, year).Ok?
    ensures 1 <= SaveShipmentOutcome(t, s, year).value.pk <= |t| + 1
    ensures ShipmentTable(Written(t, SaveShipmentOutcome(t, s, year).value))
  {
    var x := SaveShipmentOutcome(t, s, year).value;
    var w := Written(t, x);
    var ids, wids := ConsignmentNos(t), ConsignmentNos(w);
    assert KeyFree(ids, x.consignmentNo, x.pk - 1);
    forall i, j | 0 <= i < j < |wids| ensures wids[i] != wids[j] {
      if i == x.pk - 1 {
        assert wids[i] == x.consignmentNo && wids[j] == ids[j];
      } else if j == x.pk - 1 {
        assert wids[j] == x.consignmentNo && wids[i] == ids[i];
      } else {
        assert wids[i] == ids[i] && wids[j] == ids[j];
      }
    }
  }
}
