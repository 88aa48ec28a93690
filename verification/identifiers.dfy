/**
 * What the identifier allocators of `Models` guarantee, and where they fall short: a run of
 * allocations in an empty scope issues 001, 002, ... in order; the two-digit year keeps
 * the scopes of different years apart for consignment numbers; the trip and vendor counters
 * ignore the year; the counter passes 999 to 1000 and then restarts at 001; and the manifest
 * counter raises on a suffix `int()` rejects where the other counters restart at 1.
 */
module IdentifierFacts {
  import opened Wrappers
  import opened PyText
  import opened PyTextFacts
  import opened Models

  // ---------------------------------------------------------------- the counter

  /** The id after `prefix` + `format(n, "03d")` carries the number `n % 1000 + 1`. */
  lemma NextNumberAfter(prefix: string, n: nat)
    ensures NextNumber(Some(FormatId(prefix, n))) == n % 1000 + 1
  {
    var f := Format03(n);
    Format03Digits(n);
    assert LastThree(prefix + f) == LastThree(f);
    Format03LastThree(n);
  }

  lemma FormatIdStartsWith(prefix: string, n: int)
    ensures StartsWith(FormatId(prefix, n), prefix)
  {
    assert FormatId(prefix, n)[..|prefix|] == prefix;
  }

  /** Different counter values give different ids under the same prefix. */
  lemma FormatIdInjective(prefix: string, a: nat, b: nat)
    requires FormatId(prefix, a) == FormatId(prefix, b)
    ensures a == b
  {
    Format03Digits(a);
    Format03Digits(b);
    assert Format03(a) == FormatId(prefix, a)[|prefix|..];
    assert Format03(b) == FormatId(prefix, b)[|prefix|..];
  }

  /**
   * The counter passes 999 to 1000, a four-digit suffix, and the id after that one reads
   * only its last three digits "000", so the counter starts again at 1.
   */
  lemma CounterAfter999(prefix: string)
    ensures NextNumber(Some(FormatId(prefix, 999))) == 1000
    ensures |FormatId(prefix, 1000)| == |prefix| + 4
    ensures NextNumber(Some(FormatId(prefix, 1000))) == 1
  {
    NextNumberAfter(prefix, 999);
    NextNumberAfter(prefix, 1000);
    Format03Digits(1000);
  }

  /**
   * Once the counter has restarted, a shipment saved without a number is refused by the
   * unique constraint, the number it is given being the scope's first number, already taken;
   * only a NOT NULL column left empty is refused first.
   */
  lemma RestartCollides(t: seq<Shipment>, s: Shipment, year: nat, i: nat)
    requires i < |t| && t[i].consignmentNo == FormatId(ConsignmentScope(year), 1)
    requires LatestInScope(ConsignmentNos(t), ConsignmentScope(year)) == Some(FormatId(ConsignmentScope(year), 1000))
    requires s.pk == 0 && s.consignmentNo == "" && s.date.Some?
    ensures SaveShipmentOutcome(t, s, year) == if s.boeNum.Some? then Err(DuplicateKey) else Err(NullBoeNum)
  {
    CounterAfter999(ConsignmentScope(year));
    assert ConsignmentNos(t)[i] == NextConsignmentNo(t, year);
  }

  // ---------------------------------------------------------------- scopes

  /** A new id outside `scope` does not move the latest id inside it. */
  lemma OtherScopeIgnored(ids: seq<string>, extra: string, scope: string)
    requires !StartsWith(extra, scope)
    ensures LatestInScope(ids + [extra], scope) == LatestInScope(ids, scope)
  {
    var all := ids + [extra];
    assert all[..|all| - 1] == ids;
  }

  /** A new id inside `scope` becomes the latest one. */
  lemma SameScopeLatest(ids: seq<string>, extra: string, scope: string)
    requires StartsWith(extra, scope)
    ensures LatestInScope(ids + [extra], scope) == Some(extra)
  {
  }

  lemma DecimalStep(n: nat)
    requires n >= 10
    ensures Decimal(n) == Decimal(n / 10) + [DigitChar(n % 10)]
  {
  }

  /** For a four-digit year, `str(year)[2:4]` and `str(year)[2:]` are both its last two digits. */
  lemma YearParts(year: nat)
    requires 1000 <= year <= 9999
    ensures YearPrefix(year) == YearTail(year)
    ensures YearPrefix(year) == [DigitChar(year / 10 % 10), DigitChar(year % 10)]
  {
    var q1 := year / 10;
    var q2 := q1 / 10;
    assert 10 <= q2 <= 99;
    DecimalStep(year);
    DecimalStep(q1);
    DecimalStep(q2);
    var d2 := Decimal(q2);
    assert |d2| == 2;
    var d := Decimal(year);
    assert d == d2 + [DigitChar(q1 % 10)] + [DigitChar(year % 10)];
    assert |d| == 4;
    assert d[2..4] == [DigitChar(q1 % 10), DigitChar(year % 10)];
  }

  lemma DigitCharInjective(a: nat, b: nat)
    requires a < 10 && b < 10 && DigitChar(a) == DigitChar(b)
    ensures a == b
  {
    assert DigitValue(DigitChar(a)) == a && DigitValue(DigitChar(b)) == b;
  }

  lemma LastTwoDigits(y: nat)
    ensures y % 100 == (y / 10 % 10) * 10 + y % 10
  {
  }

  /**
   * Consignment numbers of two four-digit years whose last two digits differ live in
   * different scopes: the scopes are five characters long and not equal, so no number
   * starts with both.
   */
  lemma YearScopesDisjoint(y1: nat, y2: nat)
    requires 1000 <= y1 <= 9999 && 1000 <= y2 <= 9999 && y1 % 100 != y2 % 100
    ensures |ConsignmentScope(y1)| == 5 && |ConsignmentScope(y2)| == 5
    ensures ConsignmentScope(y1) != ConsignmentScope(y2)
  {
    YearParts(y1);
    YearParts(y2);
    var p1, p2 := YearPrefix(y1), YearPrefix(y2);
    if p1 == p2 {
      DigitCharInjective(y1 / 10 % 10, y2 / 10 % 10);
      DigitCharInjective(y1 % 10, y2 % 10);
      LastTwoDigits(y1);
      LastTwoDigits(y2);
      assert false;
    }
    assert ConsignmentScope(y1)[3..] == p1;
    assert ConsignmentScope(y2)[3..] == p2;
  }

  /**
   * A shipment numbered in one year does not change the number the next shipment of another
   * year gets (for four-digit years whose last two digits differ).
   */
  lemma YearsDoNotInterfere(t: seq<Shipment>, s: Shipment, y1: nat, y2: nat)
    requires 1000 <= y1 <= 9999 && 1000 <= y2 <= 9999 && y1 % 100 != y2 % 100
    requires StartsWith(s.consignmentNo, ConsignmentScope(y2))
    ensures NextConsignmentNo(t + [s], y1) == NextConsignmentNo(t, y1)
  {
    YearScopesDisjoint(y1, y2);
    var a := ConsignmentScope(y1);
    assert ConsignmentNos(t + [s]) == ConsignmentNos(t) + [s.consignmentNo];
    OtherScopeIgnored(ConsignmentNos(t), s.consignmentNo, a);
  }

  /**
   * A consignment number issued in a four-digit year with a counter up to 999 has eight
   * characters: "CN-", the two-digit year (see `YearParts`) and `format(n, "03d")`, three
   * digits that read back as `n` (see `Format03Digits`).
   */
  lemma ConsignmentNoShape(year: nat, n: nat)
    requires 1000 <= year <= 9999 && 1 <= n <= 999
    ensures var id := FormatId(ConsignmentScope(year), n);
      && |id| == 8 && id[..3] == "CN-"
      && id[3..5] == YearPrefix(year) && id[5..] == Format03(n)
  {
    YearParts(year);
    Format03Digits(n);
    var p, f := YearPrefix(year), Format03(n);
    var id := "CN-" + p + f;
    assert id == FormatId(ConsignmentScope(year), n);
    assert id[..3] == "CN-";
    assert id[3..5] == p;
    assert id[5..] == f;
  }

  // ---------------------------------------------------------------- runs of allocations

  /** The ids after `k` more allocations in `scope`, each one reading the ids written before it. */
  function AllocateRun(ids: seq<string>, scope: string, k: nat): (r: seq<string>)
    ensures |r| == |ids| + k
  {
    if k == 0 then ids
    else
      var prev := AllocateRun(ids, scope, k - 1);
      prev + [FormatId(scope, NextNumber(LatestInScope(prev, scope)))]
  }

  /** `scope + format(1, "03d")`, ..., `scope + format(k, "03d")`. */
  function Issued(scope: string, k: nat): (r: seq<string>)
    ensures |r| == k
  {
    if k == 0 then [] else Issued(scope, k - 1) + [FormatId(scope, k)]
  }

  /** The `i`-th id issued carries the number `i + 1`. */
  lemma {:induction false} IssuedAt(scope: string, k: nat, i: nat)
    requires i < k
    ensures Issued(scope, k)[i] == FormatId(scope, i + 1)
  {
    if i < k - 1 {
      IssuedAt(scope, k - 1, i);
    }
  }

  /** After an id carrying `n` under `scope`, the allocator issues `n % 1000 + 1` under `scope`. */
  lemma RunStep(prev: seq<string>, scope: string, n: nat)
    requires prev != [] && prev[|prev| - 1] == FormatId(scope, n)
    ensures FormatId(scope, NextNumber(LatestInScope(prev, scope))) == FormatId(scope, n % 1000 + 1)
  {
    FormatIdStartsWith(scope, n);
    NextNumberAfter(scope, n);
  }

  /**
   * Starting from a scope with no id in it, `k` allocations (at most 1000) issue the
   * numbers 1, 2, ..., k in order, so the first 999 are `scope + "001"` to `scope + "999"`.
   */
  lemma {:induction false} AllocationsCountUp(ids: seq<string>, scope: string, k: nat)
    requires LatestInScope(ids, scope).None? && k <= 1000
    ensures AllocateRun(ids, scope, k) == ids + Issued(scope, k)
  {
    if k == 0 {
      assert ids + [] == ids;
    } else if k == 1 {
      assert AllocateRun(ids, scope, 0) == ids;
      assert ids + Issued(scope, 1) == ids + [FormatId(scope, 1)];
    } else {
      AllocationsCountUp(ids, scope, k - 1);
      AllocationStep(ids, scope, k);
    }
  }

  /** One allocation after `scope + format(k - 1, "03d")` issues `scope + format(k, "03d")`. */
  lemma AllocationStep(ids: seq<string>, scope: string, k: nat)
    requires 2 <= k <= 1000
    requires AllocateRun(ids, scope, k - 1) == ids + Issued(scope, k - 1)
    ensures AllocateRun(ids, scope, k) == ids + Issued(scope, k)
  {
    var prev := AllocateRun(ids, scope, k - 1);
    IssuedAt(scope, k - 1, k - 2);
    assert prev[|prev| - 1] == Issued(scope, k - 1)[k - 2];
    RunStep(prev, scope, k - 1);
    BelowThousand(k - 1);
    assert AllocateRun(ids, scope, k) == prev + [FormatId(scope, k)];
  }

  lemma BelowThousand(n: nat)
    requires n < 1000
    ensures n % 1000 + 1 == n + 1
  {
  }

  /** The numbers of a run that starts in an empty scope are all different (up to 999 of them). */
  lemma {:induction false} RunIsDistinct(ids: seq<string>, scope: string, k: nat)
    requires LatestInScope(ids, scope).None? && k <= 999
    ensures var r := AllocateRun(ids, scope, k);
      forall i, j | |ids| <= i < j < |r| :: r[i] != r[j]
  {
    AllocationsCountUp(ids, scope, k);
    IssuedAfter(ids, scope, k);
  }

  /** The ids issued after `ids` are all different from each other. */
  lemma {:induction false} IssuedAfter(ids: seq<string>, scope: string, k: nat)
    ensures var r := ids + Issued(scope, k);
      forall i, j | |ids| <= i < j < |r| :: r[i] != r[j]
  {
    var r := ids + Issued(scope, k);
    forall i, j | |ids| <= i < j < |r| ensures r[i] != r[j] {
      IssuedDiffer(scope, k, i - |ids|, j - |ids|);
    }
  }

  /** Two different positions of a run of issued ids hold different ids. */
  lemma {:induction false} IssuedDiffer(scope: string, k: nat, i: nat, j: nat)
    requires i < j < k
    ensures Issued(scope, k)[i] != Issued(scope, k)[j]
  {
    IssuedAt(scope, k, i);
    IssuedAt(scope, k, j);
    FormatIdDiffer(scope, i + 1, j + 1);
  }

  /** Different numbers under one prefix format to different ids. */
  lemma {:induction false} FormatIdDiffer(prefix: string, a: nat, b: nat)
    requires a != b
    ensures FormatId(prefix, a) != FormatId(prefix, b)
  {
    if FormatId(prefix, a) == FormatId(prefix, b) {
      FormatIdInjective(prefix, a, b);
    }
  }

  /** Saving a new shipment without a number is one allocation step of the run in its year's scope. */
  lemma NewShipmentAllocates(t: seq<Shipment>, s: Shipment, year: nat)
    requires s.pk == 0 && s.consignmentNo == ""
    requires SaveShipmentOutcome(t, s, year).Ok?
    ensures var x := SaveShipmentOutcome(t, s, year).value;
      && x.pk == |t| + 1
      && ConsignmentNos(Written(t, x)) == AllocateRun(ConsignmentNos(t), ConsignmentScope(year), 1)
  {
    var x := SaveShipmentOutcome(t, s, year).value;
    assert ConsignmentNos(Written(t, x)) == ConsignmentNos(t) + [x.consignmentNo];
  }

  /** Saving a shipment that already has a number or an internal id never renumbers it. */
  lemma ExistingNumberKept(t: seq<Shipment>, s: Shipment, year: nat)
    requires s.pk != 0 || s.consignmentNo != ""
    requires SaveShipmentOutcome(t, s, year).Ok?
    ensures SaveShipmentOutcome(t, s, year).value.consignmentNo == s.consignmentNo
  {
  }

  // ---------------------------------------------------------------- trips and vendors

  /**
   * The trip counter reads the latest trip of any year: after trip `TRP-<y0><n>` the next
   * trip of any year carries `n % 1000 + 1`, so the counter does not restart with the year.
   */
  lemma TripCounterIgnoresYear(t: seq<Trip>, tr: Trip, y0: nat, year: nat, n: nat)
    requires tr.tripId == FormatId("TRP-" + YearTail(y0), n)
    ensures NextTripId(t + [tr], year) == FormatId("TRP-" + YearTail(year), n % 1000 + 1)
  {
    assert TripIds(t + [tr]) == TripIds(t) + [tr.tripId];
    SameScopeLatest(TripIds(t), tr.tripId, "");
    NextNumberAfter("TRP-" + YearTail(y0), n);
  }

  /** After vendor `VND-<n>` the next vendor code carries `n % 1000 + 1`. */
  lemma VendorCodeFollows(t: seq<Vendor>, v: Vendor, n: nat)
    requires v.vendorCode == FormatId("VND-", n)
    ensures NextVendorCode(t + [v]) == FormatId("VND-", n % 1000 + 1)
  {
    assert VendorCodes(t + [v]) == VendorCodes(t) + [v.vendorCode];
    SameScopeLatest(VendorCodes(t), v.vendorCode, "");
    NextNumberAfter("VND-", n);
  }

  // ---------------------------------------------------------------- manifests

  /** On a digit suffix the manifest counter agrees with the guarded counter of the other tables. */
  lemma ManifestAgreesOnDigits(id: string)
    requires IsDigits(LastThree(id))
    ensures NextManifestNumber(Some(id)) == Some(NextNumber(Some(id)) as int)
  {
    var s := LastThree(id);
    PyIntDigits(s);
    assert NextManifestNumber(Some(id)) == Some(DigitsValue(s) + 1);
    assert NextNumber(Some(id)) == DigitsValue(s) + 1;
  }

  /**
   * When the last three characters of the latest manifest id hold a letter, `Manifest.save`
   * raises, while the guarded counter of the other tables would restart at 1.
   */
  lemma ManifestRaisesOnLetters(id: string, i: nat)
    requires i < |LastThree(id)| && ('a' <= LastThree(id)[i] <= 'z' || 'A' <= LastThree(id)[i] <= 'Z')
    ensures NextManifestNumber(Some(id)) == None
    ensures NextNumber(Some(id)) == 1
  {
    PyIntRejectsLetter(LastThree(id), i);
  }
}
