/** The request handlers over the stored records, without the HTTP layer:
    each deal handler loads the deal afresh, checks its guard, assigns the
    fields, and ends in `Records.SaveDeal`, which runs the posting rules.
    A refused guard, a missing deal or a request that is not a POST leaves
    every table as it was. The listing figures are pure functions of the
    tables. */
module Views {
  import opened Models
  import opened Signals

  datatype Reason = MissingVendorInvoice | MissingTrackingId | InvalidForm

  /** How a handler ended: saved, refused with a reason, no such deal (404),
      or not a POST (nothing to do). */
  datatype Outcome = Saved | Refused(reason: Reason) | NotFound | NotPost

  /** The cleaned fields of the deal update form. `vendorInvoice` says whether
      a file was uploaded with this request. */
  datatype DealUpdate = DealUpdate(
    clientName: string,
    actualCost: Option<Money>,
    vendorInvoice: bool,
    trackingId: string,
    courierPartner: string,
    status: Status)

  /** The field limits the update form enforces: the cost fits twelve digits,
      the texts fit their column lengths. */
  predicate UpdateFormValid(u: DealUpdate) {
    && (u.actualCost.Some? ==> FitsTwelveDigits(u.actualCost.value))
    && |u.clientName| <= 200 && |u.trackingId| <= 100 && |u.courierPartner| <= 100
  }

  /** The update form's fields written onto a loaded deal; an upload replaces
      the invoice, no upload keeps the stored one. */
  function ApplyUpdate(d: Deal, u: DealUpdate): (r: Deal)
    ensures r.hasVendorInvoice <==> d.hasVendorInvoice || u.vendorInvoice
    ensures r.status == u.status && r.actualCost == u.actualCost
    ensures r.clientName == u.clientName && r.trackingId == u.trackingId && r.courierPartner == u.courierPartner
    ensures r.partner == d.partner && r.costDeducted == d.costDeducted && r.itemName == d.itemName
    ensures r.quantity == d.quantity && r.estimatedCost == d.estimatedCost && r.commissionPercent == d.commissionPercent
  {
    d.(clientName := u.clientName, actualCost := u.actualCost,
       hasVendorInvoice := d.hasVendorInvoice || u.vendorInvoice,
       trackingId := u.trackingId, courierPartner := u.courierPartner, status := u.status)
  }

  /** Booking is refused when there is no stored invoice and none is uploaded. */
  predicate BookingBlocked(d: Deal, u: DealUpdate): (r: bool)
    ensures r <==> ApplyUpdate(d, u).status == Booked && !ApplyUpdate(d, u).hasVendorInvoice
  {
    u.status == Booked && !d.hasVendorInvoice && !u.vendorInvoice
  }

  /** What saving an update subtracts from the deal's partner: the full new
      cost when nothing was deducted yet, the difference against the stored
      cost when it was, nothing when the new cost is null or zero. */
  function UpdateCharge(stored: Deal, u: DealUpdate): (c: Money)
    ensures Truthy(u.actualCost) && !stored.costDeducted ==> c == u.actualCost.value
    ensures Truthy(u.actualCost) && stored.costDeducted ==> c == u.actualCost.value - CostOrZero(stored.actualCost)
    ensures !Truthy(u.actualCost) ==> c == 0
    ensures c == ReplayCostEdits(stored, [u.actualCost]).1
  {
    ChargeOnSave(ApplyUpdate(stored, u), PreSave(stored.actualCost, stored.costDeducted))
  }

  /** Replays a sequence of saved updates, each on the freshly loaded row:
      the final stored row and the total subtracted from the partner. */
  function ReplayUpdates(stored: Deal, us: seq<DealUpdate>): (Deal, Money)
    decreases |us|
  {
    if us == [] then (stored, 0)
    else
      var rest := ReplayUpdates(StoredAfterSave(ApplyUpdate(stored, us[0])), us[1..]);
      (rest.0, UpdateCharge(stored, us[0]) + rest.1)
  }

  /** Telescoping for the update handler: over any non-empty sequence of saved
      updates with non-zero costs, the total subtracted is the latest cost
      less what was already deducted; the row ends posted at the latest cost. */
  lemma {:induction false} UpdatesTelescope(stored: Deal, us: seq<DealUpdate>)
    requires |us| > 0 && forall i :: 0 <= i < |us| ==> Truthy(us[i].actualCost)
    ensures ReplayUpdates(stored, us).1
              == CostOrZero(us[|us| - 1].actualCost) - (if stored.costDeducted then CostOrZero(stored.actualCost) else 0)
    ensures ReplayUpdates(stored, us).0.actualCost == us[|us| - 1].actualCost
    ensures ReplayUpdates(stored, us).0.costDeducted
    decreases |us|
  {
    var next := StoredAfterSave(ApplyUpdate(stored, us[0]));
    assert next.costDeducted && next.actualCost == us[0].actualCost;
    if |us| > 1 {
      UpdatesTelescope(next, us[1..]);
      assert us[1..][|us[1..]| - 1] == us[|us| - 1];
    }
  }

  /** update_deal: the BOOKED guard, then the submitted fields are saved as given. */
  method UpdateDeal(db: Records, id: DealId, post: bool, u: DealUpdate) returns (o: Outcome)
    requires db.Valid()
    modifies db`partners, db`deals
    ensures db.Valid()
    ensures o == NotFound <==> |old(db.deals)| <= id
    ensures o == NotPost <==> id < |old(db.deals)| && !post
    ensures o == Refused(InvalidForm) <==> id < |old(db.deals)| && post && !UpdateFormValid(u)
    ensures o == Refused(MissingVendorInvoice) <==>
              id < |old(db.deals)| && post && UpdateFormValid(u) && BookingBlocked(old(db.deals)[id], u)
    ensures o.Saved? <==>
              id < |old(db.deals)| && post && UpdateFormValid(u) && !BookingBlocked(old(db.deals)[id], u)
    ensures !o.Saved? ==> db.deals == old(db.deals) && db.partners == old(db.partners)
    ensures o.Saved? ==>
              && db.deals == old(db.deals)[id := StoredAfterSave(ApplyUpdate(old(db.deals)[id], u))]
              && db.partners == Adjust(old(db.partners), old(db.deals)[id].partner,
                                       -UpdateCharge(old(db.deals)[id], u))
  {
    if |db.deals| <= id {
      return NotFound;
    }
    if !post {
      return NotPost;
    }
    var deal := db.deals[id];
    if !UpdateFormValid(u) {
      return Refused(InvalidForm);
    }
    if u.status == Booked && !deal.hasVendorInvoice && !u.vendorInvoice {
      return Refused(MissingVendorInvoice);
    }
    db.SaveDeal(id, ApplyUpdate(deal, u));
    o := Saved;
  }

  /** move_to_warehouse: needs a stored vendor invoice; from any status. */
  method MoveToWarehouse(db: Records, id: DealId, post: bool) returns (o: Outcome)
    requires db.Valid()
    modifies db`partners, db`deals
    ensures db.Valid()
    ensures o == NotFound <==> |old(db.deals)| <= id
    ensures o == NotPost <==> id < |old(db.deals)| && !post
    ensures o == Refused(MissingVendorInvoice) <==>
              id < |old(db.deals)| && post && !old(db.deals)[id].hasVendorInvoice
    ensures o.Saved? || o.NotFound? || o.NotPost? || o == Refused(MissingVendorInvoice)
    ensures db.partners == old(db.partners)
    ensures !o.Saved? ==> db.deals == old(db.deals)
    ensures o.Saved? ==> db.deals == old(db.deals)[id := old(db.deals)[id].(status := InWarehouse)]
  {
    if |db.deals| <= id {
      return NotFound;
    }
    if !post {
      return NotPost;
    }
    var deal := db.deals[id];
    if !deal.hasVendorInvoice {
      return Refused(MissingVendorInvoice);
    }
    var moved := deal.(status := InWarehouse);
    FreshResaveChargesNothing(deal, moved);
    db.SaveDeal(id, moved);
    o := Saved;
  }

  /** mark_shipped: needs a non-empty tracking id; records it with the
      courier (which may be empty) and sets SHIPPED. */
  method MarkShipped(db: Records, id: DealId, post: bool, trackingId: string, courierPartner: string)
    returns (o: Outcome)
    requires db.Valid()
    modifies db`partners, db`deals
    ensures db.Valid()
    ensures o == NotFound <==> |old(db.deals)| <= id
    ensures o == NotPost <==> id < |old(db.deals)| && !post
    ensures o == Refused(MissingTrackingId) <==> id < |old(db.deals)| && post && trackingId == ""
    ensures o.Saved? || o.NotFound? || o.NotPost? || o == Refused(MissingTrackingId)
    ensures db.partners == old(db.partners)
    ensures !o.Saved? ==> db.deals == old(db.deals)
    ensures o.Saved? ==>
              db.deals == old(db.deals)[id := old(db.deals)[id].(trackingId := trackingId,
                                                                 courierPartner := courierPartner,
                                                                 status := Shipped)]
  {
    if |db.deals| <= id {
      return NotFound;
    }
    if !post {
      return NotPost;
    }
    if trackingId == "" {
      return Refused(MissingTrackingId);
    }
    var deal := db.deals[id];
    var shipped := deal.(trackingId := trackingId, courierPartner := courierPartner, status := Shipped);
    FreshResaveChargesNothing(deal, shipped);
    db.SaveDeal(id, shipped);
    o := Saved;
  }

  /** mark_delivered: unconditional; afterwards the commission invoice is available. */
  method MarkDelivered(db: Records, id: DealId, post: bool) returns (o: Outcome)
    requires db.Valid()
    modifies db`partners, db`deals
    ensures db.Valid()
    ensures o == NotFound <==> |old(db.deals)| <= id
    ensures o == NotPost <==> id < |old(db.deals)| && !post
    ensures o.Saved? <==> id < |old(db.deals)| && post
    ensures db.partners == old(db.partners)
    ensures !o.Saved? ==> db.deals == old(db.deals)
    ensures o.Saved? ==> db.deals == old(db.deals)[id := old(db.deals)[id].(status := Delivered)]
    ensures o.Saved? ==> CommissionInvoice(db.deals, id).Some?
  {
    if |db.deals| <= id {
      return NotFound;
    }
    if !post {
      return NotPost;
    }
    var deal := db.deals[id];
    var delivered := deal.(status := Delivered);
    FreshResaveChargesNothing(deal, delivered);
    db.SaveDeal(id, delivered);
    o := Saved;
  }

  /** add_partner: a valid form stores a new partner with the default
      balance; a GST number already in use fails the form's uniqueness
      check and nothing changes. */
  method AddPartner(db: Records, post: bool, name: string, gstNumber: string, contactInfo: string)
    returns (o: Outcome)
    requires db.Valid()
    modifies db`partners
    ensures db.Valid()
    ensures o == NotPost <==> !post
    ensures o == Refused(InvalidForm) <==> post && GstTaken(old(db.partners), gstNumber)
    ensures o.Saved? || o.NotPost? || o == Refused(InvalidForm)
    ensures !o.Saved? ==> db.partners == old(db.partners)
    ensures o.Saved? ==> db.partners == old(db.partners) + [NewPartner(name, gstNumber, contactInfo)]
  {
    if !post {
      return NotPost;
    }
    if exists i :: 0 <= i < |db.partners| && db.partners[i].gstNumber == gstNumber {
      return Refused(InvalidForm);
    }
    db.partners := db.partners + [NewPartner(name, gstNumber, contactInfo)];
    o := Saved;
  }

  /** The dashboard's quick advance: a valid submission creates an
      ADVANCE_RECEIVED transaction, which raises the partner's balance, and
      the dashboard total, by exactly its amount. */
  method QuickAdvance(db: Records, post: bool, partner: PartnerId, amount: Money, hasEvidence: bool)
    returns (o: Outcome)
    requires db.Valid()
    modifies db`partners, db`transactions
    ensures db.Valid()
    ensures o == NotPost <==> !post
    ensures o == Refused(InvalidForm) <==>
              post && (|old(db.partners)| <= partner || !ValidTransactionAmount(amount))
    ensures o.Saved? || o.NotPost? || o == Refused(InvalidForm)
    ensures !o.Saved? ==> db.partners == old(db.partners) && db.transactions == old(db.transactions)
    ensures o.Saved? ==>
              && db.transactions == old(db.transactions) + [Transaction(partner, amount, AdvanceReceived, hasEvidence, "")]
              && db.partners == Adjust(old(db.partners), partner, amount)
              && TotalBalance(db.partners) == TotalBalance(old(db.partners)) + amount
  {
    if !post {
      return NotPost;
    }
    if |db.partners| <= partner || !ValidTransactionAmount(amount) {
      return Refused(InvalidForm);
    }
    var t := Transaction(partner, amount, AdvanceReceived, hasEvidence, "");
    var _ := db.CreateTransaction(t);
    TotalBalanceAdjust(old(db.partners), partner, amount);
    o := Saved;
  }

  /** The procurement page's new-deal form (partner, client name, invoice,
      status); every other field takes its default, so nothing is posted. */
  method ProcurementCreateDeal(db: Records, post: bool, partner: PartnerId, clientName: string,
                               vendorInvoice: bool, status: Status) returns (o: Outcome)
    requires db.Valid()
    modifies db`partners, db`deals
    ensures db.Valid()
    ensures o == NotPost <==> !post
    ensures o == Refused(InvalidForm) <==> post && (|old(db.partners)| <= partner || |clientName| > 200)
    ensures o.Saved? || o.NotPost? || o == Refused(InvalidForm)
    ensures db.partners == old(db.partners)
    ensures !o.Saved? ==> db.deals == old(db.deals)
    ensures o.Saved? ==>
              db.deals == old(db.deals) + [NewDeal(partner, "").(clientName := clientName,
                                                                 hasVendorInvoice := vendorInvoice,
                                                                 status := status)]
  {
    if !post {
      return NotPost;
    }
    if |db.partners| <= partner || |clientName| > 200 {
      return Refused(InvalidForm);
    }
    var deal := NewDeal(partner, "").(clientName := clientName, hasVendorInvoice := vendorInvoice, status := status);
    var _ := db.CreateDeal(deal);
    o := Saved;
  }

  /** The dashboard total: the sum of all partner balances, 0.00 when there are none. */
  function TotalBalance(ps: seq<Partner>): (total: Money)
    ensures ps == [] ==> total == 0
  {
    if ps == [] then 0 else TotalBalance(ps[..|ps| - 1]) + ps[|ps| - 1].currentBalance
  }

  /** Moving one partner's balance moves the total by the same amount. */
  lemma {:induction false} TotalBalanceAdjust(ps: seq<Partner>, i: PartnerId, delta: Money)
    requires i < |ps|
    ensures TotalBalance(Adjust(ps, i, delta)) == TotalBalance(ps) + delta
    decreases |ps|
  {
    var qs := Adjust(ps, i, delta);
    var n := |ps| - 1;
    assert qs[..n] == if i < n then Adjust(ps[..n], i, delta) else ps[..n];
    if i < n {
      TotalBalanceAdjust(ps[..n], i, delta);
    }
  }

  /** A new partner, created with balance 0.00, leaves the total unchanged. */
  lemma NewPartnerKeepsTotal(ps: seq<Partner>, name: string, gstNumber: string, contactInfo: string)
    ensures TotalBalance(ps + [NewPartner(name, gstNumber, contactInfo)]) == TotalBalance(ps)
  {
  }

  /** The ids, newest first, of the deals whose status is in `wanted`: ids
      are assigned in creation order, so descending id is newest first. */
  function DealsWithStatus(ds: seq<Deal>, wanted: set<Status>): (ids: seq<DealId>)
    ensures forall id: int :: id in ids <==> 0 <= id < |ds| && ds[id].status in wanted
    ensures forall i, j :: 0 <= i < j < |ids| ==> ids[i] > ids[j]
    ensures |ids| <= |ds|
  {
    if ds == [] then []
    else
      var n := |ds| - 1;
      var rest := DealsWithStatus(ds[..n], wanted);
      assert forall k :: 0 <= k < |rest| ==> rest[k] < n by {
        forall k | 0 <= k < |rest| ensures rest[k] < n {
          assert rest[k] in rest;
        }
      }
      if ds[n].status in wanted then [n] + rest else rest
  }

  /** The procurement page lists SOURCING and BOOKED deals. */
  function ProcurementDeals(ds: seq<Deal>): (ids: seq<DealId>)
    ensures forall id: int :: id in ids <==> 0 <= id < |ds| && (ds[id].status == Sourcing || ds[id].status == Booked)
  {
    DealsWithStatus(ds, {Sourcing, Booked})
  }

  /** The logistics page lists IN_WAREHOUSE and SHIPPED deals. */
  function LogisticsDeals(ds: seq<Deal>): (ids: seq<DealId>)
    ensures forall id: int :: id in ids <==> 0 <= id < |ds| && (ds[id].status == InWarehouse || ds[id].status == Shipped)
  {
    DealsWithStatus(ds, {InWarehouse, Shipped})
  }

  /** How many delivered deals the logistics page shows. */
  const DeliveredShown: nat := 10

  /** The logistics page's delivered list: at most ten DELIVERED deals, all of
      them when there are no more than ten. Which ten is not the source's
      choice (most recently updated): timestamps are not modelled, and the ten
      most recently created stand in for them. */
  function DeliveredDeals(ds: seq<Deal>): (ids: seq<DealId>)
    ensures |ids| <= DeliveredShown
    ensures forall id: int :: id in ids ==> 0 <= id < |ds| && ds[id].status == Delivered
    ensures forall i, j :: 0 <= i < j < |ids| ==> ids[i] > ids[j]
    ensures |DealsWithStatus(ds, {Delivered})| <= DeliveredShown ==>
              forall id: int :: 0 <= id < |ds| && ds[id].status == Delivered ==> id in ids
    ensures |ids| == if |DealsWithStatus(ds, {Delivered})| <= DeliveredShown then |DealsWithStatus(ds, {Delivered})|
                     else DeliveredShown
  {
    var all := DealsWithStatus(ds, {Delivered});
    if |all| <= DeliveredShown then all
    else
      var shown := all[..DeliveredShown];
      assert forall id :: id in shown ==> id in all;
      shown
  }

  /** The dashboard's count of deals not DELIVERED and not RETURNED. */
  function ActiveDealsCount(ds: seq<Deal>): (n: nat)
    ensures n <= |ds|
  {
    if ds == [] then 0
    else
      var last := ds[|ds| - 1].status;
      ActiveDealsCount(ds[..|ds| - 1]) + (if last != Delivered && last != Returned then 1 else 0)
  }

  /** Every active deal is on exactly one of the two working pages. */
  lemma {:induction false} ActiveIsProcurementPlusLogistics(ds: seq<Deal>)
    ensures ActiveDealsCount(ds) == |ProcurementDeals(ds)| + |LogisticsDeals(ds)|
    decreases |ds|
  {
    if ds != [] {
      ActiveIsProcurementPlusLogistics(ds[..|ds| - 1]);
    }
  }

  /** The commission invoice page's content. */
  datatype Invoice = Invoice(deal: Deal, commissionAmount: real)

  /** generate_commission_invoice: only a DELIVERED deal has one (otherwise 404). */
  function CommissionInvoice(ds: seq<Deal>, id: DealId): (r: Option<Invoice>)
    ensures r.Some? <==> id < |ds| && ds[id].status == Delivered
    ensures r.Some? ==> r.value.deal == ds[id] && r.value.commissionAmount == CommissionAmount(ds[id])
  {
    if id < |ds| && ds[id].status == Delivered then Some(Invoice(ds[id], CommissionAmount(ds[id])))
    else None
  }

  /** Empty tables, then one partner P added through the add-partner page. */
  method NewPartnerP() returns (db: Records)
    ensures fresh(db) && db.Valid()
    ensures db.partners == [Partner("P", "GST1", "", 0)] && db.deals == []
  {
    db := new Records();
    assert !GstTaken(db.partners, "GST1");
    var o := AddPartner(db, true, "P", "GST1", "");
    assert o == Saved;
  }

  /** Partner P with an advance of 1000.00 and one new deal, invoice attached. */
  method PartnerWithAdvanceAndDeal() returns (db: Records)
    ensures fresh(db) && db.Valid()
    ensures db.partners == [Partner("P", "GST1", "", 100000)]
    ensures db.deals == [NewDeal(0, "").(hasVendorInvoice := true)]
  {
    db := NewPartnerP();
    var o := QuickAdvance(db, true, 0, 100000, true);
    assert o == Saved;
    assert db.partners == [Partner("P", "GST1", "", 100000)];
    o := ProcurementCreateDeal(db, true, 0, "", true, Sourcing);
    assert o == Saved;
  }

  /** Then its cost set to 400.00 (balance 600.00) and corrected to 450.00
      (balance 550.00, which is also the dashboard total). */
  method AdvanceThenCostCorrection() returns (after400: Money, after450: Money, total: Money)
    ensures after400 == 60000 && after450 == 55000 && total == 55000
  {
    var db := PartnerWithAdvanceAndDeal();
    var d0 := NewDeal(0, "").(hasVendorInvoice := true);
    var first := DealUpdate("", Some(40000), false, "", "", Sourcing);
    assert UpdateFormValid(first) && !BookingBlocked(d0, first) && UpdateCharge(d0, first) == 40000;
    var o := UpdateDeal(db, 0, true, first);
    assert o == Saved;
    assert db.partners == [Partner("P", "GST1", "", 60000)];
    after400 := db.partners[0].currentBalance;
    var d1 := d0.(actualCost := Some(40000), costDeducted := true);
    assert db.deals == [d1];
    var second := DealUpdate("", Some(45000), false, "", "", Sourcing);
    assert UpdateFormValid(second) && !BookingBlocked(d1, second) && UpdateCharge(d1, second) == 5000;
    o := UpdateDeal(db, 0, true, second);
    assert o == Saved;
    assert db.partners == [Partner("P", "GST1", "", 55000)];
    after450 := db.partners[0].currentBalance;
    total := TotalBalance(db.partners);
    assert db.partners[..0] == [];
  }
}
