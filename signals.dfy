/** The balance posting rules: the handlers that run when a transaction or a
    deal is saved and keep each partner's `currentBalance` in step with its
    records.

    `Records` is the stored state the handlers read and write: the partner,
    transaction and deal tables. A table is a sequence indexed by the row's
    id; rows are never deleted here, so ids are dense and a save at id
    `|table|` is an insert.

    A deal save is modelled in the source's three steps, each visible:
    the pre-save snapshot of the STORED row, the write of the IN-MEMORY
    instance (all fields, its `costDeducted` flag included), and the
    post-save handler, which branches on the instance's own flag and on the
    snapshot. */
module Signals {
  import opened Models

  type PartnerId = nat
  type TransactionId = nat
  type DealId = nat

  /** What the pre-save handler stashes on the instance:
      `_previous_actual_cost` and `_previous_cost_deducted`. */
  datatype PreSave = PreSave(previousActualCost: Option<Money>, previousCostDeducted: bool)

  /** The signed effect of a transaction on its partner's balance. */
  function Effect(t: Transaction): (e: Money)
    ensures t.transactionType == AdvanceReceived ==> e == t.amount
    ensures t.transactionType == RefundGiven ==> e == -t.amount
    ensures t.amount > 0 ==> (e > 0 <==> t.transactionType == AdvanceReceived)
  {
    match t.transactionType
    case AdvanceReceived => t.amount
    case RefundGiven => -t.amount
  }

  /** The partner table with one balance moved by `delta` and nothing else changed. */
  function Adjust(ps: seq<Partner>, i: PartnerId, delta: Money): (r: seq<Partner>)
    requires i < |ps|
    ensures |r| == |ps|
    ensures r[i].currentBalance == ps[i].currentBalance + delta
    ensures r[i] == ps[i].(currentBalance := r[i].currentBalance)
    ensures forall j :: 0 <= j < |ps| && j != i ==> r[j] == ps[j]
  {
    ps[i := ps[i].(currentBalance := ps[i].currentBalance + delta)]
  }

  /** The snapshot the pre-save handler takes: the stored cost and flag of an
      existing row, or (None, False) for a row not yet stored. */
  function SnapshotOf(deals: seq<Deal>, id: DealId): PreSave {
    if id < |deals| then PreSave(deals[id].actualCost, deals[id].costDeducted)
    else PreSave(None, false)
  }

  /** The first-posting branch: a non-zero cost on an instance whose own flag is false. */
  predicate FirstPosting(inst: Deal) {
    Truthy(inst.actualCost) && !inst.costDeducted
  }

  /** The amount the post-save handler subtracts from the deal's partner. */
  function ChargeOnSave(inst: Deal, snap: PreSave): (c: Money)
    // first posting: the full cost
    ensures FirstPosting(inst) ==> c == inst.actualCost.value
    // already deducted: the change against the snapshot's cost (a missing one
    // read as 0), but only when the snapshot says it was deducted
    ensures Truthy(inst.actualCost) && inst.costDeducted ==>
              c == (if snap.previousCostDeducted then inst.actualCost.value - CostOrZero(snap.previousActualCost) else 0)
    // a null or zero cost posts nothing
    ensures !Truthy(inst.actualCost) ==> c == 0
  {
    if FirstPosting(inst) then
      inst.actualCost.value
    else if Truthy(inst.actualCost) then
      var previous := CostOrZero(snap.previousActualCost);
      if snap.previousCostDeducted && inst.actualCost.value != previous then
        inst.actualCost.value - previous
      else
        0
    else
      0
  }

  /** The stored row after the save: the instance as written, with the flag
      set by the first-posting branch. */
  function StoredAfterSave(inst: Deal): (r: Deal)
    ensures r == inst.(costDeducted := r.costDeducted)
    ensures r.costDeducted <==> inst.costDeducted || FirstPosting(inst)
    ensures CostPosted(r)
  {
    if FirstPosting(inst) then inst.(costDeducted := true) else inst
  }

  /** A stored deal whose non-zero cost has been posted. */
  predicate CostPosted(d: Deal) {
    Truthy(d.actualCost) ==> d.costDeducted
  }

  predicate GstUnique(ps: seq<Partner>) {
    forall i, j :: 0 <= i < j < |ps| ==> ps[i].gstNumber != ps[j].gstNumber
  }

  predicate GstTaken(ps: seq<Partner>, gst: string) {
    exists i :: 0 <= i < |ps| && ps[i].gstNumber == gst
  }

  /** The posting rules case by case. */
  lemma PostingRules(inst: Deal, snap: PreSave)
    // first posting: the full cost, and the stored flag becomes true; nothing else changes
    ensures FirstPosting(inst) ==>
              ChargeOnSave(inst, snap) == inst.actualCost.value
              && StoredAfterSave(inst) == inst.(costDeducted := true)
    // correction after deduction: exactly new - previous, a missing previous read as 0
    ensures Truthy(inst.actualCost) && inst.costDeducted && snap.previousCostDeducted ==>
              ChargeOnSave(inst, snap) == inst.actualCost.value - CostOrZero(snap.previousActualCost)
    // a null or zero cost posts nothing and leaves the flag as the instance had it
    ensures !Truthy(inst.actualCost) ==> ChargeOnSave(inst, snap) == 0 && StoredAfterSave(inst) == inst
    // an unchanged cost, or a snapshot that says nothing was deducted, posts nothing
    ensures inst.costDeducted && (!snap.previousCostDeducted || inst.actualCost == snap.previousActualCost) ==>
              ChargeOnSave(inst, snap) == 0
    ensures inst.costDeducted ==> StoredAfterSave(inst) == inst
  {
  }

  /** The branch taken depends on the IN-MEMORY flag: an instance that still
      says `costDeducted == false` (a stale copy saved again) has its full cost
      deducted again, although the stored snapshot says it was already posted. */
  lemma StaleFlagDeductsAgain(inst: Deal, snap: PreSave)
    requires Truthy(inst.actualCost) && !inst.costDeducted
    requires snap == PreSave(inst.actualCost, true)
    ensures ChargeOnSave(inst, snap) == inst.actualCost.value
    ensures ChargeOnSave(inst.(costDeducted := true), snap) == 0
  {
  }

  /** Saving a freshly loaded row again without changing its cost posts nothing. */
  lemma FreshResaveChargesNothing(stored: Deal, inst: Deal)
    requires CostPosted(stored)
    requires inst.actualCost == stored.actualCost && inst.costDeducted == stored.costDeducted
    ensures ChargeOnSave(inst, PreSave(stored.actualCost, stored.costDeducted)) == 0
    ensures CostPosted(StoredAfterSave(inst))
  {
  }

  /** The row a view saves when it reloads `stored` and changes only its cost. */
  function CostEdit(stored: Deal, cost: Option<Money>): Deal {
    stored.(actualCost := cost)
  }

  /** Replays a sequence of cost edits, each on a freshly loaded row:
      the final stored row and the total subtracted from the partner. */
  function ReplayCostEdits(stored: Deal, costs: seq<Option<Money>>): (Deal, Money)
    decreases |costs|
  {
    if costs == [] then (stored, 0)
    else
      var inst := CostEdit(stored, costs[0]);
      var charge := ChargeOnSave(inst, PreSave(stored.actualCost, stored.costDeducted));
      var rest := ReplayCostEdits(StoredAfterSave(inst), costs[1..]);
      (rest.0, charge + rest.1)
  }

  predicate AllCharged(costs: seq<Option<Money>>) {
    forall i :: 0 <= i < |costs| ==> Truthy(costs[i])
  }

  /** Telescoping: over any non-empty sequence of non-zero cost edits on
      freshly loaded rows, the total subtracted is the latest cost less what
      was already deducted before the first edit; the row ends posted at the
      latest cost. */
  lemma {:induction false} Telescoping(stored: Deal, costs: seq<Option<Money>>)
    requires |costs| > 0 && AllCharged(costs)
    ensures ReplayCostEdits(stored, costs).1
              == costs[|costs| - 1].value - (if stored.costDeducted then CostOrZero(stored.actualCost) else 0)
    ensures ReplayCostEdits(stored, costs).0
              == stored.(actualCost := costs[|costs| - 1], costDeducted := true)
    decreases |costs|
  {
    var inst := CostEdit(stored, costs[0]);
    var next := StoredAfterSave(inst);
    assert next == stored.(actualCost := costs[0], costDeducted := true);
    if |costs| > 1 {
      Telescoping(next, costs[1..]);
      assert costs[1..][|costs[1..]| - 1] == costs[|costs| - 1];
    }
  }

  /** A deal never posted before: after its first non-zero cost and any later
      non-zero edits, the total subtracted equals the latest cost. */
  lemma TotalDeductedIsLatestCost(stored: Deal, costs: seq<Option<Money>>)
    requires !stored.costDeducted
    requires |costs| > 0 && AllCharged(costs)
    ensures ReplayCostEdits(stored, costs).1 == costs[|costs| - 1].value
  {
    Telescoping(stored, costs);
  }

  /** Clearing the cost after it was posted refunds nothing and keeps the
      flag, so a later cost is deducted in full on top: 100.00, then none,
      then 200.00 subtracts 300.00 in all. */
  lemma ClearedCostIsNotRefunded(stored: Deal)
    requires stored.actualCost == None && !stored.costDeducted
    ensures ReplayCostEdits(stored, [Some(10000), None, Some(20000)]).1 == 30000
    ensures ReplayCostEdits(stored, [Some(10000), None]).0.costDeducted
  {
  }

  /** Clearing a posted cost refunds nothing, and the next non-zero cost is
      then deducted in full: the snapshot of the cleared row reads its
      previous cost as 0. */
  lemma ClearThenRecost(stored: Deal, c: Money)
    requires stored.costDeducted && c != 0
    ensures ReplayCostEdits(stored, [None]).1 == 0
    ensures ReplayCostEdits(stored, [None, Some(c)]).1 == c
    ensures ReplayCostEdits(stored, [None, Some(c)]).0 == stored.(actualCost := Some(c))
  {
    var cleared := StoredAfterSave(CostEdit(stored, None));
    assert cleared == stored.(actualCost := None);
    assert [None, Some(c)][1..] == [Some(c)];
    assert ReplayCostEdits(cleared, [Some(c)]).1 == c;
    assert [Some(c)][1..] == [];
    assert ReplayCostEdits(cleared, [Some(c)]).0 == StoredAfterSave(CostEdit(cleared, Some(c)));
  }

  /** Where telescoping breaks: on a never-posted row, a cost, a clearing and
      a second cost subtract both costs, not just the latest. */
  lemma ClearingBreaksTelescoping(stored: Deal, a: Money, b: Money)
    requires !stored.costDeducted && a != 0 && b != 0
    ensures ReplayCostEdits(stored, [Some(a), None, Some(b)]).1 == a + b
    ensures ReplayCostEdits(stored, [Some(a), None, Some(b)]).0.costDeducted
  {
    var posted := StoredAfterSave(CostEdit(stored, Some(a)));
    assert posted == stored.(actualCost := Some(a), costDeducted := true);
    assert [Some(a), None, Some(b)][1..] == [None, Some(b)];
    ClearThenRecost(posted, b);
  }

  /** The over-budget flag and the ledger agree: after a never-posted deal's
      non-zero cost edits, the deal is over budget exactly when its partner
      was charged more than the (non-zero) estimate. */
  lemma OverBudgetIffChargedAboveEstimate(stored: Deal, costs: seq<Option<Money>>)
    requires !stored.costDeducted && Truthy(stored.estimatedCost)
    requires |costs| > 0 && AllCharged(costs)
    ensures IsOverBudget(ReplayCostEdits(stored, costs).0)
            <==> ReplayCostEdits(stored, costs).1 > stored.estimatedCost.value
  {
    Telescoping(stored, costs);
  }

  /** The stored partner, transaction and deal tables. */
  class Records {
    var partners: seq<Partner>
    var transactions: seq<Transaction>
    var deals: seq<Deal>

    /** Foreign keys resolve and GST numbers are unique. */
    ghost predicate Linked()
      reads this
    {
      && (forall k :: 0 <= k < |transactions| ==> transactions[k].partner < |partners|)
      && (forall k :: 0 <= k < |deals| ==> deals[k].partner < |partners|)
      && GstUnique(partners)
    }

    /** Between operations, also: every stored deal with a non-zero cost is marked deducted. */
    ghost predicate Valid()
      reads this
    {
      Linked() && forall k :: 0 <= k < |deals| ==> CostPosted(deals[k])
    }

    constructor ()
      ensures Valid()
      ensures partners == [] && transactions == [] && deals == []
    {
      partners, transactions, deals := [], [], [];
    }

    /** post_save of a transaction: a created ADVANCE_RECEIVED adds its
        amount, a created REFUND_GIVEN subtracts it; a re-save changes nothing. */
    method UpdatePartnerBalanceOnTransaction(t: Transaction, created: bool)
      requires t.partner < |partners|
      modifies this`partners
      ensures created ==> partners == Adjust(old(partners), t.partner, Effect(t))
      ensures !created ==> partners == old(partners)
    {
      if created {
        var p := partners[t.partner];
        match t.transactionType
        case AdvanceReceived =>
          partners := partners[t.partner := p.(currentBalance := p.currentBalance + t.amount)];
        case RefundGiven =>
          partners := partners[t.partner := p.(currentBalance := p.currentBalance - t.amount)];
      }
    }

    /** Saves a transaction row at `id` (an insert when `id` is the next id)
        and runs its post-save handler. */
    method SaveTransaction(id: TransactionId, t: Transaction)
      requires Valid()
      requires id <= |transactions| && t.partner < |partners|
      modifies this`partners, this`transactions
      ensures Valid()
      ensures transactions == if id == |old(transactions)| then old(transactions) + [t]
                              else old(transactions)[id := t]
      ensures id == |old(transactions)| ==> partners == Adjust(old(partners), t.partner, Effect(t))
      ensures id < |old(transactions)| ==> partners == old(partners)
    {
      var created := id == |transactions|;
      if created {
        transactions := transactions + [t];
      } else {
        transactions := transactions[id := t];
      }
      UpdatePartnerBalanceOnTransaction(t, created);
    }

    /** Inserts a new transaction and posts it. */
    method CreateTransaction(t: Transaction) returns (id: TransactionId)
      requires Valid()
      requires t.partner < |partners|
      modifies this`partners, this`transactions
      ensures Valid()
      ensures id == |old(transactions)| && transactions == old(transactions) + [t]
      ensures partners == Adjust(old(partners), t.partner, Effect(t))
    {
      id := |transactions|;
      SaveTransaction(id, t);
    }

    /** pre_save of a deal: the stored (actual_cost, cost_deducted) of an
        existing row, (None, False) for a new one. */
    method StorePreviousActualCost(id: DealId) returns (snap: PreSave)
      ensures id < |deals| ==> snap == PreSave(deals[id].actualCost, deals[id].costDeducted)
      ensures |deals| <= id ==> snap == PreSave(None, false)
      ensures snap == SnapshotOf(deals, id)
    {
      if id < |deals| {
        var stored := deals[id];
        snap := PreSave(stored.actualCost, stored.costDeducted);
      } else {
        snap := PreSave(None, false);
      }
    }

    /** post_save of a deal, run just after the instance `inst` was written
        at `id`: the first posting subtracts the full cost and sets the STORED
        flag (the instance keeps its own); a later save subtracts only the
        change against the snapshot. Only the deal's own partner changes. */
    method UpdatePartnerBalanceOnDeal(id: DealId, inst: Deal, snap: PreSave)
      requires Linked() && id < |deals| && deals[id] == inst
      requires forall k :: 0 <= k < |deals| && k != id ==> CostPosted(deals[k])
      modifies this`partners, this`deals
      ensures Valid()
      ensures partners == Adjust(old(partners), inst.partner, -ChargeOnSave(inst, snap))
      ensures deals == old(deals)[id := StoredAfterSave(inst)]
    {
      var p := partners[inst.partner];
      if Truthy(inst.actualCost) && !inst.costDeducted {
        partners := partners[inst.partner := p.(currentBalance := p.currentBalance - inst.actualCost.value)];
        deals := deals[id := deals[id].(costDeducted := true)];
      } else if Truthy(inst.actualCost) {
        var previous := CostOrZero(snap.previousActualCost);
        if snap.previousCostDeducted && inst.actualCost.value != previous {
          var difference := inst.actualCost.value - previous;
          partners := partners[inst.partner := p.(currentBalance := p.currentBalance - difference)];
        }
      }
    }

    /** `deal.save()` of the in-memory instance `inst` at `id` (an insert
        when `id` is the next id): snapshot, write, post-save posting. */
    method SaveDeal(id: DealId, inst: Deal)
      requires Valid()
      requires id <= |deals| && inst.partner < |partners|
      modifies this`partners, this`deals
      ensures Valid()
      ensures deals == if id == |old(deals)| then old(deals) + [StoredAfterSave(inst)]
                       else old(deals)[id := StoredAfterSave(inst)]
      ensures partners == Adjust(old(partners), inst.partner, -ChargeOnSave(inst, SnapshotOf(old(deals), id)))
    {
      var snap := StorePreviousActualCost(id);
      if id == |deals| {
        deals := deals + [inst];
      } else {
        deals := deals[id := inst];
      }
      UpdatePartnerBalanceOnDeal(id, inst, snap);
    }

    /** Inserts a new deal: its snapshot is (None, False). */
    method CreateDeal(inst: Deal) returns (id: DealId)
      requires Valid()
      requires inst.partner < |partners|
      modifies this`partners, this`deals
      ensures Valid()
      ensures id == |old(deals)| && deals == old(deals) + [StoredAfterSave(inst)]
      ensures partners == Adjust(old(partners), inst.partner, -ChargeOnSave(inst, PreSave(None, false)))
    {
      id := |deals|;
      SaveDeal(id, inst);
    }
  }
}
