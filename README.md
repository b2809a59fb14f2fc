# Sourcing tracker bookkeeping core, in Dafny

This is a verified model of the bookkeeping engine behind a small sourcing/procurement tracker (a Django application). Partners hold a running `current_balance`. Ledger transactions (advances received, refunds given) and deal costs post to that balance. Deals move through a six-state lifecycle, and their commission and over-budget flag are derived from their own fields.

Money is exact. Every two-decimal `DecimalField` is an `int` of hundredths: 100.00 is `10000`. The commission percentage is also in hundredths: 10.00 % is `1000`. The commission itself is a `real` in hundredths, because the source divides without rounding.

- `models.dfy`, module `Models`: the `Partner`, `Transaction` and `Deal` records, the two enumerations and their stored codes, field defaults, the amount validators, `CommissionAmount` and `IsOverBudget`.
- `signals.dfy`, module `Signals`: the class `Records`, which holds the partner, transaction and deal tables. Its methods are the three signal handlers and the saves that trigger them. Pure functions in the same module state what a deal save posts: `ChargeOnSave`, `StoredAfterSave` and the replay of cost edits. Lemmas about them include the telescoping property.
- `views.dfy`, module `Views`: the request handlers as methods over `Records`, with HTTP stripped away: `UpdateDeal`, `MoveToWarehouse`, `MarkShipped`, `MarkDelivered`, the dashboard's `QuickAdvance`, and the procurement page's deal creation. The page figures are pure functions: the dashboard total, the active-deal count, the procurement, logistics and delivered lists, and the commission invoice.

A deal save is modelled in the source's three steps:

1. The pre-save snapshot of the stored row: `StorePreviousActualCost`.
2. The write of the in-memory instance, all of its fields, with its own `cost_deducted` flag.
3. The post-save handler: `UpdatePartnerBalanceOnDeal`.

The handler chooses its branch from the instance's flag. The first-posting branch sets only the stored flag, so the in-memory flag and the stored snapshot can disagree. `StaleFlagDeductsAgain` shows the cost: a stale copy saved again has its full cost deducted a second time. Every view reloads the deal before saving, so the instance is always fresh. `FreshResaveChargesNothing` then shows that the three status transitions post nothing to any balance.

Tables are sequences indexed by row id. Rows are never deleted in the modelled operations, so ids are dense and a save at id `|table|` is an insert. Foreign keys, GST uniqueness, and "a stored non-zero cost is marked deducted" are kept in `Records.Valid`.

The model follows the code as written, including behaviour one might not expect:

- Editing a transaction neither reverses nor reapplies its effect.
- Commission is not rounded.
- A partner is not protected from deletion. Deletion cascades, and it is not modelled.
- Both "first posting" and "a correction" require a non-zero cost, not just a non-null one.
- `is_over_budget` is false when either cost is zero, not only when one is missing.
- Clearing a posted cost refunds nothing, and a later cost is then deducted in full (`ClearThenRecost`). Telescoping therefore holds only while every cost is non-zero: a cost, a clearing and a second cost subtract both costs (`ClearingBreaksTelescoping`).
- The procurement page's creation form accepts any status, including BOOKED without an invoice. The invoice guard exists only in `update_deal`.

## Model

| member | source | states |
|---|---|---|
| `Models.ParseStatus` | sourcing_tracker/tracker/models.py:76-83 | a stored status code reads back only as the status whose code it is; other strings are refused |
| `Models.StatusCodesRoundTrip` | sourcing_tracker/tracker/models.py:76-83 | each of the six statuses has its own code and reads back as itself |
| `Models.ParseTransactionType` | sourcing_tracker/tracker/models.py:34-37 | a stored type code reads back only as ADVANCE_RECEIVED or REFUND_GIVEN |
| `Models.TransactionTypeCodesRoundTrip` | sourcing_tracker/tracker/models.py:34-37 | the two transaction types have distinct codes and read back as themselves |
| `Models.NewPartner` | sourcing_tracker/tracker/models.py:13-18 | a new partner's balance is 0.00 |
| `Models.NewDeal` | sourcing_tracker/tracker/models.py:90-148 | a new deal defaults to SOURCING, quantity 1, commission 0.00 %, no costs, `cost_deducted` false |
| `Models.CommissionAmount` | sourcing_tracker/tracker/models.py:158-163 | exactly cost × percent / 100 with no rounding when both are non-zero, else 0.00; for a percentage between 0 and 100 the commission lies between 0 and the cost |
| `Models.IsOverBudget` | sourcing_tracker/tracker/models.py:165-170 | true exactly when both costs are set and non-zero and actual > estimated |
| `Models.ValidTransactionAmount` | sourcing_tracker/tracker/models.py:44-48 | a transaction amount is accepted exactly when it is between 0.01 and 9999999999.99 |
| `Models.ZeroEstimateNeverOverBudget` | sourcing_tracker/tracker/models.py:168-170 | a zero estimate never makes a deal over budget |
| `Signals.Effect` | sourcing_tracker/tracker/signals.py:16-19 | a transaction moves its partner's balance by exactly its amount, whatever its sign: up for an advance, down for a refund |
| `Signals.Records.constructor` | sourcing_tracker/tracker/models.py:7-170 | empty tables satisfy the table invariants |
| `Views.AddPartner` | sourcing_tracker/tracker/views.py:43-54 | a non-POST or a GST number already in use changes nothing; otherwise one partner with balance 0.00 is appended; GST numbers stay unique |
| `Signals.Records.UpdatePartnerBalanceOnTransaction` | sourcing_tracker/tracker/signals.py:7-20 | on creation only the owning partner's balance moves, by `Effect`; a re-save changes no balance |
| `Signals.Records.SaveTransaction` | sourcing_tracker/tracker/signals.py:14-20 | an insert stores the row and posts its effect once; an update of an existing row leaves every balance as it was |
| `Signals.Records.CreateTransaction` | sourcing_tracker/tracker/signals.py:14-20 | a new transaction is appended and its partner's balance moves by exactly its signed amount |
| `Signals.Records.StorePreviousActualCost` | sourcing_tracker/tracker/signals.py:23-36 | the snapshot is the stored (actual_cost, cost_deducted) of an existing row, (None, False) for a new one |
| `Signals.Records.UpdatePartnerBalanceOnDeal` | sourcing_tracker/tracker/signals.py:39-63 | only the deal's own partner moves, by `ChargeOnSave`; the stored flag is set by a first posting and nothing else in the row changes; the table invariant is re-established |
| `Signals.Records.SaveDeal` | sourcing_tracker/tracker/signals.py:23-63 | a save is snapshot, write of the instance, then posting against the snapshot of the old table; every other row and balance is kept |
| `Signals.Records.CreateDeal` | sourcing_tracker/tracker/signals.py:34-54 | a new deal is posted against the snapshot (None, False) |
| `Signals.ChargeOnSave` | sourcing_tracker/tracker/signals.py:48-62 | the post-save charge: the full cost on a first posting; after deduction the change against the snapshot's cost, a missing one read as 0, and nothing if the snapshot says nothing was deducted; nothing for a null or zero cost |
| `Signals.StoredAfterSave` | sourcing_tracker/tracker/signals.py:48-54 | the stored row is the instance as written, with the flag set exactly when it was set already or the save is a first posting; a stored non-zero cost is always marked deducted |
| `Signals.PostingRules` | sourcing_tracker/tracker/signals.py:45-62 | first posting subtracts the full cost and sets the flag; after deduction exactly new − previous, a missing previous read as 0; a null or zero cost, an unchanged cost, or an undeducted snapshot subtracts nothing |
| `Signals.StaleFlagDeductsAgain` | sourcing_tracker/tracker/signals.py:48-54 | the branch follows the in-memory flag: a stale instance is charged its full cost again, a fresh one nothing |
| `Signals.FreshResaveChargesNothing` | sourcing_tracker/tracker/signals.py:48-62 | re-saving a freshly loaded, posted row with its cost unchanged subtracts nothing and keeps it posted |
| `Signals.Telescoping` | sourcing_tracker/tracker/signals.py:48-62 | over any non-zero cost edits on reloaded rows, the total subtracted is the latest cost minus what was already deducted, and the row ends posted at the latest cost |
| `Signals.TotalDeductedIsLatestCost` | sourcing_tracker/tracker/signals.py:48-62 | from a never-posted deal, the total subtracted over non-zero edits is the latest cost |
| `Signals.ClearedCostIsNotRefunded` | sourcing_tracker/tracker/signals.py:48-62 | 100.00, then no cost, then 200.00 subtracts 300.00; the flag survives the clearing |
| `Signals.ClearThenRecost` | sourcing_tracker/tracker/signals.py:48-62 | for any posted row, clearing the cost subtracts nothing, and a following non-zero cost c is then subtracted in full, with the row still posted at c |
| `Signals.ClearingBreaksTelescoping` | sourcing_tracker/tracker/signals.py:48-62 | from a never-posted row, costs a, none, b (a, b non-zero) subtract a + b rather than b |
| `Signals.OverBudgetIffChargedAboveEstimate` | sourcing_tracker/tracker/models.py:165-170 | after non-zero cost edits on a never-posted deal with a non-zero estimate, the deal is over budget exactly when its partner was charged more than the estimate |
| `Views.ApplyUpdate` | sourcing_tracker/tracker/views.py:126-134 | the submitted fields replace the stored ones; an upload adds an invoice and no upload keeps the stored one; partner and flag are kept |
| `Views.BookingBlocked` | sourcing_tracker/tracker/views.py:129-132 | an update is refused exactly when the row it would save is BOOKED and has no vendor invoice |
| `Views.UpdateCharge` | sourcing_tracker/tracker/views.py:134 | an update subtracts the full new cost if nothing was deducted, else new minus stored cost, and nothing for a null or zero cost; this is one step of the cost-edit replay |
| `Views.UpdatesTelescope` | sourcing_tracker/tracker/signals.py:48-62 | over any saved updates with non-zero costs, each on the reloaded row, the total subtracted is the latest cost minus what was already deducted, and the row ends posted at the latest cost |
| `Views.UpdateDeal` | sourcing_tracker/tracker/views.py:121-144 | missing deal, non-POST, invalid form, or BOOKED with no stored and no uploaded invoice: nothing changes and the outcome says which; otherwise the update is saved as submitted, with the posting of `UpdateCharge` |
| `Views.MoveToWarehouse` | sourcing_tracker/tracker/views.py:189-202 | without a stored invoice nothing changes; with one the status becomes IN_WAREHOUSE from any status; no balance changes |
| `Views.MarkShipped` | sourcing_tracker/tracker/views.py:205-223 | an empty tracking id changes nothing; otherwise tracking id, courier and SHIPPED are stored; no balance changes |
| `Views.MarkDelivered` | sourcing_tracker/tracker/views.py:166-175 | a POST sets DELIVERED from any status, after which the commission invoice exists; no balance changes |
| `Views.QuickAdvance` | sourcing_tracker/tracker/views.py:23-28 | an unknown partner or an amount below 0.01 or over twelve digits is refused with nothing changed; otherwise an ADVANCE_RECEIVED transaction is added and the partner balance and dashboard total rise by its amount |
| `Views.ProcurementCreateDeal` | sourcing_tracker/tracker/views.py:100-105 | a valid form appends a defaulted deal with the chosen partner, client, invoice and status; no balance changes |
| `Views.TotalBalance` | sourcing_tracker/tracker/views.py:20 | the dashboard total is 0.00 with no partners |
| `Views.TotalBalanceAdjust` | sourcing_tracker/tracker/views.py:20 | moving one partner's balance by d moves the dashboard total by d |
| `Views.NewPartnerKeepsTotal` | sourcing_tracker/tracker/views.py:20 | adding a partner leaves the dashboard total unchanged |
| `Views.DealsWithStatus` | sourcing_tracker/tracker/views.py:94-96 | the listed ids are exactly the deals whose status is wanted, without repeats, in descending id order, which is the newest-first ORM ordering because ids follow creation order |
| `Views.ProcurementDeals` | sourcing_tracker/tracker/views.py:94-96 | the procurement list is exactly the SOURCING and BOOKED deals |
| `Views.LogisticsDeals` | sourcing_tracker/tracker/views.py:151-153 | the logistics list is exactly the IN_WAREHOUSE and SHIPPED deals |
| `Views.DeliveredDeals` | sourcing_tracker/tracker/views.py:155-157 | the delivered list holds at most ten ids, newest first, all of DELIVERED deals, and every DELIVERED deal when there are at most ten |
| `Views.ActiveDealsCount` | sourcing_tracker/tracker/views.py:21 | the count of deals neither DELIVERED nor RETURNED is at most the number of deals |
| `Views.ActiveIsProcurementPlusLogistics` | sourcing_tracker/tracker/views.py:21 | the active count is the procurement list's length plus the logistics list's |
| `Views.CommissionInvoice` | sourcing_tracker/tracker/views.py:178-186 | an invoice exists exactly for a DELIVERED deal and carries that deal and its `CommissionAmount` |
| `Views.NewPartnerP` | sourcing_tracker/tracker/views.py:43-54 | through the handler: adding partner P to empty tables stores it with balance 0.00 |
| `Views.PartnerWithAdvanceAndDeal` | sourcing_tracker/tracker/views.py:23-28 | through the handlers: a new partner with an advance of 1000.00 has balance 1000.00, and a new deal posts nothing |
| `Views.AdvanceThenCostCorrection` | sourcing_tracker/tracker/signals.py:48-62 | through the handlers: setting a cost of 400.00 leaves 600.00, and correcting it to 450.00 leaves 550.00 |

## Left out

- HTTP requests and responses, messages, redirects and their targets. A request is only "POST or not".
- File storage. The vendor invoice and the transaction evidence are booleans: present or not.
- `HistoricalRecords` audit logging, `created_at`/`updated_at` timestamps, transaction dates, and ORM ordering.
- Views.DeliveredDeals: when more than ten deals are delivered, the page shows the ten most recently updated ones. The model shows the ten most recently created instead, because timestamps are not modelled.
- Form field validation beyond what is modelled: required-field checks, rejection of decimals with more than two places (not representable in hundredths), and the partner form's field lengths. Modelled: transaction amount bounds, twelve-digit cost, text lengths of the deal update form, unknown partner, duplicate GST number.
- A `transaction_type` outside the two choices. Only direct ORM writes could store one, and the enumeration cannot represent it. The handler would leave the balance unchanged for it.
- Saving a transaction or deal from outside the views (ORM-level saves) is covered only through `SaveTransaction`/`SaveDeal`. A stale deal instance reaches `SaveDeal` only that way.
- Width of the stored balance (`max_digits=12`): finite-width overflow of `current_balance` is not modelled, because integers are unbounded.
- Deletion of partners, transactions and deals (CASCADE). The source has no delete handlers and no reversal on delete or edit.
- The ledger page (transaction list and its general transaction form). Its save is the same `CreateTransaction`.
- Itemised deals (`DealItem`). The class is imported by the forms but not defined in any model file, so there is no item aggregation to model.
- `fix_templates.py` (writes template files) and `urls.py` (routing).
- Database atomicity and concurrent writers. Every operation is one sequential step, and the partner row a handler updates was loaded earlier in the same request.
- The `hasattr(instance, '_previous_actual_cost')` test is always true, because the pre-save handler always sets it. The snapshot is always present.
