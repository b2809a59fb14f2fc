/** Records of the sourcing tracker: partners, ledger transactions and deals,
    their defaults and enumerations, and the two figures a deal derives from
    its own fields (commission and the over-budget flag).

    Money is exact: every DecimalField with two decimal places is an `int`
    counting hundredths of the currency unit (so 100.00 is 10000). */
module Models {

  /** Hundredths of the currency unit. */
  type Money = int

  datatype Option<T> = None | Some(value: T)

  /** Python truthiness of a nullable decimal: `None` and `0.00` are false. */
  predicate Truthy(m: Option<Money>) {
    m.Some? && m.value != 0
  }

  /** `m or Decimal('0.00')`: a missing (or zero) amount read as zero. */
  function CostOrZero(m: Option<Money>): (r: Money)
    ensures Truthy(m) ==> m == Some(r)
    ensures !Truthy(m) ==> r == 0
  {
    match m
    case None => 0
    case Some(c) => c
  }

  /** The smallest transaction amount, 0.01. */
  const MinTransactionAmount: Money := 1

  /** The largest magnitude of a `max_digits=12, decimal_places=2` field,
      9999999999.99. */
  const MaxTwelveDigitAmount: Money := 999_999_999_999

  /** Whether a value fits a `max_digits=12, decimal_places=2` field. */
  predicate FitsTwelveDigits(v: Money) {
    -MaxTwelveDigitAmount <= v <= MaxTwelveDigitAmount
  }

  /** The amount validators of a transaction: at least 0.01, at most twelve digits. */
  predicate ValidTransactionAmount(amount: Money): (r: bool)
    ensures r <==> 1 <= amount <= 999_999_999_999
  {
    MinTransactionAmount <= amount && FitsTwelveDigits(amount)
  }

  datatype TransactionType = AdvanceReceived | RefundGiven

  datatype Status = Sourcing | Booked | InWarehouse | Shipped | Delivered | Returned

  /** The value stored in the `transaction_type` column. */
  function TransactionTypeCode(t: TransactionType): string {
    match t
    case AdvanceReceived => "ADVANCE_RECEIVED"
    case RefundGiven => "REFUND_GIVEN"
  }

  /** Reads a `transaction_type` column value; anything outside the two choices is refused. */
  function ParseTransactionType(code: string): (r: Option<TransactionType>)
    ensures r.Some? ==> TransactionTypeCode(r.value) == code
  {
    if code == "ADVANCE_RECEIVED" then Some(AdvanceReceived)
    else if code == "REFUND_GIVEN" then Some(RefundGiven)
    else None
  }

  /** The value stored in the `status` column. */
  function StatusCode(s: Status): string {
    match s
    case Sourcing => "SOURCING"
    case Booked => "BOOKED"
    case InWarehouse => "IN_WAREHOUSE"
    case Shipped => "SHIPPED"
    case Delivered => "DELIVERED"
    case Returned => "RETURNED"
  }

  /** Reads a `status` column value; anything outside the six choices is refused. */
  function ParseStatus(code: string): (r: Option<Status>)
    ensures r.Some? ==> StatusCode(r.value) == code
  {
    if code == "SOURCING" then Some(Sourcing)
    else if code == "BOOKED" then Some(Booked)
    else if code == "IN_WAREHOUSE" then Some(InWarehouse)
    else if code == "SHIPPED" then Some(Shipped)
    else if code == "DELIVERED" then Some(Delivered)
    else if code == "RETURNED" then Some(Returned)
    else None
  }

  /** Every status is stored as one of six distinct codes, and reads back as itself. */
  lemma StatusCodesRoundTrip(s: Status, t: Status)
    ensures ParseStatus(StatusCode(s)) == Some(s)
    ensures StatusCode(s) == StatusCode(t) ==> s == t
  {
  }

  /** Both transaction types are stored as distinct codes, and read back as themselves. */
  lemma TransactionTypeCodesRoundTrip(t: TransactionType, u: TransactionType)
    ensures ParseTransactionType(TransactionTypeCode(t)) == Some(t)
    ensures TransactionTypeCode(t) == TransactionTypeCode(u) ==> t == u
  {
  }

  /** A partner company; `gstNumber` is unique across partners (a table constraint,
      see Signals.Records.Valid). */
  datatype Partner = Partner(name: string, gstNumber: string, contactInfo: string, currentBalance: Money)

  /** A money movement; the owning partner is an index into the partner table.
      The evidence file is only "present or not". */
  datatype Transaction = Transaction(
    partner: nat,
    amount: Money,
    transactionType: TransactionType,
    hasEvidence: bool,
    notes: string)

  /** A procurement deal; the owning partner is an index into the partner table.
      `commissionPercent` is in hundredths of a percent (10.00 % is 1000);
      the vendor invoice is only "present or not". */
  datatype Deal = Deal(
    partner: nat,
    itemName: string,
    quantity: nat,
    estimatedCost: Option<Money>,
    actualCost: Option<Money>,
    commissionPercent: Money,
    hasVendorInvoice: bool,
    clientName: string,
    trackingId: string,
    courierPartner: string,
    status: Status,
    costDeducted: bool)

  /** A partner as first stored: the balance starts at 0.00. */
  function NewPartner(name: string, gstNumber: string, contactInfo: string): (p: Partner)
    ensures p.currentBalance == 0
    ensures p.name == name && p.gstNumber == gstNumber && p.contactInfo == contactInfo
  {
    Partner(name, gstNumber, contactInfo, 0)
  }

  /** A deal with every defaulted field at its default: status SOURCING,
      quantity 1, commission 0.00 %, no costs, nothing deducted yet. */
  function NewDeal(partner: nat, itemName: string): (d: Deal)
    ensures d.status == Sourcing && !d.costDeducted && d.commissionPercent == 0
    ensures d.quantity == 1 && d.actualCost == None && d.estimatedCost == None
    ensures !d.hasVendorInvoice && d.trackingId == "" && d.courierPartner == "" && d.clientName == ""
    ensures d.partner == partner && d.itemName == itemName
  {
    Deal(partner, itemName, 1, None, None, 0, false, "", "", "", Sourcing, false)
  }

  /** The commission on a deal, in hundredths of the currency unit:
      actual cost times the percentage over 100, exactly (no rounding),
      or 0.00 when either factor is missing or zero. */
  function CommissionAmount(d: Deal): (r: real)
    ensures Truthy(d.actualCost) && d.commissionPercent != 0 ==>
              r * 10000.0 == (d.actualCost.value * d.commissionPercent) as real
    ensures !(Truthy(d.actualCost) && d.commissionPercent != 0) ==> r == 0.0
    ensures 0 <= CostOrZero(d.actualCost) && 0 <= d.commissionPercent <= 10000 ==>
              0.0 <= r <= CostOrZero(d.actualCost) as real
  {
    if Truthy(d.actualCost) && d.commissionPercent != 0 then
      var c := d.actualCost.value;
      var p := d.commissionPercent;
      (c * p) as real / 10000.0
    else
      0.0
  }

  /** Whether the actual cost exceeds the estimate; false unless both are set
      and non-zero. */
  function IsOverBudget(d: Deal): (r: bool)
    ensures r <==> Truthy(d.actualCost) && Truthy(d.estimatedCost)
                   && d.actualCost.value > d.estimatedCost.value
  {
    if Truthy(d.actualCost) && Truthy(d.estimatedCost) then
      d.actualCost.value > d.estimatedCost.value
    else
      false
  }

  /** A zero estimate counts as "no estimate": such a deal is never over budget,
      whatever its actual cost. */
  lemma ZeroEstimateNeverOverBudget(d: Deal)
    requires d.estimatedCost == Some(0)
    ensures !IsOverBudget(d)
  {
  }
}
