/**
 * Order ("hoá đơn") and payment rules of the back-office order service:
 * the payment-status transition table, the payment status derived from the
 * amount paid, order totals, validation of payment additions and of mixed
 * payments, and the order-status changes made when a payment is confirmed or
 * an order is cancelled.  Amounts are exact VND values (`int`).
 */
module HoaDon {
  import opened Common

  datatype OrderStatus =
    | CHO_XAC_NHAN | DA_XAC_NHAN | DANG_XU_LY | DANG_GIAO_HANG | DA_GIAO_HANG | HOAN_THANH | DA_HUY

  datatype PaymentStatus =
    | CHUA_THANH_TOAN | THANH_TOAN_MOT_PHAN | DA_THANH_TOAN | THANH_TOAN_LOI
    | CHO_XU_LY_HOAN_TIEN | DA_HOAN_TIEN

  datatype PaymentMethod = TIEN_MAT | VNPAY | MOMO

  datatype OrderType = ONLINE | TAI_QUAY

  // =====================================================================
  // Payment methods by name (`PhuongThucThanhToan.valueOf`)
  // =====================================================================

  function MethodName(m: PaymentMethod): string
  {
    match m
    case TIEN_MAT => "TIEN_MAT"
    case VNPAY => "VNPAY"
    case MOMO => "MOMO"
  }

  /** `valueOf`: the method with exactly this name, if any. */
  function ParseMethod(s: string): (r: Option<PaymentMethod>)
    ensures r.Some? ==> MethodName(r.value) == s
    ensures (forall m :: MethodName(m) != s) ==> r.None?
  {
    if s == "TIEN_MAT" then Some(TIEN_MAT)
    else if s == "VNPAY" then Some(VNPAY)
    else if s == "MOMO" then Some(MOMO)
    else None
  }

  lemma ParseMethodName(m: PaymentMethod)
    ensures ParseMethod(MethodName(m)) == Some(m)
  {
  }

  // =====================================================================
  // Payment-status transitions (validatePaymentStatusTransition)
  // =====================================================================

  function AllowedPaymentTargets(from: PaymentStatus): set<PaymentStatus>
  {
    match from
    case CHUA_THANH_TOAN => {THANH_TOAN_MOT_PHAN, DA_THANH_TOAN, THANH_TOAN_LOI}
    case THANH_TOAN_MOT_PHAN => {DA_THANH_TOAN, THANH_TOAN_LOI, CHUA_THANH_TOAN}
    case DA_THANH_TOAN => {CHO_XU_LY_HOAN_TIEN, DA_HOAN_TIEN}
    case THANH_TOAN_LOI => {CHUA_THANH_TOAN, THANH_TOAN_MOT_PHAN, DA_THANH_TOAN}
    case CHO_XU_LY_HOAN_TIEN => {DA_HOAN_TIEN, DA_THANH_TOAN}
    case DA_HOAN_TIEN => {}
  }

  predicate CanTransitionPayment(from: PaymentStatus, to: PaymentStatus)
  {
    to in AllowedPaymentTargets(from)
  }

  /** The check throws exactly when the target is not allowed from the source. */
  function ValidatePaymentStatusTransition(from: PaymentStatus, to: PaymentStatus): (r: Result<(), PaymentStatus>)
    ensures r.Ok? <==> CanTransitionPayment(from, to)
    ensures from == DA_HOAN_TIEN ==> r.Err?
    ensures from == to ==> r.Err?
  {
    if to in AllowedPaymentTargets(from) then Ok(()) else Err(from)
  }

  lemma UnpaidTargets(to: PaymentStatus)
    ensures CanTransitionPayment(CHUA_THANH_TOAN, to)
        <==> to == THANH_TOAN_MOT_PHAN || to == DA_THANH_TOAN || to == THANH_TOAN_LOI
  {
  }

  lemma PaidTargets(to: PaymentStatus)
    ensures CanTransitionPayment(DA_THANH_TOAN, to) <==> to == CHO_XU_LY_HOAN_TIEN || to == DA_HOAN_TIEN
  {
  }

  /** A sequence of statuses each reachable from the previous by one allowed change. */
  predicate IsPaymentPath(p: seq<PaymentStatus>)
  {
    |p| >= 1 && forall i :: 0 <= i < |p| - 1 ==> CanTransitionPayment(p[i], p[i + 1])
  }

  /** Paid, awaiting refund and refunded: the statuses after full payment. */
  predicate IsSettled(s: PaymentStatus)
  {
    s == DA_THANH_TOAN || s == CHO_XU_LY_HOAN_TIEN || s == DA_HOAN_TIEN
  }

  /** Once an order is fully paid no sequence of changes makes it unpaid again. */
  lemma {:induction false} SettledStaysSettled(p: seq<PaymentStatus>, k: nat)
    requires IsPaymentPath(p) && IsSettled(p[0]) && k < |p|
    ensures IsSettled(p[k])
  {
    if k > 0 {
      SettledStaysSettled(p, k - 1);
      assert CanTransitionPayment(p[k - 1], p[k]);
    }
  }

  /** A refunded order is final: a path with a second step never starts from it. */
  lemma RefundedIsFinal(p: seq<PaymentStatus>)
    requires IsPaymentPath(p) && |p| > 1
    ensures p[0] != DA_HOAN_TIEN
  {
    assert CanTransitionPayment(p[0], p[1]);
  }

  /** Every payment status can still reach the refunded state. */
  lemma RefundReachable(s: PaymentStatus)
    ensures exists p :: IsPaymentPath(p) && p[0] == s && p[|p| - 1] == DA_HOAN_TIEN
  {
    var p := match s
      case DA_HOAN_TIEN => [s]
      case DA_THANH_TOAN => [s, DA_HOAN_TIEN]
      case CHO_XU_LY_HOAN_TIEN => [s, DA_HOAN_TIEN]
      case _ => [s, DA_THANH_TOAN, DA_HOAN_TIEN];
    assert IsPaymentPath(p);
  }

  /** What `handlePaymentStatusChange` does to inventory for a status change. */
  datatype InventoryEffect = ConfirmSale | ReleaseForRefund | KeepReserved | NoInventoryChange

  function InventoryEffectOf(oldStatus: PaymentStatus, newStatus: PaymentStatus): (e: InventoryEffect)
    ensures e == ConfirmSale <==>
      (oldStatus == CHUA_THANH_TOAN || oldStatus == THANH_TOAN_MOT_PHAN) && newStatus == DA_THANH_TOAN
    ensures e == ReleaseForRefund <==> newStatus == DA_HOAN_TIEN
    ensures e == KeepReserved <==> newStatus == THANH_TOAN_MOT_PHAN
  {
    if (oldStatus == CHUA_THANH_TOAN || oldStatus == THANH_TOAN_MOT_PHAN) && newStatus == DA_THANH_TOAN then
      ConfirmSale
    else if newStatus == DA_HOAN_TIEN then ReleaseForRefund
    else if newStatus == THANH_TOAN_MOT_PHAN then KeepReserved
    else NoInventoryChange
  }

  // =====================================================================
  // Payment status derived from the amount paid (updateOrderPaymentStatus)
  // =====================================================================

  function StatusForPaid(paid: int, total: int): (r: PaymentStatus)
    ensures r == CHUA_THANH_TOAN <==> paid == 0
    ensures r == DA_THANH_TOAN <==> paid != 0 && paid >= total
    ensures r == THANH_TOAN_MOT_PHAN <==> paid != 0 && paid < total
  {
    if paid == 0 then CHUA_THANH_TOAN
    else if paid >= total then DA_THANH_TOAN
    else THANH_TOAN_MOT_PHAN
  }

  function PaidRank(s: PaymentStatus): nat
  {
    match s
    case CHUA_THANH_TOAN => 0
    case THANH_TOAN_MOT_PHAN => 1
    case _ => 2
  }

  /** Paying more never moves an order back (for non-negative amounts). */
  lemma StatusForPaidMonotone(p1: int, p2: int, total: int)
    requires 0 <= p1 <= p2
    ensures PaidRank(StatusForPaid(p1, total)) <= PaidRank(StatusForPaid(p2, total))
  {
  }

  // =====================================================================
  // Totals (recalculateOrderTotals)
  // =====================================================================

  function OrZero(x: Option<int>): int { if x.Some? then x.value else 0 }

  /** `max(0, goods + shipping - discount)` with a missing fee or discount read as 0. */
  function PayableTotal(goods: int, shipping: Option<int>, discount: Option<int>): (r: int)
    ensures r >= 0
    ensures r >= goods + OrZero(shipping) - OrZero(discount)
    ensures r == 0 || r == goods + OrZero(shipping) - OrZero(discount)
  {
    Max(0, goods + OrZero(shipping) - OrZero(discount))
  }

  /** A larger voucher discount never raises the amount to pay. */
  lemma PayableTotalAntitone(goods: int, shipping: Option<int>, d1: int, d2: int)
    requires d1 <= d2
    ensures PayableTotal(goods, shipping, Some(d2)) <= PayableTotal(goods, shipping, Some(d1))
  {
  }

  datatype LineItem = LineItem(variantId: int, quantity: int, lineTotal: int)

  function LineTotals(items: seq<LineItem>): (r: seq<int>)
    ensures |r| == |items| && forall i :: 0 <= i < |items| ==> r[i] == items[i].lineTotal
  {
    if items == [] then [] else [items[0].lineTotal] + LineTotals(items[1..])
  }

  /** The loop of recalculateOrderTotals: the line totals added up one by one. */
  method SumLineTotals(lines: seq<LineItem>) returns (sum: int)
    ensures sum == Sum(LineTotals(lines))
  {
    sum := 0;
    var i := 0;
    ghost var totals := LineTotals(lines);
    while i < |lines|
      invariant 0 <= i <= |lines| == |totals|
      invariant sum == Sum(totals[..i])
    {
      assert totals[..i + 1][..i] == totals[..i];
      sum := sum + lines[i].lineTotal;
      i := i + 1;
    }
    assert totals[..i] == totals;
  }

  // =====================================================================
  // Payment additions (validatePaymentAddition)
  // =====================================================================

  datatype PaymentError =
    | OrderFullyPaid | OrderRefunded | NonPositiveAmount | NegativeInTransaction | ExceedsTotal

  /**
   * Validation of one payment of `amount` on an order with status `status`,
   * total `total`, `dbPaid` already recorded and `inTransaction` (null read as 0)
   * paid earlier in the same transaction.
   */
  function ValidatePaymentAddition(status: PaymentStatus, total: int, dbPaid: int, amount: int,
                                   inTransaction: Option<int>): (r: Result<(), PaymentError>)
    ensures r.Ok? <==>
      status != DA_THANH_TOAN && status != DA_HOAN_TIEN && amount > 0 && OrZero(inTransaction) >= 0
      && dbPaid + OrZero(inTransaction) + amount <= total
    ensures status == DA_THANH_TOAN ==> r == Err(OrderFullyPaid)
    ensures status == DA_HOAN_TIEN ==> r == Err(OrderRefunded)
    ensures status != DA_THANH_TOAN && status != DA_HOAN_TIEN && amount <= 0 ==> r == Err(NonPositiveAmount)
  {
    if status == DA_THANH_TOAN then Err(OrderFullyPaid)
    else if status == DA_HOAN_TIEN then Err(OrderRefunded)
    else if amount <= 0 then Err(NonPositiveAmount)
    else
      var cumulative := OrZero(inTransaction);
      if cumulative < 0 then Err(NegativeInTransaction)
      else if dbPaid + cumulative + amount > total then Err(ExceedsTotal)
      else Ok(())
  }

  // =====================================================================
  // Status on confirmation and creation
  // =====================================================================

  /** The order status `confirmPaymentInternal` assigns after a confirmed payment. */
  function ConfirmedOrderStatus(payMethod: PaymentMethod, orderType: OrderType): (r: OrderStatus)
    ensures orderType == TAI_QUAY <==> r == HOAN_THANH
    ensures orderType == ONLINE && payMethod == TIEN_MAT ==> r == DA_GIAO_HANG
    ensures orderType == ONLINE && payMethod != TIEN_MAT ==> r == DANG_XU_LY
  {
    if orderType == TAI_QUAY then HOAN_THANH
    else if payMethod == TIEN_MAT then DA_GIAO_HANG
    else DANG_XU_LY
  }

  datatype ConfirmError = AlreadyPaid | OrderCancelled | CashNeedsDeliveryAddress

  /** validatePaymentConfirmation followed by validatePaymentMethodForConfirmation. */
  function ConfirmationError(paymentStatus: PaymentStatus, status: OrderStatus, orderType: OrderType,
                             hasDeliveryAddress: bool, payMethod: PaymentMethod): (r: Option<ConfirmError>)
    ensures r.None? <==> (paymentStatus != DA_THANH_TOAN && status != DA_HUY
      && !(payMethod == TIEN_MAT && orderType == ONLINE && !hasDeliveryAddress))
    ensures paymentStatus == DA_THANH_TOAN ==> r == Some(AlreadyPaid)
  {
    if paymentStatus == DA_THANH_TOAN then Some(AlreadyPaid)
    else if status == DA_HUY then Some(OrderCancelled)
    else if payMethod == TIEN_MAT && orderType == ONLINE && !hasDeliveryAddress then Some(CashNeedsDeliveryAddress)
    else None
  }

  /** `determinePaymentStatusFromMethod(PhuongThucThanhToan)`: only cash is paid on creation. */
  function PaymentStatusFromMethod(payMethod: Option<PaymentMethod>): (r: PaymentStatus)
    ensures r == DA_THANH_TOAN <==> payMethod == Some(TIEN_MAT)
    ensures r == DA_THANH_TOAN || r == CHUA_THANH_TOAN
  {
    match payMethod
    case None => CHUA_THANH_TOAN
    case Some(m) => if m == TIEN_MAT then DA_THANH_TOAN else CHUA_THANH_TOAN
  }

  /** `determinePaymentStatusFromMethod(String)`: "MIXED" and unknown names are unpaid. */
  function PaymentStatusFromMethodName(name: Option<string>): (r: PaymentStatus)
    ensures r == DA_THANH_TOAN <==> name == Some("TIEN_MAT")
    ensures r == DA_THANH_TOAN || r == CHUA_THANH_TOAN
  {
    match name
    case None => CHUA_THANH_TOAN
    case Some(s) => if s == "MIXED" then CHUA_THANH_TOAN else PaymentStatusFromMethod(ParseMethod(s))
  }

  /** The creation request fields `setOrderStatus` reads. */
  datatype CreateRequest = CreateRequest(
    isMixedPayment: bool,
    payMethod: Option<PaymentMethod>,
    requestedStatus: Option<OrderStatus>,
    requestedPaymentStatus: Option<PaymentStatus>)

  datatype InitialStatus = InitialStatus(orderType: OrderType, status: OrderStatus, paymentStatus: PaymentStatus)

  datatype CreateError = MissingPaymentMethod

  /**
   * The type and statuses `setOrderStatus` (with `setTaiQuayOrderStatus`) gives a
   * new order whose entity carries `orderType` and `currentStatus` (both possibly
   * null) and whose delivery address is present iff `hasDeliveryAddress`.
   */
  function SetOrderStatus(req: CreateRequest, orderType: Option<OrderType>, currentStatus: Option<OrderStatus>,
                          hasDeliveryAddress: bool): (r: Result<InitialStatus, CreateError>)
    ensures r.Err? <==> !req.isMixedPayment && req.payMethod.None?
    ensures r.Ok? ==> r.value.orderType == (if orderType.Some? then orderType.value else ONLINE)
    ensures r.Ok? && req.requestedStatus.Some? ==> r.value.status == req.requestedStatus.value
    ensures r.Ok? && req.requestedStatus.None? && currentStatus.None? ==>
      r.value.status == (if r.value.orderType == TAI_QUAY && hasDeliveryAddress then DA_XAC_NHAN else CHO_XAC_NHAN)
    ensures r.Ok? && req.requestedPaymentStatus.None? ==>
      (r.value.paymentStatus == DA_THANH_TOAN <==> !req.isMixedPayment && req.payMethod == Some(TIEN_MAT))
  {
    var t := if orderType.Some? then orderType.value else ONLINE;
    if !req.isMixedPayment && req.payMethod.None? then Err(MissingPaymentMethod)
    else
      var s :=
        if req.requestedStatus.Some? then req.requestedStatus.value
        else if currentStatus.Some? then currentStatus.value
        else if t == TAI_QUAY then (if hasDeliveryAddress then DA_XAC_NHAN else CHO_XAC_NHAN)
        else CHO_XAC_NHAN;
      var ps :=
        if req.requestedPaymentStatus.Some? then req.requestedPaymentStatus.value
        else if req.isMixedPayment then CHUA_THANH_TOAN
        else PaymentStatusFromMethod(req.payMethod);
      Ok(InitialStatus(t, s, ps))
  }

  // =====================================================================
  // Order line validation (validateOrderItemDto)
  // =====================================================================

  datatype ItemRequest = ItemRequest(variantId: Option<int>, quantity: Option<int>, price: Option<int>)

  datatype ItemError = MissingItem | MissingVariant | NonPositiveQuantity | QuantityOver1000 | NegativePrice | PriceOverLimit

  const MaxItemQuantity := 1000
  const MaxItemPrice := 1000000000

  function ValidateOrderItem(item: Option<ItemRequest>): (r: Option<ItemError>)
    ensures r.None? <==>
      item.Some? && item.value.variantId.Some? && item.value.quantity.Some?
      && 1 <= item.value.quantity.value <= MaxItemQuantity
      && (item.value.price.Some? ==> 0 <= item.value.price.value <= MaxItemPrice)
    ensures item.Some? && item.value.variantId.None? ==> r == Some(MissingVariant)
  {
    match item
    case None => Some(MissingItem)
    case Some(it) =>
      if it.variantId.None? then Some(MissingVariant)
      else if it.quantity.None? || it.quantity.value <= 0 then Some(NonPositiveQuantity)
      else if it.quantity.value > MaxItemQuantity then Some(QuantityOver1000)
      else if it.price.Some? && it.price.value < 0 then Some(NegativePrice)
      else if it.price.Some? && it.price.value > MaxItemPrice then Some(PriceOverLimit)
      else None
  }

  // =====================================================================
  // Mixed-payment configuration (validateMixedPaymentConfiguration)
  // =====================================================================

  /** A JSON value as received in a request body. */
  datatype JsonValue = JNull | JString(str: string) | JNumber(num: int) | JOther

  type PaymentEntry = map<string, JsonValue>

  datatype MixedConfigError =
    | NoPayments | TooFewMethods | TooManyMethods
    | MissingMethodOrAmount(index: nat) | MethodNotString(index: nat) | BlankMethod(index: nat)
    | UnsupportedMethod(index: nat) | DuplicateMethod(index: nat)
    | InvalidAmount(index: nat) | NonPositiveEntryAmount(index: nat)
    | MixedTotalMismatch

  predicate IsSupportedMethodName(s: string) { s == "TIEN_MAT" || s == "VNPAY" || s == "MOMO" }

  /** The error for entry `e` at 1-based position `index`, given the methods used before it. */
  function EntryError(e: PaymentEntry, used: set<string>, index: nat): Option<MixedConfigError>
  {
    if "method" !in e || "amount" !in e then Some(MissingMethodOrAmount(index))
    else if !(e["method"].JString? || e["method"].JNull?) then Some(MethodNotString(index))
    else if e["method"].JNull? || JavaTrimEmpty(e["method"].str) then Some(BlankMethod(index))
    else if !IsSupportedMethodName(e["method"].str) then Some(UnsupportedMethod(index))
    else if e["method"].str in used then Some(DuplicateMethod(index))
    else if !e["amount"].JNumber? then Some(InvalidAmount(index))
    else if e["amount"].num <= 0 then Some(NonPositiveEntryAmount(index))
    else None
  }

  /** Entries from position `i` on, given the methods used and the amount summed so far. */
  function CheckEntries(es: seq<PaymentEntry>, i: nat, used: set<string>, acc: int): Result<int, MixedConfigError>
    requires i <= |es|
    decreases |es| - i
  {
    if i == |es| then Ok(acc)
    else
      var err := EntryError(es[i], used, i + 1);
      if err.Some? then Err(err.value)
      else CheckEntries(es, i + 1, used + {es[i]["method"].str}, acc + es[i]["amount"].num)
  }

  /** The whole check: count bounds, each entry in order, then the total. */
  function MixedConfigurationError(es: seq<PaymentEntry>, total: Option<int>): Option<MixedConfigError>
  {
    if |es| == 0 then Some(NoPayments)
    else if |es| < 2 then Some(TooFewMethods)
    else if |es| > 3 then Some(TooManyMethods)
    else match CheckEntries(es, 0, {}, 0)
      case Err(e) => Some(e)
      case Ok(sum) => if total.Some? && sum != total.value then Some(MixedTotalMismatch) else None
  }

  predicate WellFormedEntry(e: PaymentEntry)
  {
    "method" in e && "amount" in e && e["method"].JString? && IsSupportedMethodName(e["method"].str)
    && e["amount"].JNumber? && e["amount"].num > 0
  }

  function EntryMethod(e: PaymentEntry): string
    requires WellFormedEntry(e)
  {
    e["method"].str
  }

  /** The sum of the amounts of entries `i..` of a well-formed list. */
  function AmountsFrom(es: seq<PaymentEntry>, i: nat): int
    requires i <= |es| && forall k :: 0 <= k < |es| ==> WellFormedEntry(es[k])
    decreases |es| - i
  {
    if i == |es| then 0
    else assert WellFormedEntry(es[i]); es[i]["amount"].num + AmountsFrom(es, i + 1)
  }

  predicate DistinctMethodsFrom(es: seq<PaymentEntry>, i: nat)
    requires i <= |es| && forall k :: 0 <= k < |es| ==> WellFormedEntry(es[k])
  {
    forall a, b :: i <= a < b < |es| ==> EntryMethod(es[a]) != EntryMethod(es[b])
  }

  /** Entries `i..` are well formed, avoid `used` and use pairwise distinct methods. */
  predicate ValidFrom(es: seq<PaymentEntry>, i: nat, used: set<string>)
    requires i <= |es|
  {
    (forall k :: i <= k < |es| ==> WellFormedEntry(es[k]) && EntryMethod(es[k]) !in used)
    && (forall a, b :: i <= a < b < |es| ==>
          WellFormedEntry(es[a]) && WellFormedEntry(es[b]) && EntryMethod(es[a]) != EntryMethod(es[b]))
  }

  lemma EntryErrorNone(e: PaymentEntry, used: set<string>, index: nat)
    ensures EntryError(e, used, index).None? <==> WellFormedEntry(e) && EntryMethod(e) !in used
  {
    if "method" in e && e["method"].JString? && IsSupportedMethodName(e["method"].str) {
      assert !IsJavaTrimmed(e["method"].str[0]);
    }
  }

  lemma ValidFromStep(es: seq<PaymentEntry>, i: nat, used: set<string>)
    requires i < |es|
    ensures ValidFrom(es, i, used) <==>
      WellFormedEntry(es[i]) && EntryMethod(es[i]) !in used && ValidFrom(es, i + 1, used + {EntryMethod(es[i])})
  {
    if WellFormedEntry(es[i]) && EntryMethod(es[i]) !in used && ValidFrom(es, i + 1, used + {EntryMethod(es[i])}) {
      forall a, b | i <= a < b < |es|
        ensures WellFormedEntry(es[a]) && WellFormedEntry(es[b]) && EntryMethod(es[a]) != EntryMethod(es[b])
      {
        if a == i {
          assert EntryMethod(es[b]) !in used + {EntryMethod(es[i])};
        }
      }
    }
  }

  lemma CheckEntriesUnfold(es: seq<PaymentEntry>, i: nat, used: set<string>, acc: int)
    requires i < |es|
    ensures EntryError(es[i], used, i + 1).Some? ==> CheckEntries(es, i, used, acc) == Err(EntryError(es[i], used, i + 1).value)
    ensures EntryError(es[i], used, i + 1).None? ==>
      WellFormedEntry(es[i]) && EntryMethod(es[i]) !in used &&
      CheckEntries(es, i, used, acc) == CheckEntries(es, i + 1, used + {EntryMethod(es[i])}, acc + es[i]["amount"].num)
  {
    EntryErrorNone(es[i], used, i + 1);
  }

  /** Entries from `i` pass exactly when they are well formed and use fresh, distinct methods. */
  lemma {:induction false} CheckEntriesOk(es: seq<PaymentEntry>, i: nat, used: set<string>, acc: int)
    requires i <= |es|
    ensures CheckEntries(es, i, used, acc).Ok? <==> ValidFrom(es, i, used)
    decreases |es| - i
  {
    if i < |es| {
      CheckEntriesUnfold(es, i, used, acc);
      ValidFromStep(es, i, used);
      EntryErrorNone(es[i], used, i + 1);
      if EntryError(es[i], used, i + 1).None? {
        CheckEntriesOk(es, i + 1, used + {EntryMethod(es[i])}, acc + es[i]["amount"].num);
      }
    }
  }

  /** On success the check's running sum is the sum of all amounts from `i` on. */
  lemma {:induction false} CheckEntriesSum(es: seq<PaymentEntry>, i: nat, used: set<string>, acc: int)
    requires i <= |es| && forall k :: 0 <= k < |es| ==> WellFormedEntry(es[k])
    requires CheckEntries(es, i, used, acc).Ok?
    ensures CheckEntries(es, i, used, acc).value == acc + AmountsFrom(es, i)
    decreases |es| - i
  {
    if i < |es| {
      CheckEntriesUnfold(es, i, used, acc);
      var next := CheckEntries(es, i + 1, used + {EntryMethod(es[i])}, acc + es[i]["amount"].num);
      assert next == CheckEntries(es, i, used, acc);
      CheckEntriesSum(es, i + 1, used + {EntryMethod(es[i])}, acc + es[i]["amount"].num);
    }
  }

  /**
   * The mixed-payment configuration is accepted exactly when it has 2 or 3
   * well-formed entries with pairwise distinct supported methods and positive
   * amounts whose sum matches the order total when that is given.
   */
  lemma MixedConfigurationValid(es: seq<PaymentEntry>, total: Option<int>)
    ensures MixedConfigurationError(es, total).None? <==>
      2 <= |es| <= 3
      && (forall k :: 0 <= k < |es| ==> WellFormedEntry(es[k]))
      && DistinctMethodsFrom(es, 0)
      && (total.Some? ==> AmountsFrom(es, 0) == total.value)
  {
    CheckEntriesOk(es, 0, {}, 0);
    if CheckEntries(es, 0, {}, 0).Ok? {
      CheckEntriesSum(es, 0, {}, 0);
    }
    if 2 <= |es| <= 3 && (forall k :: 0 <= k < |es| ==> WellFormedEntry(es[k])) && DistinctMethodsFrom(es, 0) {
      assert ValidFrom(es, 0, {});
      CheckEntriesSum(es, 0, {}, 0);
    }
  }

  /** The loop of `validateMixedPaymentConfiguration`, tracking used methods and the running sum. */
  method ValidateMixedPaymentConfiguration(es: seq<PaymentEntry>, total: Option<int>)
    returns (err: Option<MixedConfigError>)
    ensures err == MixedConfigurationError(es, total)
  {
    if |es| == 0 { return Some(NoPayments); }
    if |es| < 2 { return Some(TooFewMethods); }
    if |es| > 3 { return Some(TooManyMethods); }
    var sum := 0;
    var used: set<string> := {};
    var i := 0;
    while i < |es|
      invariant 0 <= i <= |es|
      invariant CheckEntries(es, 0, {}, 0) == CheckEntries(es, i, used, sum)
    {
      CheckEntriesUnfold(es, i, used, sum);
      var e := EntryError(es[i], used, i + 1);
      if e.Some? {
        assert CheckEntries(es, 0, {}, 0) == Err(e.value);
        return e;
      }
      used := used + {es[i]["method"].str};
      sum := sum + es[i]["amount"].num;
      i := i + 1;
    }
    if total.Some? && sum != total.value {
      return Some(MixedTotalMismatch);
    }
    return None;
  }

  // =====================================================================
  // Mixed-payment processing (processMixedPayment)
  // =====================================================================

  datatype PaymentComponent = PaymentComponent(payMethod: PaymentMethod, amount: int)

  datatype MixedError =
    | MixedOrderPaid | MixedOrderRefunded | MixedSumMismatch
    | ComponentFailed(position: nat, cause: PaymentError)

  datatype MixedOutcome = MixedOutcome(gatewayRedirects: nat, finalStatus: PaymentStatus)

  function Amounts(cs: seq<PaymentComponent>): (r: seq<int>)
    ensures |r| == |cs| && forall i :: 0 <= i < |cs| ==> r[i] == cs[i].amount
  {
    if cs == [] then [] else [cs[0].amount] + Amounts(cs[1..])
  }

  /** State of the sequential run: amount recorded, payment status, running sum. */
  datatype RunState = RunState(paid: int, status: PaymentStatus, cumulative: int, redirects: nat)

  /**
   * Components `i..` processed in order. Cash is recorded through the
   * payment-addition path (which re-derives the status); VNPay and MoMo
   * produce a gateway redirect. Every component adds to the running sum.
   */
  function RunComponents(cs: seq<PaymentComponent>, i: nat, total: int, st: RunState): Result<RunState, MixedError>
    requires i <= |cs|
    decreases |cs| - i
  {
    if i == |cs| then Ok(st)
    else
      var c := cs[i];
      if c.payMethod == TIEN_MAT then
        match ValidatePaymentAddition(st.status, total, st.paid, c.amount, Some(st.cumulative))
        case Err(e) => Err(ComponentFailed(i + 1, e))
        case Ok(_) =>
          var paid := st.paid + c.amount;
          RunComponents(cs, i + 1, total, RunState(paid, StatusForPaid(paid, total), st.cumulative + c.amount, st.redirects))
      else
        RunComponents(cs, i + 1, total, RunState(st.paid, st.status, st.cumulative + c.amount, st.redirects + 1))
  }

  function CashCount(cs: seq<PaymentComponent>, i: nat): nat
    requires i <= |cs|
    decreases |cs| - i
  {
    if i == |cs| then 0 else (if cs[i].payMethod == TIEN_MAT then 1 else 0) + CashCount(cs, i + 1)
  }

  function CashFrom(cs: seq<PaymentComponent>, i: nat): int
    requires i <= |cs|
    decreases |cs| - i
  {
    if i == |cs| then 0 else (if cs[i].payMethod == TIEN_MAT then cs[i].amount else 0) + CashFrom(cs, i + 1)
  }

  function SumFrom(cs: seq<PaymentComponent>, i: nat): int
    requires i <= |cs|
    decreases |cs| - i
  {
    if i == |cs| then 0 else cs[i].amount + SumFrom(cs, i + 1)
  }

  lemma {:induction false} SumFromAmounts(cs: seq<PaymentComponent>, i: nat)
    requires i <= |cs|
    ensures SumFrom(cs, i) + Sum(Amounts(cs)[..i]) == Sum(Amounts(cs))
    decreases |cs| - i
  {
    var a := Amounts(cs);
    if i == |cs| {
      assert a[..i] == a;
    } else {
      SumFromAmounts(cs, i + 1);
      assert a[..i + 1][..i] == a[..i];
      assert Sum(a[..i + 1]) == Sum(a[..i]) + a[i];
    }
  }

  /**
   * With at most one cash component, positive amounts and nothing recorded
   * before it, the run succeeds whenever the components sum to the total:
   * the cash component's validation sees exactly the amounts before it.
   */
  lemma {:induction false} RunSucceeds(cs: seq<PaymentComponent>, i: nat, total: int, st: RunState)
    requires i <= |cs|
    requires forall k :: i <= k < |cs| ==> cs[k].amount > 0
    requires CashCount(cs, i) <= 1
    requires st.status != DA_THANH_TOAN && st.status != DA_HOAN_TIEN
    requires CashCount(cs, i) == 1 ==> st.paid == 0
    requires st.cumulative >= 0 && st.cumulative + SumFrom(cs, i) == total
    ensures RunComponents(cs, i, total, st).Ok?
    ensures RunComponents(cs, i, total, st).value.paid == st.paid + CashFrom(cs, i)
    ensures RunComponents(cs, i, total, st).value.redirects == st.redirects + (|cs| - i) - CashCount(cs, i)
    decreases |cs| - i
  {
    if i < |cs| {
      PositiveSumFrom(cs, i + 1);
      var c := cs[i];
      if c.payMethod == TIEN_MAT {
        assert CashCount(cs, i + 1) == 0;
        NoCashFrom(cs, i + 1);
        var paid := st.paid + c.amount;
        assert paid < total || SumFrom(cs, i + 1) == 0;
        var next := RunState(paid, StatusForPaid(paid, total), st.cumulative + c.amount, st.redirects);
        if next.status == DA_THANH_TOAN {
          // Only possible when the cash component is the last one.
          assert SumFrom(cs, i + 1) == 0;
          ZeroSumFromIsEnd(cs, i + 1);
        } else {
          RunSucceeds(cs, i + 1, total, next);
        }
      } else {
        RunSucceeds(cs, i + 1, total, RunState(st.paid, st.status, st.cumulative + c.amount, st.redirects + 1));
      }
    }
  }

  lemma {:induction false} PositiveSumFrom(cs: seq<PaymentComponent>, i: nat)
    requires i <= |cs|
    requires forall k :: i <= k < |cs| ==> cs[k].amount > 0
    ensures SumFrom(cs, i) >= 0
    ensures SumFrom(cs, i) == 0 ==> i == |cs|
    decreases |cs| - i
  {
    if i < |cs| { PositiveSumFrom(cs, i + 1); }
  }

  lemma ZeroSumFromIsEnd(cs: seq<PaymentComponent>, i: nat)
    requires i <= |cs|
    requires forall k :: i <= k < |cs| ==> cs[k].amount > 0
    requires SumFrom(cs, i) == 0
    ensures i == |cs|
  {
    PositiveSumFrom(cs, i);
  }

  lemma {:induction false} NoCashFrom(cs: seq<PaymentComponent>, i: nat)
    requires i <= |cs| && CashCount(cs, i) == 0
    ensures CashFrom(cs, i) == 0
    decreases |cs| - i
  {
    if i < |cs| { NoCashFrom(cs, i + 1); }
  }

  // =====================================================================
  // The order entity
  // =====================================================================

  class Order {
    var orderType: OrderType
    var status: OrderStatus
    var paymentStatus: PaymentStatus
    var hasDeliveryAddress: bool
    var items: seq<LineItem>
    var shippingFee: Option<int>
    var voucherDiscount: Option<int>
    var goodsTotal: int
    var grandTotal: int
    /** Sum of the payments recorded against this order. */
    var paid: int
    var voucherIds: seq<int>

    constructor (orderType: OrderType, status: OrderStatus, paymentStatus: PaymentStatus, hasDeliveryAddress: bool,
                 items: seq<LineItem>, shippingFee: Option<int>, voucherDiscount: Option<int>, voucherIds: seq<int>)
      ensures this.orderType == orderType && this.status == status && this.paymentStatus == paymentStatus
      ensures this.hasDeliveryAddress == hasDeliveryAddress && this.items == items
      ensures this.shippingFee == shippingFee && this.voucherDiscount == voucherDiscount
      ensures this.voucherIds == voucherIds && this.paid == 0
      ensures goodsTotal == 0 && grandTotal == 0
    {
      this.orderType := orderType;
      this.status := status;
      this.paymentStatus := paymentStatus;
      this.hasDeliveryAddress := hasDeliveryAddress;
      this.items := items;
      this.shippingFee := shippingFee;
      this.voucherDiscount := voucherDiscount;
      this.voucherIds := voucherIds;
      this.paid := 0;
      this.goodsTotal := 0;
      this.grandTotal := 0;
    }

    /** recalculateOrderTotals: goods total is the sum of line totals; grand total never negative. */
    method RecalculateTotals()
      modifies this`goodsTotal, this`grandTotal
      ensures goodsTotal == Sum(LineTotals(items))
      ensures grandTotal == PayableTotal(goodsTotal, shippingFee, voucherDiscount)
      ensures grandTotal >= 0
    {
      var sum := SumLineTotals(items);
      goodsTotal := sum;
      var ship := if shippingFee.Some? then shippingFee.value else 0;
      var discount := if voucherDiscount.Some? then voucherDiscount.value else 0;
      grandTotal := Max(0, sum + ship - discount);
    }

    /**
     * updateOrderPaymentStatus: re-derive the status from the amount paid; the
     * order is saved, and the inventory consequence applied, only on a change.
     */
    method UpdatePaymentStatus() returns (saved: bool, effect: InventoryEffect)
      modifies this`paymentStatus
      ensures paymentStatus == StatusForPaid(paid, grandTotal)
      ensures saved <==> old(paymentStatus) != paymentStatus
      ensures effect == if saved then InventoryEffectOf(old(paymentStatus), paymentStatus) else NoInventoryChange
    {
      var oldStatus := paymentStatus;
      var newStatus := StatusForPaid(paid, grandTotal);
      saved := oldStatus != newStatus;
      effect := NoInventoryChange;
      if saved {
        paymentStatus := newStatus;
        effect := InventoryEffectOf(oldStatus, newStatus);
      }
    }

    /** addPaymentToOrder: validate, record the payment, re-derive the status. */
    method AddPayment(amount: int, inTransaction: Option<int>) returns (r: Result<(), PaymentError>)
      modifies this`paid, this`paymentStatus
      ensures r == ValidatePaymentAddition(old(paymentStatus), grandTotal, old(paid), amount, inTransaction)
      ensures r.Ok? ==> paid == old(paid) + amount && paymentStatus == StatusForPaid(paid, grandTotal)
      ensures r.Err? ==> paid == old(paid) && paymentStatus == old(paymentStatus)
      ensures r.Ok? && old(paid) >= 0 ==> 0 < paid <= grandTotal
    {
      r := ValidatePaymentAddition(paymentStatus, grandTotal, paid, amount, inTransaction);
      if r.Ok? {
        paid := paid + amount;
        var _, _ := UpdatePaymentStatus();
      }
    }

    /**
     * processMixedPayment: reject paid or refunded orders and component sums
     * that differ from the total, then process the components in order with a
     * running sum. A failing component rolls the whole transaction back.
     */
    method ProcessMixedPayment(cs: seq<PaymentComponent>) returns (r: Result<MixedOutcome, MixedError>)
      modifies this`paid, this`paymentStatus
      ensures old(paymentStatus) == DA_THANH_TOAN ==> r == Err(MixedOrderPaid)
      ensures old(paymentStatus) == DA_HOAN_TIEN ==> r == Err(MixedOrderRefunded)
      ensures old(paymentStatus) != DA_THANH_TOAN && old(paymentStatus) != DA_HOAN_TIEN ==>
        (Sum(Amounts(cs)) != grandTotal ==> r == Err(MixedSumMismatch))
      ensures r.Err? ==> paid == old(paid) && paymentStatus == old(paymentStatus)
      ensures old(paymentStatus) != DA_THANH_TOAN && old(paymentStatus) != DA_HOAN_TIEN && Sum(Amounts(cs)) == grandTotal ==>
        var run := RunComponents(cs, 0, grandTotal, RunState(old(paid), old(paymentStatus), 0, 0));
        (r.Ok? <==> run.Ok?) && (run.Err? ==> r == Err(run.error))
      ensures r.Ok? ==>
        var run := RunComponents(cs, 0, grandTotal, RunState(old(paid), old(paymentStatus), 0, 0));
        run.Ok? && paid == run.value.paid && paymentStatus == StatusForPaid(paid, grandTotal)
        && r.value == MixedOutcome(run.value.redirects, paymentStatus)
    {
      if paymentStatus == DA_THANH_TOAN { return Err(MixedOrderPaid); }
      if paymentStatus == DA_HOAN_TIEN { return Err(MixedOrderRefunded); }
      var amounts := Amounts(cs);
      if Sum(amounts) != grandTotal { return Err(MixedSumMismatch); }
      var paid0, status0 := paid, paymentStatus;
      ghost var start := RunState(paid0, status0, 0, 0);
      var cumulative := 0;
      var redirects := 0;
      var i := 0;
      while i < |cs|
        invariant 0 <= i <= |cs|
        invariant RunComponents(cs, 0, grandTotal, start)
               == RunComponents(cs, i, grandTotal, RunState(paid, paymentStatus, cumulative, redirects))
      {
        var c := cs[i];
        if c.payMethod == TIEN_MAT {
          var added := AddPayment(c.amount, Some(cumulative));
          if added.Err? {
            // The transaction is rolled back.
            paid, paymentStatus := paid0, status0;
            return Err(ComponentFailed(i + 1, added.error));
          }
        } else {
          redirects := redirects + 1;
        }
        cumulative := cumulative + c.amount;
        i := i + 1;
      }
      var _, _ := UpdatePaymentStatus();
      r := Ok(MixedOutcome(redirects, paymentStatus));
    }

    /**
     * confirmPaymentInternal: after the confirmation checks the order is paid and
     * its status depends on the method and the order type.
     */
    method ConfirmPayment(payMethod: PaymentMethod) returns (r: Result<(), ConfirmError>)
      modifies this`status, this`paymentStatus
      ensures var e := ConfirmationError(old(paymentStatus), old(status), orderType, hasDeliveryAddress, payMethod);
        if e.Some? then r == Err(e.value) && status == old(status) && paymentStatus == old(paymentStatus)
        else r.Ok? && paymentStatus == DA_THANH_TOAN && status == ConfirmedOrderStatus(payMethod, orderType)
    {
      var e := ConfirmationError(paymentStatus, status, orderType, hasDeliveryAddress, payMethod);
      if e.Some? { return Err(e.value); }
      paymentStatus := DA_THANH_TOAN;
      if payMethod == TIEN_MAT {
        status := if orderType == TAI_QUAY then HOAN_THANH else DA_GIAO_HANG;
      } else if payMethod == VNPAY {
        status := if orderType == TAI_QUAY then HOAN_THANH else DANG_XU_LY;
      } else {
        status := if orderType == TAI_QUAY then HOAN_THANH else DANG_XU_LY;
      }
      r := Ok(());
    }

    /** cancelOrderInternal: only orders awaiting confirmation can be cancelled. */
    method Cancel() returns (r: Result<(), OrderStatus>)
      modifies this`status, this`voucherIds
      ensures old(status) != CHO_XAC_NHAN ==> r == Err(old(status)) && status == old(status) && voucherIds == old(voucherIds)
      ensures old(status) == CHO_XAC_NHAN ==> r.Ok? && status == DA_HUY && voucherIds == []
    {
      if status != CHO_XAC_NHAN {
        return Err(status);
      }
      voucherIds := [];
      status := DA_HUY;
      r := Ok(());
    }
  }
}
