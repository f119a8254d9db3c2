/**
 * The customer-side payment-method rules (usePaymentValidation.js): the
 * fixed table of three methods, which of them a channel and an amount
 * allow, the errors reported for a chosen method, the lookup by value,
 * and the high-value cash check.
 *
 * Amounts are whole VND. The currency formatter (`Intl.NumberFormat`) is a
 * parameter.
 */
module PaymentMethodValidation {
  import opened Common

  /** One row of the method table: the fields the rules read. */
  datatype MethodInfo = MethodInfo(value: string, displayName: string, allowedChannels: seq<string>, minimumAmount: int)

  const TienMat := MethodInfo("TIEN_MAT", "Tiền mặt", ["TAI_QUAY", "ONLINE"], 0)
  const VnPay := MethodInfo("VNPAY", "VNPay", ["ONLINE", "TAI_QUAY"], 10000)
  const MoMo := MethodInfo("MOMO", "MoMo", ["ONLINE", "TAI_QUAY"], 0)

  /** `paymentMethods`, in table order. */
  const Methods: seq<MethodInfo> := [TienMat, VnPay, MoMo]

  /** The context object's fields, with their destructuring defaults (0 and false). */
  datatype Context = Context(amount: Option<int>, isDelivery: Option<bool>)

  function AmountOf(c: Context): int { if c.amount.Some? then c.amount.value else 0 }
  function IsDeliveryOf(c: Context): bool { c.isDelivery.Some? && c.isDelivery.value }

  /** The filter of `getAvailablePaymentMethods`: the channel is allowed and the amount reaches the minimum. */
  predicate Allowed(m: MethodInfo, orderType: string, amount: int)
  {
    orderType in m.allowedChannels && amount >= m.minimumAmount
  }

  /** The entries of `methods` that pass the filter, in order. */
  function FilterAllowed(methods: seq<MethodInfo>, orderType: string, amount: int): (r: seq<MethodInfo>)
    ensures |r| <= |methods|
    ensures forall m :: m in r <==> m in methods && Allowed(m, orderType, amount)
  {
    if methods == [] then []
    else
      var rest := FilterAllowed(methods[1..], orderType, amount);
      assert methods == [methods[0]] + methods[1..];
      if Allowed(methods[0], orderType, amount) then [methods[0]] + rest else rest
  }

  /** getAvailablePaymentMethods: the methods the channel allows whose minimum the amount reaches. */
  function GetAvailablePaymentMethods(orderType: string, context: Context): (r: seq<MethodInfo>)
    ensures forall m :: m in r <==> m in Methods && Allowed(m, orderType, AmountOf(context))
  {
    FilterAllowed(Methods, orderType, AmountOf(context))
  }

  /** getPaymentMethod: the table row with that value, or null. */
  function GetPaymentMethod(value: string): (r: Option<MethodInfo>)
    ensures r.Some? <==> value in {"TIEN_MAT", "VNPAY", "MOMO"}
    ensures r.Some? ==> r.value in Methods && r.value.value == value
  {
    if value == "TIEN_MAT" then Some(TienMat)
    else if value == "VNPAY" then Some(VnPay)
    else if value == "MOMO" then Some(MoMo)
    else None
  }

  /** Looking a row up by its own value finds that row. */
  lemma LookupOwnValue(m: MethodInfo)
    requires m in Methods
    ensures GetPaymentMethod(m.value) == Some(m)
  {
  }

  /** The result object of `validatePaymentMethod`. */
  datatype MethodValidation = MethodValidation(isValid: bool, errors: seq<string>, warnings: seq<string>, chosen: Option<MethodInfo>)

  const UnknownMethodMessage := "Phương thức thanh toán không hợp lệ"
  const CashDeliveryMessage := "Thanh toán tiền mặt cho đơn hàng online chỉ áp dụng cho đơn hàng giao tận nơi"

  function ChannelMessage(m: MethodInfo, orderType: string): string
  {
    m.displayName + " không được hỗ trợ cho loại đơn hàng " + (if orderType == "ONLINE" then "trực tuyến" else "tại quầy")
  }

  function MinimumMessage(m: MethodInfo, formatCurrency: int -> string): string
  {
    "Số tiền tối thiểu cho " + m.displayName + " là " + formatCurrency(m.minimumAmount)
  }

  /** The business rule: cash on an online order needs delivery. */
  predicate CashWithoutDelivery(paymentMethod: string, orderType: string, isDelivery: bool)
  {
    paymentMethod == "TIEN_MAT" && orderType == "ONLINE" && !isDelivery
  }

  /**
   * validatePaymentMethod: an unknown method is invalid with that single
   * error; otherwise the channel, minimum-amount and cash-delivery checks
   * each add their error in that order, and the result is valid iff none
   * did. No warning is ever produced.
   */
  function ValidatePaymentMethod(paymentMethod: string, orderType: string, context: Context,
                                 formatCurrency: int -> string): (r: MethodValidation)
    ensures GetPaymentMethod(paymentMethod).None? ==>
      r == MethodValidation(false, [UnknownMethodMessage], [], None)
    ensures r.isValid <==> r.errors == []
    ensures r.warnings == []
    ensures |r.errors| <= 3
    ensures GetPaymentMethod(paymentMethod).Some? ==>
      r.chosen == GetPaymentMethod(paymentMethod)
      && (r.isValid <==>
            Allowed(r.chosen.value, orderType, AmountOf(context))
            && !CashWithoutDelivery(paymentMethod, orderType, IsDeliveryOf(context)))
    ensures CashWithoutDelivery(paymentMethod, orderType, IsDeliveryOf(context)) ==>
      r.errors[|r.errors| - 1] == CashDeliveryMessage
  {
    var found := GetPaymentMethod(paymentMethod);
    if found.None? then MethodValidation(false, [UnknownMethodMessage], [], None)
    else
      var m := found.value;
      var amount := AmountOf(context);
      var e1 := if orderType !in m.allowedChannels then [ChannelMessage(m, orderType)] else [];
      var e2 := if amount < m.minimumAmount then [MinimumMessage(m, formatCurrency)] else [];
      var e3 := if CashWithoutDelivery(paymentMethod, orderType, IsDeliveryOf(context)) then [CashDeliveryMessage] else [];
      var errors := e1 + e2 + e3;
      MethodValidation(errors == [], errors, [], Some(m))
  }

  /**
   * A table method is offered for a channel and amount exactly when
   * validating it for a delivery order with that amount finds no error.
   */
  lemma AvailableIffValidForDelivery(m: MethodInfo, orderType: string, amount: int, formatCurrency: int -> string)
    requires m in Methods
    ensures m in GetAvailablePaymentMethods(orderType, Context(Some(amount), None))
        <==> ValidatePaymentMethod(m.value, orderType, Context(Some(amount), Some(true)), formatCurrency).isValid
  {
    LookupOwnValue(m);
  }

  /** Cash is offered for an online order even when it is not delivered, yet choosing it then is an error. */
  lemma CashOfferedButRejectedWithoutDelivery(amount: int, formatCurrency: int -> string)
    requires amount >= 0
    ensures TienMat in GetAvailablePaymentMethods("ONLINE", Context(Some(amount), None))
    ensures !ValidatePaymentMethod("TIEN_MAT", "ONLINE", Context(Some(amount), Some(false)), formatCurrency).isValid
  {
  }

  /** VNPay is never offered, and never valid, below 10,000 VND. */
  lemma VnPayMinimum(orderType: string, amount: int, formatCurrency: int -> string)
    requires amount < 10000
    ensures VnPay !in GetAvailablePaymentMethods(orderType, Context(Some(amount), None))
    ensures !ValidatePaymentMethod("VNPAY", orderType, Context(Some(amount), Some(true)), formatCurrency).isValid
  {
  }

  /**
   * requiresAdditionalVerification: only cash above 15,000,000 VND needs
   * it (the 20,000,000 VND rule before it is covered by this one).
   */
  function RequiresAdditionalVerification(paymentMethod: string, amount: int): (r: bool)
    ensures r <==> paymentMethod == "TIEN_MAT" && amount > 15000000
  {
    var found := GetPaymentMethod(paymentMethod);
    if found.None? then false
    else if paymentMethod == "TIEN_MAT" && amount > 20000000 then true
    else if paymentMethod == "TIEN_MAT" && amount > 15000000 then true
    else false
  }
}
