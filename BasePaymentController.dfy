/**
 * The common parameter check of the payment controllers
 * (BasePaymentController.java). Its component validators are the same
 * guard checks as PaymentValidationService.java and are shared with that
 * model.
 */
module BasePayment {
  import opened Common
  import opened PaymentValidation

  /**
   * validatePaymentParameters: amount, then order information, then order
   * id, then the return URL; the first failure is the one reported.
   */
  function ValidatePaymentParameters(amount: int, orderInfo: Option<string>, orderId: Option<string>,
                                     returnUrl: Option<string>): (r: Result<(), string>)
    ensures r.Ok? <==> amount > 0 && !Blank(orderInfo) && |orderInfo.value| <= MaxOrderInfo
                        && !Blank(orderId) && !Blank(returnUrl) && HttpUrl(returnUrl.value)
    ensures ValidateAmount(amount).Err? ==> r == ValidateAmount(amount)
    ensures ValidateAmount(amount).Ok? && ValidateOrderInfo(orderInfo).Err? ==> r == ValidateOrderInfo(orderInfo)
    ensures (ValidateAmount(amount).Ok? && ValidateOrderInfo(orderInfo).Ok? && ValidateOrderId(orderId).Err?)
            ==> r == ValidateOrderId(orderId)
    ensures (ValidateAmount(amount).Ok? && ValidateOrderInfo(orderInfo).Ok? && ValidateOrderId(orderId).Ok?)
            ==> r == ValidateUrl(returnUrl, "Return URL")
  {
    if ValidateAmount(amount).Err? then ValidateAmount(amount)
    else if ValidateOrderInfo(orderInfo).Err? then ValidateOrderInfo(orderInfo)
    else if ValidateOrderId(orderId).Err? then ValidateOrderId(orderId)
    else ValidateUrl(returnUrl, "Return URL")
  }
}
