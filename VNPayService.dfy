/**
 * The VNPay payment flow (VNPayService.java): checks on the arguments of a
 * new payment, the signed payment URL, the decision taken on the gateway's
 * return call (1 paid, 0 failed, -1 rejected) and on its server-to-server
 * notification.
 *
 * Request parameters are a map from name to value. The clock enters as
 * `expiredAt`, which says whether an expiry date fails to parse or lies in
 * the past; the HMAC digest as `mac`; random digits as the values drawn.
 */
module VnPayService {
  import opened Common
  import opened StringSort
  import opened UrlEncoding
  import opened VnPayConfig
  import PaymentValidation

  // ------------------------------------------------------ argument checks

  /** The parameter name the return-URL messages start with. */
  const ReturnUrl := "Return URL"

  /** validateCreateOrderParameters: amount, order information, return URL, first failure reported. */
  function ValidateCreateOrderParameters(total: int, orderInfo: Option<string>, urlReturn: Option<string>)
    : (r: Result<(), string>)
    ensures r.Ok? <==> total > 0 && !PaymentValidation.Blank(orderInfo) && |orderInfo.value| <= 255
                        && !PaymentValidation.Blank(urlReturn) && PaymentValidation.HttpUrl(urlReturn.value)
  {
    if total <= 0 then Err("Payment amount must be greater than 0")
    else if PaymentValidation.Blank(orderInfo) then Err("Order information cannot be null or empty")
    else if |orderInfo.value| > 255 then Err("Order information cannot exceed 255 characters")
    else if PaymentValidation.Blank(urlReturn) then Err(ReturnUrl + " cannot be null or empty")
    else if !PaymentValidation.HttpUrl(urlReturn.value) then Err(ReturnUrl + " must be a valid HTTP/HTTPS URL")
    else Ok(())
  }

  /** The service's own checks give the same verdict and message as the shared payment validators. */
  lemma CreateOrderChecksAgree(total: int, orderInfo: Option<string>, urlReturn: Option<string>)
    ensures PaymentValidation.ValidateAmount(total).Err? ==>
      ValidateCreateOrderParameters(total, orderInfo, urlReturn) == PaymentValidation.ValidateAmount(total)
    ensures PaymentValidation.ValidateAmount(total).Ok? && PaymentValidation.ValidateOrderInfo(orderInfo).Err? ==>
      ValidateCreateOrderParameters(total, orderInfo, urlReturn) == PaymentValidation.ValidateOrderInfo(orderInfo)
    ensures PaymentValidation.ValidateAmount(total).Ok? && PaymentValidation.ValidateOrderInfo(orderInfo).Ok? ==>
      ValidateCreateOrderParameters(total, orderInfo, urlReturn) == PaymentValidation.ValidateUrl(urlReturn, ReturnUrl)
  {
  }

  /** validateCreateOrderWithIdParameters: the checks above, then a non-blank order id that `Long.parseLong` accepts. */
  function ValidateCreateOrderWithIdParameters(total: int, orderInfo: Option<string>, urlReturn: Option<string>,
                                               orderId: Option<string>): (r: Result<(), string>)
    ensures ValidateCreateOrderParameters(total, orderInfo, urlReturn).Err? ==> r == ValidateCreateOrderParameters(total, orderInfo, urlReturn)
    ensures r.Ok? <==> ValidateCreateOrderParameters(total, orderInfo, urlReturn).Ok? && !PaymentValidation.Blank(orderId)
                       && JavaParseInteger(orderId.value, LongMin, LongMax).Some?
    ensures (ValidateCreateOrderParameters(total, orderInfo, urlReturn).Ok? && !PaymentValidation.Blank(orderId)
             && JavaParseInteger(orderId.value, LongMin, LongMax).None?) ==> r == Err("Order ID must be a valid numeric value")
  {
    var base := ValidateCreateOrderParameters(total, orderInfo, urlReturn);
    if base.Err? then base
    else if PaymentValidation.Blank(orderId) then Err("Order ID cannot be null or empty")
    else if JavaParseInteger(orderId.value, LongMin, LongMax).None? then Err("Order ID must be a valid numeric value")
    else Ok(())
  }

  /** A numeric order id within the long range passes the id checks. */
  lemma NumericOrderIdAccepted(total: int, orderInfo: Option<string>, urlReturn: Option<string>, orderId: string)
    requires ValidateCreateOrderParameters(total, orderInfo, urlReturn).Ok?
    requires orderId != [] && AllDigits(orderId) && DigitsValue(orderId) <= LongMax
    ensures ValidateCreateOrderWithIdParameters(total, orderInfo, urlReturn, Some(orderId)).Ok?
  {
    assert !IsJavaTrimmed(orderId[0]);
  }

  // ---------------------------------------------------------------- amount

  /** The `vnp_Amount` value createOrder writes: `String.valueOf(total*100)` in `int` arithmetic. */
  function AmountParamAsWritten(total: int): string
  {
    IntToString(Wrap32(total * 100))
  }

  /** The amount in hundredths of a dong, computed exactly. */
  function AmountParam(total: int): string
  {
    IntToString(total * 100)
  }

  /** The corrected value reads back as exactly a hundred times the amount. */
  lemma AmountParamReadsBack(total: int)
    requires total > 0 && total * 100 <= LongMax
    ensures JavaParseInteger(AmountParam(total), LongMin, LongMax) == Some(total * 100)
  {
    NatToStringValue(total * 100);
  }

  /**
   * A total whose hundredfold lies between 2^31 and 2^32 passes the amount
   * check, yet the `int` product wraps to a negative number.
   */
  lemma AmountOverflowsAsWritten(total: int)
    requires IntMax < total * 100 < Modulus
    ensures PaymentValidation.ValidateAmount(total).Ok?
    ensures Wrap32(total * 100) == total * 100 - Modulus < 0
    ensures AmountParamAsWritten(total)[0] == '-' && AmountParam(total)[0] != '-'
  {
    var x := total * 100;
    assert x + 0x8000_0000 == Modulus + (x - 0x8000_0000);
  }

  /** The smallest such total: 21474837 yields -2147483596. */
  lemma AmountOverflowExample()
    ensures IntMax < 21474837 * 100 < Modulus
    ensures Wrap32(21474837 * 100) == -2147483596
  {
    AmountOverflowsAsWritten(21474837);
  }

  /** createOrderWithOrderId computes in `long`, which is exact for any realistic amount. */
  function LongAmountParam(total: int): (s: string)
    ensures LongMin <= total * 100 <= LongMax ==> s == AmountParam(total)
  {
    IntToString(Wrap64(total * 100))
  }

  // ---------------------------------------------------------- payment URL

  /** The thirteen parameters of a payment request; a missing terminal code is skipped like an empty value. */
  function PaymentParams(amount: string, orderInfo: string, urlReturn: string, txnRef: string, ipAddr: string,
                         config: Config, createDate: string, expireDate: string): map<string, string>
  {
    map["vnp_Version" := "2.1.0", "vnp_Command" := "pay",
        "vnp_TmnCode" := if config.tmnCode.Some? then config.tmnCode.value else "",
        "vnp_Amount" := amount, "vnp_CurrCode" := "VND", "vnp_TxnRef" := txnRef,
        "vnp_OrderInfo" := orderInfo, "vnp_OrderType" := "order-type", "vnp_Locale" := "vn",
        "vnp_ReturnUrl" := urlReturn + JavaString(config.returnUrl), "vnp_IpAddr" := ipAddr,
        "vnp_CreateDate" := createDate, "vnp_ExpireDate" := expireDate]
  }

  /** What one name adds to the service's signed string: nothing when its value is empty, and '&' only after an entry. */
  function ServicePiece(name: string, value: string, last: bool): string
  {
    if value == "" then "" else Entry(name, value) + (if last then "" else "&")
  }

  /** What one name adds to the query string, with the name encoded as well. */
  function QueryPiece(name: string, value: string, last: bool): string
  {
    if value == "" then "" else UrlEncode(name) + "=" + UrlEncode(value) + (if last then "" else "&")
  }

  function ServiceHashData(names: seq<string>, fields: map<string, string>): string
  {
    if names == [] then ""
    else ServicePiece(names[0], ValueOf(fields, names[0]), |names| == 1) + ServiceHashData(names[1..], fields)
  }

  function Query(names: seq<string>, fields: map<string, string>): string
  {
    if names == [] then ""
    else QueryPiece(names[0], ValueOf(fields, names[0]), |names| == 1) + Query(names[1..], fields)
  }

  /**
   * With no empty value, the string the service signs is the one
   * hashAllFields recomputes on the return call.
   */
  lemma {:induction false} SignedStringsAgree(names: seq<string>, fields: map<string, string>)
    requires NoEmptyValue(names, fields)
    ensures ServiceHashData(names, fields) == HashData(names, fields)
  {
    if names != [] {
      assert NoEmptyValue(names[1..], fields) by {
        forall i | 0 <= i < |names[1..]| ensures ValueOf(fields, names[1..][i]) != "" {
          assert names[1..][i] == names[i + 1];
        }
      }
      SignedStringsAgree(names[1..], fields);
      assert ValueOf(fields, names[0]) != "";
    }
  }

  /** An empty value in the middle: the service writes one '&', hashAllFields two, so the signatures differ. */
  lemma SignedStringsDifferOnEmptyValue()
    ensures ServiceHashData(["a", "b", "c"], map["a" := "1", "b" := "", "c" := "2"]) == "a=1&c=2"
    ensures HashData(["a", "b", "c"], map["a" := "1", "b" := "", "c" := "2"]) == "a=1&&c=2"
  {
    ServiceSkipsEmptyValue();
    EmptyMiddleValueDoublesSeparator();
  }

  lemma ServiceSkipsEmptyValue()
    ensures ServiceHashData(["a", "b", "c"], map["a" := "1", "b" := "", "c" := "2"]) == "a=1&c=2"
  {
    var f := map["a" := "1", "b" := "", "c" := "2"];
    assert UrlEncode("1") == "1" && UrlEncode("2") == "2";
    assert ["a", "b", "c"][1..] == ["b", "c"] && ["b", "c"][1..] == ["c"];
    assert ServiceHashData(["c"], f) == "c=2" by {
      assert ServicePiece("c", "2", true) == "c=2";
    }
    assert ServiceHashData(["b", "c"], f) == "c=2";
    assert ServicePiece("a", "1", false) == "a=1&";
  }

  /** The payment URL: the query, then the signature of the signed string. */
  ghost function PaymentUrl(params: map<string, string>, config: Config, mac: (string, string) -> string)
    : Result<string, string>
  {
    var names := SortedKeys(params.Keys);
    var signature := HmacSha512(config.hashSecret, ServiceHashData(names, params), mac);
    if signature.Err? then Err(signature.error)
    else Ok(JavaString(config.payUrl) + "?" + Query(names, params) + "&vnp_SecureHash=" + signature.value)
  }

  /** With no empty value the URL carries the signature the return check computes over the same fields. */
  lemma PaymentUrlSignature(params: map<string, string>, config: Config, mac: (string, string) -> string)
    requires NoEmptyValue(SortedKeys(params.Keys), params)
    requires PaymentUrl(params, config, mac).Ok?
    ensures var names := SortedKeys(params.Keys);
      var signature := HmacSha512(config.hashSecret, HashData(names, params), mac);
      signature.Ok? && PaymentUrl(params, config, mac).value ==
        JavaString(config.payUrl) + "?" + Query(names, params) + "&vnp_SecureHash=" + signature.value
  {
    SignedStringsAgree(SortedKeys(params.Keys), params);
  }

  lemma QueryAt(names: seq<string>, fields: map<string, string>, i: nat)
    requires i < |names|
    ensures Query(names[i..], fields) == QueryPiece(names[i], ValueOf(fields, names[i]), i + 1 == |names|) + Query(names[i + 1..], fields)
    ensures ServiceHashData(names[i..], fields)
            == ServicePiece(names[i], ValueOf(fields, names[i]), i + 1 == |names|) + ServiceHashData(names[i + 1..], fields)
  {
    assert names[i..][1..] == names[i + 1..];
  }

  lemma AccumulateStep(acc: string, piece: string, rest: string, whole: string)
    requires acc + (piece + rest) == whole
    ensures (acc + piece) + rest == whole
  {
    AppendAssoc(acc, piece, rest);
  }

  /** The loop of createOrder: both strings built side by side over the sorted names. */
  method BuildStrings(names: seq<string>, params: map<string, string>) returns (hashData: string, query: string)
    ensures hashData == ServiceHashData(names, params) && query == Query(names, params)
  {
    ghost var wholeHash, wholeQuery := ServiceHashData(names, params), Query(names, params);
    hashData := "";
    query := "";
    var i := 0;
    while i < |names|
      invariant 0 <= i <= |names|
      invariant hashData + ServiceHashData(names[i..], params) == wholeHash
      invariant query + Query(names[i..], params) == wholeQuery
    {
      var v := ValueOf(params, names[i]);
      var h := ServicePiece(names[i], v, i + 1 == |names|);
      var q := QueryPiece(names[i], v, i + 1 == |names|);
      QueryAt(names, params, i);
      AccumulateStep(hashData, h, ServiceHashData(names[i + 1..], params), wholeHash);
      AccumulateStep(query, q, Query(names[i + 1..], params), wholeQuery);
      hashData := hashData + h;
      query := query + q;
      i := i + 1;
    }
    assert names[i..] == [];
  }

  method BuildPaymentUrl(params: map<string, string>, config: Config, mac: (string, string) -> string)
    returns (r: Result<string, string>)
    ensures r == PaymentUrl(params, config, mac)
  {
    var names := SortKeys(params.Keys);
    var hashData, query := BuildStrings(names, params);
    var signature := HmacSha512(config.hashSecret, hashData, mac);
    if signature.Err? {
      return Err(signature.error);
    }
    r := Ok(JavaString(config.payUrl) + "?" + query + "&vnp_SecureHash=" + signature.value);
  }

  /**
   * createOrder: checked arguments, a random eight-digit reference, the
   * default address, and the signed URL. The amount is the exact product
   * (see AmountOverflowsAsWritten for the `int` code).
   */
  method CreateOrder(total: int, orderInfo: Option<string>, urlReturn: Option<string>, config: Config,
                     mac: (string, string) -> string, draws: seq<nat>, createDate: string, expireDate: string)
    returns (r: Result<string, string>)
    requires forall i :: 0 <= i < |draws| ==> draws[i] < 10
    requires |draws| >= 8
    ensures ValidateCreateOrderParameters(total, orderInfo, urlReturn).Err? ==>
      r == Err(ValidateCreateOrderParameters(total, orderInfo, urlReturn).error)
    ensures ValidateCreateOrderParameters(total, orderInfo, urlReturn).Ok? ==>
      r == PaymentUrl(PaymentParams(AmountParam(total), orderInfo.value, urlReturn.value, DigitsOf(draws[..8]), LocalHost,
                                    config, createDate, expireDate), config, mac)
  {
    var check := ValidateCreateOrderParameters(total, orderInfo, urlReturn);
    if check.Err? {
      return Err(check.error);
    }
    var txnRef := GetRandomNumber(8, draws);
    var params := PaymentParams(AmountParam(total), orderInfo.value, urlReturn.value, txnRef.value, LocalHost,
                                config, createDate, expireDate);
    r := BuildPaymentUrl(params, config, mac);
  }

  /** The address written into a payment: the client's when given and not blank. */
  function IpParam(clientIp: Option<string>): (ip: string)
    ensures !PaymentValidation.Blank(clientIp) ==> ip == clientIp.value
    ensures PaymentValidation.Blank(clientIp) ==> ip == LocalHost
  {
    if clientIp.Some? && !JavaTrimEmpty(clientIp.value) then clientIp.value else LocalHost
  }

  /** createOrderWithOrderId: as createOrder, with the order id as reference and the client's address. */
  method CreateOrderWithOrderId(total: int, orderInfo: Option<string>, urlReturn: Option<string>, orderId: Option<string>,
                                clientIp: Option<string>, config: Config, mac: (string, string) -> string,
                                createDate: string, expireDate: string)
    returns (r: Result<string, string>)
    ensures ValidateCreateOrderWithIdParameters(total, orderInfo, urlReturn, orderId).Err? ==>
      r == Err(ValidateCreateOrderWithIdParameters(total, orderInfo, urlReturn, orderId).error)
    ensures ValidateCreateOrderWithIdParameters(total, orderInfo, urlReturn, orderId).Ok? ==>
      r == PaymentUrl(PaymentParams(LongAmountParam(total), orderInfo.value, urlReturn.value, orderId.value,
                                    IpParam(clientIp), config, createDate, expireDate), config, mac)
  {
    var check := ValidateCreateOrderWithIdParameters(total, orderInfo, urlReturn, orderId);
    if check.Err? {
      return Err(check.error);
    }
    var params := PaymentParams(LongAmountParam(total), orderInfo.value, urlReturn.value, orderId.value,
                                IpParam(clientIp), config, createDate, expireDate);
    r := BuildPaymentUrl(params, config, mac);
  }

  // --------------------------------------------------------- return call

  function Param(params: map<string, string>, name: string): Option<string>
  {
    if name in params then Some(params[name]) else None
  }

  const RequiredReturnParams := ["vnp_TxnRef", "vnp_ResponseCode", "vnp_SecureHash", "vnp_Amount", "vnp_TmnCode"]
  const RequiredIpnParams := ["vnp_TxnRef", "vnp_TransactionStatus", "vnp_ResponseCode", "vnp_SecureHash",
                              "vnp_Amount", "vnp_TmnCode", "vnp_TransactionNo"]

  /** validateReturnParameters / validateIPNParameters: every listed parameter present and not blank. */
  function HasRequired(params: map<string, string>, names: seq<string>): (r: bool)
    ensures r <==> forall name :: name in names ==> name in params && !PaymentValidation.Blank(Some(params[name]))
  {
    forall k :: 0 <= k < |names| ==> !PaymentValidation.Blank(Param(params, names[k]))
  }

  /** A notification with its parameters passes the return-call check too. */
  lemma IpnRequiredImpliesReturnRequired(params: map<string, string>)
    requires HasRequired(params, RequiredIpnParams)
    ensures HasRequired(params, RequiredReturnParams)
  {
    assert RequiredReturnParams[0] == RequiredIpnParams[0] && RequiredReturnParams[1] == RequiredIpnParams[2];
    assert RequiredReturnParams[2] == RequiredIpnParams[3] && RequiredReturnParams[3] == RequiredIpnParams[4];
    assert RequiredReturnParams[4] == RequiredIpnParams[5];
  }

  /** The parameters with a non-empty value. */
  function NonEmptyFields(params: map<string, string>): (f: map<string, string>)
    ensures forall k :: k in f <==> k in params && params[k] != ""
    ensures forall k :: k in f ==> f[k] == params[k]
  {
    map k | k in params && params[k] != "" :: params[k]
  }

  /** isPaymentExpired: a missing date counts as expired; otherwise the clock decides. */
  function IsPaymentExpired(createDate: Option<string>, expireDate: Option<string>, expiredAt: string -> bool): (r: bool)
    ensures createDate.None? || expireDate.None? ==> r
    ensures createDate.Some? && expireDate.Some? ==> (r <==> expiredAt(expireDate.value))
  {
    createDate.None? || expireDate.None? || expiredAt(expireDate.value)
  }

  const ExpiredMessage := "Thanh toán đã hết hạn. Vui lòng tạo yêu cầu thanh toán mới."

  /** validatePaymentTiming: no check without a date; otherwise the expiry message when expired. */
  function ValidatePaymentTiming(fields: map<string, string>, expiredAt: string -> bool): (r: Option<string>)
    ensures PaymentValidation.Blank(Param(fields, "vnp_CreateDate")) && PaymentValidation.Blank(Param(fields, "vnp_ExpireDate")) ==> r.None?
    ensures r.Some? ==> r.value == ExpiredMessage
    ensures (!PaymentValidation.Blank(Param(fields, "vnp_CreateDate")) || !PaymentValidation.Blank(Param(fields, "vnp_ExpireDate")))
            ==> (r.Some? <==> IsPaymentExpired(Param(fields, "vnp_CreateDate"), Param(fields, "vnp_ExpireDate"), expiredAt))
  {
    var createDate := Param(fields, "vnp_CreateDate");
    var expireDate := Param(fields, "vnp_ExpireDate");
    if PaymentValidation.Blank(createDate) && PaymentValidation.Blank(expireDate) then None
    else if IsPaymentExpired(createDate, expireDate, expiredAt) then Some(ExpiredMessage)
    else None
  }

  /** A creation date without an expiry date is treated as expired. */
  lemma CreateDateAloneIsExpired(fields: map<string, string>, expiredAt: string -> bool)
    requires !PaymentValidation.Blank(Param(fields, "vnp_CreateDate")) && "vnp_ExpireDate" !in fields
    ensures ValidatePaymentTiming(fields, expiredAt) == Some(ExpiredMessage)
  {
  }

  /** The fields that are signed: the non-empty ones without the two hash parameters. */
  function SignedFields(params: map<string, string>): map<string, string>
  {
    NonEmptyFields(params) - {"vnp_SecureHashType", "vnp_SecureHash"}
  }

  /**
   * The payment verdict once the signature matched: with a transaction
   * status present both codes must be "00", otherwise the response code alone.
   */
  function PaymentSucceeded(params: map<string, string>): bool
  {
    var responseCodeSuccess := Param(params, "vnp_ResponseCode") == Some("00");
    var statusSuccess := Param(params, "vnp_TransactionStatus") == Some("00");
    if !PaymentValidation.Blank(Param(params, "vnp_TransactionStatus")) then responseCodeSuccess && statusSuccess
    else responseCodeSuccess
  }

  /**
   * orderReturn given the recomputed signature: -1 for missing parameters,
   * a failed or mismatching signature (the later test for a blank hash can
   * never fire, since the hash is among the required parameters); 0 for an expired or
   * failed payment; 1 for a paid one.
   */
  function ReturnDecision(params: map<string, string>, signValue: Result<string, string>, expiredAt: string -> bool)
    : (r: int)
    ensures r == -1 || r == 0 || r == 1
    ensures !HasRequired(params, RequiredReturnParams) ==> r == -1
    ensures r == 1 <==> HasRequired(params, RequiredReturnParams) && ValidatePaymentTiming(NonEmptyFields(params), expiredAt).None?
                        && signValue.Ok? && Param(params, "vnp_SecureHash") == Some(signValue.value) && PaymentSucceeded(params)
  {
    if !HasRequired(params, RequiredReturnParams) then -1
    else if ValidatePaymentTiming(NonEmptyFields(params), expiredAt).Some? then 0
    else if signValue.Err? then -1
    else if Param(params, "vnp_SecureHash") != Some(signValue.value) then -1
    else if PaymentSucceeded(params) then 1
    else 0
  }

  /** A signature that does not match is rejected whatever the codes say. */
  lemma MismatchRejected(params: map<string, string>, signValue: Result<string, string>, expiredAt: string -> bool)
    requires HasRequired(params, RequiredReturnParams)
    requires ValidatePaymentTiming(NonEmptyFields(params), expiredAt).None?
    requires signValue.Err? || Param(params, "vnp_SecureHash") != Some(signValue.value)
    ensures ReturnDecision(params, signValue, expiredAt) == -1
  {
    assert !PaymentValidation.Blank(Param(params, RequiredReturnParams[2]));
  }

  /** A good signature with a failing code is a failed payment, not a rejection. */
  lemma FailedCodeIsZero(params: map<string, string>, signValue: string, expiredAt: string -> bool)
    requires HasRequired(params, RequiredReturnParams)
    requires ValidatePaymentTiming(NonEmptyFields(params), expiredAt).None?
    requires Param(params, "vnp_SecureHash") == Some(signValue)
    requires Param(params, "vnp_ResponseCode") != Some("00")
    ensures ReturnDecision(params, Ok(signValue), expiredAt) == 0
  {
    assert !PaymentValidation.Blank(Param(params, RequiredReturnParams[2]));
  }

  /** orderReturn: the decision over the signature of the signed fields. */
  ghost function OrderReturnResult(params: map<string, string>, config: Config, mac: (string, string) -> string,
                                   expiredAt: string -> bool): (r: int)
    ensures r == -1 || r == 0 || r == 1
    ensures !HasRequired(params, RequiredReturnParams) ==> r == -1
    ensures r == 1 ==> PaymentSucceeded(params) && Param(params, "vnp_SecureHash").Some?
  {
    var fields := SignedFields(params);
    ReturnDecision(params, HmacSha512(config.hashSecret, HashData(SortedKeys(fields.Keys), fields), mac), expiredAt)
  }

  /** The signed fields never hold an empty value, so hashAllFields' extra '&' never arises here. */
  lemma SignedFieldsHaveNoEmptyValue(params: map<string, string>)
    ensures NoEmptyValue(SortedKeys(SignedFields(params).Keys), SignedFields(params))
  {
  }

  method OrderReturn(params: map<string, string>, config: Config, mac: (string, string) -> string,
                     expiredAt: string -> bool) returns (r: int)
    ensures r == OrderReturnResult(params, config, mac, expiredAt)
  {
    var signValue := HashAllFields(config, SignedFields(params), mac);
    r := ReturnDecision(params, signValue, expiredAt);
  }

  // ---------------------------------------------------------- notification

  datatype PaymentIpnResult = PaymentIpnResult(
    valid: bool, successful: bool, transactionRef: Option<string>, status: Option<string>, errorMessage: Option<string>)

  function Success(ref: Option<string>, status: Option<string>): PaymentIpnResult { PaymentIpnResult(true, true, ref, status, None) }
  function Failed(ref: Option<string>, status: Option<string>): PaymentIpnResult { PaymentIpnResult(true, false, ref, status, None) }
  function Invalid(message: string): PaymentIpnResult { PaymentIpnResult(false, false, None, None, Some(message)) }

  /** processIPN given the return decision: missing parameters, then the three outcomes. */
  function IpnResult(params: map<string, string>, decision: int): (r: PaymentIpnResult)
    ensures r.successful ==> r.valid
    ensures r.valid <==> HasRequired(params, RequiredIpnParams) && (decision == 0 || decision == 1)
    ensures r.successful <==> HasRequired(params, RequiredIpnParams) && decision == 1
    ensures r.valid ==> r.transactionRef == Param(params, "vnp_TxnRef") && r.status == Param(params, "vnp_TransactionStatus")
    ensures !HasRequired(params, RequiredIpnParams) ==> r == Invalid("Missing required parameters")
  {
    if !HasRequired(params, RequiredIpnParams) then Invalid("Missing required parameters")
    else if decision == 1 then Success(Param(params, "vnp_TxnRef"), Param(params, "vnp_TransactionStatus"))
    else if decision == 0 then Failed(Param(params, "vnp_TxnRef"), Param(params, "vnp_TransactionStatus"))
    else Invalid("Signature verification failed")
  }

  method ProcessIpn(params: map<string, string>, config: Config, mac: (string, string) -> string,
                    expiredAt: string -> bool) returns (r: PaymentIpnResult)
    ensures r == IpnResult(params, OrderReturnResult(params, config, mac, expiredAt))
  {
    if !HasRequired(params, RequiredIpnParams) {
      return Invalid("Missing required parameters");
    }
    var decision := OrderReturn(params, config, mac, expiredAt);
    r := IpnResult(params, decision);
  }

  /** A notification confirms a payment only when both codes are "00". */
  lemma IpnSuccessNeedsBothCodes(params: map<string, string>, signValue: Result<string, string>, expiredAt: string -> bool)
    requires IpnResult(params, ReturnDecision(params, signValue, expiredAt)).successful
    ensures Param(params, "vnp_ResponseCode") == Some("00") && Param(params, "vnp_TransactionStatus") == Some("00")
  {
    assert !PaymentValidation.Blank(Param(params, RequiredIpnParams[1]));
  }
}
