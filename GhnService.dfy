/**
 * The GHN shipping provider (GHNService.java): its own, looser, request
 * check and the message naming what failed, the Vietnamese message shown
 * for a GHN error code, and the defaults filled in before the API call.
 */
module GhnService {
  import opened Common
  import opened Shipping

  /** validateRequest: a request with a positive weight and a delivery province and district. */
  function ValidateRequest(request: Option<ShippingRequest>): (ok: bool)
    ensures ok ==> request.Some? && request.value.weight.Some? && request.value.weight.value > 0
    ensures ok ==> !Absent(request.value.province) && !Absent(request.value.district)
  {
    request.Some? && request.value.weight.Some? && request.value.weight.value > 0
    && !Absent(request.value.province) && !Absent(request.value.district)
  }

  /** getValidationError: the first failing check, or a generic message when none fails. */
  function GetValidationError(request: Option<ShippingRequest>): (m: string)
    ensures m != ""
    ensures ValidateRequest(request) <==> m == "Invalid request"
    ensures request.None? <==> m == "Shipping request is null"
    ensures request.Some? && (request.value.weight.None? || request.value.weight.value <= 0) <==>
      m == "Weight must be greater than 0"
    ensures m == "Delivery province is required" <==>
      request.Some? && request.value.weight.Some? && request.value.weight.value > 0 && Absent(request.value.province)
  {
    if request.None? then "Shipping request is null"
    else if request.value.weight.None? || request.value.weight.value <= 0 then "Weight must be greater than 0"
    else if Absent(request.value.province) then "Delivery province is required"
    else if Absent(request.value.district) then "Delivery district is required"
    else "Invalid request"
  }

  /** Every request the stricter ShippingRequest check accepts, GHN accepts too. */
  lemma StrictImpliesGhn(r: ShippingRequest)
    requires IsValid(r)
    ensures ValidateRequest(Some(r))
  {
    assert CheckPlace(r.province).Acceptable? && CheckPlace(r.district).Acceptable?;
  }

  const UnknownError := "Lỗi không xác định từ dịch vụ vận chuyển"

  /** The fixed message for a well-known HTTP status, if it is one. */
  function StatusMessage(code: int): Option<string>
  {
    if code == 400 then Some("Thông tin yêu cầu không hợp lệ")
    else if code == 401 then Some("Dịch vụ vận chuyển không được ủy quyền")
    else if code == 403 then Some("Không có quyền truy cập dịch vụ vận chuyển")
    else if code == 404 then Some("Không tìm thấy thông tin địa chỉ")
    else if code == 429 then Some("Quá nhiều yêu cầu, vui lòng thử lại sau")
    else if code == 500 then Some("Dịch vụ vận chuyển đang gặp sự cố")
    else None
  }

  const FeePrefix := "Không thể tính phí vận chuyển: "

  /**
   * mapGHNErrorToUserMessage: null gives the unknown-error message, the six
   * known statuses their fixed messages, and any other code a message
   * chosen by the first of "district", "ward", "weight" found in the
   * lower-cased original message, else that message after a fixed prefix.
   */
  function MapErrorToUserMessage(errorCode: Option<int>, originalMessage: Option<string>): (m: string)
    ensures errorCode.None? ==> m == UnknownError
    ensures errorCode.Some? && StatusMessage(errorCode.value).Some? ==> m == StatusMessage(errorCode.value).value
    ensures (errorCode.Some? && StatusMessage(errorCode.value).None? && originalMessage.Some?
             && Contains(Lower(originalMessage.value), "district"))
            ==> m == "Không thể xác định quận/huyện giao hàng"
    ensures (errorCode.Some? && StatusMessage(errorCode.value).None? && originalMessage.Some?
             && !Contains(Lower(originalMessage.value), "district") && Contains(Lower(originalMessage.value), "ward"))
            ==> m == "Không thể xác định phường/xã giao hàng"
    ensures (errorCode.Some? && StatusMessage(errorCode.value).None? && originalMessage.None?)
            ==> m == FeePrefix + "Lỗi không xác định"
    ensures (errorCode.Some? && StatusMessage(errorCode.value).None? && originalMessage.Some?
             && !Contains(Lower(originalMessage.value), "district") && !Contains(Lower(originalMessage.value), "ward")
             && !Contains(Lower(originalMessage.value), "weight"))
            ==> m == FeePrefix + originalMessage.value
  {
    if errorCode.None? then UnknownError
    else if StatusMessage(errorCode.value).Some? then StatusMessage(errorCode.value).value
    else if originalMessage.Some? && Contains(Lower(originalMessage.value), "district") then "Không thể xác định quận/huyện giao hàng"
    else if originalMessage.Some? && Contains(Lower(originalMessage.value), "ward") then "Không thể xác định phường/xã giao hàng"
    else if originalMessage.Some? && Contains(Lower(originalMessage.value), "weight") then "Trọng lượng không hợp lệ"
    else FeePrefix + (if originalMessage.Some? then originalMessage.value else "Lỗi không xác định")
  }

  /** The keyword test ignores case: "Invalid DISTRICT id" is reported as a district problem. */
  lemma DistrictKeywordIgnoresCase(code: int, message: string, i: nat)
    requires StatusMessage(code).None?
    requires i + 8 <= |message| && Lower(message[i..i + 8]) == "district"
    ensures MapErrorToUserMessage(Some(code), Some(message)) == "Không thể xác định quận/huyện giao hàng"
  {
    assert Lower(message)[i..i + 8] == Lower(message[i..i + 8]);
    assert OccursAt(Lower(message), "district", i);
  }

  /**
   * fillDefaultValues: a blank transport becomes "road" and a blank
   * delivery option "standard"; every other field is kept. The pickup
   * branches do nothing.
   */
  function FillDefaultValues(r: ShippingRequest): (f: ShippingRequest)
    ensures f.transport == (if Absent(r.transport) then Some("road") else r.transport)
    ensures f.deliverOption == (if Absent(r.deliverOption) then Some("standard") else r.deliverOption)
    ensures f == r.(transport := f.transport, deliverOption := f.deliverOption)
    ensures !Absent(f.transport) && !Absent(f.deliverOption)
  {
    var t := if Absent(r.transport) then Some("road") else r.transport;
    var d := if Absent(r.deliverOption) then Some("standard") else r.deliverOption;
    JavaTrimEmptyIff("road");
    JavaTrimEmptyIff("standard");
    assert !IsJavaTrimmed("road"[0]) && !IsJavaTrimmed("standard"[0]);
    r.(transport := t, deliverOption := d)
  }

  /** Filling the defaults twice changes nothing more. */
  lemma FillDefaultValuesIdempotent(r: ShippingRequest)
    ensures FillDefaultValues(FillDefaultValues(r)) == FillDefaultValues(r)
  {
  }
}
