/**
 * VNPay response codes (VNPayErrorCodeMapper.java): the fixed table of
 * thirteen codes with their Vietnamese messages, severity and whether a retry
 * may help, and the lookup that trims the code and falls back to a default
 * entry for a blank code and an "unknown code" entry otherwise.
 */
module VnPayErrorCodes {
  import opened Common

  datatype ErrorSeverity = INFO | WARNING | CRITICAL

  datatype ErrorInfo = ErrorInfo(
    vietnameseMessage: string,
    userFriendlyMessage: string,
    severity: ErrorSeverity,
    technicalDescription: string,
    retryable: bool)

  /** The table's keys are two-digit strings; a code is identified by its two digits. */
  const KnownNumbers: set<nat> := {0, 7, 9, 10, 11, 12, 13, 24, 51, 65, 75, 79, 99}

  /** The number a two-digit code spells, if it is one. */
  function CodeNumber(code: string): (r: Option<nat>)
    ensures r.Some? ==> r.value < 100 && code == [DigitChar(r.value / 10), DigitChar(r.value % 10)]
  {
    if |code| == 2 && IsAsciiDigit(code[0]) && IsAsciiDigit(code[1]) then
      Some(10 * DigitValue(code[0]) + DigitValue(code[1]))
    else None
  }

  /** The code spelled by a two-digit number. */
  function CodeOf(n: nat): (code: string)
    requires n < 100
    ensures CodeNumber(code) == Some(n)
  {
    [DigitChar(n / 10), DigitChar(n % 10)]
  }

  /** A key of the table. */
  predicate IsKnownCode(code: string) { CodeNumber(code).Some? && CodeNumber(code).value in KnownNumbers }

  /** The static table: the entry for a code exactly as listed. */
  function KnownError(code: string): (r: Option<ErrorInfo>)
    ensures r.Some? <==> IsKnownCode(code)
  {
    if IsKnownCode(code) then Some(Entry(CodeNumber(code).value)) else None
  }

  /** The table's entry for a listed number, column by column. */
  function Entry(n: nat): ErrorInfo
    requires n in KnownNumbers
  {
    ErrorInfo(VietnameseMessageOf(n), UserFriendlyMessageOf(n), SeverityOf(n), TechnicalDescriptionOf(n), RetryableOf(n))
  }

  /** Severity column. */
  function SeverityOf(n: nat): ErrorSeverity
    requires n in KnownNumbers
  {
    if n == 0 then INFO
    else if n == 7 then WARNING
    else if n == 9 then CRITICAL
    else if n == 10 then CRITICAL
    else if n == 11 then WARNING
    else if n == 12 then CRITICAL
    else if n == 13 then WARNING
    else if n == 24 then INFO
    else if n == 51 then CRITICAL
    else if n == 65 then WARNING
    else if n == 75 then WARNING
    else if n == 79 then CRITICAL
    else CRITICAL // 99
  }

  /** Retryable column. */
  function RetryableOf(n: nat): bool
    requires n in KnownNumbers
  {
    if n == 0 then false
    else if n == 7 then false
    else if n == 9 then false
    else if n == 10 then true
    else if n == 11 then true
    else if n == 12 then false
    else if n == 13 then true
    else if n == 24 then true
    else if n == 51 then false
    else if n == 65 then true
    else if n == 75 then true
    else if n == 79 then true
    else true // 99
  }

  /** Vietnamese message column. */
  function VietnameseMessageOf(n: nat): string
    requires n in KnownNumbers
  {
    if n == 0 then "Giao dịch thành công"
    else if n == 7 then "Trừ tiền thành công. Giao dịch bị nghi ngờ (liên hệ CSKH VNPay)"
    else if n == 9 then "Giao dịch không thành công do: Thẻ/Tài khoản của khách hàng chưa đăng ký dịch vụ InternetBanking tại ngân hàng"
    else if n == 10 then "Giao dịch không thành công do: Khách hàng xác thực thông tin thẻ/tài khoản không đúng quá 3 lần"
    else if n == 11 then "Giao dịch không thành công do: Đã hết hạn chờ thanh toán. Xin quý khách vui lòng thực hiện lại giao dịch"
    else if n == 12 then "Giao dịch không thành công do: Thẻ/Tài khoản của khách hàng bị khóa"
    else if n == 13 then "Giao dịch không thành công do: Quý khách nhập sai mật khẩu xác thực giao dịch (OTP)"
    else if n == 24 then "Giao dịch không thành công do: Khách hàng hủy giao dịch"
    else if n == 51 then "Giao dịch không thành công do: Tài khoản của quý khách không đủ số dư để thực hiện giao dịch"
    else if n == 65 then "Giao dịch không thành công do: Tài khoản của Quý khách đã vượt quá hạn mức giao dịch trong ngày"
    else if n == 75 then "Ngân hàng thanh toán đang bảo trì"
    else if n == 79 then "Giao dịch không thành công do: KH nhập sai mật khẩu thanh toán quá số lần quy định"
    else "Các lỗi khác (lỗi còn lại, không có trong danh sách mã lỗi đã liệt kê)" // 99
  }

  /** User-facing message column. */
  function UserFriendlyMessageOf(n: nat): string
    requires n in KnownNumbers
  {
    if n == 0 then "Thanh toán đã được xử lý thành công"
    else if n == 7 then "Giao dịch thành công nhưng cần xác minh thêm. Vui lòng liên hệ hỗ trợ nếu có thắc mắc"
    else if n == 9 then "Thẻ/Tài khoản chưa đăng ký dịch vụ thanh toán trực tuyến. Vui lòng liên hệ ngân hàng để kích hoạt"
    else if n == 10 then "Xác thực thông tin không đúng quá 3 lần. Vui lòng thử lại sau hoặc liên hệ ngân hàng"
    else if n == 11 then "Phiên thanh toán đã hết hạn. Vui lòng tạo yêu cầu thanh toán mới"
    else if n == 12 then "Thẻ/Tài khoản đã bị khóa. Vui lòng liên hệ ngân hàng để được hỗ trợ"
    else if n == 13 then "Mật khẩu OTP không đúng. Vui lòng kiểm tra lại mã OTP từ ngân hàng"
    else if n == 24 then "Giao dịch đã bị hủy theo yêu cầu của khách hàng"
    else if n == 51 then "Tài khoản không đủ số dư. Vui lòng nạp thêm tiền hoặc chọn phương thức thanh toán khác"
    else if n == 65 then "Đã vượt quá hạn mức giao dịch trong ngày. Vui lòng thử lại vào ngày hôm sau hoặc liên hệ ngân hàng"
    else if n == 75 then "Ngân hàng đang trong thời gian bảo trì. Vui lòng thử lại sau hoặc chọn phương thức thanh toán khác"
    else if n == 79 then "Nhập sai mật khẩu quá số lần cho phép. Vui lòng thử lại sau hoặc liên hệ ngân hàng"
    else "Có lỗi xảy ra trong quá trình xử lý. Vui lòng thử lại hoặc liên hệ hỗ trợ" // 99
  }

  /** Technical description column. */
  function TechnicalDescriptionOf(n: nat): string
    requires n in KnownNumbers
  {
    if n == 0 then "Transaction completed successfully"
    else if n == 7 then "Money deducted successfully but transaction is suspicious"
    else if n == 9 then "Card/Account not registered for InternetBanking service"
    else if n == 10 then "Customer authentication failed more than 3 times"
    else if n == 11 then "Payment session expired"
    else if n == 12 then "Card/Account is locked"
    else if n == 13 then "Incorrect OTP password"
    else if n == 24 then "Customer cancelled the transaction"
    else if n == 51 then "Insufficient account balance"
    else if n == 65 then "Daily transaction limit exceeded"
    else if n == 75 then "Payment bank is under maintenance"
    else if n == 79 then "Payment password entered incorrectly too many times"
    else "Other errors not listed in error code list" // 99
  }

  /** The entry for a null or blank code. */
  const DefaultError := ErrorInfo("Mã phản hồi VNPay không hợp lệ",
    "Có lỗi xảy ra trong quá trình xử lý thanh toán. Vui lòng thử lại",
    CRITICAL, "Invalid or missing VNPay response code", true)

  /** The entry for a code not in the table; it quotes the code as received, untrimmed. */
  function UnknownCodeError(responseCode: string): ErrorInfo
  {
    ErrorInfo("Mã lỗi VNPay không xác định: " + responseCode,
      "Có lỗi không xác định xảy ra. Vui lòng thử lại hoặc liên hệ hỗ trợ",
      CRITICAL, "Unknown VNPay response code: " + responseCode, true)
  }

  /** getErrorInfo: blank codes get the default entry, unknown ones the unknown entry, both critical and retryable. */
  function GetErrorInfo(responseCode: Option<string>): (r: ErrorInfo)
    ensures responseCode.None? || JavaTrimEmpty(responseCode.value) ==> r == DefaultError
    ensures responseCode.Some? && !JavaTrimEmpty(responseCode.value) && !IsKnownCode(JavaTrim(responseCode.value))
            ==> r == UnknownCodeError(responseCode.value)
    ensures responseCode.Some? && IsKnownCode(JavaTrim(responseCode.value)) ==> r == KnownError(JavaTrim(responseCode.value)).value
    ensures (responseCode.None? || !IsKnownCode(JavaTrim(responseCode.value))) ==> r.severity == CRITICAL && r.retryable
  {
    if responseCode.None? || JavaTrimEmpty(responseCode.value) then
      JavaTrimEmptyIff(if responseCode.Some? then responseCode.value else "");
      DefaultError
    else
      JavaTrimEmptyIff(responseCode.value);
      var info := KnownError(JavaTrim(responseCode.value));
      if info.None? then UnknownCodeError(responseCode.value) else info.value
  }

  /** isSuccess: exactly "00", without trimming. */
  function IsSuccess(responseCode: Option<string>): (r: bool)
    ensures r ==> responseCode.Some? && IsKnownCode(responseCode.value) && CodeNumber(responseCode.value) == Some(0)
  {
    responseCode == Some("00")
  }

  /** isCriticalError */
  function IsCriticalError(responseCode: Option<string>): (r: bool)
    ensures responseCode.None? || !IsKnownCode(JavaTrim(responseCode.value)) ==> r
  {
    GetErrorInfo(responseCode).severity == CRITICAL
  }

  /** The codes whose entry is critical: six of the table, plus every blank or unknown code. */
  lemma CriticalCodes(code: string)
    requires IsKnownCode(JavaTrim(code))
    ensures IsCriticalError(Some(code)) <==> CodeNumber(JavaTrim(code)).value in {9, 10, 12, 51, 79, 99}
  {
    EntryCritical(CodeNumber(JavaTrim(code)).value);
  }

  lemma EntryCritical(n: nat)
    requires n in KnownNumbers
    ensures SeverityOf(n) == CRITICAL <==> n in {9, 10, 12, 51, 79, 99}
  {
  }

  /** A successful code is never critical, and its entry is informational and not retryable. */
  lemma SuccessIsNotCritical(responseCode: Option<string>)
    requires IsSuccess(responseCode)
    ensures !IsCriticalError(responseCode)
    ensures GetErrorInfo(responseCode).severity == INFO && !GetErrorInfo(responseCode).retryable
  {
    assert JavaTrim("00") == "00";
  }

  lemma {:induction false} TrimStartPrefix(pre: string, s: string, ws: char -> bool)
    requires forall i :: 0 <= i < |pre| ==> ws(pre[i])
    requires s != [] && !ws(s[0])
    ensures TrimStart(pre + s, ws) == s
  {
    if pre == [] {
      assert pre + s == s;
    } else {
      assert (pre + s)[0] == pre[0];
      assert (pre + s)[1..] == pre[1..] + s;
      TrimStartPrefix(pre[1..], s, ws);
    }
  }

  lemma {:induction false} TrimEndSuffix(s: string, post: string, ws: char -> bool)
    requires forall i :: 0 <= i < |post| ==> ws(post[i])
    requires s != [] && !ws(s[|s| - 1])
    ensures TrimEnd(s + post, ws) == s
  {
    if post == [] {
      assert s + post == s;
    } else {
      assert (s + post)[|s + post| - 1] == post[|post| - 1];
      assert (s + post)[..|s + post| - 1] == s + post[..|post| - 1];
      TrimEndSuffix(s, post[..|post| - 1], ws);
    }
  }

  /** Surrounding whitespace does not change the entry of a known code. */
  lemma PaddedCodeSameEntry(pre: string, code: string, post: string)
    requires IsKnownCode(code)
    requires forall i :: 0 <= i < |pre| ==> IsJavaTrimmed(pre[i])
    requires forall i :: 0 <= i < |post| ==> IsJavaTrimmed(post[i])
    ensures GetErrorInfo(Some(pre + code + post)) == KnownError(code).value
  {
    PaddedTrim(pre, code, post);
  }

  lemma PaddedTrim(pre: string, code: string, post: string)
    requires IsKnownCode(code)
    requires forall i :: 0 <= i < |pre| ==> IsJavaTrimmed(pre[i])
    requires forall i :: 0 <= i < |post| ==> IsJavaTrimmed(post[i])
    ensures JavaTrim(pre + code + post) == code
  {
    assert |code| == 2 && !IsJavaTrimmed(code[0]) && !IsJavaTrimmed(code[1]);
    TrimEndSuffix(code, post, IsJavaTrimmed);
    assert (code + post)[0] == code[0];
    TrimStartPrefix(pre, code + post, IsJavaTrimmed);
    assert pre + code + post == pre + (code + post);
  }

  /** " 00" looks up the success entry, but isSuccess, which does not trim, says it is not a success. */
  lemma PaddedSuccessCode()
    ensures GetErrorInfo(Some(" 00")).severity == INFO
    ensures !IsSuccess(Some(" 00"))
  {
    assert CodeNumber("00") == Some(0);
    PaddedCodeSameEntry(" ", "00", "");
    assert " " + "00" + "" == " 00";
  }
}
