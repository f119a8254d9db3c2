/**
 * The shared payment-parameter checks (PaymentValidationService.java):
 * amount, order information, order id, URL, and the basic IPv4 test. Each
 * Java method that throws IllegalArgumentException is a function giving
 * `Err(message)`.
 */
module PaymentValidation {
  import opened Common

  /** `s == null || s.trim().isEmpty()`; JavaTrimEmptyIff ties the second half to `trim()`. */
  predicate Blank(s: Option<string>) { s.None? || JavaTrimEmpty(s.value) }

  /** validateAmount */
  function ValidateAmount(amount: int): (r: Result<(), string>)
    ensures r.Ok? <==> amount > 0
    ensures r.Err? ==> r.error == "Payment amount must be greater than 0"
  {
    if amount <= 0 then Err("Payment amount must be greater than 0") else Ok(())
  }

  const MaxOrderInfo := 255

  /** validateOrderInfo: present, not blank, at most 255 characters. */
  function ValidateOrderInfo(orderInfo: Option<string>): (r: Result<(), string>)
    ensures r.Ok? <==> !Blank(orderInfo) && |orderInfo.value| <= MaxOrderInfo
    ensures Blank(orderInfo) ==> r == Err("Order information cannot be null or empty")
    ensures !Blank(orderInfo) && |orderInfo.value| > MaxOrderInfo ==> r == Err("Order information cannot exceed 255 characters")
  {
    if Blank(orderInfo) then Err("Order information cannot be null or empty")
    else if |orderInfo.value| > MaxOrderInfo then Err("Order information cannot exceed 255 characters")
    else Ok(())
  }

  /** validateOrderId */
  function ValidateOrderId(orderId: Option<string>): (r: Result<(), string>)
    ensures r.Ok? <==> !Blank(orderId)
    ensures r.Err? ==> r.error == "Order ID cannot be null or empty"
  {
    if Blank(orderId) then Err("Order ID cannot be null or empty") else Ok(())
  }

  predicate HttpUrl(url: string) { StartsWith(url, "http://") || StartsWith(url, "https://") }

  /** validateUrl: present, not blank, and starting with http:// or https://; messages name the parameter. */
  function ValidateUrl(url: Option<string>, paramName: string): (r: Result<(), string>)
    ensures r.Ok? <==> !Blank(url) && HttpUrl(url.value)
    ensures Blank(url) ==> r == Err(paramName + " cannot be null or empty")
    ensures !Blank(url) && !HttpUrl(url.value) ==> r == Err(paramName + " must be a valid HTTP/HTTPS URL")
  {
    if Blank(url) then Err(paramName + " cannot be null or empty")
    else if !HttpUrl(url.value) then Err(paramName + " must be a valid HTTP/HTTPS URL")
    else Ok(())
  }

  // ---------------------------------------------------------------- IPv4

  /** One dotted part: `Integer.parseInt` succeeds and the value is 0 to 255. */
  predicate Octet(part: string)
  {
    var n := JavaParseInteger(part, IntMin, IntMax);
    n.Some? && 0 <= n.value <= 255
  }

  /** The four-part test on already split pieces. */
  predicate FourOctets(parts: seq<string>)
  {
    |parts| == 4 && Octet(parts[0]) && Octet(parts[1]) && Octet(parts[2]) && Octet(parts[3])
  }

  /**
   * isValidIPAddress as written: `ip.split("\\.")` drops trailing empty
   * pieces, so text ending in dots after four octets is accepted.
   */
  predicate IsValidIPAddressAsWritten(ip: Option<string>)
  {
    !Blank(ip) && FourOctets(JavaSplitChar(ip.value, '.'))
  }

  /** isValidIPAddress as intended: exactly four dot-separated octets, nothing after the last. */
  function IsValidIPAddress(ip: Option<string>): (ok: bool)
    ensures ok ==> ip.Some? && |SplitChar(ip.value, '.')| == 4
    ensures ok ==> forall k :: 0 <= k < 4 ==> '.' !in SplitChar(ip.value, '.')[k]
  {
    !Blank(ip) && FourOctets(SplitChar(ip.value, '.'))
  }

  lemma OctetHasNoDot(part: string)
    requires Octet(part)
    ensures '.' !in part && part != []
  {
    forall i | 0 <= i < |part| ensures part[i] != '.' {
      if i > 0 {
        assert part[1..][i - 1] == part[i];
      }
    }
  }

  lemma DotMeansNotBlank(s: string)
    requires '.' in s
    ensures !Blank(Some(s))
  {
    var i :| 0 <= i < |s| && s[i] == '.';
    assert !IsJavaTrimmed(s[i]);
  }

  /** Four octets joined by dots are accepted. */
  lemma DottedQuadAccepted(parts: seq<string>)
    requires FourOctets(parts)
    ensures IsValidIPAddress(Some(JoinChar(parts, '.')))
  {
    OctetHasNoDot(parts[0]); OctetHasNoDot(parts[1]); OctetHasNoDot(parts[2]); OctetHasNoDot(parts[3]);
    SplitJoin(parts, '.');
    var ip := JoinChar(parts, '.');
    assert ip == parts[0] + ['.'] + JoinChar(parts[1..], '.');
    assert ip[|parts[0]|] == '.';
    DotMeansNotBlank(ip);
  }

  /** The intended check accepts exactly the strings that are four octets joined by dots. */
  lemma IPv4Exactly(ip: string)
    ensures IsValidIPAddress(Some(ip)) <==> exists parts :: FourOctets(parts) && ip == JoinChar(parts, '.')
  {
    if IsValidIPAddress(Some(ip)) {
      JoinSplit(ip, '.');
      assert FourOctets(SplitChar(ip, '.'));
    }
    if exists parts :: FourOctets(parts) && ip == JoinChar(parts, '.') {
      var parts :| FourOctets(parts) && ip == JoinChar(parts, '.');
      DottedQuadAccepted(parts);
    }
  }

  /** Every address the intended check accepts, the code as written accepts too. */
  lemma IntendedImpliesAsWritten(ip: Option<string>)
    requires IsValidIPAddress(ip)
    ensures IsValidIPAddressAsWritten(ip)
  {
    var p := SplitChar(ip.value, '.');
    OctetHasNoDot(p[3]);
    assert ip.value != [];
    assert DropTrailingEmpty(p) == p;
  }

  lemma DigitOctet(s: string)
    requires |s| == 1 && IsAsciiDigit(s[0])
    ensures Octet(s)
  {
    assert s[..0] == [];
    assert DigitsValue(s) == DigitValue(s[0]);
  }

  /** "1.2.3.4." passes the check as written but is not a dotted quad. */
  lemma TrailingDotAccepted()
    ensures IsValidIPAddressAsWritten(Some("1.2.3.4."))
    ensures !IsValidIPAddress(Some("1.2.3.4."))
  {
    var parts := ["1", "2", "3", "4", ""];
    var ip := "1.2.3.4.";
    assert JoinChar(parts[4..], '.') == "";
    assert JoinChar(parts[3..], '.') == "4.";
    assert JoinChar(parts[2..], '.') == "3.4.";
    assert JoinChar(parts[1..], '.') == "2.3.4.";
    assert JoinChar(parts, '.') == ip;
    SplitJoin(parts, '.');
    assert DropTrailingEmpty(parts) == parts[..4];
    DigitOctet(parts[0]); DigitOctet(parts[1]); DigitOctet(parts[2]); DigitOctet(parts[3]);
    assert FourOctets(parts[..4]);
    assert ip[1] == '.';
    DotMeansNotBlank(ip);
  }
}
