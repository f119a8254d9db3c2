/**
 * Checks the order controller makes itself (HoaDonController.java): the
 * shape of a mixed-payment request (two or three components, each with a
 * method and a positive amount, no method twice, amounts adding up to the
 * goods total) and the client address taken from proxy headers.
 *
 * BigDecimal amounts are exact integers here; `compareTo` is numeric
 * comparison.
 */
module HoaDonController {
  import opened Common
  import HoaDon

  type PaymentMethod = HoaDon.PaymentMethod

  /** A payment component; each part may be null. */
  datatype PaymentComponent = PaymentComponent(phuongThuc: Option<PaymentMethod>, amount: Option<int>)

  datatype MixedPaymentRequest = MixedPaymentRequest(payments: Option<seq<Option<PaymentComponent>>>, tongTienHang: Option<int>)

  /** A component that passes: present, with a method and a positive amount. */
  predicate GoodComponent(p: Option<PaymentComponent>)
  {
    p.Some? && p.value.phuongThuc.Some? && p.value.amount.Some? && p.value.amount.value > 0
  }

  /** Every component passes. */
  predicate AllGood(payments: seq<Option<PaymentComponent>>)
  {
    forall k :: 0 <= k < |payments| ==>
      payments[k].Some? && payments[k].value.phuongThuc.Some? && payments[k].value.amount.Some? && payments[k].value.amount.value > 0
  }

  /** The message for the component at position `i` (counted from 1 in the text), if it fails. */
  function ComponentError(p: Option<PaymentComponent>, i: nat): (r: Option<string>)
    ensures r.None? <==> GoodComponent(p)
  {
    var pos := NatToString(i + 1);
    if p.None? then Some("Thành phần thanh toán thứ " + pos + " không được để trống")
    else if p.value.phuongThuc.None? then Some("Phương thức thanh toán thứ " + pos + " không được để trống")
    // The test for a method other than TIEN_MAT, VNPAY and MOMO cannot fail: those are all the methods.
    else if p.value.amount.None? || p.value.amount.value <= 0 then Some("Số tiền thanh toán thứ " + pos + " phải lớn hơn 0")
    else None
  }

  /** The loop of validatePaymentComponents from position `i`: the first failing component's message. */
  function FirstComponentError(payments: seq<Option<PaymentComponent>>, i: nat): (r: Option<string>)
    requires i <= |payments|
    ensures r.None? <==> forall k :: i <= k < |payments| ==> GoodComponent(payments[k])
    ensures i == 0 ==> (r.None? <==> AllGood(payments))
    decreases |payments| - i
  {
    if i == |payments| then None
    else if ComponentError(payments[i], i).Some? then ComponentError(payments[i], i)
    else FirstComponentError(payments, i + 1)
  }

  /** The methods of good components. */
  function Methods(payments: seq<Option<PaymentComponent>>): (ms: seq<PaymentMethod>)
    requires AllGood(payments)
    ensures |ms| == |payments| && forall k :: 0 <= k < |ms| ==> ms[k] == payments[k].value.phuongThuc.value
  {
    if payments == [] then [] else [payments[0].value.phuongThuc.value] + Methods(payments[1..])
  }

  /** The amounts of good components. */
  function Amounts(payments: seq<Option<PaymentComponent>>): (xs: seq<int>)
    requires AllGood(payments)
    ensures |xs| == |payments| && forall k :: 0 <= k < |xs| ==> xs[k] == payments[k].value.amount.value
  {
    if payments == [] then [] else [payments[0].value.amount.value] + Amounts(payments[1..])
  }

  /** `stream().distinct().count() == size()`: no method occurs twice. */
  predicate DistinctMethods(ms: seq<PaymentMethod>)
  {
    |set k | 0 <= k < |ms| :: ms[k]| == |ms|
  }

  lemma {:induction false} DistinctCount(ms: seq<PaymentMethod>)
    ensures |set k | 0 <= k < |ms| :: ms[k]| <= |ms|
    ensures DistinctMethods(ms) <==> forall i, j :: 0 <= i < j < |ms| ==> ms[i] != ms[j]
  {
    if ms != [] {
      var init := ms[..|ms| - 1];
      DistinctCount(init);
      var s := set k | 0 <= k < |ms| :: ms[k];
      var t := set k | 0 <= k < |init| :: init[k];
      assert s == t + {ms[|ms| - 1]};
      if ms[|ms| - 1] in t {
        assert |s| == |t|;
        var k :| 0 <= k < |init| && init[k] == ms[|ms| - 1];
        assert ms[k] == ms[|ms| - 1];
      } else {
        assert |s| == |t| + 1;
        if DistinctMethods(ms) {
          forall i, j | 0 <= i < j < |ms| ensures ms[i] != ms[j] {
            if j < |ms| - 1 {
              assert init[i] == ms[i] && init[j] == ms[j];
            } else {
              assert init[i] == ms[i];
            }
          }
        } else {
          assert !DistinctMethods(init);
          var i, j :| 0 <= i < j < |init| && init[i] == init[j];
          assert ms[i] == ms[j];
        }
      }
    }
  }

  function TotalMismatchMessage(total: int, tongTienHang: int): string
  {
    "Tổng số tiền thanh toán (" + IntToString(total) + ") không khớp với tổng tiền hàng (" + IntToString(tongTienHang) + ")"
  }

  const MixedRequestMissing := "Yêu cầu thanh toán hỗn hợp không được để trống"
  const MixedPaymentsMissing := "Danh sách phương thức thanh toán không được để trống"
  const MixedTooFewMethods := "Thanh toán hỗn hợp phải có ít nhất 2 phương thức thanh toán"
  const MixedTooManyMethods := "Thanh toán hỗn hợp không được vượt quá 3 phương thức thanh toán"
  const MixedTotalNotPositive := "Tổng tiền hàng phải lớn hơn 0"
  const MixedDuplicateMethod := "Không được sử dụng trùng lặp phương thức thanh toán"

  /**
   * validateMixedPaymentRequest with validatePaymentComponents and
   * validateTotalAmountConsistency: the first failing check's message.
   */
  function ValidateMixedPaymentRequest(request: Option<MixedPaymentRequest>): (r: Result<(), string>)
    ensures r.Ok? <==>
      request.Some? && request.value.payments.Some? && 2 <= |request.value.payments.value| <= 3
      && request.value.tongTienHang.Some? && request.value.tongTienHang.value > 0
      && AllGood(request.value.payments.value)
      && (forall i, j :: 0 <= i < j < |request.value.payments.value| ==>
            request.value.payments.value[i].value.phuongThuc != request.value.payments.value[j].value.phuongThuc)
      && Sum(Amounts(request.value.payments.value)) == request.value.tongTienHang.value
    ensures request.Some? && request.value.payments.Some? && |request.value.payments.value| > 3 ==>
      r == Err(MixedTooManyMethods)
  {
    if request.None? then Err(MixedRequestMissing)
    else if request.value.payments.None? || |request.value.payments.value| == 0 then
      Err(MixedPaymentsMissing)
    else if |request.value.payments.value| < 2 then Err(MixedTooFewMethods)
    else if |request.value.payments.value| > 3 then Err(MixedTooManyMethods)
    else if request.value.tongTienHang.None? || request.value.tongTienHang.value <= 0 then Err(MixedTotalNotPositive)
    else
      var payments := request.value.payments.value;
      var componentError := FirstComponentError(payments, 0);
      if componentError.Some? then Err(componentError.value)
      else
        var ms := Methods(payments);
        DistinctCount(ms);
        if !DistinctMethods(ms) then Err(MixedDuplicateMethod)
        else if Sum(Amounts(payments)) != request.value.tongTienHang.value then
          Err(TotalMismatchMessage(Sum(Amounts(payments)), request.value.tongTienHang.value))
        else Ok(())
  }

  /** An accepted request uses two or three different methods, all with positive amounts, so the total exceeds each part. */
  lemma AcceptedPartsBelowTotal(request: MixedPaymentRequest, k: nat)
    requires ValidateMixedPaymentRequest(Some(request)).Ok?
    requires k < |request.payments.value|
    ensures 0 < request.payments.value[k].value.amount.value < request.tongTienHang.value
  {
    var xs := Amounts(request.payments.value);
    var other := if k == 0 then 1 else 0;
    assert xs[k] > 0 && xs[other] > 0;
    PartBelowSum(xs, k, other);
  }

  lemma {:induction false} PartBelowSum(xs: seq<int>, k: nat, other: nat)
    requires forall i :: 0 <= i < |xs| ==> xs[i] > 0
    requires k < |xs| && other < |xs| && k != other
    ensures xs[k] < Sum(xs)
  {
    var last := |xs| - 1;
    var init := xs[..last];
    assert Sum(xs) == Sum(init) + xs[last];
    SumNonNegative(init);
    if k == last {
      assert init[other] == xs[other];
      PositivePartOfSum(init, other);
    } else if other == last {
      assert init[k] == xs[k];
      PositivePartOfSum(init, k);
    } else {
      assert init[k] == xs[k] && init[other] == xs[other];
      PartBelowSum(init, k, other);
    }
  }

  lemma {:induction false} PositivePartOfSum(xs: seq<int>, k: nat)
    requires forall i :: 0 <= i < |xs| ==> xs[i] > 0
    requires k < |xs|
    ensures xs[k] <= Sum(xs)
  {
    var last := |xs| - 1;
    var init := xs[..last];
    SumNonNegative(init);
    if k != last {
      assert init[k] == xs[k];
      PositivePartOfSum(init, k);
    }
  }

  // ------------------------------------------------------- client address

  /** A header value that is used: present, non-empty and not "unknown" in any case (no trimming here). */
  predicate Usable(v: Option<string>)
  {
    v.Some? && v.value != "" && !EqualsIgnoreCase(v.value, "unknown")
  }

  /**
   * getClientIpAddress: X-Forwarded-For, Proxy-Client-IP, WL-Proxy-Client-IP
   * or else the remote address; of a list, the first entry trimmed; null
   * gives 127.0.0.1. None stands for the exception `split(",")[0]` throws
   * on a value made only of commas.
   */
  function ClientIpAddress(forwardedFor: Option<string>, proxyClientIp: Option<string>,
                           wlProxyClientIp: Option<string>, remoteAddr: Option<string>): (r: Option<string>)
    ensures Usable(forwardedFor) && ',' !in forwardedFor.value ==> r == forwardedFor
    ensures !Usable(forwardedFor) && Usable(proxyClientIp) && ',' !in proxyClientIp.value ==> r == proxyClientIp
    ensures !Usable(forwardedFor) && !Usable(proxyClientIp) && !Usable(wlProxyClientIp) && remoteAddr.None? ==>
      r == Some("127.0.0.1")
    ensures r.Some? ==> ',' !in r.value
  {
    var ip := if Usable(forwardedFor) then forwardedFor
              else if Usable(proxyClientIp) then proxyClientIp
              else if Usable(wlProxyClientIp) then wlProxyClientIp
              else remoteAddr;
    if ip.None? then Some("127.0.0.1")
    else if ',' !in ip.value then ip
    else
      var parts := JavaSplitChar(ip.value, ',');
      if parts == [] then None
      else
        FirstPartHasNoComma(ip.value);
        Some(JavaTrim(parts[0]))
  }

  lemma FirstPartHasNoComma(s: string)
    requires JavaSplitChar(s, ',') != []
    ensures ',' !in JavaTrim(JavaSplitChar(s, ',')[0])
  {
    var p := JavaSplitChar(s, ',')[0];
    if s != [] {
      assert p == SplitChar(s, ',')[0];
    }
    var t := TrimStart(p, IsJavaTrimmed);
    SliceKeepsAbsence(p, ',', |p| - |t|, |p|);
    var u := TrimEnd(t, IsJavaTrimmed);
    SliceKeepsAbsence(t, ',', 0, |u|);
  }

  lemma SliceKeepsAbsence(p: string, c: char, i: nat, j: nat)
    requires c !in p && i <= j <= |p|
    ensures c !in p[i..j]
  {
  }

  /** The first entry of a forwarded list is the client. */
  lemma ForwardedListFirstEntry(first: string, rest: string)
    requires first != "" && ',' !in first && forall i :: 0 <= i < |first| ==> !IsJavaTrimmed(first[i])
    requires !EqualsIgnoreCase(first + "," + rest, "unknown")
    ensures ClientIpAddress(Some(first + "," + rest), None, None, None) == Some(first)
  {
    var s := first + "," + rest;
    assert s[|first|] == ',';
    SplitFirstPart(first, rest);
  }

  lemma SplitFirstPart(first: string, rest: string)
    requires first != "" && ',' !in first
    ensures JavaSplitChar(first + "," + rest, ',') != [] && JavaSplitChar(first + "," + rest, ',')[0] == first
  {
    SplitCons(first, ',', rest);
    assert first + "," + rest == first + [','] + rest;
    var parts := SplitChar(first + "," + rest, ',');
    assert parts[0] == first;
    var kept := DropTrailingEmpty(parts);
    assert |kept| >= 1;
    assert kept[0] == parts[0];
  }
}
