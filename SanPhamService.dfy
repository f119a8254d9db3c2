/**
 * Product rules (SanPhamService.java): the next product code after the last
 * one stored, the SKU of a new variant (its attribute codes, cleaned, with
 * the first free numeric suffix), the checks on a product before it is
 * saved, and the tally of a batch status change.
 *
 * Repository reads are parameters: the last stored code, the set of SKUs
 * already taken, and the stored status of each product.
 */
module SanPhamService {
  import opened Common

  // --------------------------------------------------------- product code

  /** `^SP\d{3}$` */
  predicate IsProductCode(s: string)
  {
    |s| == 5 && s[..2] == "SP" && AllDigits(s[2..])
  }

  /** `String.format("%03d", n)`: the sign counts towards the width of three. */
  function Format03(n: int): string
  {
    if n >= 0 then PadDigits(n, 3) else "-" + PadDigits(-n, 2)
  }

  const LimitMessage := "Đã đạt đến giới hạn mã sản phẩm (SP999)"

  function InvalidFormatMessage(last: string): string { "Định dạng mã sản phẩm không hợp lệ: " + last }

  /**
   * generateMaSanPham: SP001 when no code is stored; otherwise the number
   * after "SP" plus one (in `int` arithmetic), refused past 999 and for a
   * code whose tail is not an integer.
   */
  function GenerateMaSanPham(last: Option<string>): (r: Result<string, string>)
    ensures last.None? ==> r == Ok("SP001")
    ensures last.Some? && (|last.value| < 2 || JavaParseInteger(last.value[2..], IntMin, IntMax).None?) ==>
      r == Err(InvalidFormatMessage(last.value))
    ensures r.Ok? ==> StartsWith(r.value, "SP")
  {
    if last.None? then Ok("SP001")
    else if |last.value| < 2 then Err(InvalidFormatMessage(last.value))
    else
      var parsed := JavaParseInteger(last.value[2..], IntMin, IntMax);
      if parsed.None? then Err(InvalidFormatMessage(last.value))
      else
        var next := Wrap32(parsed.value + 1);
        if next > 999 then Err(LimitMessage) else Ok("SP" + Format03(next))
  }

  /** After a well-formed code below SP999 comes the well-formed code one higher. */
  lemma NextCodeAfterWellFormed(last: string)
    requires IsProductCode(last) && DigitsValue(last[2..]) < 999
    ensures GenerateMaSanPham(Some(last)).Ok?
    ensures var code := GenerateMaSanPham(Some(last)).value;
      IsProductCode(code) && DigitsValue(code[2..]) == DigitsValue(last[2..]) + 1
  {
    var n := DigitsValue(last[2..]) + 1;
    NatToStringAtMost3(n);
    PadDigitsValue(n, 3);
    var code := "SP" + PadDigits(n, 3);
    assert code[2..] == PadDigits(n, 3);
    assert code[..2] == "SP";
  }

  /** SP999 is the last code handed out. */
  lemma LimitAfterSp999(last: string)
    requires IsProductCode(last) && DigitsValue(last[2..]) == 999
    ensures GenerateMaSanPham(Some(last)) == Err(LimitMessage)
  {
  }

  /** A tail that is no integer is reported with the stored code. */
  lemma MalformedLastCode()
    ensures GenerateMaSanPham(Some("SPX1")) == Err(InvalidFormatMessage("SPX1"))
  {
    assert "SPX1"[2..] == "X1";
  }

  // ------------------------------------------------------------------ SKU

  /** The attribute codes of a variant that are set, each as the attribute's own code. */
  datatype Variant = Variant(cpu: Option<string>, ram: Option<string>, storage: Option<string>,
                             color: Option<string>, gpu: Option<string>, screen: Option<string>)

  function Dash(code: Option<string>): string { if code.Some? then "-" + code.value else "" }

  /** The raw SKU: the product code, then "-code" for cpu, ram, storage, colour, gpu and screen, in that order. */
  function RawSku(productCode: string, v: Variant): string
  {
    productCode + Dash(v.cpu) + Dash(v.ram) + Dash(v.storage) + Dash(v.color) + Dash(v.gpu) + Dash(v.screen)
  }

  predicate SkuChar(c: char) { IsAsciiLetter(c) || IsAsciiDigit(c) || c == '-' }

  /** `replaceAll("[^a-zA-Z0-9-]", "")` */
  function KeepSkuChars(s: string): (r: string)
    ensures |r| <= |s|
    ensures forall i :: 0 <= i < |r| ==> SkuChar(r[i])
    ensures (forall i :: 0 <= i < |s| ==> SkuChar(s[i])) ==> r == s
  {
    if s == [] then []
    else if SkuChar(s[|s| - 1]) then KeepSkuChars(s[..|s| - 1]) + [s[|s| - 1]]
    else KeepSkuChars(s[..|s| - 1])
  }

  /** Upper-case letters, digits and '-' only. */
  predicate CleanSku(s: string)
  {
    forall i :: 0 <= i < |s| ==> ('A' <= s[i] <= 'Z') || IsAsciiDigit(s[i]) || s[i] == '-'
  }

  /** The SKU base: the raw SKU without other characters, upper-cased. */
  function SkuBase(productCode: string, v: Variant): (r: string)
    ensures CleanSku(r)
    ensures |r| <= |RawSku(productCode, v)|
  {
    Upper(KeepSkuChars(RawSku(productCode, v)))
  }

  /** A raw SKU already made of upper-case letters, digits and '-' is its own base. */
  lemma CleanRawSkuIsBase(productCode: string, v: Variant)
    requires CleanSku(RawSku(productCode, v))
    ensures SkuBase(productCode, v) == RawSku(productCode, v)
  {
    var raw := RawSku(productCode, v);
    assert forall i :: 0 <= i < |raw| ==> SkuChar(raw[i]);
    assert KeepSkuChars(raw) == raw;
  }

  /** Cleaning twice changes nothing. */
  lemma SkuBaseIdempotent(s: string)
    requires CleanSku(s)
    ensures Upper(KeepSkuChars(s)) == s
  {
    assert forall i :: 0 <= i < |s| ==> SkuChar(s[i]);
  }

  /** The candidate tried after `n` collisions: `base-n`. */
  function Candidate(base: string, n: nat): string
  {
    if n == 0 then base else base + "-" + NatToString(n)
  }

  lemma CandidatesDistinct(base: string, i: nat, j: nat)
    requires i != j
    ensures Candidate(base, i) != Candidate(base, j)
  {
    if i > 0 && j > 0 && Candidate(base, i) == Candidate(base, j) {
      assert Candidate(base, i)[|base| + 1..] == NatToString(i);
      assert Candidate(base, j)[|base| + 1..] == NatToString(j);
      NatToStringValue(i);
      NatToStringValue(j);
    }
  }

  /** The candidates tried before the `n`-th. */
  function CandidatesBelow(base: string, n: nat): (s: set<string>)
    ensures forall k :: 0 <= k < n ==> Candidate(base, k) in s
    ensures forall x :: x in s ==> exists k :: 0 <= k < n && x == Candidate(base, k)
  {
    if n == 0 then {} else CandidatesBelow(base, n - 1) + {Candidate(base, n - 1)}
  }

  lemma {:induction false} CandidatesBelowSize(base: string, n: nat)
    ensures |CandidatesBelow(base, n)| == n
  {
    if n > 0 {
      CandidatesBelowSize(base, n - 1);
      var prev := CandidatesBelow(base, n - 1);
      var x := Candidate(base, n - 1);
      assert x !in prev by {
        forall k | 0 <= k < n - 1 ensures Candidate(base, k) != x {
          CandidatesDistinct(base, k, n - 1);
        }
      }
      assert CandidatesBelow(base, n) == prev + {x};
    }
  }

  /**
   * generateUniqueSkuForVariant: the base itself if free, else `base-n`
   * for the smallest n from 1 whose SKU is free. `taken` is the set of
   * SKUs `existsBySku` reports.
   */
  method GenerateUniqueSku(productCode: string, v: Variant, taken: set<string>) returns (sku: string, n: nat)
    ensures sku == Candidate(SkuBase(productCode, v), n)
    ensures sku !in taken
    ensures forall k :: 0 <= k < n ==> Candidate(SkuBase(productCode, v), k) in taken
  {
    var base := SkuBase(productCode, v);
    sku := base;
    n := 0;
    while sku in taken
      invariant sku == Candidate(base, n)
      invariant CandidatesBelow(base, n) <= taken
      decreases |taken| - n
    {
      CandidatesBelowSize(base, n + 1);
      assert CandidatesBelow(base, n + 1) <= taken;
      assert |CandidatesBelow(base, n + 1)| <= |taken| by {
        SubsetSize(CandidatesBelow(base, n + 1), taken);
      }
      n := n + 1;
      sku := base + "-" + NatToString(n);
    }
  }

  lemma SubsetSize<T>(a: set<T>, b: set<T>)
    requires a <= b
    ensures |a| <= |b|
  {
    assert b == a + (b - a);
  }

  // --------------------------------------------------------- business rules

  /**
   * validateProductBusinessRules: a code, if set, must be SP and three
   * digits; a name, if set, at least three characters once trimmed; at
   * most ten images.
   */
  function ValidateProductBusinessRules(maSanPham: Option<string>, tenSanPham: Option<string>, imageCount: Option<nat>)
    : (r: Result<(), string>)
    ensures r.Ok? <==> (maSanPham.None? || IsProductCode(maSanPham.value))
                       && (tenSanPham.None? || |JavaTrim(tenSanPham.value)| >= 3)
                       && (imageCount.None? || imageCount.value <= 10)
    ensures maSanPham.Some? && !IsProductCode(maSanPham.value) ==>
      r == Err("Mã sản phẩm phải có định dạng SP + 3 chữ số (ví dụ: SP001)")
  {
    if maSanPham.Some? && !IsProductCode(maSanPham.value) then
      Err("Mã sản phẩm phải có định dạng SP + 3 chữ số (ví dụ: SP001)")
    else if tenSanPham.Some? && |JavaTrim(tenSanPham.value)| < 3 then
      Err("Tên sản phẩm phải có ít nhất 3 ký tự")
    else if imageCount.Some? && imageCount.value > 10 then
      Err("Sản phẩm không được có quá 10 hình ảnh")
    else Ok(())
  }

  /** Every code the generator hands out passes the code rule. */
  lemma GeneratedCodePassesRules(last: Option<string>)
    requires last.None? || (IsProductCode(last.value) && DigitsValue(last.value[2..]) < 999)
    ensures GenerateMaSanPham(last).Ok?
    ensures ValidateProductBusinessRules(Some(GenerateMaSanPham(last).value), None, None).Ok?
  {
    if last.Some? {
      NextCodeAfterWellFormed(last.value);
    } else {
      assert "SP001"[..2] == "SP" && "SP001"[2..] == "001";
    }
  }

  // ------------------------------------------------------- batch status

  datatype BatchResult = BatchResult(operation: string, successCount: nat, failureCount: nat, message: string)

  /** The stored status of each product, which may be null. */
  type Statuses = map<int, Option<bool>>

  /**
   * One product of the batch: a missing product fails; a found one is saved
   * with the new status, but the audit entry needs both the old and the new
   * status to be non-null, or the update counts as failed (after the save).
   */
  function UpdateOne(statuses: Statuses, id: int, newStatus: Option<bool>): (Statuses, bool)
  {
    if id !in statuses then (statuses, false)
    else (statuses[id := newStatus], statuses[id].Some? && newStatus.Some?)
  }

  function BatchMessage(successes: nat, failures: nat): string
  {
    "Đã cập nhật " + NatToString(successes) + " sản phẩm thành công"
    + (if failures > 0 then ", " + NatToString(failures) + " sản phẩm thất bại" else "")
  }

  /** The number of ids in `ids` that count as successes, over the statuses as they evolve. */
  function Successes(statuses: Statuses, ids: seq<int>, newStatus: Option<bool>): (n: nat)
    ensures n <= |ids|
    decreases |ids|
  {
    if ids == [] then 0
    else
      var step := UpdateOne(statuses, ids[0], newStatus);
      (if step.1 then 1 else 0) + Successes(step.0, ids[1..], newStatus)
  }

  /** The statuses after the batch: every id found is set to the new status, the others untouched. */
  function Updated(statuses: Statuses, ids: seq<int>, newStatus: Option<bool>): (r: Statuses)
    ensures r.Keys == statuses.Keys
    ensures forall id :: id in statuses ==> r[id] == if id in ids then newStatus else statuses[id]
    decreases |ids|
  {
    if ids == [] then statuses
    else Updated(UpdateOne(statuses, ids[0], newStatus).0, ids[1..], newStatus)
  }

  lemma {:induction false} BatchStep(statuses: Statuses, ids: seq<int>, i: nat, newStatus: Option<bool>)
    requires i < |ids|
    ensures Successes(statuses, ids[i..], newStatus) ==
      (if UpdateOne(statuses, ids[i], newStatus).1 then 1 else 0)
      + Successes(UpdateOne(statuses, ids[i], newStatus).0, ids[i + 1..], newStatus)
    ensures Updated(statuses, ids[i..], newStatus) == Updated(UpdateOne(statuses, ids[i], newStatus).0, ids[i + 1..], newStatus)
  {
    assert ids[i..][0] == ids[i];
    assert ids[i..][1..] == ids[i + 1..];
  }

  /** updateMultipleProductStatus: every id counted once, as a success or a failure. */
  method UpdateMultipleProductStatus(statuses: Statuses, ids: seq<int>, newStatus: Option<bool>)
    returns (result: BatchResult, after: Statuses)
    ensures result.successCount + result.failureCount == |ids|
    ensures result.successCount == Successes(statuses, ids, newStatus)
    ensures after == Updated(statuses, ids, newStatus)
    ensures result == BatchResult("BATCH_STATUS_UPDATE", result.successCount, result.failureCount,
                                  BatchMessage(result.successCount, result.failureCount))
  {
    var successCount := 0;
    var failureCount := 0;
    after := statuses;
    var i := 0;
    while i < |ids|
      invariant 0 <= i <= |ids|
      invariant successCount + failureCount == i
      invariant successCount + Successes(after, ids[i..], newStatus) == Successes(statuses, ids, newStatus)
      invariant Updated(after, ids[i..], newStatus) == Updated(statuses, ids, newStatus)
    {
      BatchStep(after, ids, i, newStatus);
      var step := UpdateOne(after, ids[i], newStatus);
      after := step.0;
      if step.1 {
        successCount := successCount + 1;
      } else {
        failureCount := failureCount + 1;
      }
      i := i + 1;
    }
    assert ids[i..] == [];
    result := BatchResult("BATCH_STATUS_UPDATE", successCount, failureCount, BatchMessage(successCount, failureCount));
  }

  /** With every id present and both statuses known, the whole batch succeeds. */
  lemma {:induction false} AllFoundAllSucceed(statuses: Statuses, ids: seq<int>, newStatus: bool)
    requires forall k :: 0 <= k < |ids| ==> ids[k] in statuses && statuses[ids[k]].Some?
    ensures Successes(statuses, ids, Some(newStatus)) == |ids|
    decreases |ids|
  {
    if ids != [] {
      var next := UpdateOne(statuses, ids[0], Some(newStatus)).0;
      assert forall k :: 0 <= k < |ids[1..]| ==> ids[1..][k] in next && next[ids[1..][k]].Some? by {
        forall k | 0 <= k < |ids[1..]| ensures ids[1..][k] in next && next[ids[1..][k]].Some? {
          assert ids[1..][k] == ids[k + 1];
        }
      }
      AllFoundAllSucceed(next, ids[1..], newStatus);
    }
  }
}
