/**
 * The admin order form's validators (useOrderValidation.js): the generic
 * rule runner `validateField`, the whole-order check `validateOrderData`,
 * and the stand-alone phone, street, address-hierarchy and complete-address
 * validators.
 *
 * JavaScript values reaching a rule are missing (null/undefined), text or
 * an integral number.
 */
module OrderValidation {
  import opened Common

  datatype JsValue = Missing | Text(s: string) | Number(n: int)

  /** JavaScript truthiness: null, undefined, "" and 0 are falsy. */
  predicate Truthy(v: JsValue)
  {
    match v
    case Missing => false
    case Text(s) => s != ""
    case Number(n) => n != 0
  }

  /**
   * `Number(text)` for the numerals the model reads: blank text is 0, an
   * optionally '-'-signed run of ASCII digits is its value, anything else
   * is NaN (None).
   */
  function JsNumber(s: string): Option<int>
  {
    var t := JsTrim(s);
    if t == "" then Some(0)
    else if AllDigits(t) then Some(DigitsValue(t))
    else if t[0] == '-' && |t| > 1 && AllDigits(t[1..]) then Some(0 - DigitsValue(t[1..]))
    else None
  }

  /** `String(value)` for the values a pattern rule tests. */
  function JsText(v: JsValue): string
  {
    match v
    case Missing => "null"
    case Text(s) => s
    case Number(n) => IntToString(n)
  }

  // ------------------------------------------------------------- formats

  /** `[^\s@]` */
  predicate EmailChar(c: char) { c != '@' && !IsJsWhitespace(c) }

  /** `/^[^\s@]+@[^\s@]+\.[^\s@]+$/`: one '@' with text before it, and a '.' with text on both sides after it. */
  predicate EmailShape(s: string)
  {
    exists i :: 0 < i < |s| && s[i] == '@'
      && (forall k :: 0 <= k < |s| && k != i ==> EmailChar(s[k]))
      && (exists j :: i + 1 < j < |s| - 1 && s[j] == '.')
  }

  /** `/^[0-9]{10,11}$/` */
  predicate PhoneShape(s: string) { 10 <= |s| <= 11 && AllDigits(s) }

  // --------------------------------------------------------- validateField

  datatype Rule =
    | Required(message: Option<string>)
    | Email(message: Option<string>)
    | Phone(message: Option<string>)
    | Address(message: Option<string>)
    | MaxLength(limit: int, message: Option<string>)
    | MinValue(limit: int, message: Option<string>)
    | Pattern(matches: string -> bool, message: Option<string>)

  /** Calling `replace` or `trim` on a number throws a TypeError. */
  datatype TypeError = TypeError

  /** `rule.message || fallback` */
  function MessageOr(message: Option<string>, fallback: string): string
  {
    if message.Some? && message.value != "" then message.value else fallback
  }

  /** The `required` rule fails for falsy values and for whitespace-only text. */
  predicate FailsRequired(v: JsValue)
  {
    !Truthy(v) || (v.Text? && JsTrim(v.s) == "")
  }

  /** The errors one rule adds for `value`. */
  function RuleErrors(fieldName: string, value: JsValue, rule: Rule): Result<seq<string>, TypeError>
  {
    match rule
    case Required(m) =>
      Ok(if FailsRequired(value) then [MessageOr(m, fieldName + " không được để trống")] else [])
    case Email(m) =>
      Ok(if Truthy(value) && !EmailShape(JsText(value)) then [MessageOr(m, "Email không hợp lệ")] else [])
    case Phone(m) =>
      if !Truthy(value) then Ok([])
      else if value.Number? then Err(TypeError)
      else Ok(if !PhoneShape(JsStripWhitespace(value.s)) then [MessageOr(m, "Số điện thoại phải có 10-11 chữ số")] else [])
    case Address(m) =>
      if !Truthy(value) then Ok([])
      else if value.Number? then Err(TypeError)
      else Ok(if |JsTrim(value.s)| < 5 then [MessageOr(m, "Địa chỉ phải có ít nhất 5 ký tự")] else [])
    case MaxLength(limit, m) =>
      // a number has no `length`; `undefined > limit` is false
      Ok(if Truthy(value) && value.Text? && |value.s| > limit
         then [MessageOr(m, fieldName + " không được vượt quá " + IntToString(limit) + " ký tự")] else [])
    case MinValue(limit, m) =>
      var n := match value
               case Missing => None
               case Text(s) => JsNumber(s)
               case Number(k) => Some(k);
      Ok(if n.Some? && n.value < limit
         then [MessageOr(m, fieldName + " phải lớn hơn hoặc bằng " + IntToString(limit))] else [])
    case Pattern(matches, m) =>
      Ok(if Truthy(value) && !matches(JsText(value)) then [MessageOr(m, fieldName + " không đúng định dạng")] else [])
  }

  /** Only the phone and address rules throw, and only on a non-zero number. */
  lemma OnlyTextRulesThrow(fieldName: string, value: JsValue, rule: Rule)
    ensures RuleErrors(fieldName, value, rule).Err? <==> (rule.Phone? || rule.Address?) && value.Number? && value.n != 0
  {
  }

  /** Errors already collected, followed by the outcome of the remaining rules. */
  function Then(errors: seq<string>, rest: Result<seq<string>, TypeError>): Result<seq<string>, TypeError>
  {
    match rest
    case Ok(more) => Ok(errors + more)
    case Err(e) => Err(e)
  }

  lemma ThenEmpty(rest: Result<seq<string>, TypeError>)
    ensures Then([], rest) == rest
  {
    if rest.Ok? {
      assert [] + rest.value == rest.value;
    }
  }

  lemma ThenThen(a: seq<string>, b: seq<string>, rest: Result<seq<string>, TypeError>)
    ensures Then(a, Then(b, rest)) == Then(a + b, rest)
  {
    if rest.Ok? {
      assert a + (b + rest.value) == a + b + rest.value;
    }
  }

  /** The errors of the rules in order; the first TypeError aborts. */
  function FieldErrors(fieldName: string, value: JsValue, rules: seq<Rule>): Result<seq<string>, TypeError>
  {
    if rules == [] then Ok([])
    else
      match RuleErrors(fieldName, value, rules[0])
      case Err(e) => Err(e)
      case Ok(errs) => Then(errs, FieldErrors(fieldName, value, rules[1..]))
  }

  /** A single rule contributes exactly its own errors. */
  lemma OneRule(fieldName: string, value: JsValue, a: Rule)
    ensures FieldErrors(fieldName, value, [a]) == RuleErrors(fieldName, value, a)
  {
    assert [a][1..] == [];
    var r := RuleErrors(fieldName, value, a);
    if r.Ok? {
      assert r.value + [] == r.value;
    }
  }

  /** Two rules: the first one's errors, then the second one's, unless either throws. */
  lemma TwoRules(fieldName: string, value: JsValue, a: Rule, b: Rule)
    ensures FieldErrors(fieldName, value, [a, b])
         == match RuleErrors(fieldName, value, a)
            case Err(e) => Err(e)
            case Ok(errs) => Then(errs, RuleErrors(fieldName, value, b))
  {
    assert [a, b][1..] == [b];
    OneRule(fieldName, value, b);
  }

  /** The rules from `i` on: rule `i`'s outcome, then the rest's. */
  lemma FieldErrorsStep(fieldName: string, value: JsValue, rules: seq<Rule>, i: nat)
    requires i < |rules|
    ensures RuleErrors(fieldName, value, rules[i]).Err? ==> FieldErrors(fieldName, value, rules[i..]) == Err(TypeError)
    ensures RuleErrors(fieldName, value, rules[i]).Ok? ==>
      FieldErrors(fieldName, value, rules[i..]) == Then(RuleErrors(fieldName, value, rules[i]).value, FieldErrors(fieldName, value, rules[i + 1..]))
  {
    assert rules[i..][0] == rules[i] && rules[i..][1..] == rules[i + 1..];
  }

  /** validateField */
  method ValidateField(fieldName: string, value: JsValue, rules: seq<Rule>) returns (r: Result<seq<string>, TypeError>)
    ensures r == FieldErrors(fieldName, value, rules)
  {
    var errors: seq<string> := [];
    var i := 0;
    assert rules[0..] == rules;
    ThenEmpty(FieldErrors(fieldName, value, rules));
    while i < |rules|
      invariant 0 <= i <= |rules|
      invariant FieldErrors(fieldName, value, rules) == Then(errors, FieldErrors(fieldName, value, rules[i..]))
    {
      var more := RuleErrors(fieldName, value, rules[i]);
      FieldErrorsStep(fieldName, value, rules, i);
      if more.Err? {
        return Err(TypeError);
      }
      ThenThen(errors, more.value, FieldErrors(fieldName, value, rules[i + 1..]));
      errors := errors + more.value;
      i := i + 1;
    }
    assert errors + [] == errors;
    return Ok(errors);
  }

  /** The `required` rule alone: it fails exactly for falsy values and whitespace-only text. */
  lemma RequiredRule(fieldName: string, value: JsValue)
    ensures FieldErrors(fieldName, value, [Required(None)]).Ok?
    ensures FieldErrors(fieldName, value, [Required(None)]).value != []
        <==> value == Missing || value == Number(0) || (value.Text? && JsBlank(value.s))
  {
    OneRule(fieldName, value, Required(None));
    if value.Text? {
      JsTrimEmptyIff(value.s);
      assert value.s == "" ==> JsBlank(value.s);
    }
  }

  // ----------------------------------------------------- validateOrderData

  datatype Customer = Customer(soDienThoai: JsValue, hoTen: JsValue)

  datatype OrderData = OrderData(
    giaohang: bool,
    khachHang: Option<Customer>,
    diaChiGiaoHang: bool,              // whether a delivery address object is present
    sanPhamList: Option<seq<JsValue>>, // the quantity (soLuong) of each line
    phuongThucThanhToan: JsValue,
    ghiChu: JsValue,
    tongThanhToan: JsValue)

  type Errors = map<string, seq<string>>

  const EmptyProductList := "Đơn hàng phải có ít nhất một sản phẩm"

  function QuantityRules(): seq<Rule> { [Required(None), MinValue(1, None)] }

  function ItemKey(index: nat): string { "sanPham_" + NatToString(index) + "_soLuong" }
  function ItemName(index: nat): string { "Số lượng sản phẩm " + NatToString(index + 1) }

  /** `errors[key] = list` when the list is non-empty. */
  function PutIfAny(errors: Errors, key: string, list: seq<string>): Errors
  {
    if |list| > 0 then errors[key := list] else errors
  }

  /** The quantity errors of the first `n` lines. */
  function ItemErrors(items: seq<JsValue>, n: nat, errors: Errors): Errors
    requires n <= |items|
  {
    if n == 0 then errors
    else
      var errs := FieldErrors(ItemName(n - 1), items[n - 1], QuantityRules());
      PutIfAny(ItemErrors(items, n - 1, errors), ItemKey(n - 1), if errs.Ok? then errs.value else [])
  }

  /** The quantity rules never throw. */
  lemma QuantityRulesTotal(name: string, v: JsValue)
    ensures FieldErrors(name, v, QuantityRules()).Ok?
  {
    TwoRules(name, v, Required(None), MinValue(1, None));
    OnlyTextRulesThrow(name, v, Required(None));
    OnlyTextRulesThrow(name, v, MinValue(1, None));
  }

  /** The delivery part: customer, address, then the customer's phone and name. */
  function DeliveryErrors(o: OrderData): Result<Errors, TypeError>
  {
    if !o.giaohang then Ok(map[])
    else
      var e0: Errors := map[];
      var e1 := if o.khachHang.None? then e0["khachHang" := ["Khách hàng không được để trống cho đơn giao hàng"]] else e0;
      var e2 := if !o.diaChiGiaoHang then e1["diaChiGiaoHang" := ["Địa chỉ giao hàng không được để trống"]] else e1;
      if o.khachHang.None? then Ok(e2)
      else
        match FieldErrors("Số điện thoại", o.khachHang.value.soDienThoai, [Required(None), Phone(None)])
        case Err(e) => Err(e)
        case Ok(phone) =>
          var e3 := PutIfAny(e2, "soDienThoai", phone);
          match FieldErrors("Tên khách hàng", o.khachHang.value.hoTen, [Required(None), MaxLength(255, None)])
          case Err(e) => Err(e)
          case Ok(name) => Ok(PutIfAny(e3, "tenKhachHang", name))
  }

  /** The product lines: an empty list is one error, otherwise each line's quantity. */
  function ProductErrors(o: OrderData, e: Errors): Errors
  {
    if o.sanPhamList.None? || o.sanPhamList.value == [] then e["sanPhamList" := [EmptyProductList]]
    else ItemErrors(o.sanPhamList.value, |o.sanPhamList.value|, e)
  }

  /** The payment method must be given. */
  function PaymentMethodErrors(o: OrderData, e: Errors): Errors
  {
    if !Truthy(o.phuongThucThanhToan) then e["phuongThucThanhToan" := ["Phương thức thanh toán không được để trống"]] else e
  }

  /** The note, checked only when given: at most 500 characters. */
  function NotesErrors(o: OrderData, e: Errors): Errors
  {
    var notes := if Truthy(o.ghiChu) then FieldErrors("Ghi chú", o.ghiChu, [MaxLength(500, None)]) else Ok([]);
    if notes.Ok? then PutIfAny(e, "ghiChu", notes.value) else e
  }

  /** The rest of the order once the delivery part has been checked. */
  function RestErrors(o: OrderData, e: Errors): Result<Errors, TypeError>
  {
    TotalErrors(o, NotesErrors(o, PaymentMethodErrors(o, ProductErrors(o, e))))
  }

  /** The confirmed total: required and not negative. */
  function TotalErrors(o: OrderData, e: Errors): Result<Errors, TypeError>
  {
    var total := FieldErrors("Tổng tiền xác nhận", o.tongThanhToan, [Required(None), MinValue(0, None)]);
    if total.Ok? then Ok(PutIfAny(e, "tongThanhToan", total.value)) else Err(TypeError)
  }

  /** validateOrderData as a value. */
  function OrderErrors(o: OrderData): (r: Result<Errors, TypeError>)
  {
    match DeliveryErrors(o)
    case Err(e) => Err(e)
    case Ok(e) => RestErrors(o, e)
  }

  /** An order with no products always carries the sanPhamList error: later checks use other keys. */
  lemma NoProductsReported(o: OrderData)
    requires o.sanPhamList.None? || o.sanPhamList.value == []
    requires OrderErrors(o).Ok?
    ensures "sanPhamList" in OrderErrors(o).value && OrderErrors(o).value["sanPhamList"] == [EmptyProductList]
  {
    var e := DeliveryErrors(o).value;
    var e1 := e["sanPhamList" := [EmptyProductList]];
    var e2 := if !Truthy(o.phuongThucThanhToan) then e1["phuongThucThanhToan" := ["Phương thức thanh toán không được để trống"]] else e1;
    assert "sanPhamList" in e2 && e2["sanPhamList"] == [EmptyProductList];
  }

  /** Only a phone number given as a non-zero number makes the check throw. */
  lemma OrderErrorsThrowOnlyOnNumericPhone(o: OrderData)
    requires OrderErrors(o).Err?
    ensures o.giaohang && o.khachHang.Some? && o.khachHang.value.soDienThoai.Number?
  {
    if DeliveryErrors(o).Ok? {
      RestNeverThrows(o, DeliveryErrors(o).value);
      assert false;
    }
    DeliveryThrowsOnlyOnNumericPhone(o);
  }

  /** After the delivery part nothing throws: the confirmed total's rules are required and a minimum. */
  lemma RestNeverThrows(o: OrderData, e: Errors)
    ensures RestErrors(o, e).Ok?
  {
    TwoRules("Tổng tiền xác nhận", o.tongThanhToan, Required(None), MinValue(0, None));
    OnlyTextRulesThrow("Tổng tiền xác nhận", o.tongThanhToan, Required(None));
    OnlyTextRulesThrow("Tổng tiền xác nhận", o.tongThanhToan, MinValue(0, None));
  }

  lemma DeliveryThrowsOnlyOnNumericPhone(o: OrderData)
    requires DeliveryErrors(o).Err?
    ensures o.giaohang && o.khachHang.Some? && o.khachHang.value.soDienThoai.Number?
  {
    var c := o.khachHang.value;
    TwoRules("Tên khách hàng", c.hoTen, Required(None), MaxLength(255, None));
    OnlyTextRulesThrow("Tên khách hàng", c.hoTen, Required(None));
    OnlyTextRulesThrow("Tên khách hàng", c.hoTen, MaxLength(255, None));
    TwoRules("Số điện thoại", c.soDienThoai, Required(None), Phone(None));
    OnlyTextRulesThrow("Số điện thoại", c.soDienThoai, Required(None));
    OnlyTextRulesThrow("Số điện thoại", c.soDienThoai, Phone(None));
  }

  /** A line with a missing, zero, negative or blank quantity is reported under its own key. */
  lemma {:induction false} BadQuantityReported(items: seq<JsValue>, n: nat, errors: Errors, k: nat)
    requires k < n <= |items|
    requires FieldErrors(ItemName(k), items[k], QuantityRules()) != Ok([])
    ensures ItemKey(k) in ItemErrors(items, n, errors)
    decreases n
  {
    ItemErrorsStep(items, n - 1, errors);
    if k < n - 1 {
      BadQuantityReported(items, n - 1, errors, k);
    } else {
      QuantityRulesTotal(ItemName(k), items[k]);
    }
  }

  /** One more line: its quantity errors, when there are any, under its key. */
  lemma ItemErrorsStep(items: seq<JsValue>, i: nat, errors: Errors)
    requires i < |items|
    ensures FieldErrors(ItemName(i), items[i], QuantityRules()).Ok?
    ensures ItemErrors(items, i + 1, errors)
         == PutIfAny(ItemErrors(items, i, errors), ItemKey(i), FieldErrors(ItemName(i), items[i], QuantityRules()).value)
  {
    QuantityRulesTotal(ItemName(i), items[i]);
  }

  /** The `forEach` over the product lines of validateOrderData. */
  method ValidateItems(items: seq<JsValue>, errors: Errors) returns (r: Errors)
    ensures r == ItemErrors(items, |items|, errors)
  {
    r := errors;
    var i := 0;
    while i < |items|
      invariant 0 <= i <= |items|
      invariant r == ItemErrors(items, i, errors)
    {
      var quantity := ValidateField(ItemName(i), items[i], QuantityRules());
      ItemErrorsStep(items, i, errors);
      if |quantity.value| > 0 {
        r := r[ItemKey(i) := quantity.value];
      }
      i := i + 1;
    }
  }

  /** validateOrderData */
  method ValidateOrderData(o: OrderData) returns (r: Result<Errors, TypeError>)
    ensures r == OrderErrors(o)
  {
    var delivery := DeliveryErrors(o);
    if delivery.Err? {
      return Err(delivery.error);
    }
    r := ValidateRest(o, delivery.value);
  }

  /** The products, payment method, note and confirmed total, once the delivery part has passed. */
  method ValidateRest(o: OrderData, delivery: Errors) returns (r: Result<Errors, TypeError>)
    ensures r == RestErrors(o, delivery)
  {
    var errors := delivery;
    if o.sanPhamList.None? || o.sanPhamList.value == [] {
      errors := errors["sanPhamList" := [EmptyProductList]];
    } else {
      errors := ValidateItems(o.sanPhamList.value, errors);
    }
    assert errors == ProductErrors(o, delivery);
    if !Truthy(o.phuongThucThanhToan) {
      errors := errors["phuongThucThanhToan" := ["Phương thức thanh toán không được để trống"]];
    }
    assert errors == PaymentMethodErrors(o, ProductErrors(o, delivery));
    errors := ValidateNotes(o, errors);
    r := ValidateTotal(o, errors);
  }

  /** The note part of validateOrderData. */
  method ValidateNotes(o: OrderData, errors: Errors) returns (r: Errors)
    ensures r == NotesErrors(o, errors)
  {
    r := errors;
    if Truthy(o.ghiChu) {
      var notes := ValidateField("Ghi chú", o.ghiChu, [MaxLength(500, None)]);
      if notes.Ok? && |notes.value| > 0 {
        r := r["ghiChu" := notes.value];
      }
    }
  }

  /** The confirmed-total part of validateOrderData. */
  method ValidateTotal(o: OrderData, errors: Errors) returns (r: Result<Errors, TypeError>)
    ensures r == TotalErrors(o, errors)
  {
    var total := ValidateField("Tổng tiền xác nhận", o.tongThanhToan, [Required(None), MinValue(0, None)]);
    if total.Err? {
      return Err(TypeError);
    }
    if |total.value| > 0 {
      return Ok(errors["tongThanhToan" := total.value]);
    }
    return Ok(errors);
  }

  // --------------------------------------------------- stand-alone checks

  /** `{ isValid, error }` */
  datatype Verdict = Verdict(isValid: bool, error: Option<string>)

  const PhoneError := "Số điện thoại phải có 10-11 chữ số"

  /** validatePhoneNumber */
  function ValidatePhoneNumber(phone: Option<string>): (r: Verdict)
    ensures phone.None? || phone.value == "" ==> r == Verdict(false, None)
    ensures r.isValid <==> phone.Some? && phone.value != "" && PhoneShape(JsStripWhitespace(phone.value))
    ensures r.isValid ==> r.error.None?
    ensures !r.isValid && r.error.Some? ==> r.error.value == PhoneError
    ensures phone.Some? && phone.value != "" && !r.isValid ==> r.error == Some(PhoneError)
  {
    if phone.None? || phone.value == "" then Verdict(false, None)
    else if !PhoneShape(JsStripWhitespace(phone.value)) then Verdict(false, Some(PhoneError))
    else Verdict(true, None)
  }

  /** The stand-alone phone check agrees with the `phone` rule of validateField on non-empty text. */
  lemma PhoneCheckAgreesWithRule(fieldName: string, phone: string)
    requires phone != ""
    ensures FieldErrors(fieldName, Text(phone), [Phone(None)]).Ok?
    ensures ValidatePhoneNumber(Some(phone)).isValid <==> FieldErrors(fieldName, Text(phone), [Phone(None)]) == Ok([])
  {
    OneRule(fieldName, Text(phone), Phone(None));
  }

  const EmailError := "Email không hợp lệ"

  /** validateEmailAddress */
  function ValidateEmailAddress(email: Option<string>): (r: Verdict)
    ensures email.None? || email.value == "" ==> r == Verdict(false, None)
    ensures r.isValid <==> email.Some? && EmailShape(email.value)
    ensures r.isValid ==> r.error.None?
    ensures !r.isValid && email.Some? && email.value != "" ==> r.error == Some(EmailError)
  {
    if email.None? || email.value == "" then Verdict(false, None)
    else if !EmailShape(email.value) then Verdict(false, Some(EmailError))
    else Verdict(true, None)
  }

  /** The stand-alone email check agrees with the `email` rule of validateField on non-empty text. */
  lemma EmailCheckAgreesWithRule(fieldName: string, email: string)
    requires email != ""
    ensures ValidateEmailAddress(Some(email)).isValid <==> FieldErrors(fieldName, Text(email), [Email(None)]) == Ok([])
  {
    OneRule(fieldName, Text(email), Email(None));
  }

  datatype StreetError = StreetTooShort | StreetTooLong | StreetLooksFake

  function StreetMessage(e: StreetError): string
  {
    match e
    case StreetTooShort => "Địa chỉ phải có ít nhất 5 ký tự"
    case StreetTooLong => "Địa chỉ đường không được vượt quá 255 ký tự"
    case StreetLooksFake => "Địa chỉ có vẻ không hợp lệ. Vui lòng nhập địa chỉ thực tế."
  }

  /** Words that mark an obviously made-up address. */
  predicate LooksFake(trimmed: string)
  {
    var lower := Lower(trimmed);
    Contains(lower, "test") || Contains(lower, "fake") || Contains(lower, "demo")
  }

  /** validateStreetAddress: `None` as the error means no error to show. */
  function ValidateStreetAddress(address: Option<string>): (r: (bool, Option<StreetError>))
    ensures r.0 <==> address.Some? && 5 <= |JsTrim(address.value)| <= 255 && !LooksFake(JsTrim(address.value))
    ensures r.0 ==> r.1.None?
    ensures address.None? || address.value == "" ==> r == (false, None)
    ensures r.1 == Some(StreetTooShort) <==> address.Some? && address.value != "" && |JsTrim(address.value)| < 5
    ensures r.1 == Some(StreetTooLong) <==> address.Some? && address.value != "" && |JsTrim(address.value)| > 255
    ensures r.1 == Some(StreetLooksFake) <==>
      address.Some? && address.value != "" && 5 <= |JsTrim(address.value)| <= 255 && LooksFake(JsTrim(address.value))
    ensures address.Some? && address.value != "" && !r.0 ==> r.1.Some?
  {
    if address.None? || address.value == "" then (false, None)
    else
      var t := JsTrim(address.value);
      if |t| < 5 then (false, Some(StreetTooShort))
      else if |t| > 255 then (false, Some(StreetTooLong))
      else if LooksFake(t) then (false, Some(StreetLooksFake))
      else (true, None)
  }

  /** A street the stand-alone check accepts also passes the `address` rule of validateField. */
  lemma StreetCheckImpliesAddressRule(fieldName: string, address: string)
    requires ValidateStreetAddress(Some(address)).0
    ensures FieldErrors(fieldName, Text(address), [Address(None)]) == Ok([])
  {
    AddressRulePasses(fieldName, address);
  }

  /** Non-empty text of at least five trimmed characters passes the `address` rule. */
  lemma AddressRulePasses(fieldName: string, address: string)
    requires address != "" && |JsTrim(address)| >= 5
    ensures FieldErrors(fieldName, Text(address), [Address(None)]) == Ok([])
  {
    OneRule(fieldName, Text(address), Address(None));
  }

  datatype HierarchyError = NoProvince | NoDistrict | NoWard | DistrictNotInProvince | WardNotInDistrict

  function HierarchyMessage(e: HierarchyError): string
  {
    match e
    case NoProvince => "Vui lòng chọn tỉnh/thành phố"
    case NoDistrict => "Vui lòng chọn quận/huyện"
    case NoWard => "Vui lòng chọn phường/xã"
    case DistrictNotInProvince => "Quận/Huyện không thuộc Tỉnh/Thành phố đã chọn"
    case WardNotInDistrict => "Phường/Xã không thuộc Quận/Huyện đã chọn"
  }

  /** A selected name: missing and "" are falsy. */
  predicate Chosen(s: Option<string>) { s.Some? && s.value != "" }

  /** validateAddressHierarchy: `None` means valid. */
  function ValidateAddressHierarchy(province: Option<string>, district: Option<string>, ward: Option<string>,
                                    availableDistricts: seq<string>, availableWards: seq<string>): (r: Option<HierarchyError>)
    ensures r == Some(NoProvince) <==> !Chosen(province)
    ensures r == Some(NoDistrict) <==> Chosen(province) && !Chosen(district)
    ensures r == Some(NoWard) <==> Chosen(province) && Chosen(district) && !Chosen(ward)
    ensures r == Some(DistrictNotInProvince) ==> |availableDistricts| > 0 && district.value !in availableDistricts
    ensures r == Some(WardNotInDistrict) ==> |availableWards| > 0 && ward.value !in availableWards
    ensures r.None? <==> Chosen(province) && Chosen(district) && Chosen(ward)
                          && (|availableDistricts| > 0 ==> district.value in availableDistricts)
                          && (|availableWards| > 0 ==> ward.value in availableWards)
  {
    if !Chosen(province) then Some(NoProvince)
    else if !Chosen(district) then Some(NoDistrict)
    else if !Chosen(ward) then Some(NoWard)
    else if |availableDistricts| > 0 && district.value !in availableDistricts then Some(DistrictNotInProvince)
    else if |availableWards| > 0 && ward.value !in availableWards then Some(WardNotInDistrict)
    else None
  }

  /**
   * The form field a hierarchy error is shown under. The source picks it by
   * searching the message for "tỉnh/thành phố", "quận/huyện" and
   * "phường/xã" (case-sensitive), so only the three "please choose"
   * messages match; the two consistency messages, which are capitalised,
   * go under `general`.
   */
  function HierarchyField(e: HierarchyError): string
  {
    match e
    case NoProvince => "tinhThanh"
    case NoDistrict => "quanHuyen"
    case NoWard => "phuongXa"
    case _ => "general"
  }

  datatype AddressData = AddressData(
    duong: Option<string>, phuongXa: Option<string>, quanHuyen: Option<string>, tinhThanh: Option<string>,
    availableDistricts: seq<string>, availableWards: seq<string>)

  datatype AddressVerdict = AddressVerdict(isValid: bool, error: Option<string>, fieldErrors: map<string, string>)

  const AddressError := "Địa chỉ không hợp lệ"

  /** validateCompleteAddress */
  function ValidateCompleteAddress(a: AddressData): (r: AddressVerdict)
    ensures r.isValid <==> r.fieldErrors == map[]
    ensures r.isValid <==> r.error.None?
    ensures r.isValid <==>
      ValidateStreetAddress(a.duong).1.None?
      && ValidateAddressHierarchy(a.tinhThanh, a.quanHuyen, a.phuongXa, a.availableDistricts, a.availableWards).None?
    ensures "duong" in r.fieldErrors <==> ValidateStreetAddress(a.duong).1.Some?
    // an empty street gets no message, so it does not make the address invalid
    ensures (a.duong.None? || a.duong.value == "")
            && ValidateAddressHierarchy(a.tinhThanh, a.quanHuyen, a.phuongXa, a.availableDistricts, a.availableWards).None?
            ==> r.isValid
    ensures !r.isValid ==> r.error == Some(AddressError)
    ensures r.fieldErrors.Keys <= {"duong", "tinhThanh", "quanHuyen", "phuongXa", "general"}
    ensures ValidateStreetAddress(a.duong).1.Some? ==>
      r.fieldErrors["duong"] == StreetMessage(ValidateStreetAddress(a.duong).1.value)
    ensures var h := ValidateAddressHierarchy(a.tinhThanh, a.quanHuyen, a.phuongXa, a.availableDistricts, a.availableWards);
      h.Some? ==> HierarchyField(h.value) in r.fieldErrors && r.fieldErrors[HierarchyField(h.value)] == HierarchyMessage(h.value)
  {
    var street := ValidateStreetAddress(a.duong);
    var f1: map<string, string> := if street.1.Some? then map["duong" := StreetMessage(street.1.value)] else map[];
    var hierarchy := ValidateAddressHierarchy(a.tinhThanh, a.quanHuyen, a.phuongXa, a.availableDistricts, a.availableWards);
    assert f1.Keys <= {"duong"};
    var f2 := if hierarchy.Some? then f1[HierarchyField(hierarchy.value) := HierarchyMessage(hierarchy.value)] else f1;
    assert hierarchy.Some? ==> HierarchyField(hierarchy.value) != "duong";
    var hasErrors := street.1.Some? || hierarchy.Some?;
    assert hasErrors ==> f2 != map[] by {
      if street.1.Some? { assert "duong" in f2; }
      if hierarchy.Some? { assert HierarchyField(hierarchy.value) in f2; }
    }
    AddressVerdict(!hasErrors, if hasErrors then Some(AddressError) else None, f2)
  }

  // ----------------------------------------------------- validation state

  /** The `validationErrors` and `isValidating` refs of the composable. */
  class ValidationState {
    var validationErrors: Errors
    var isValidating: bool

    constructor()
      ensures validationErrors == map[] && !isValidating
    {
      validationErrors := map[];
      isValidating := false;
    }

    /**
     * validateTabData: no tab gives no errors and changes nothing; otherwise
     * the order's errors are stored and returned. When validateOrderData
     * throws, the flag set before the call stays set.
     */
    method ValidateTabData(tab: Option<OrderData>) returns (r: Result<Errors, TypeError>)
      modifies this
      ensures tab.None? ==> r == Ok(map[]) && validationErrors == old(validationErrors) && isValidating == old(isValidating)
      ensures tab.Some? ==> r == OrderErrors(tab.value)
      ensures tab.Some? && r.Ok? ==> validationErrors == r.value && !isValidating
      ensures tab.Some? && r.Err? ==> validationErrors == old(validationErrors) && isValidating
    {
      if tab.None? {
        return Ok(map[]);
      }
      isValidating := true;
      r := ValidateOrderData(tab.value);
      if r.Err? {
        return;
      }
      validationErrors := r.value;
      isValidating := false;
    }

    /** clearValidationErrors */
    method ClearValidationErrors()
      modifies this`validationErrors
      ensures validationErrors == map[]
    {
      validationErrors := map[];
    }

    /** hasValidationErrors: some field has an entry. */
    function HasValidationErrors(): (r: bool)
      reads this
      ensures r <==> exists k :: k in validationErrors
    {
      if validationErrors == map[] then false
      else
        var k :| k in validationErrors;
        true
    }

    /** getFieldError: the first message recorded for the field, or null. */
    function GetFieldError(fieldName: string): (r: Option<string>)
      reads this
      ensures r.Some? <==> fieldName in validationErrors && |validationErrors[fieldName]| > 0
      ensures r.Some? ==> r.value == validationErrors[fieldName][0]
    {
      if fieldName in validationErrors && |validationErrors[fieldName]| > 0 then Some(validationErrors[fieldName][0]) else None
    }
  }
}
