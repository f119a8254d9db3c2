/**
 * The shipping-fee request (ShippingRequest.java): its validity check, the
 * first validation error it reports, and the cache hash over the fields
 * that affect the fee. Order values are whole VND amounts.
 */
module Shipping {
  import opened Common

  datatype ShippingRequest = ShippingRequest(
    pickAddressId: Option<string>, pickAddress: Option<string>,
    pickProvince: Option<string>, pickDistrict: Option<string>, pickWard: Option<string>, pickStreet: Option<string>,
    address: Option<string>, province: Option<string>, district: Option<string>, ward: Option<string>, street: Option<string>,
    weight: Option<int>, value: Option<int>, transport: Option<string>, deliverOption: Option<string>,
    tags: Option<seq<string>>)

  const MinWeight := 100
  const MaxWeight := 30000
  const MaxValue := 100000000

  /** `s == null || s.trim().isEmpty()` */
  predicate Absent(s: Option<string>) { s.None? || JavaTrim(s.value) == [] }

  /** How a province or district name fares: absent or blank, shorter than three characters once trimmed, or acceptable. */
  datatype PlaceCheck = Blank | Short | Acceptable

  function CheckPlace(s: Option<string>): PlaceCheck
  {
    if Absent(s) then Blank else if |JavaTrim(s.value)| < 3 then Short else Acceptable
  }

  /** Present, and at least three characters once trimmed. */
  predicate PlaceName(s: Option<string>) { CheckPlace(s).Acceptable? }

  // ----------------------------------------------------------------- isValid

  predicate PickupValid(r: ShippingRequest) { PlaceName(r.pickProvince) && PlaceName(r.pickDistrict) }
  predicate DeliveryValid(r: ShippingRequest) { PlaceName(r.province) && PlaceName(r.district) }
  predicate WeightValid(r: ShippingRequest) { r.weight.Some? && MinWeight <= r.weight.value <= MaxWeight }
  predicate BusinessRulesValid(r: ShippingRequest) { r.value.None? || 0 <= r.value.value <= MaxValue }

  /** isValid */
  function IsValid(r: ShippingRequest): (ok: bool)
    ensures ok ==> r.weight.Some? && MinWeight <= r.weight.value <= MaxWeight
    ensures ok ==> r.value.None? || 0 <= r.value.value <= MaxValue
    ensures ok ==> !Absent(r.deliverOption)
  {
    PickupValid(r) && DeliveryValid(r) && WeightValid(r) && BusinessRulesValid(r) && !Absent(r.deliverOption)
  }

  // ------------------------------------------------------ getValidationError

  /** The reasons getValidationError reports, in the order it checks them. */
  datatype Issue =
    | PickProvinceMissing | PickDistrictMissing | PickProvinceInvalid | PickDistrictInvalid
    | ProvinceMissing | DistrictMissing | ProvinceInvalid | DistrictInvalid
    | WeightMissing | WeightNotPositive | WeightTooLow | WeightTooHigh
    | ValueNegative | ValueTooHigh
    | DeliverOptionMissing

  function Message(i: Issue): string
  {
    match i
    case PickProvinceMissing => "Tỉnh/Thành phố lấy hàng là bắt buộc"
    case PickDistrictMissing => "Quận/Huyện lấy hàng là bắt buộc"
    case PickProvinceInvalid => "Tên tỉnh/thành phố lấy hàng không hợp lệ"
    case PickDistrictInvalid => "Tên quận/huyện lấy hàng không hợp lệ"
    case ProvinceMissing => "Tỉnh/Thành phố giao hàng là bắt buộc"
    case DistrictMissing => "Quận/Huyện giao hàng là bắt buộc"
    case ProvinceInvalid => "Tên tỉnh/thành phố giao hàng không hợp lệ"
    case DistrictInvalid => "Tên quận/huyện giao hàng không hợp lệ"
    case WeightMissing => "Trọng lượng là bắt buộc"
    case WeightNotPositive => "Trọng lượng phải lớn hơn 0"
    case WeightTooLow => "Trọng lượng tối thiểu là 100g"
    case WeightTooHigh => "Trọng lượng không được vượt quá 30kg"
    case ValueNegative => "Giá trị đơn hàng không được âm"
    case ValueTooHigh => "Giá trị đơn hàng không được vượt quá 100,000,000 VND"
    case DeliverOptionMissing => "Tùy chọn giao hàng là bắt buộc"
  }

  /** Which group of checks an issue belongs to: pickup, delivery, weight, value, delivery option. */
  function Stage(i: Issue): nat
  {
    match i
    case PickProvinceMissing | PickDistrictMissing | PickProvinceInvalid | PickDistrictInvalid => 0
    case ProvinceMissing | DistrictMissing | ProvinceInvalid | DistrictInvalid => 1
    case WeightMissing | WeightNotPositive | WeightTooLow | WeightTooHigh => 2
    case ValueNegative | ValueTooHigh => 3
    case DeliverOptionMissing => 4
  }

  /** Whether the group of checks numbered `k` passes. */
  predicate StagePasses(r: ShippingRequest, k: nat)
  {
    if k == 0 then PickupValid(r)
    else if k == 1 then DeliveryValid(r)
    else if k == 2 then WeightValid(r)
    else if k == 3 then BusinessRulesValid(r)
    else !Absent(r.deliverOption)
  }

  /**
   * The checks on one address (pickup or delivery): both names must be
   * present before either is checked for length, province first.
   */
  function PlaceIssue(province: PlaceCheck, district: PlaceCheck,
                      provinceMissing: Issue, districtMissing: Issue,
                      provinceInvalid: Issue, districtInvalid: Issue): (e: Option<Issue>)
    ensures e.None? <==> province.Acceptable? && district.Acceptable?
    ensures e.Some? ==> e.value == provinceMissing || e.value == districtMissing || e.value == provinceInvalid || e.value == districtInvalid
  {
    if province.Blank? then Some(provinceMissing)
    else if district.Blank? then Some(districtMissing)
    else if province.Short? then Some(provinceInvalid)
    else if district.Short? then Some(districtInvalid)
    else None
  }

  function PickupIssue(r: ShippingRequest): (e: Option<Issue>)
    ensures e.None? <==> PickupValid(r)
    ensures e.Some? ==> Stage(e.value) == 0
  {
    PlaceIssue(CheckPlace(r.pickProvince), CheckPlace(r.pickDistrict),
               PickProvinceMissing, PickDistrictMissing, PickProvinceInvalid, PickDistrictInvalid)
  }

  function DeliveryIssue(r: ShippingRequest): (e: Option<Issue>)
    ensures e.None? <==> DeliveryValid(r)
    ensures e.Some? ==> Stage(e.value) == 1
  {
    PlaceIssue(CheckPlace(r.province), CheckPlace(r.district),
               ProvinceMissing, DistrictMissing, ProvinceInvalid, DistrictInvalid)
  }

  function WeightIssue(r: ShippingRequest): (e: Option<Issue>)
    ensures e.None? <==> WeightValid(r)
    ensures e.Some? ==> Stage(e.value) == 2
    ensures e == Some(WeightTooLow) <==> r.weight.Some? && 0 < r.weight.value < MinWeight
  {
    if r.weight.None? then Some(WeightMissing)
    else if r.weight.value <= 0 then Some(WeightNotPositive)
    else if r.weight.value < MinWeight then Some(WeightTooLow)
    else if r.weight.value > MaxWeight then Some(WeightTooHigh)
    else None
  }

  function ValueIssue(r: ShippingRequest): (e: Option<Issue>)
    ensures e.None? <==> BusinessRulesValid(r)
    ensures e.Some? ==> Stage(e.value) == 3
  {
    if r.value.Some? && r.value.value < 0 then Some(ValueNegative)
    else if r.value.Some? && r.value.value > MaxValue then Some(ValueTooHigh)
    else None
  }

  /**
   * getValidationError, as the issue it names (null becomes None): the
   * first failing group in the order pickup, delivery, weight, value,
   * delivery option.
   */
  function ValidationError(r: ShippingRequest): (e: Option<Issue>)
    ensures e.None? <==> IsValid(r)
  {
    if PickupIssue(r).Some? then PickupIssue(r)
    else if DeliveryIssue(r).Some? then DeliveryIssue(r)
    else if WeightIssue(r).Some? then WeightIssue(r)
    else if ValueIssue(r).Some? then ValueIssue(r)
    else if Absent(r.deliverOption) then Some(DeliverOptionMissing)
    else None
  }

  /**
   * The reported issue belongs to the first group of checks that fails:
   * every earlier group passes and its own group does not.
   */
  lemma ErrorPrecedence(r: ShippingRequest)
    requires ValidationError(r).Some?
    ensures !StagePasses(r, Stage(ValidationError(r).value))
    ensures Stage(ValidationError(r).value) > 0 ==> PickupValid(r)
    ensures Stage(ValidationError(r).value) > 1 ==> DeliveryValid(r)
    ensures Stage(ValidationError(r).value) > 2 ==> WeightValid(r)
    ensures Stage(ValidationError(r).value) > 3 ==> BusinessRulesValid(r)
  {
    if PickupIssue(r).Some? {
    } else if DeliveryIssue(r).Some? {
    } else if WeightIssue(r).Some? {
    } else if ValueIssue(r).Some? {
    }
  }

  /** Only a positive weight below 100 g is reported as under the minimum, and only once both addresses pass. */
  lemma WeightTooLowExactly(r: ShippingRequest)
    ensures ValidationError(r) == Some(WeightTooLow) <==>
      PickupValid(r) && DeliveryValid(r) && r.weight.Some? && 0 < r.weight.value < MinWeight
  {
    if PickupIssue(r).Some? {
      assert Stage(PickupIssue(r).value) == 0;
    } else if DeliveryIssue(r).Some? {
      assert Stage(DeliveryIssue(r).value) == 1;
    }
  }

  /** A valid request has a weight of 100 g to 30 kg and, when given, a value of 0 to 100,000,000 VND. */
  lemma ValidBounds(r: ShippingRequest)
    requires ValidationError(r).None?
    ensures r.weight.Some? && 100 <= r.weight.value <= 30000
    ensures r.value.Some? ==> 0 <= r.value.value <= 100000000
    ensures |JavaTrim(r.pickProvince.value)| >= 3 && |JavaTrim(r.pickDistrict.value)| >= 3
    ensures |JavaTrim(r.province.value)| >= 3 && |JavaTrim(r.district.value)| >= 3
  {
  }

  // ---------------------------------------------------------------- hashCode

  /** `String.hashCode`: `h = 31 * h + c` over the characters, in `int` arithmetic. */
  function StringHash(s: string): int
  {
    if s == [] then 0 else Wrap32(31 * StringHash(s[..|s| - 1]) + s[|s| - 1] as int)
  }

  /** The same sum taken over the integers, without wrap-around. */
  function Polynomial(start: int, xs: seq<int>): int
  {
    if xs == [] then start else 31 * Polynomial(start, xs[..|xs| - 1]) + xs[|xs| - 1]
  }

  function Codes(s: string): (r: seq<int>)
    ensures |r| == |s|
  {
    seq(|s|, i requires 0 <= i < |s| => s[i] as int)
  }

  /** Multiplying both sides of a congruence modulo 2^32 and adding keeps it. */
  lemma CongruenceStep(a: int, b: int, c: int)
    requires (a - b) % Modulus == 0
    ensures ((31 * a + c) - (31 * b + c)) % Modulus == 0
  {
    var k := (a - b) / Modulus;
    assert a - b == k * Modulus;
    assert (31 * a + c) - (31 * b + c) == (31 * k) * Modulus;
  }

  /** `String.hashCode` is the polynomial of the character codes in base 31, modulo 2^32. */
  lemma {:induction false} StringHashIsPolynomial(s: string)
    ensures (StringHash(s) - Polynomial(0, Codes(s))) % Modulus == 0
  {
    if s != [] {
      var init := s[..|s| - 1];
      StringHashIsPolynomial(init);
      assert Codes(s)[..|s| - 1] == Codes(init);
      var h := StringHash(init);
      var p := Polynomial(0, Codes(init));
      CongruenceStep(h, p, s[|s| - 1] as int);
      var w := 31 * h + s[|s| - 1] as int;
      assert (w - Wrap32(w)) % Modulus == 0;
      assert StringHash(s) == Wrap32(w);
      assert Polynomial(0, Codes(s)) == 31 * p + s[|s| - 1] as int;
      SumOfCongruences(Wrap32(w), w, 31 * p + s[|s| - 1] as int);
    }
  }

  lemma SumOfCongruences(a: int, b: int, c: int)
    requires (b - a) % Modulus == 0 && (b - c) % Modulus == 0
    ensures (a - c) % Modulus == 0
  {
    var j := (b - a) / Modulus;
    var k := (b - c) / Modulus;
    assert b - a == j * Modulus && b - c == k * Modulus;
    assert a - c == (k - j) * Modulus;
  }

  /** `Objects.hash`: `h = 31 * h + x` over the element hashes, starting from 1. */
  function ObjectsHash(hashes: seq<int>): int
  {
    if hashes == [] then 1 else Wrap32(31 * ObjectsHash(hashes[..|hashes| - 1]) + hashes[|hashes| - 1])
  }

  lemma {:induction false} ObjectsHashIsPolynomial(hashes: seq<int>)
    ensures (ObjectsHash(hashes) - Polynomial(1, hashes)) % Modulus == 0
  {
    if hashes != [] {
      var init := hashes[..|hashes| - 1];
      var last := hashes[|hashes| - 1];
      ObjectsHashIsPolynomial(init);
      CongruenceStep(ObjectsHash(init), Polynomial(1, init), last);
      var w := 31 * ObjectsHash(init) + last;
      assert (w - Wrap32(w)) % Modulus == 0;
      SumOfCongruences(Wrap32(w), w, 31 * Polynomial(1, init) + last);
    }
  }

  /** The hash of a nullable string (0 for null). */
  function TextHash(s: Option<string>): int { if s.None? then 0 else StringHash(s.value) }

  /** The hash of a nullable `Integer` (its value). */
  function IntegerHash(n: Option<int>): int { if n.None? then 0 else Wrap32(n.value) }

  /** The fields the cache key covers, in order. */
  function EssentialHashes(r: ShippingRequest): seq<int>
  {
    [TextHash(r.pickProvince), TextHash(r.pickDistrict), TextHash(r.pickWard),
     TextHash(r.province), TextHash(r.district), TextHash(r.ward),
     IntegerHash(r.weight), TextHash(r.transport), TextHash(r.deliverOption)]
  }

  /** hashCode */
  function HashCode(r: ShippingRequest): (h: int)
    ensures -0x8000_0000 <= h < 0x8000_0000
    ensures (h - Polynomial(1, EssentialHashes(r))) % Modulus == 0
  {
    ObjectsHashIsPolynomial(EssentialHashes(r));
    ObjectsHash(EssentialHashes(r))
  }

  /**
   * Requests that differ only in the fields the fee does not depend on
   * (address ids, street lines, value, tags) share a cache hash.
   */
  lemma HashIgnoresNonEssential(a: ShippingRequest, b: ShippingRequest)
    requires a.pickProvince == b.pickProvince && a.pickDistrict == b.pickDistrict && a.pickWard == b.pickWard
    requires a.province == b.province && a.district == b.district && a.ward == b.ward
    requires a.weight == b.weight && a.transport == b.transport && a.deliverOption == b.deliverOption
    ensures HashCode(a) == HashCode(b)
  {
    assert EssentialHashes(a) == EssentialHashes(b);
  }
}
