/**
 * The admin order mapping (orderMapping.js): from an order tab to the
 * HoaDonDto the backend receives, for a new order and for an update of an
 * existing one, with the default serial-number validators.
 *
 * Money is whole VND; absent and zero numbers are falsy, absent and empty
 * strings are falsy, as in JavaScript. The stored staff record
 * (localStorage "nguoiDung") is a parameter.
 */
module OrderMapping {
  import opened Common

  datatype Customer = Customer(id: Option<int>, hoTen: Option<string>, soDienThoai: Option<string>)
  datatype MixedPayment = MixedPayment(paymentMethod: string, amount: int)

  /** A line of the tab's product list. */
  datatype LineItem = LineItem(
    id: Option<int>,
    sanPhamChiTietId: Option<int>,
    sanPhamId: Option<int>,
    serialNumberId: Option<int>,
    serialNumber: Option<string>,
    soLuong: int,
    donGia: int)

  /** The order tab (or, for an update, the existing order). */
  datatype Tab = Tab(
    id: Option<int>,
    maHoaDon: string,
    loaiHoaDon: string,
    phuongThucThanhToan: Option<string>,
    giaohang: bool,
    khachHang: Option<Customer>,
    diaChiGiaoHangId: Option<int>,
    tongTienHang: Option<int>,
    giaTriGiamGiaVoucher: Option<int>,
    phiVanChuyen: Option<int>,
    tongThanhToan: Option<int>,
    mixedPayments: Option<seq<MixedPayment>>,
    sanPhamList: seq<LineItem>,
    voucherCodes: seq<string>,
    trangThaiDonHang: Option<string>,
    trangThaiThanhToan: Option<string>)

  datatype AddressData = AddressData(duong: Option<string>, phuongXa: string, quanHuyen: string, tinhThanh: string,
                                     loaiDiaChi: Option<string>)
  datatype RecipientInfo = RecipientInfo(hoTen: Option<string>, soDienThoai: Option<string>)

  /** The options object, with its destructuring defaults (null, null, 0, null, "unknown"). */
  datatype Options = Options(
    addressData: Option<AddressData>,
    recipientInfo: Option<RecipientInfo>,
    consolidatedShippingFee: int,
    dynamicOrderTotal: Option<int>,
    source: string)

  const DefaultOptions := Options(None, None, 0, None, "unknown")

  /** The parsed "nguoiDung" record; None when nothing is stored. */
  datatype StoredUser = StoredUser(id: Option<int>)

  datatype AddressPayload = AddressPayload(duong: string, phuongXa: string, quanHuyen: string, tinhThanh: string,
                                           loaiDiaChi: string)

  /** A line of `chiTiet`; the classification fields are set by the update mapping only. */
  datatype DetailLine = DetailLine(
    id: Option<int>,
    sanPhamChiTietId: Option<int>,
    soLuong: int,
    donGia: int,
    giaBan: int,
    thanhTien: int,
    serialNumberId: Option<int>,
    serialNumber: Option<string>,
    isNewItem: Option<bool>,
    originalOrderId: Option<int>,
    itemIndex: Option<int>,
    mappingSource: Option<string>)

  datatype Summary = Summary(totalItems: int, newItems: int, existingItems: int, originalOrderId: Option<int>)

  datatype HoaDonDto = HoaDonDto(
    maHoaDon: string,
    loaiHoaDon: string,
    khachHangId: Option<int>,
    nhanVienId: Option<int>,
    diaChiGiaoHang: Option<AddressPayload>,
    diaChiGiaoHangId: Option<int>,
    recipient: Option<(Option<string>, Option<string>)>,
    tongTienHang: int,
    giaTriGiamGiaVoucher: int,
    phiVanChuyen: int,
    tongThanhToan: int,
    trangThaiDonHang: string,
    trangThaiThanhToan: string,
    phuongThucThanhToan: string,
    isMixedPayment: bool,
    mixedPayments: Option<seq<MixedPayment>>,
    chiTiet: seq<DetailLine>,
    voucherCodes: seq<string>,
    itemClassificationSummary: Option<Summary>)

  /** The thrown errors; StoredUserMissing is the TypeError of reading `.id` of `JSON.parse(null)`. */
  datatype MappingError = TabRequired | PaymentMethodRequired | OrderRequired | StoredUserMissing

  predicate TruthyInt(x: Option<int>) { x.Some? && x.value != 0 }
  predicate TruthyString(x: Option<string>) { x.Some? && x.value != "" }

  /** `x || 0` */
  function OrZero(x: Option<int>): int { if TruthyInt(x) then x.value else 0 }

  /** validateSerialNumberId: a positive number, else null. */
  function ValidateSerialNumberId(serialNumberId: Option<int>): (r: Option<int>)
    ensures r.Some? <==> serialNumberId.Some? && serialNumberId.value > 0
    ensures r.Some? ==> r == serialNumberId
  {
    if serialNumberId.None? || serialNumberId.value <= 0 then None else serialNumberId
  }

  /** validateSerialNumber: a non-empty string, unchanged, else null. */
  function ValidateSerialNumber(serialNumber: Option<string>): (r: Option<string>)
    ensures r.Some? <==> TruthyString(serialNumber)
    ensures r.Some? ==> r == serialNumber
  {
    if !TruthyString(serialNumber) then None else serialNumber
  }

  function CustomerName(tab: Tab): Option<string>
  {
    if tab.khachHang.Some? && TruthyString(tab.khachHang.value.hoTen) then tab.khachHang.value.hoTen else None
  }

  function CustomerPhone(tab: Tab): Option<string>
  {
    if tab.khachHang.Some? && TruthyString(tab.khachHang.value.soDienThoai) then tab.khachHang.value.soDienThoai else None
  }

  /** The recipient name and phone: the trimmed recipient info on a delivery, else the customer's. */
  function Recipient(tab: Tab, options: Options): (Option<string>, Option<string>)
  {
    if options.recipientInfo.Some? && tab.giaohang then
      var info := options.recipientInfo.value;
      (if TruthyString(info.hoTen) then Some(JsTrim(info.hoTen.value)) else CustomerName(tab),
       if TruthyString(info.soDienThoai) then Some(JsTrim(info.soDienThoai.value)) else CustomerPhone(tab))
    else (CustomerName(tab), CustomerPhone(tab))
  }

  /** The delivery address payload: only on a delivery with a street that is not blank after trimming. */
  function AddressPayloadOf(tab: Tab, options: Options): (r: Option<AddressPayload>)
    ensures r.Some? ==> tab.giaohang && options.addressData.Some? && options.addressData.value.duong.Some?
                        && r.value.duong == JsTrim(options.addressData.value.duong.value) && r.value.duong != ""
  {
    if tab.giaohang && options.addressData.Some? && TruthyString(options.addressData.value.duong)
       && JsTrim(options.addressData.value.duong.value) != "" then
      var a := options.addressData.value;
      Some(AddressPayload(JsTrim(a.duong.value), a.phuongXa, a.quanHuyen, a.tinhThanh,
                          if TruthyString(a.loaiDiaChi) then a.loaiDiaChi.value else "Nhà riêng"))
    else None
  }

  /** Gateway and mixed payments start unpaid, every other method paid. */
  function PaymentStatus(paymentMethod: string): (r: string)
    ensures r == "CHUA_THANH_TOAN" <==> paymentMethod in {"VNPAY", "MOMO", "MIXED"}
    ensures r == "DA_THANH_TOAN" <==> paymentMethod !in {"VNPAY", "MOMO", "MIXED"}
  {
    if paymentMethod == "VNPAY" || paymentMethod == "MOMO" || paymentMethod == "MIXED" then "CHUA_THANH_TOAN"
    else "DA_THANH_TOAN"
  }

  /** The method sent: for MIXED the first mixed payment's method, or TIEN_MAT when there is none. */
  function PrimaryMethod(tab: Tab, paymentMethod: string): (r: string)
    ensures paymentMethod != "MIXED" ==> r == paymentMethod
    ensures paymentMethod == "MIXED" && tab.mixedPayments.Some? && |tab.mixedPayments.value| > 0 ==>
      r == tab.mixedPayments.value[0].paymentMethod
    ensures paymentMethod == "MIXED" && (tab.mixedPayments.None? || tab.mixedPayments.value == []) ==> r == "TIEN_MAT"
  {
    if paymentMethod != "MIXED" then paymentMethod
    else if tab.mixedPayments.Some? && |tab.mixedPayments.value| > 0 then tab.mixedPayments.value[0].paymentMethod
    else "TIEN_MAT"
  }

  function MapLine(item: LineItem): DetailLine
  {
    DetailLine(None,
      if TruthyInt(item.sanPhamChiTietId) then item.sanPhamChiTietId else item.sanPhamId,
      item.soLuong, item.donGia, item.donGia, item.donGia * item.soLuong,
      ValidateSerialNumberId(item.serialNumberId), ValidateSerialNumber(item.serialNumber),
      None, None, None, None)
  }

  /** The HoaDonDto for a tab whose payment method is set. */
  function BuildDto(tab: Tab, options: Options, staff: StoredUser): HoaDonDto
    requires TruthyString(tab.phuongThucThanhToan)
  {
    var paymentMethod := tab.phuongThucThanhToan.value;
    HoaDonDto(
      tab.maHoaDon,
      tab.loaiHoaDon,
      if tab.khachHang.Some? && TruthyInt(tab.khachHang.value.id) then tab.khachHang.value.id else None,
      if TruthyInt(staff.id) then staff.id else None,
      AddressPayloadOf(tab, options),
      if TruthyInt(tab.diaChiGiaoHangId) then tab.diaChiGiaoHangId else None,
      if tab.giaohang then Some(Recipient(tab, options)) else None,
      OrZero(tab.tongTienHang),
      OrZero(tab.giaTriGiamGiaVoucher),
      if options.consolidatedShippingFee != 0 then options.consolidatedShippingFee else OrZero(tab.phiVanChuyen),
      if options.dynamicOrderTotal.Some? then options.dynamicOrderTotal.value else OrZero(tab.tongThanhToan),
      if tab.giaohang then "CHO_XAC_NHAN" else "HOAN_THANH",
      PaymentStatus(paymentMethod),
      PrimaryMethod(tab, paymentMethod),
      paymentMethod == "MIXED",
      if paymentMethod == "MIXED" then tab.mixedPayments else None,
      seq(|tab.sanPhamList|, i requires 0 <= i < |tab.sanPhamList| => MapLine(tab.sanPhamList[i])),
      tab.voucherCodes,
      None)
  }

  /**
   * mapTabToHoaDonDto: a missing tab or payment method throws; a missing
   * stored user throws when the staff id is read; otherwise the DTO.
   */
  function MapTabToHoaDonDto(tab: Option<Tab>, options: Options, staff: Option<StoredUser>): (r: Result<HoaDonDto, MappingError>)
    ensures tab.None? <==> r == Err(TabRequired)
    ensures tab.Some? && !TruthyString(tab.value.phuongThucThanhToan) <==> r == Err(PaymentMethodRequired)
    ensures r == Err(StoredUserMissing) <==> tab.Some? && TruthyString(tab.value.phuongThucThanhToan) && staff.None?
    ensures r.Ok? ==> tab.Some? && TruthyString(tab.value.phuongThucThanhToan) && staff.Some?
    ensures r.Ok? ==> |r.value.chiTiet| == |tab.value.sanPhamList| && r.value.voucherCodes == tab.value.voucherCodes
  {
    if tab.None? then Err(TabRequired)
    else if !TruthyString(tab.value.phuongThucThanhToan) then Err(PaymentMethodRequired)
    else if staff.None? then Err(StoredUserMissing)
    else Ok(BuildDto(tab.value, options, staff.value))
  }

  /** A successful mapping: paid unless the method is VNPAY, MOMO or MIXED. */
  lemma PaymentStatusRule(tab: Tab, options: Options, staff: StoredUser)
    requires TruthyString(tab.phuongThucThanhToan)
    ensures var r := MapTabToHoaDonDto(Some(tab), options, Some(staff));
      r.Ok? && (r.value.trangThaiThanhToan == "CHUA_THANH_TOAN" <==> tab.phuongThucThanhToan.value in {"VNPAY", "MOMO", "MIXED"})
      && (r.value.trangThaiThanhToan == "DA_THANH_TOAN" <==> tab.phuongThucThanhToan.value !in {"VNPAY", "MOMO", "MIXED"})
  {
  }

  /**
   * Delivery decides the order status and the recipient fields: a delivery
   * is awaiting confirmation and carries the recipient, a counter sale is
   * completed and carries none.
   */
  lemma DeliveryRule(tab: Tab, options: Options, staff: StoredUser)
    requires TruthyString(tab.phuongThucThanhToan)
    ensures var r := MapTabToHoaDonDto(Some(tab), options, Some(staff));
      r.Ok? && (r.value.trangThaiDonHang == "CHO_XAC_NHAN" <==> tab.giaohang)
      && (r.value.trangThaiDonHang == "HOAN_THANH" <==> !tab.giaohang)
      && (r.value.recipient.Some? <==> tab.giaohang)
      && (r.value.diaChiGiaoHang.Some? ==> tab.giaohang)
  {
  }

  /** A mixed payment is flagged, carries its parts and names the first part's method (or cash) as primary. */
  lemma MixedPaymentRule(tab: Tab, options: Options, staff: StoredUser)
    requires tab.phuongThucThanhToan == Some("MIXED")
    ensures var r := MapTabToHoaDonDto(Some(tab), options, Some(staff));
      r.Ok? && r.value.isMixedPayment && r.value.mixedPayments == tab.mixedPayments
      && r.value.trangThaiThanhToan == "CHUA_THANH_TOAN"
      && r.value.phuongThucThanhToan == (if tab.mixedPayments.Some? && |tab.mixedPayments.value| > 0
                                         then tab.mixedPayments.value[0].paymentMethod else "TIEN_MAT")
  {
  }

  /** The classified line of the update mapping: a line without an id is new. */
  function ClassifiedLine(item: LineItem, index: int, orderId: Option<int>, source: string): (d: DetailLine)
    ensures d.isNewItem == Some(!TruthyInt(item.id))
    ensures d.id.Some? <==> TruthyInt(item.id)
  {
    var base := MapLine(item);
    base.(id := if TruthyInt(item.id) then item.id else None,
          isNewItem := Some(!TruthyInt(item.id)),
          originalOrderId := orderId,
          itemIndex := Some(index),
          mappingSource := Some(source))
  }

  function ClassifiedLines(items: seq<LineItem>, orderId: Option<int>, source: string): (r: seq<DetailLine>)
    ensures |r| == |items|
  {
    seq(|items|, i requires 0 <= i < |items| => ClassifiedLine(items[i], i, orderId, source))
  }

  /** The number of lines without an id. */
  function CountNew(items: seq<LineItem>): (n: nat)
    ensures n <= |items|
  {
    if items == [] then 0 else CountNew(items[..|items| - 1]) + (if TruthyInt(items[|items| - 1].id) then 0 else 1)
  }

  /**
   * The `map` over the product list with its two counters: the classified
   * lines, the new-item count and the existing-item count.
   */
  method ClassifyItems(items: seq<LineItem>, orderId: Option<int>, source: string)
    returns (lines: seq<DetailLine>, newItems: nat, existingItems: nat)
    ensures lines == ClassifiedLines(items, orderId, source)
    ensures newItems == CountNew(items) && newItems + existingItems == |items|
  {
    lines, newItems, existingItems := [], 0, 0;
    var i := 0;
    while i < |items|
      invariant 0 <= i <= |items|
      invariant lines == ClassifiedLines(items[..i], orderId, source)
      invariant newItems == CountNew(items[..i]) && newItems + existingItems == i
    {
      assert items[..i + 1][..i] == items[..i];
      var isNewItem := !TruthyInt(items[i].id);
      if isNewItem {
        newItems := newItems + 1;
      } else {
        existingItems := existingItems + 1;
      }
      lines := lines + [ClassifiedLine(items[i], i, orderId, source)];
      i := i + 1;
    }
    assert items[..i] == items;
  }

  /**
   * mapOrderToUpdateDto: a missing order throws; otherwise the tab mapping
   * of the order, with the order's own status kept when it has one, a paid
   * order kept paid, the lines classified and the classification summary.
   */
  function MapOrderToUpdateDto(order: Option<Tab>, options: Options, staff: Option<StoredUser>): (r: Result<HoaDonDto, MappingError>)
    ensures order.None? ==> r == Err(OrderRequired)
    ensures order.Some? ==> (r.Err? <==> MapTabToHoaDonDto(order, options, staff).Err?)
    ensures order.Some? && r.Err? ==> r == MapTabToHoaDonDto(order, options, staff)
    ensures r.Ok? ==> TruthyString(order.value.trangThaiDonHang) ==> r.value.trangThaiDonHang == order.value.trangThaiDonHang.value
    ensures r.Ok? ==> !TruthyString(order.value.trangThaiDonHang) ==>
      r.value.trangThaiDonHang == MapTabToHoaDonDto(order, options, staff).value.trangThaiDonHang
    ensures r.Ok? && order.value.trangThaiThanhToan == Some("DA_THANH_TOAN") ==> r.value.trangThaiThanhToan == "DA_THANH_TOAN"
    ensures r.Ok? ==> r.value.chiTiet == ClassifiedLines(order.value.sanPhamList, order.value.id, options.source)
    ensures r.Ok? ==>
      && r.value.itemClassificationSummary.Some?
      && r.value.itemClassificationSummary.value.newItems == CountNew(order.value.sanPhamList)
      && r.value.itemClassificationSummary.value.newItems + r.value.itemClassificationSummary.value.existingItems
         == r.value.itemClassificationSummary.value.totalItems == |order.value.sanPhamList|
  {
    if order.None? then Err(OrderRequired)
    else
      var mapped := MapTabToHoaDonDto(order, options, staff);
      if mapped.Err? then mapped
      else
        var o := order.value;
        var dto := mapped.value;
        var newCount := CountNew(o.sanPhamList);
        Ok(dto.(
          trangThaiDonHang := if TruthyString(o.trangThaiDonHang) then o.trangThaiDonHang.value else dto.trangThaiDonHang,
          trangThaiThanhToan := if o.trangThaiThanhToan == Some("DA_THANH_TOAN") then "DA_THANH_TOAN" else dto.trangThaiThanhToan,
          chiTiet := ClassifiedLines(o.sanPhamList, o.id, options.source),
          itemClassificationSummary := Some(Summary(|o.sanPhamList|, newCount, |o.sanPhamList| - newCount, o.id))))
  }

  /** The number of lines flagged as new. */
  function CountFlagged(lines: seq<DetailLine>): nat
  {
    if lines == [] then 0 else CountFlagged(lines[..|lines| - 1]) + (if lines[|lines| - 1].isNewItem == Some(true) then 1 else 0)
  }

  /** The summary's new-item count is the number of lines the mapping flags as new. */
  lemma {:induction false} CountNewIsFlagged(items: seq<LineItem>, orderId: Option<int>, source: string)
    ensures CountNew(items) == CountFlagged(ClassifiedLines(items, orderId, source))
    decreases |items|
  {
    var lines := ClassifiedLines(items, orderId, source);
    if items != [] {
      var init := items[..|items| - 1];
      CountNewIsFlagged(init, orderId, source);
      assert lines[..|lines| - 1] == ClassifiedLines(init, orderId, source);
    }
  }
}
