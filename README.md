# LapXpert core in Dafny

LapXpert is a laptop shop: a Spring Boot back office (orders, payments,
serial-numbered stock, products, vouchers, shipping, an AI chat assistant)
with two Vue front ends, the admin console and the customer site, kept
up to date over STOMP-over-WebSocket. This project models the rules at the
core of that system and proves what they promise:

- **Orders and payments** (`HoaDon`, `HoaDonController`, `PaymentValidation`,
  `BasePayment`): the payment-status transition table, the status derived
  from the amount paid, order totals, payment additions, mixed payments,
  payment confirmation and cancellation, and the payment-parameter checks.
- **Serial-numbered stock** (`SerialNumbers`): the status table and
  reservation, sale confirmation, release, re-keying and deletion over a
  map from id to record; a sale is all or nothing.
- **VNPay** (`VnPayService`, `VnPayConfig`, `VnPayErrorCodes`, `UrlEncoding`,
  `StringSort`): argument checks, the canonical signed string with sorted
  keys and URL-encoded values, the return and notification decisions, client
  address detection and the error-code table.
- **Products and shipping** (`SanPhamService`, `Shipping`, `GhnService`):
  product codes, variant SKUs, product checks, batch status changes, the
  shipping request's checks and cache hash, and the GHN error messages.
- **Real-time messaging** (`Stomp`, `Chat`, `PosView`, `RealTimeOrders`,
  `RealTimeSync`, `RealTimePricing`, `VoucherMonitoring`, `AiChatSocket`,
  `WebSocketLogger`, `WebSocketIntegration`, `WebSocketMessages`,
  `BatchInfoDto`, `ThrottleInfoDto`, `PriceUpdates`, `VoucherMonitoringService`):
  the hand-written STOMP frame codec and dispatch, the order connection's
  quality score, back-off, bounded queue and history, cross-tab sync, the
  price and voucher monitors, chat de-duplication, log throttling, the
  publishing side with its transaction queue, and the message DTOs.
- **Front-end stores and forms** (`CartStore`, `ChatStore`, `OrderMapping`,
  `OrderValidation`, `PaymentMethodValidation`, `AiChat`, `AiChatErrors`,
  `ResponseTypes`).

Each source file is one module. Code that updates state in place (the
services' repositories, the composables' refs and arrays, the socket
modules' subscription tables) is a class whose methods are specified by
functions over its fields; pure rules are functions with lemmas. `Common`
holds the shared vocabulary: `Option`/`Result`, Java and JavaScript
whitespace and `trim`, `split`/`join`, decimal rendering, and Java `int`
and `long` wrap-around.

Amounts are whole VND as unbounded integers (`BigDecimal` and `long` are
exact for these values); Java `int` arithmetic is wrapped explicitly where
the code uses it. Clocks, randomness, HMAC digests, JSON parsing success,
`navigator.onLine`, `localStorage` and repository answers are parameters.

The STOMP header split: a header line is split at every ':' and only the
text up to the second ':' is kept as the value, where the frame layout of
section "STOMP Frames" of the STOMP Protocol Specification 1.2 would keep
the rest of the line; the model follows the code (`Stomp.SplitHeader`).

## Model

| member | source | states |
|---|---|---|
| Stomp.Encode | lapxpert-frontend-admin/src/apis/chat.js:15-22 | a frame is its command line, then its header lines, a blank line, the body and a NUL |
| Stomp.CreateStompFrame | lapxpert-frontend-admin/src/apis/chat.js:15-22 | the loop that appends one `key:value` line per header builds exactly the encoded frame |
| Stomp.EncodeTwoHeaders | lapxpert-frontend-admin/src/apis/chat.js:15-22 | a frame with two headers, as CONNECT and SUBSCRIBE send, is spelled out line by line |
| Stomp.SplitHeader | lapxpert-frontend-admin/src/apis/chat.js:39 | a header line without ':' is a key with no value; otherwise the key is the text before the first ':' and the value the text up to the next ':' |
| Stomp.SplitHeaderLine | lapxpert-frontend-admin/src/apis/chat.js:39 | a header whose key and value hold no ':' is split back into that key and value |
| Stomp.PutAppendsNewKey | lapxpert-frontend-admin/src/apis/chat.js:40 | assigning a header whose key is not yet present appends it after the existing headers |
| Stomp.PutReplacesInPlace | lapxpert-frontend-admin/src/apis/chat.js:40 | assigning a header whose key is present replaces that entry where it first occurs and moves nothing else |
| Stomp.PutThenLookup | lapxpert-frontend-admin/src/apis/chat.js:40 | after assigning a header its key reads the assigned value |
| Stomp.Lookup | lapxpert-frontend-admin/src/apis/chat.js:122 | a header lookup finds nothing exactly when no header has that key |
| Stomp.ParseLines | lapxpert-frontend-admin/src/apis/chat.js:33-41 | the header loop's body start lies between 1 and the number of lines |
| Stomp.ParseStopsAtFirstBlank | lapxpert-frontend-admin/src/apis/chat.js:34-38 | the header loop stops at the first empty line and the body starts right after it |
| Stomp.ParseWithoutBlank | lapxpert-frontend-admin/src/apis/chat.js:33-41 | with no empty line the body start stays at 1, so the header lines are also kept in the body |
| Stomp.DecodeWithoutBlank | lapxpert-frontend-admin/src/apis/chat.js:42 | with no empty line the body is every line after the command, joined, with only the first NUL removed |
| Stomp.Decode | lapxpert-frontend-admin/src/apis/chat.js:29-44 | the command is a single line |
| Stomp.SplitEncodedHeaders | lapxpert-frontend-admin/src/apis/chat.js:15-22 | splitting encoded headers on newlines gives back one line per header |
| Stomp.ParseStep | lapxpert-frontend-admin/src/apis/chat.js:39-40 | reading one plain header line appends that header |
| Stomp.ParseHeaderLines | lapxpert-frontend-admin/src/apis/chat.js:33-41 | the loop reads a run of encoded plain headers with distinct keys back in order and starts the body after the blank line |
| Stomp.EncodedLines | lapxpert-frontend-admin/src/apis/chat.js:15-22 | an encoded well-formed frame splits into the command, one line per header, the blank line and the body's lines |
| Stomp.StripTerminator | lapxpert-frontend-admin/src/apis/chat.js:42 | removing the first NUL from a NUL-free body followed by NUL gives the body back |
| Stomp.RoundTrip | lapxpert-frontend-admin/src/apis/chat.js:15-44 | decoding an encoded well-formed frame gives back its command, headers and body |
| Stomp.ParseStompFrame | lapxpert-frontend-admin/src/apis/chat.js:29-44 | the split, header loop, join and NUL removal compute the decoded frame |
| Stomp.Dispatch | lapxpert-frontend-admin/src/apis/chat.js:119-135 | only a MESSAGE frame whose subscription is registered reaches a callback; it is delivered to that callback with its body exactly when the body parses, otherwise the error callback is told |
| Stomp.LookupLift | lapxpert-frontend-admin/src/apis/chat.js:122-123 | a sent header with distinct keys is found again with its value |
| Stomp.DeliveredToSubscriber | lapxpert-frontend-admin/src/apis/chat.js:119-135 | a well-formed MESSAGE frame naming a registered subscription reaches that subscription's callback with the body sent |
| Chat.SubIdsDistinct | lapxpert-frontend-admin/src/apis/chat.js:79-103 | the public, private and join subscription ids never coincide, so no callback overwrites another |
| Chat.ChatSocket.constructor | lapxpert-frontend-admin/src/apis/chat.js:4-6 | the module starts with no socket open, no subscriptions and nothing sent |
| Chat.ChatSocket.Connect | lapxpert-frontend-admin/src/apis/chat.js:56-68 | a missing or empty user name or room id is an error and changes nothing; otherwise a new socket, not yet open, replaces any open one |
| Chat.ChatSocket.OnOpen | lapxpert-frontend-admin/src/apis/chat.js:70-117 | the open socket sends CONNECT and three SUBSCRIBE frames, in order, and registers each callback under its new id |
| Chat.ChatSocket.OnMessage | lapxpert-frontend-admin/src/apis/chat.js:119-135 | an incoming frame is decoded and dispatched against the registered subscriptions |
| Chat.ChatSocket.Disconnect | lapxpert-frontend-admin/src/apis/chat.js:152-167 | the socket ends closed; an open one also forgets its subscriptions, otherwise they are kept |
| Chat.PrivateMessageDelivered | lapxpert-frontend-admin/src/apis/chat.js:70-135 | after opening, a MESSAGE frame addressed to the private subscription reaches the private-message callback |
| PosView.GetStaffId | lapxpert-frontend-admin/src/apis/posView.js:12-20 | a staff id exists exactly when the stored user has a truthy id, and it is that id as text; a positive number prints as its digits |
| PosView.StaffIdNonEmpty | lapxpert-frontend-admin/src/apis/posView.js:12-20 | a staff id is never empty, so the caller's falsiness test rejects exactly the missing one |
| PosView.PosSocket.constructor | lapxpert-frontend-admin/src/apis/posView.js:4-6 | the module starts with no socket open, no subscriptions and nothing sent |
| PosView.PosSocket.Connect | lapxpert-frontend-admin/src/apis/posView.js:66-74 | without a staff id the error is reported and nothing changes; otherwise a new, not yet open, socket is created for that staff id |
| PosView.PosSocket.OnOpen | lapxpert-frontend-admin/src/apis/posView.js:76-102 | the open socket sends CONNECT then the POS SUBSCRIBE and registers the POS callback under the new id |
| PosView.PosSocket.OnMessage | lapxpert-frontend-admin/src/apis/posView.js:104-118 | an incoming frame is decoded and dispatched against the registered subscriptions |
| SerialNumbers.ValidateStatusTransition | src/main/java/com/lapxpert/backend/sanpham/service/SerialNumberService.java:1443-1463 | a transition is accepted exactly when the table lists it, with the offending pair in the error; DISPOSED and staying put are always refused |
| SerialNumbers.IsCartReservation | src/main/java/com/lapxpert/backend/sanpham/service/SerialNumberService.java:1439-1441 | a cart reservation is a RESERVED serial whose channel is CART |
| SerialNumbers.SoldNeedsReturnOrDamage | src/main/java/com/lapxpert/backend/sanpham/service/SerialNumberService.java:1443-1463 | a sold unit reaches AVAILABLE again only through RETURNED or DAMAGED |
| SerialNumbers.DisposedReachable | src/main/java/com/lapxpert/backend/sanpham/service/SerialNumberService.java:1443-1463 | every status other than DISPOSED reaches DISPOSED along the table |
| SerialNumbers.DeletionBypassesTable | src/main/java/com/lapxpert/backend/sanpham/service/SerialNumberService.java:153-182 | deletion writes DISPOSED from AVAILABLE, a pair the table does not list, while DAMAGED to DISPOSED is listed |
| SerialNumbers.AvailableQuantity | src/main/java/com/lapxpert/backend/sanpham/service/SerialNumberService.java:229-269 | the availability count never exceeds the number of stored units |
| SerialNumbers.ReserveAll | src/main/java/com/lapxpert/backend/sanpham/service/SerialNumberService.java:408-411 | reserving changes exactly the listed units, each to a reservation for the channel and order, and stores no new unit |
| SerialNumbers.SellAll | src/main/java/com/lapxpert/backend/sanpham/service/SerialNumberService.java:524-527 | selling changes exactly the listed units to SOLD and stores no new unit |
| SerialNumbers.ReleaseAll | src/main/java/com/lapxpert/backend/sanpham/service/SerialNumberService.java:609-626 | releasing changes exactly the listed units that are reserved, back to AVAILABLE with no channel or order |
| SerialNumbers.RekeyAll | src/main/java/com/lapxpert/backend/sanpham/service/SerialNumberService.java:818-854 | exactly the listed units reserved for the old order move to the new order; every other unit is kept |
| SerialNumbers.InvalidForSaleMembers | src/main/java/com/lapxpert/backend/sanpham/service/SerialNumberService.java:509-542 | the refused ids are exactly the listed ids not reserved for this order |
| SerialNumbers.ReservationFollowsTable | src/main/java/com/lapxpert/backend/sanpham/service/SerialNumberService.java:408-411 | reserving a free unit is a transition the table allows, holds it for its order, and makes it a cart reservation exactly for the CART channel |
| SerialNumbers.ReserveAvailableQuantity | src/main/java/com/lapxpert/backend/sanpham/service/SerialNumberService.java:229-269 | reserving a page for any channel but the cart lowers the availability count by the page size; a cart reservation leaves it unchanged |
| SerialNumbers.Inventory.constructor | src/main/java/com/lapxpert/backend/sanpham/service/SerialNumberService.java:36-43 | the service starts over the given store |
| SerialNumbers.Inventory.DeleteSerialNumber | src/main/java/com/lapxpert/backend/sanpham/service/SerialNumberService.java:153-182 | a missing id is not found; a unit neither AVAILABLE nor DAMAGED is refused with its status; otherwise exactly that unit becomes DISPOSED, and an error changes nothing |
| SerialNumbers.Inventory.ReserveSerialNumbers | src/main/java/com/lapxpert/backend/sanpham/service/SerialNumberService.java:384-481 | any page size below one, negative included, is the page-size error and changes nothing; a short page is the insufficient-stock error and changes nothing; otherwise exactly the page is reserved and returned |
| SerialNumbers.Inventory.ConfirmSale | src/main/java/com/lapxpert/backend/sanpham/service/SerialNumberService.java:488-591 | an empty list does nothing; missing or repeated ids are not found; the sale succeeds exactly when every unit is reserved for this order, and then exactly those units are sold; otherwise nothing changes and the refused ids are reported |
| SerialNumbers.Inventory.PrepareSale | src/main/java/com/lapxpert/backend/sanpham/service/SerialNumberService.java:509-542 | the loop collects exactly the ids not reserved for this order, and when there are none the working copy has all the units sold |
| SerialNumbers.Inventory.ReleaseReservations | src/main/java/com/lapxpert/backend/sanpham/service/SerialNumberService.java:597-666 | only reserved units among the listed ones are released |
| SerialNumbers.Inventory.UpdateReservationOrderId | src/main/java/com/lapxpert/backend/sanpham/service/SerialNumberService.java:797-864 | an empty list succeeds; missing or repeated ids are an error that changes nothing; otherwise exactly the units reserved for the old order move to the new order |
| SerialNumbers.Inventory.IsInventoryAvailable | src/main/java/com/lapxpert/backend/sanpham/service/SerialNumberService.java:872-985 | available exactly when the order is non-empty and every line passes its check |
| HoaDon.ParseMethod | src/main/java/com/lapxpert/backend/hoadon/service/HoaDonService.java:645 | a parsed payment method has exactly the given name, and a name no method has parses to nothing |
| HoaDon.ParseMethodName | src/main/java/com/lapxpert/backend/hoadon/service/HoaDonService.java:630-651 | every payment method's own name parses back to that method |
| HoaDon.ValidatePaymentStatusTransition | src/main/java/com/lapxpert/backend/hoadon/service/HoaDonService.java:1316-1356 | a payment-status change is accepted exactly when the table allows it; from DA_HOAN_TIEN and to the same status it is always refused |
| HoaDon.UnpaidTargets | src/main/java/com/lapxpert/backend/hoadon/service/HoaDonService.java:1319-1325 | an unpaid order may move only to partly paid, paid or payment failed |
| HoaDon.PaidTargets | src/main/java/com/lapxpert/backend/hoadon/service/HoaDonService.java:1333-1338 | a paid order may move only to awaiting refund or refunded |
| HoaDon.SettledStaysSettled | src/main/java/com/lapxpert/backend/hoadon/service/HoaDonService.java:1316-1356 | once paid, every sequence of allowed changes stays among paid, awaiting refund and refunded |
| HoaDon.RefundedIsFinal | src/main/java/com/lapxpert/backend/hoadon/service/HoaDonService.java:1352-1354 | no allowed change leaves DA_HOAN_TIEN |
| HoaDon.RefundReachable | src/main/java/com/lapxpert/backend/hoadon/service/HoaDonService.java:1316-1356 | every payment status can still reach DA_HOAN_TIEN along allowed changes |
| HoaDon.InventoryEffectOf | src/main/java/com/lapxpert/backend/hoadon/service/HoaDonService.java:1361-1374 | the sale is confirmed exactly when an unpaid or partly paid order becomes paid; stock is released exactly on refund and kept reserved exactly on partial payment |
| HoaDon.StatusForPaid | src/main/java/com/lapxpert/backend/hoadon/service/HoaDonService.java:2537-2552 | nothing paid gives CHUA_THANH_TOAN, at least the total gives DA_THANH_TOAN, anything between gives THANH_TOAN_MOT_PHAN |
| HoaDon.StatusForPaidMonotone | src/main/java/com/lapxpert/backend/hoadon/service/HoaDonService.java:2537-2552 | paying more never moves the payment status back |
| HoaDon.PayableTotal | src/main/java/com/lapxpert/backend/hoadon/service/HoaDonService.java:2056-2070 | the amount to pay is never negative, and is either 0 or goods plus shipping minus discount, a missing fee or discount read as 0 |
| HoaDon.PayableTotalAntitone | src/main/java/com/lapxpert/backend/hoadon/service/HoaDonService.java:2056-2070 | a larger discount never raises the amount to pay |
| HoaDon.LineTotals | src/main/java/com/lapxpert/backend/hoadon/service/HoaDonService.java:2059-2061 | the goods total adds up each line's own total |
| HoaDon.ValidatePaymentAddition | src/main/java/com/lapxpert/backend/hoadon/service/HoaDonService.java:2453-2491 | a payment is accepted exactly when the order is neither paid nor refunded, the amount is positive and recorded, earlier and new amounts stay within the total; each refusal has its own error |
| HoaDon.ConfirmedOrderStatus | src/main/java/com/lapxpert/backend/hoadon/service/HoaDonService.java:1442-1472 | a counter order ends HOAN_THANH; an online order ends DA_GIAO_HANG for cash and DANG_XU_LY otherwise |
| HoaDon.ConfirmationError | src/main/java/com/lapxpert/backend/hoadon/service/HoaDonService.java:1403-1568 | confirmation is allowed exactly when the order is not yet paid, not cancelled, and is not an online cash order without a delivery address |
| HoaDon.PaymentStatusFromMethod | src/main/java/com/lapxpert/backend/hoadon/service/HoaDonService.java:606-624 | a new order is paid exactly when it is paid in cash, otherwise unpaid |
| HoaDon.PaymentStatusFromMethodName | src/main/java/com/lapxpert/backend/hoadon/service/HoaDonService.java:630-651 | by name, only "TIEN_MAT" is paid; MIXED and unknown names are unpaid |
| HoaDon.SetOrderStatus | src/main/java/com/lapxpert/backend/hoadon/service/HoaDonService.java:547-671 | a missing payment method is an error unless the payment is mixed; the order type defaults to ONLINE; a requested status wins; otherwise a counter order with a delivery address is confirmed and any other order waits; the payment status is paid exactly for a single cash payment |
| HoaDon.ValidateOrderItem | src/main/java/com/lapxpert/backend/hoadon/service/HoaDonService.java:348-374 | an item passes exactly when it is present with a variant, a quantity between 1 and the maximum, and a price, if given, between 0 and the maximum |
| HoaDon.EntryErrorNone | src/main/java/com/lapxpert/backend/hoadon/service/HoaDonService.java:3454-3530 | one mixed-payment entry passes exactly when it is well formed and its method is not used yet |
| HoaDon.ValidFromStep | src/main/java/com/lapxpert/backend/hoadon/service/HoaDonService.java:3454-3530 | the remaining entries are valid exactly when the next one is and the rest are, given its method is now used |
| HoaDon.CheckEntriesUnfold | src/main/java/com/lapxpert/backend/hoadon/service/HoaDonService.java:3454-3530 | the entry loop stops at the first bad entry with its error, and otherwise records the method and adds the amount |
| HoaDon.CheckEntriesOk | src/main/java/com/lapxpert/backend/hoadon/service/HoaDonService.java:3454-3530 | the entry loop passes exactly when the entries are well formed with fresh, distinct methods |
| HoaDon.CheckEntriesSum | src/main/java/com/lapxpert/backend/hoadon/service/HoaDonService.java:3454-3530 | when the entry loop passes its running sum is the sum of all amounts |
| HoaDon.MixedConfigurationValid | src/main/java/com/lapxpert/backend/hoadon/service/HoaDonService.java:3454-3530 | a mixed payment is accepted exactly when it has 2 or 3 well-formed entries with distinct supported methods and positive amounts that sum to the order total when one is given |
| HoaDon.ValidateMixedPaymentConfiguration | src/main/java/com/lapxpert/backend/hoadon/service/HoaDonService.java:3454-3530 | the loop returns exactly the configuration's error, or none |
| HoaDon.Amounts | src/main/java/com/lapxpert/backend/hoadon/service/HoaDonService.java:2230-2236 | the amounts of the components, one per component in order |
| HoaDon.SumFromAmounts | src/main/java/com/lapxpert/backend/hoadon/service/HoaDonService.java:2230-2236 | summing the components from any point adds up to the total of all amounts |
| HoaDon.RunSucceeds | src/main/java/com/lapxpert/backend/hoadon/service/HoaDonService.java:2252-2404 | with positive amounts, at most one cash component and nothing paid before it, components that sum to the total all go through; the cash is recorded and every other component gives a gateway redirect |
| HoaDon.PositiveSumFrom | src/main/java/com/lapxpert/backend/hoadon/service/HoaDonService.java:2252-2404 | positive components sum to a non-negative amount, zero only when none are left |
| HoaDon.ZeroSumFromIsEnd | src/main/java/com/lapxpert/backend/hoadon/service/HoaDonService.java:2252-2404 | positive components summing to zero means none are left |
| HoaDon.NoCashFrom | src/main/java/com/lapxpert/backend/hoadon/service/HoaDonService.java:2341-2353 | without cash components no cash is recorded |
| HoaDon.Order.RecalculateTotals | src/main/java/com/lapxpert/backend/hoadon/service/HoaDonService.java:2056-2070 | the goods total becomes the sum of line totals and the grand total the never-negative amount to pay |
| HoaDon.SumLineTotals | src/main/java/com/lapxpert/backend/hoadon/service/HoaDonService.java:2057-2061 | the loop adds up exactly the line totals of the order, in the specification function's sense |
| HoaDon.Order.UpdatePaymentStatus | src/main/java/com/lapxpert/backend/hoadon/service/HoaDonService.java:2530-2560 | the payment status is re-derived from the amount paid; the order is saved, and the inventory consequence applied, exactly when it changed |
| HoaDon.Order.AddPayment | src/main/java/com/lapxpert/backend/hoadon/service/HoaDonService.java:2165-2207 | the result is the payment-addition check; on success the amount is added and the status re-derived, and the paid amount stays within the total; on failure nothing changes |
| HoaDon.Order.ProcessMixedPayment | src/main/java/com/lapxpert/backend/hoadon/service/HoaDonService.java:2214-2307 | paid and refunded orders and sums other than the total are refused; otherwise the request succeeds exactly when the in-order run of the components succeeds, a failure carries that run's error, and any failure rolls everything back |
| HoaDon.Order.ConfirmPayment | src/main/java/com/lapxpert/backend/hoadon/service/HoaDonService.java:1431-1544 | a confirmation error changes nothing; otherwise the order is paid and its status is the one method and order type give |
| HoaDon.Order.Cancel | src/main/java/com/lapxpert/backend/hoadon/service/HoaDonService.java:1016-1090 | only an order awaiting confirmation is cancelled, and loses its vouchers; any other order is refused with its status and kept |
| PaymentValidation.ValidateAmount | src/main/java/com/lapxpert/backend/payment/service/PaymentValidationService.java:20-24 | accepted exactly when the amount is positive, with the fixed message otherwise |
| PaymentValidation.ValidateOrderInfo | src/main/java/com/lapxpert/backend/payment/service/PaymentValidationService.java:31-39 | accepted exactly when present, not blank and at most 255 characters, each failure with its own message |
| PaymentValidation.ValidateOrderId | src/main/java/com/lapxpert/backend/payment/service/PaymentValidationService.java:46-50 | accepted exactly when present and not blank |
| PaymentValidation.ValidateUrl | src/main/java/com/lapxpert/backend/payment/service/PaymentValidationService.java:58-66 | accepted exactly when present, not blank and starting with http:// or https://; the messages name the parameter |
| PaymentValidation.OctetHasNoDot | src/main/java/com/lapxpert/backend/payment/service/PaymentValidationService.java:84-89 | a part that parses to 0..255 is non-empty and holds no dot |
| PaymentValidation.DotMeansNotBlank | src/main/java/com/lapxpert/backend/payment/service/PaymentValidationService.java:74-76 | text holding a dot is never blank |
| PaymentValidation.DottedQuadAccepted | src/main/java/com/lapxpert/backend/payment/service/PaymentValidationService.java:73-95 | four octets joined by dots are accepted |
| PaymentValidation.IPv4Exactly | src/main/java/com/lapxpert/backend/payment/service/PaymentValidationService.java:73-95 | the corrected check accepts exactly the strings that are four octets joined by dots |
| PaymentValidation.IsValidIPAddress | src/main/java/com/lapxpert/backend/payment/service/PaymentValidationService.java:73-95 | the corrected check accepts only text that splits on '.' into exactly four dot-free pieces |
| PaymentValidation.IntendedImpliesAsWritten | src/main/java/com/lapxpert/backend/payment/service/PaymentValidationService.java:73-95 | every address the corrected check accepts, the code as written accepts too |
| PaymentValidation.DigitOctet | src/main/java/com/lapxpert/backend/payment/service/PaymentValidationService.java:84-89 | a single digit is an octet |
| PaymentValidation.TrailingDotAccepted | src/main/java/com/lapxpert/backend/payment/service/PaymentValidationService.java:79-80 | as written "1.2.3.4." is accepted, because splitting drops the trailing empty piece, though it is not a dotted quad |
| BasePayment.ValidatePaymentParameters | src/main/java/com/lapxpert/backend/payment/controller/BasePaymentController.java:128-137 | accepted exactly when amount, order information, order id and return URL all pass; the first failing check, in that order, is the one reported |
| RealTimeOrders.HeartbeatPenalty | lapxpert-frontend-client/src/composables/useRealTimeOrderManagement.js:588-605 | a silence of at most 10 s costs nothing, a missing heartbeat costs 40, and every penalty is one of 0, 10, 20 or 40 |
| RealTimeOrders.QualityScore | lapxpert-frontend-client/src/composables/useRealTimeOrderManagement.js:593-612 | the score is at most 100, 0 when offline, and exactly 100 when the network is neither offline nor unstable, there are no errors and the heartbeat is recent |
| RealTimeOrders.QualityAntitoneInErrors | lapxpert-frontend-client/src/composables/useRealTimeOrderManagement.js:595-596 | more errors never raise the score |
| RealTimeOrders.QualityAntitoneInGap | lapxpert-frontend-client/src/composables/useRealTimeOrderManagement.js:598-605 | a longer silence never raises the score |
| RealTimeOrders.Band | lapxpert-frontend-client/src/composables/useRealTimeOrderManagement.js:617-626 | EXCELLENT exactly from 80 up, CRITICAL exactly below 30, never UNKNOWN |
| RealTimeOrders.BandMonotone | lapxpert-frontend-client/src/composables/useRealTimeOrderManagement.js:617-626 | a higher score never gives a worse quality |
| RealTimeOrders.Clamp | lapxpert-frontend-client/src/composables/useRealTimeOrderManagement.js:614-615 | the stability lies in 0..100 and equals a score already in that range |
| RealTimeOrders.BandOfClamp | lapxpert-frontend-client/src/composables/useRealTimeOrderManagement.js:614-626 | the quality the score gives is the quality its clamped stability would give |
| RealTimeOrders.NetworkAfter | lapxpert-frontend-client/src/composables/useRealTimeOrderManagement.js:691-710 | OFFLINE exactly when the browser is offline; UNSTABLE exactly when online with two or more errors or stability below 70; ONLINE otherwise |
| RealTimeOrders.StabilityAfter | lapxpert-frontend-client/src/composables/useRealTimeOrderManagement.js:691-716 | offline gives 0, a stability in 0..100 stays in that range, and a connection younger than a minute keeps its stability |
| RealTimeOrders.ReconnectDelay | lapxpert-frontend-client/src/composables/useRealTimeOrderManagement.js:142-163 | the STOMP reconnect delay lies between 1 s and the cap, 60 s on an unstable network and 30 s otherwise |
| RealTimeOrders.ReconnectDelayMonotone | lapxpert-frontend-client/src/composables/useRealTimeOrderManagement.js:152-154 | the delay never shrinks as attempts accumulate |
| RealTimeOrders.ReconnectDelayReachesCap | lapxpert-frontend-client/src/composables/useRealTimeOrderManagement.js:152-154 | from the fifth attempt on the delay is the cap |
| RealTimeOrders.ScheduledDelay | lapxpert-frontend-client/src/composables/useRealTimeOrderManagement.js:724-726 | the scheduled delay is at least 1 s |
| RealTimeOrders.ScheduledDelayAtMostReconnectDelay | lapxpert-frontend-client/src/composables/useRealTimeOrderManagement.js:720-743 | the scheduler's delay never exceeds the STOMP client's delay for the same attempt |
| RealTimeOrders.Enqueue | lapxpert-frontend-client/src/composables/useRealTimeOrderManagement.js:776-796 | a queue within 50 stays within 50, the new message is last, and the oldest entry is dropped exactly when the queue was full |
| RealTimeOrders.FlushIntended | lapxpert-frontend-client/src/composables/useRealTimeOrderManagement.js:799-819 | the intended flush keeps at most the messages it had, each with a retry count of at least one, and keeps retry counts bounded |
| RealTimeOrders.FlushIntendedKeepsFailures | lapxpert-frontend-client/src/composables/useRealTimeOrderManagement.js:810-818 | every message the intended flush keeps is an earlier message whose send failed with retries left, retried once more |
| RealTimeOrders.FlushAllDelivered | lapxpert-frontend-client/src/composables/useRealTimeOrderManagement.js:810-818 | a flush in which every send succeeds empties the queue |
| RealTimeOrders.FlushDropsExhausted | lapxpert-frontend-client/src/composables/useRealTimeOrderManagement.js:813 | messages that have used up three retries are given up when they fail again |
| RealTimeOrders.FlushAsWritten | lapxpert-frontend-client/src/composables/useRealTimeOrderManagement.js:799-868 | flushing an empty queue as written leaves it empty |
| RealTimeOrders.AsWrittenDuplicatesFailure | lapxpert-frontend-client/src/composables/useRealTimeOrderManagement.js:799-868 | as written, one failed resend leaves a fresh copy and the retried entry, where the intended flush keeps only the retried entry |
| RealTimeOrders.AsWrittenNeverGivesUp | lapxpert-frontend-client/src/composables/useRealTimeOrderManagement.js:799-868 | as written, a message with three retries behind it is queued again with a count of 0 |
| RealTimeOrders.AsWrittenDoubles | lapxpert-frontend-client/src/composables/useRealTimeOrderManagement.js:799-868 | as written, a flush of fresh messages that all fail doubles the queue |
| RealTimeOrders.AsWrittenOverflowsCap | lapxpert-frontend-client/src/composables/useRealTimeOrderManagement.js:799-868 | as written, 26 queued messages that all fail leave 51 entries, past the cap of 50 |
| RealTimeOrders.RequeueAll | lapxpert-frontend-client/src/composables/useRealTimeOrderManagement.js:799-830 | a flush while disconnected keeps at most 50 entries, every one fresh with retry count 0 |
| RealTimeOrders.RequeueKeepsOrder | lapxpert-frontend-client/src/composables/useRealTimeOrderManagement.js:799-830 | a flush while disconnected of a queue within its bound gives back the same messages in the same order, each fresh |
| RealTimeOrders.PushHistory | lapxpert-frontend-client/src/composables/useRealTimeOrderManagement.js:376-390 | the new entry comes first, the history keeps at most 50 entries, and the rest are the newest earlier ones in order |
| RealTimeOrders.OrderConnection.constructor | lapxpert-frontend-client/src/composables/useRealTimeOrderManagement.js:35-57 | disconnected, online with stability 100, quality UNKNOWN, no errors, queuing on and empty queue and history |
| RealTimeOrders.OrderConnection.Healthy | lapxpert-frontend-client/src/composables/useRealTimeOrderManagement.js:93-98 | a disconnected or offline connection, a critical quality or five or more errors is never healthy |
| RealTimeOrders.OrderConnection.ShouldReconnect | lapxpert-frontend-client/src/composables/useRealTimeOrderManagement.js:100-105 | a connection that should reconnect is not healthy; an offline one or one out of attempts never reconnects |
| RealTimeOrders.OrderConnection.UpdateNetworkStatus | lapxpert-frontend-client/src/composables/useRealTimeOrderManagement.js:691-717 | the network status and stability become those the status rules give for the browser state, the errors and the old stability |
| RealTimeOrders.OrderConnection.UpdateConnectionQuality | lapxpert-frontend-client/src/composables/useRealTimeOrderManagement.js:581-630 | disconnected gives CRITICAL and stability 0; connected bands the score, clamps it to a stability and re-derives the network status; stability stays in 0..100 |
| RealTimeOrders.OrderConnection.RecordError | lapxpert-frontend-client/src/composables/useRealTimeOrderManagement.js:636-658 | an error entry carrying the quality at the time is put first in the history, then the connection is re-rated |
| RealTimeOrders.OrderConnection.ProcessIncomingMessage | lapxpert-frontend-client/src/composables/useRealTimeOrderManagement.js:376-390 | a payload that parses becomes the last message and is pushed onto the bounded history; one that does not changes nothing |
| RealTimeOrders.OrderConnection.QueueMessage | lapxpert-frontend-client/src/composables/useRealTimeOrderManagement.js:776-796 | the message is enqueued with retry count 0 and the queue stays within its bound |
| RealTimeOrders.OrderConnection.Transmit | lapxpert-frontend-client/src/composables/useRealTimeOrderManagement.js:834-852 | a delivered message is counted, a failed one counts an error and records MESSAGE_SEND_FAILED; either way the quality band, the network status and the stability (kept within 0 to 100) are re-rated from the error count, the heartbeat gap and the previous network status |
| RealTimeOrders.OrderConnection.SendMessage | lapxpert-frontend-client/src/composables/useRealTimeOrderManagement.js:822-868 | while disconnected the message is queued and reported sent exactly when queuing is on; while connected the result is the delivery, a failure counts one error and no message and is queued when queuing is on, and the connection is re-rated as Transmit does |
| RealTimeOrders.OrderConnection.ProcessQueuedMessages | lapxpert-frontend-client/src/composables/useRealTimeOrderManagement.js:799-819 | with queuing off nothing changes; while disconnected every message is queued again as a fresh entry; while connected the queue becomes the intended flush of the old queue; it never grows and the connection invariant is kept |
| RealTimeOrders.OrderConnection.RequeuePending | lapxpert-frontend-client/src/composables/useRealTimeOrderManagement.js:808-818 | while disconnected, sending every pending message through sendMessage leaves exactly the fresh re-queue of them, and keeps the connection invariant |
| RealTimeOrders.OrderConnection.ResendPending | lapxpert-frontend-client/src/composables/useRealTimeOrderManagement.js:808-818 | while connected, resending the pending messages in order leaves the intended flush of them: the failures still allowed a retry, counts raised |
| UrlEncoding.EncodeChar | src/main/java/com/lapxpert/backend/payment/vnpay/VNPayConfig.java:125 | each character encodes to one character or a three-character escape |
| UrlEncoding.UrlEncode | src/main/java/com/lapxpert/backend/payment/vnpay/VNPayService.java:117-121 | the encoding is at least as long as the text and at most three times as long |
| UrlEncoding.EncodedHasNoSeparators | src/main/java/com/lapxpert/backend/payment/vnpay/VNPayService.java:117-121 | an encoded value never holds '&' or '=', so query parameters stay apart |
| UrlEncoding.DecodeEncodeChar | src/main/java/com/lapxpert/backend/payment/vnpay/VNPayService.java:117-121 | decoding one encoded ASCII character gives it back, whatever follows |
| UrlEncoding.DecodeEncode | src/main/java/com/lapxpert/backend/payment/vnpay/VNPayService.java:117-121 | decoding undoes the encoding of ASCII text |
| UrlEncoding.NonAsciiBecomesQuestionMark | src/main/java/com/lapxpert/backend/payment/vnpay/VNPayService.java:117-121 | a character outside ASCII is replaced and comes back as '?' |
| UrlEncoding.EncodeUnreserved | src/main/java/com/lapxpert/backend/payment/vnpay/VNPayService.java:117-121 | letters, digits and ". - * _" are their own encoding |
| UrlEncoding.HexDigit | src/main/java/com/lapxpert/backend/payment/vnpay/VNPayService.java:117-121 | each value below 16 has a hex digit that reads back as that value |
| StringSort.LexLeTotal | src/main/java/com/lapxpert/backend/payment/vnpay/VNPayConfig.java:113-114 | any two keys compare one way or the other |
| StringSort.LexLeAntisymmetric | src/main/java/com/lapxpert/backend/payment/vnpay/VNPayConfig.java:113-114 | keys that compare both ways are equal |
| StringSort.LexLeTransitive | src/main/java/com/lapxpert/backend/payment/vnpay/VNPayConfig.java:113-114 | the key order is transitive |
| StringSort.MinString | src/main/java/com/lapxpert/backend/payment/vnpay/VNPayConfig.java:113-114 | a non-empty key set has a least key, which is in the set |
| StringSort.SortedKeys | src/main/java/com/lapxpert/backend/payment/vnpay/VNPayConfig.java:113-114 | the sorted key list holds each key exactly once, in strictly increasing order |
| StringSort.SortedUnique | src/main/java/com/lapxpert/backend/payment/vnpay/VNPayConfig.java:113-114 | a key set has only one strictly sorted listing, so any correct sort gives the same list |
| StringSort.SortKeys | src/main/java/com/lapxpert/backend/payment/vnpay/VNPayService.java:104-105 | the selection loop returns exactly the sorted key list |
| GhnService.GetValidationError | src/main/java/com/lapxpert/backend/shipping/service/GHNService.java:286-300 | a request GHN accepts gets the generic message, exactly then; null, a missing or non-positive weight and a missing province each get their own message exactly in their case |
| GhnService.ValidateRequest | src/main/java/com/lapxpert/backend/shipping/service/GHNService.java:275-280 | an accepted request is present with a positive weight and a non-blank province and district |
| GhnService.StrictImpliesGhn | src/main/java/com/lapxpert/backend/shipping/service/GHNService.java:275-280 | every request the shipping request's own check accepts, GHN accepts too |
| GhnService.MapErrorToUserMessage | src/main/java/com/lapxpert/backend/shipping/service/GHNService.java:385-414 | null gives the unknown-error message, a known status its fixed message, and any other code the district, ward or weight message by the first keyword in the lower-cased message, else the fee prefix with the message |
| GhnService.DistrictKeywordIgnoresCase | src/main/java/com/lapxpert/backend/shipping/service/GHNService.java:385-414 | the keyword test ignores letter case |
| GhnService.FillDefaultValues | src/main/java/com/lapxpert/backend/shipping/service/GHNService.java:117-134 | a blank transport becomes road and a blank delivery option standard; every other field is kept |
| GhnService.FillDefaultValuesIdempotent | src/main/java/com/lapxpert/backend/shipping/service/GHNService.java:117-134 | filling the defaults twice changes nothing more |
| Shipping.PlaceIssue | src/main/java/com/lapxpert/backend/shipping/dto/ShippingRequest.java:87-112 | no issue exactly when both names are acceptable; otherwise one of the four issues of that address |
| Shipping.PickupIssue | src/main/java/com/lapxpert/backend/shipping/dto/ShippingRequest.java:87-98 | no pickup issue exactly when the pickup address is valid |
| Shipping.DeliveryIssue | src/main/java/com/lapxpert/backend/shipping/dto/ShippingRequest.java:101-112 | no delivery issue exactly when the delivery address is valid |
| Shipping.WeightIssue | src/main/java/com/lapxpert/backend/shipping/dto/ShippingRequest.java:115-126 | no weight issue exactly when the weight is 100 g to 30 kg; under the minimum exactly for a positive weight below 100 g |
| Shipping.ValueIssue | src/main/java/com/lapxpert/backend/shipping/dto/ShippingRequest.java:129-134 | no value issue exactly when the value is absent or 0 to 100,000,000 |
| Shipping.ValidationError | src/main/java/com/lapxpert/backend/shipping/dto/ShippingRequest.java:85-142 | no error exactly when the request is valid |
| Shipping.ErrorPrecedence | src/main/java/com/lapxpert/backend/shipping/dto/ShippingRequest.java:85-142 | the error belongs to the first group of checks that fails |
| Shipping.WeightTooLowExactly | src/main/java/com/lapxpert/backend/shipping/dto/ShippingRequest.java:115-126 | the under-minimum error is reported exactly when both addresses pass and the weight is positive and below 100 g |
| Shipping.ValidBounds | src/main/java/com/lapxpert/backend/shipping/dto/ShippingRequest.java:74-80 | a valid request has a weight of 100 g to 30 kg, a value of 0 to 100,000,000 when given, and place names of at least three characters |
| Shipping.IsValid | src/main/java/com/lapxpert/backend/shipping/dto/ShippingRequest.java:74-80 | a valid request has a weight of 100 g to 30 kg, a value of 0 to the maximum when given, and a delivery option |
| Shipping.Codes | src/main/java/com/lapxpert/backend/shipping/dto/ShippingRequest.java:57-63 | one character code per character |
| Shipping.CongruenceStep | src/main/java/com/lapxpert/backend/shipping/dto/ShippingRequest.java:57-63 | one hashing step keeps a congruence modulo 2^32 |
| Shipping.StringHashIsPolynomial | src/main/java/com/lapxpert/backend/shipping/dto/ShippingRequest.java:57-63 | the string hash is the base-31 polynomial of the character codes modulo 2^32 |
| Shipping.SumOfCongruences | src/main/java/com/lapxpert/backend/shipping/dto/ShippingRequest.java:57-63 | congruence modulo 2^32 is transitive |
| Shipping.ObjectsHashIsPolynomial | src/main/java/com/lapxpert/backend/shipping/dto/ShippingRequest.java:57-63 | Objects.hash is the base-31 polynomial starting from 1, modulo 2^32 |
| Shipping.HashCode | src/main/java/com/lapxpert/backend/shipping/dto/ShippingRequest.java:57-63 | a 32-bit value congruent to the polynomial of the essential fields' hashes |
| Shipping.HashIgnoresNonEssential | src/main/java/com/lapxpert/backend/shipping/dto/ShippingRequest.java:57-63 | requests equal in the fields the fee depends on share a hash |
| OrderValidation.ThenEmpty | lapxpert-frontend-admin/src/composables/useOrderValidation.js:20-64 | no earlier errors leave the outcome unchanged |
| OrderValidation.ThenThen | lapxpert-frontend-admin/src/composables/useOrderValidation.js:20-64 | collecting errors is associative |
| OrderValidation.OneRule | lapxpert-frontend-admin/src/composables/useOrderValidation.js:20-64 | a single rule contributes exactly its own errors |
| OrderValidation.TwoRules | lapxpert-frontend-admin/src/composables/useOrderValidation.js:20-64 | two rules give the first one's errors, then the second one's, unless either throws |
| OrderValidation.ValidateField | lapxpert-frontend-admin/src/composables/useOrderValidation.js:20-64 | the loop over the rules gives the errors the specification function describes |
| OrderValidation.RequiredRule | lapxpert-frontend-admin/src/composables/useOrderValidation.js:25-29 | the required rule fails exactly for falsy values and whitespace-only text, and never throws |
| OrderValidation.QuantityRulesTotal | lapxpert-frontend-admin/src/composables/useOrderValidation.js:108-118 | the quantity rules never throw |
| OrderValidation.NoProductsReported | lapxpert-frontend-admin/src/composables/useOrderValidation.js:105-107 | an order with no products always carries the product-list error |
| OrderValidation.OrderErrorsThrowOnlyOnNumericPhone | lapxpert-frontend-admin/src/composables/useOrderValidation.js:85-92 | only a phone number given as a non-zero number makes the check throw |
| OrderValidation.BadQuantityReported | lapxpert-frontend-admin/src/composables/useOrderValidation.js:108-118 | a line with a bad quantity is reported under its own key |
| OrderValidation.ValidateItems | lapxpert-frontend-admin/src/composables/useOrderValidation.js:108-118 | the forEach over the lines gives the errors the specification function describes |
| OrderValidation.ValidateOrderData | lapxpert-frontend-admin/src/composables/useOrderValidation.js:71-144 | the order's errors as the specification function describes, including its TypeError |
| OrderValidation.ValidatePhoneNumber | lapxpert-frontend-admin/src/composables/useOrderValidation.js:192-205 | missing or empty is invalid without a message; valid exactly for 10 or 11 digits once whitespace is removed; any other non-empty number is invalid with the phone message |
| OrderValidation.PhoneCheckAgreesWithRule | lapxpert-frontend-admin/src/composables/useOrderValidation.js:36-40 | on non-empty text the stand-alone phone check agrees with the phone rule |
| OrderValidation.ValidateEmailAddress | lapxpert-frontend-admin/src/composables/useOrderValidation.js:212-224 | missing or empty is invalid without a message; valid exactly for the email shape; otherwise the email message |
| OrderValidation.EmailCheckAgreesWithRule | lapxpert-frontend-admin/src/composables/useOrderValidation.js:30-34 | on non-empty text the stand-alone email check agrees with the email rule |
| OrderValidation.ValidateStreetAddress | lapxpert-frontend-admin/src/composables/useOrderValidation.js:231-254 | valid exactly for a trimmed street of 5 to 255 characters without a made-up word; empty gives no message; a non-empty rejected street always has a message: too short exactly below 5 characters, too long exactly above 255, made up exactly when the length fits and a made-up word occurs |
| OrderValidation.StreetCheckImpliesAddressRule | lapxpert-frontend-admin/src/composables/useOrderValidation.js:40-44 | a street the stand-alone check accepts passes the address rule |
| OrderValidation.ValidateAddressHierarchy | lapxpert-frontend-admin/src/composables/useOrderValidation.js:266-299 | each missing level is reported exactly when it and no higher level is missing; a name missing from a non-empty list is reported; valid exactly when all three are chosen and listed |
| OrderValidation.ValidateCompleteAddress | lapxpert-frontend-admin/src/composables/useOrderValidation.js:312-351 | valid exactly when there are no field errors and no message, exactly when both the street and the hierarchy pass; an invalid address carries "Địa chỉ không hợp lệ"; the street message is filed under duong and the hierarchy message under its level's field, or general for the two consistency errors; no other key appears; an empty street does not make the address invalid |
| OrderValidation.ValidationState.constructor | lapxpert-frontend-admin/src/composables/useOrderValidation.js:10-11 | no errors and not validating |
| OrderValidation.ValidationState.ValidateTabData | lapxpert-frontend-admin/src/composables/useOrderValidation.js:151-160 | no tab changes nothing; otherwise the order's errors are stored and returned, and a throw leaves the flag set |
| OrderValidation.ValidationState.ClearValidationErrors | lapxpert-frontend-admin/src/composables/useOrderValidation.js:165-167 | the errors are emptied |
| OrderValidation.ValidationState.HasValidationErrors | lapxpert-frontend-admin/src/composables/useOrderValidation.js:173-175 | true exactly when some field has an entry |
| OrderValidation.ValidationState.GetFieldError | lapxpert-frontend-admin/src/composables/useOrderValidation.js:182-185 | the first message recorded for the field, or null exactly when there is none |
| AiChatSocket.UserMessageId | lapxpert-frontend-client/src/composables/useAiChatWebSocket.js:277-341 | the id of a sent message is never empty |
| AiChatSocket.Evict | lapxpert-frontend-client/src/composables/useAiChatWebSocket.js:55-102 | at most the cap, unchanged when within it, a suffix of the ids ending with the newest |
| AiChatSocket.EvictDistinct | lapxpert-frontend-client/src/composables/useAiChatWebSocket.js:55-102 | eviction keeps the ids distinct |
| AiChatSocket.AiChatSession.constructor | lapxpert-frontend-client/src/composables/useAiChatWebSocket.js:11-29 | no messages, no seen ids, no client or session, ready and not typing |
| AiChatSocket.AiChatSession.AddMessageWithDeduplication | lapxpert-frontend-client/src/composables/useAiChatWebSocket.js:55-102 | added exactly when the id is new; then the id is recorded with eviction and the message appended; a repeat changes nothing; the id is seen afterwards |
| AiChatSocket.AiChatSession.ClearMessages | lapxpert-frontend-client/src/composables/useAiChatWebSocket.js:410-415 | messages and seen ids are emptied |
| AiChatSocket.AiChatSession.SendMessage | lapxpert-frontend-client/src/composables/useAiChatWebSocket.js:277-341 | accepted exactly when there is a client, a truthy session, non-blank trimmed content and an unseen message id; an accepted id joins the seen list with the oldest evicted, the trimmed message is recorded and sent to the session's topic and the assistant is marked as working; a refused message changes nothing |
| AiChatSocket.AiChatSession.RecordAndSend | lapxpert-frontend-client/src/composables/useAiChatWebSocket.js:286-315 | accepted exactly when the message id has not been seen; then the id joins the seen list (oldest evicted), the message is appended once with the given text, sent to the session's send topic as recorded, and the assistant marked as working; a duplicate id changes neither the lists, the seen ids, the status nor the typing flag |
| VnPayErrorCodes.CodeNumber | src/main/java/com/lapxpert/backend/payment/vnpay/mapper/VNPayErrorCodeMapper.java:62-171 | a code read as a number is two digits spelling a number below 100 |
| VnPayErrorCodes.CodeOf | src/main/java/com/lapxpert/backend/payment/vnpay/mapper/VNPayErrorCodeMapper.java:62-171 | the two-digit code of a number reads back as that number |
| VnPayErrorCodes.KnownError | src/main/java/com/lapxpert/backend/payment/vnpay/mapper/VNPayErrorCodeMapper.java:62-171 | the table has an entry exactly for its listed codes |
| VnPayErrorCodes.GetErrorInfo | src/main/java/com/lapxpert/backend/payment/vnpay/mapper/VNPayErrorCodeMapper.java:179-195 | a missing or blank code gets the default entry, an unknown one the unknown-code entry quoting it, a known one (after trimming) its table entry; the first two are critical and retryable |
| VnPayErrorCodes.IsSuccess | src/main/java/com/lapxpert/backend/payment/vnpay/mapper/VNPayErrorCodeMapper.java:243-245 | only the known code 00, untrimmed, is a success |
| VnPayErrorCodes.IsCriticalError | src/main/java/com/lapxpert/backend/payment/vnpay/mapper/VNPayErrorCodeMapper.java:253-255 | a missing or unknown code is critical |
| VnPayErrorCodes.CriticalCodes | src/main/java/com/lapxpert/backend/payment/vnpay/mapper/VNPayErrorCodeMapper.java:253-255 | a known code is critical exactly when it is 09, 10, 12, 51, 79 or 99 |
| VnPayErrorCodes.EntryCritical | src/main/java/com/lapxpert/backend/payment/vnpay/mapper/VNPayErrorCodeMapper.java:62-171 | the critical rows of the table are exactly 09, 10, 12, 51, 79 and 99 |
| VnPayErrorCodes.SuccessIsNotCritical | src/main/java/com/lapxpert/backend/payment/vnpay/mapper/VNPayErrorCodeMapper.java:243-255 | the success code is not critical and its entry is informational and not retryable |
| VnPayErrorCodes.TrimStartPrefix | src/main/java/com/lapxpert/backend/payment/vnpay/mapper/VNPayErrorCodeMapper.java:185 | leading whitespace is trimmed off |
| VnPayErrorCodes.TrimEndSuffix | src/main/java/com/lapxpert/backend/payment/vnpay/mapper/VNPayErrorCodeMapper.java:185 | trailing whitespace is trimmed off |
| VnPayErrorCodes.PaddedCodeSameEntry | src/main/java/com/lapxpert/backend/payment/vnpay/mapper/VNPayErrorCodeMapper.java:185 | surrounding whitespace does not change the entry of a known code |
| VnPayErrorCodes.PaddedSuccessCode | src/main/java/com/lapxpert/backend/payment/vnpay/mapper/VNPayErrorCodeMapper.java:185-245 | " 00" looks up the success entry, yet isSuccess, which does not trim, rejects it |
| VnPayService.ValidateCreateOrderParameters | src/main/java/com/lapxpert/backend/payment/vnpay/VNPayService.java:372-395 | accepted exactly when the amount is positive, the order information is not blank and at most 255 characters, and the return URL is a non-blank http(s) URL |
| VnPayService.CreateOrderChecksAgree | src/main/java/com/lapxpert/backend/payment/vnpay/VNPayService.java:372-395 | the service's checks give the same verdict and message as the shared payment validators, in the same order |
| VnPayService.ValidateCreateOrderWithIdParameters | src/main/java/com/lapxpert/backend/payment/vnpay/VNPayService.java:406-419 | the checks above, then a non-blank order id that parses as a long, each failure with its own message |
| VnPayService.NumericOrderIdAccepted | src/main/java/com/lapxpert/backend/payment/vnpay/VNPayService.java:406-419 | a numeric order id within the long range passes |
| VnPayService.AmountParamReadsBack | src/main/java/com/lapxpert/backend/payment/vnpay/VNPayService.java:81 | the corrected amount parameter reads back as exactly a hundred times the amount |
| VnPayService.AmountOverflowsAsWritten | src/main/java/com/lapxpert/backend/payment/vnpay/VNPayService.java:81 | an amount whose hundredfold lies between 2^31 and 2^32 passes the amount check yet is written as a negative number |
| VnPayService.AmountOverflowExample | src/main/java/com/lapxpert/backend/payment/vnpay/VNPayService.java:81 | 21474837 is written as -2147483596 |
| VnPayService.LongAmountParam | src/main/java/com/lapxpert/backend/payment/vnpay/VNPayService.java:305 | the long product is exact within the long range |
| VnPayService.SignedStringsAgree | src/main/java/com/lapxpert/backend/payment/vnpay/VNPayService.java:105-129 | with no empty value the string the service signs is the one the return check recomputes |
| VnPayService.SignedStringsDifferOnEmptyValue | src/main/java/com/lapxpert/backend/payment/vnpay/VNPayService.java:105-129 | an empty value in the middle gives one '&' in the service and two in the return check |
| VnPayService.PaymentUrlSignature | src/main/java/com/lapxpert/backend/payment/vnpay/VNPayService.java:105-135 | with no empty value the URL carries the signature the return check computes over the same fields |
| VnPayService.QueryAt | src/main/java/com/lapxpert/backend/payment/vnpay/VNPayService.java:109-129 | one loop step adds the name's piece to both strings |
| VnPayService.BuildStrings | src/main/java/com/lapxpert/backend/payment/vnpay/VNPayService.java:105-129 | the loop builds the signed string and the query the specification functions describe |
| VnPayService.BuildPaymentUrl | src/main/java/com/lapxpert/backend/payment/vnpay/VNPayService.java:105-135 | the URL is the query followed by the signature of the signed string, or the signing error |
| VnPayService.CreateOrder | src/main/java/com/lapxpert/backend/payment/vnpay/VNPayService.java:64-136 | a failed check returns its message; otherwise the signed URL over the thirteen parameters with an eight-digit reference and the default address; the signed amount is the total times 100 computed as a long, the corrected form of the int product modelled as written by VnPayService.AmountParamAsWritten |
| VnPayService.IpParam | src/main/java/com/lapxpert/backend/payment/vnpay/VNPayService.java:287-362 | the client's address when given and not blank, else the default address |
| VnPayService.CreateOrderWithOrderId | src/main/java/com/lapxpert/backend/payment/vnpay/VNPayService.java:287-362 | a failed check returns its message; otherwise the signed URL with the order id as reference and the client's address |
| VnPayService.IpnRequiredImpliesReturnRequired | src/main/java/com/lapxpert/backend/payment/vnpay/VNPayService.java:428-514 | a notification with its parameters passes the return-call check too |
| VnPayService.NonEmptyFields | src/main/java/com/lapxpert/backend/payment/vnpay/VNPayService.java:174-181 | exactly the parameters with a non-empty value |
| VnPayService.ValidatePaymentTiming | src/main/java/com/lapxpert/backend/payment/vnpay/VNPayService.java:565-586 | no check without either date; otherwise the expiry message exactly when the payment is expired |
| VnPayService.CreateDateAloneIsExpired | src/main/java/com/lapxpert/backend/payment/vnpay/VNPayService.java:527-586 | a creation date without an expiry date counts as expired |
| VnPayService.ReturnDecision | src/main/java/com/lapxpert/backend/payment/vnpay/VNPayService.java:149-273 | always -1, 0 or 1; -1 for missing parameters; 1 exactly when the parameters are present, the timing passes, the signature matches and the payment succeeded |
| VnPayService.OrderReturnResult | src/main/java/com/lapxpert/backend/payment/vnpay/VNPayService.java:149-273 | always -1, 0 or 1; -1 when a required parameter is missing; 1 only for a successful payment that carries a secure hash |
| VnPayService.HasRequired | src/main/java/com/lapxpert/backend/payment/vnpay/VNPayService.java:428-442 | true exactly when every named parameter is present and not blank |
| VnPayService.IsPaymentExpired | src/main/java/com/lapxpert/backend/payment/vnpay/VNPayService.java:527-545 | a missing creation or expiry date counts as expired; with both present, expired exactly when the expiry time has passed |
| VnPayService.MismatchRejected | src/main/java/com/lapxpert/backend/payment/vnpay/VNPayService.java:206-266 | a signature that does not match is rejected whatever the codes say |
| VnPayService.FailedCodeIsZero | src/main/java/com/lapxpert/backend/payment/vnpay/VNPayService.java:206-261 | a good signature with a failing code is a failed payment, not a rejection |
| VnPayService.SignedFieldsHaveNoEmptyValue | src/main/java/com/lapxpert/backend/payment/vnpay/VNPayService.java:174-204 | the fields the return check signs never hold an empty value |
| VnPayService.OrderReturn | src/main/java/com/lapxpert/backend/payment/vnpay/VNPayService.java:149-273 | the decision over the recomputed signature of the signed fields |
| VnPayService.IpnResult | src/main/java/com/lapxpert/backend/payment/vnpay/VNPayService.java:457-491 | valid exactly when the parameters are present and the decision is 0 or 1, successful exactly when it is 1; a valid result carries the reference and status; missing parameters give their message |
| VnPayService.ProcessIpn | src/main/java/com/lapxpert/backend/payment/vnpay/VNPayService.java:457-491 | the notification result of the return decision |
| VnPayService.IpnSuccessNeedsBothCodes | src/main/java/com/lapxpert/backend/payment/vnpay/VNPayService.java:457-491 | a notification confirms a payment only when both codes are "00" |
| VnPayConfig.Entries | src/main/java/com/lapxpert/backend/payment/vnpay/VNPayConfig.java:112-136 | one entry per name |
| VnPayConfig.HashDataJoinsEntries | src/main/java/com/lapxpert/backend/payment/vnpay/VNPayConfig.java:112-136 | with no empty value the signed string is the entries joined by '&' |
| VnPayConfig.SignedStringSplitsIntoEntries | src/main/java/com/lapxpert/backend/payment/vnpay/VNPayConfig.java:112-136 | with no '&' in the names, the signed string splits back into its entries |
| VnPayConfig.EntryAt | src/main/java/com/lapxpert/backend/payment/vnpay/VNPayConfig.java:112-136 | the k-th entry is the k-th name with its value |
| VnPayConfig.EmptyMiddleValueDoublesSeparator | src/main/java/com/lapxpert/backend/payment/vnpay/VNPayConfig.java:112-136 | an empty value between two others leaves a doubled '&' |
| VnPayConfig.BuildHashData | src/main/java/com/lapxpert/backend/payment/vnpay/VNPayConfig.java:112-136 | the loop over the sorted names builds the canonical string |
| VnPayConfig.AppendPieces | src/main/java/com/lapxpert/backend/payment/vnpay/VNPayConfig.java:118-134 | the append loop builds the string the specification function describes |
| VnPayConfig.HashDataAt | src/main/java/com/lapxpert/backend/payment/vnpay/VNPayConfig.java:118-134 | one loop step adds the name's piece |
| VnPayConfig.HmacSha512 | src/main/java/com/lapxpert/backend/payment/vnpay/VNPayConfig.java:146-178 | a blank key and blank data are each refused with their own message, exactly then; otherwise the digest of the data under the key |
| VnPayConfig.HashAllFields | src/main/java/com/lapxpert/backend/payment/vnpay/VNPayConfig.java:112-136 | the digest of the canonical string under the configured secret |
| VnPayConfig.FullIPv6Exactly | src/main/java/com/lapxpert/backend/payment/vnpay/VNPayConfig.java:249-278 | eight hex groups joined by ':' match the IPv6 pattern |
| VnPayConfig.FullIPv6IsJoin | src/main/java/com/lapxpert/backend/payment/vnpay/VNPayConfig.java:249-278 | every match is such a join |
| VnPayConfig.SameIPv4Check | src/main/java/com/lapxpert/backend/payment/vnpay/VNPayConfig.java:249-278 | on text without ':' the check is the payment service's IPv4 check |
| VnPayConfig.LocalHostValid | src/main/java/com/lapxpert/backend/payment/vnpay/VNPayConfig.java:249-278 | 127.0.0.1 is a valid address |
| VnPayConfig.FirstUsable | src/main/java/com/lapxpert/backend/payment/vnpay/VNPayConfig.java:186-241 | the first usable header, and none exactly when no header is usable |
| VnPayConfig.Finish | src/main/java/com/lapxpert/backend/payment/vnpay/VNPayConfig.java:220-241 | the result is 127.0.0.1 or a valid address |
| VnPayConfig.ClientIpIsValid | src/main/java/com/lapxpert/backend/payment/vnpay/VNPayConfig.java:186-241 | the detected address is always valid |
| VnPayConfig.FirstHeaderWins | src/main/java/com/lapxpert/backend/payment/vnpay/VNPayConfig.java:186-241 | a usable, comma-free, valid first header is taken as given |
| VnPayConfig.RemoteAddressFallback | src/main/java/com/lapxpert/backend/payment/vnpay/VNPayConfig.java:186-241 | with no usable header a valid remote address is used |
| VnPayConfig.GetIpAddress | src/main/java/com/lapxpert/backend/payment/vnpay/VNPayConfig.java:186-241 | the header loop with its early exit gives the address the specification function describes |
| VnPayConfig.FindUsableHeader | src/main/java/com/lapxpert/backend/payment/vnpay/VNPayConfig.java:186-241 | the loop stops at the first usable header and returns exactly the one the specification function picks |
| VnPayConfig.DigitsOf | src/main/java/com/lapxpert/backend/payment/vnpay/VNPayConfig.java:287-320 | one digit per value drawn, each spelling its value |
| VnPayConfig.GetRandomNumber | src/main/java/com/lapxpert/backend/payment/vnpay/VNPayConfig.java:287-320 | a length below 1 or above 50 is refused with its message; otherwise exactly that many digits, one per value drawn |
| VnPayConfig.DigitsOfSnoc | src/main/java/com/lapxpert/backend/payment/vnpay/VNPayConfig.java:287-320 | one more draw appends one digit |
| VnPayConfig.GatewayAndReturnUrlsDisjoint | src/main/java/com/lapxpert/backend/payment/vnpay/VNPayConfig.java:432-464 | no URL is both a gateway URL and an acceptable return URL |
| VnPayConfig.IsValidHashSecret | src/main/java/com/lapxpert/backend/payment/vnpay/VNPayConfig.java:409-424 | a valid secret is present, at least 32 characters long, and holds an ASCII letter and an ASCII digit |
| VnPayConfig.IsValidVNPayUrl | src/main/java/com/lapxpert/backend/payment/vnpay/VNPayConfig.java:432-444 | a valid gateway URL is present and is an http(s) URL |
| VnPayConfig.IsValidReturnUrl | src/main/java/com/lapxpert/backend/payment/vnpay/VNPayConfig.java:452-465 | a valid return URL is never a valid gateway URL |
| VnPayConfig.ValidateConfiguration | src/main/java/com/lapxpert/backend/payment/vnpay/VNPayConfig.java:329-401 | valid exactly when the terminal code is at least 8 characters, the secret is valid, both gateway URLs are VNPay https URLs and the return URL is an acceptable one |
| VnPayConfig.ValidConfigurationSignsData | src/main/java/com/lapxpert/backend/payment/vnpay/VNPayConfig.java:146-401 | a valid configuration's secret passes the HMAC guard |
| HoaDonController.ComponentError | src/main/java/com/lapxpert/backend/hoadon/controller/HoaDonController.java:345-378 | a component has an error exactly when it is missing, has no method, or has no positive amount |
| HoaDonController.FirstComponentError | src/main/java/com/lapxpert/backend/hoadon/controller/HoaDonController.java:345-378 | no error exactly when every component from the position on passes; from the start, exactly when all pass |
| HoaDonController.Methods | src/main/java/com/lapxpert/backend/hoadon/controller/HoaDonController.java:367-372 | the method of each component, in order |
| HoaDonController.Amounts | src/main/java/com/lapxpert/backend/hoadon/controller/HoaDonController.java:380-391 | the amount of each component, in order |
| HoaDonController.DistinctCount | src/main/java/com/lapxpert/backend/hoadon/controller/HoaDonController.java:367-372 | the distinct count never exceeds the size, and equals it exactly when no method occurs twice |
| HoaDonController.ValidateMixedPaymentRequest | src/main/java/com/lapxpert/backend/hoadon/controller/HoaDonController.java:320-391 | accepted exactly when two or three components, a positive total, every component good, no method twice and the amounts summing to the total; more than three parts gives its own message |
| HoaDonController.AcceptedPartsBelowTotal | src/main/java/com/lapxpert/backend/hoadon/controller/HoaDonController.java:320-391 | in an accepted request every part is positive and below the total |
| HoaDonController.PartBelowSum | src/main/java/com/lapxpert/backend/hoadon/controller/HoaDonController.java:380-391 | with two or more positive parts each is below the sum |
| HoaDonController.PositivePartOfSum | src/main/java/com/lapxpert/backend/hoadon/controller/HoaDonController.java:380-391 | with positive parts each is at most the sum |
| HoaDonController.ClientIpAddress | src/main/java/com/lapxpert/backend/hoadon/controller/HoaDonController.java:441-459 | the first usable header in order X-Forwarded-For, Proxy-Client-IP, WL-Proxy-Client-IP, else the remote address, else 127.0.0.1; the result never holds a comma |
| HoaDonController.FirstPartHasNoComma | src/main/java/com/lapxpert/backend/hoadon/controller/HoaDonController.java:455-457 | the trimmed first entry of a split list holds no comma |
| HoaDonController.ForwardedListFirstEntry | src/main/java/com/lapxpert/backend/hoadon/controller/HoaDonController.java:441-459 | the first entry of a forwarded list is the client |
| HoaDonController.SplitFirstPart | src/main/java/com/lapxpert/backend/hoadon/controller/HoaDonController.java:455-457 | splitting "first,rest" yields first as its head |
| SanPhamService.GenerateMaSanPham | src/main/java/com/lapxpert/backend/sanpham/service/SanPhamService.java:51-71 | SP001 when nothing is stored; a stored code whose tail is not an int is refused naming that code; every code handed out starts with SP |
| SanPhamService.NextCodeAfterWellFormed | src/main/java/com/lapxpert/backend/sanpham/service/SanPhamService.java:51-71 | after a well-formed code below SP999 comes the well-formed code one higher |
| SanPhamService.LimitAfterSp999 | src/main/java/com/lapxpert/backend/sanpham/service/SanPhamService.java:63-65 | SP999 is the last code |
| SanPhamService.MalformedLastCode | src/main/java/com/lapxpert/backend/sanpham/service/SanPhamService.java:68-70 | a tail that is no integer is reported with the stored code |
| SanPhamService.KeepSkuChars | src/main/java/com/lapxpert/backend/sanpham/service/SanPhamService.java:652-672 | only letters, digits and '-' are kept, a clean text is unchanged, and nothing is added |
| SanPhamService.SkuBase | src/main/java/com/lapxpert/backend/sanpham/service/SanPhamService.java:652-672 | the base holds only upper-case letters, digits and '-' and is no longer than the raw SKU |
| SanPhamService.CleanRawSkuIsBase | src/main/java/com/lapxpert/backend/sanpham/service/SanPhamService.java:652-672 | a raw SKU that is already clean is its own base |
| SanPhamService.SkuBaseIdempotent | src/main/java/com/lapxpert/backend/sanpham/service/SanPhamService.java:652-672 | cleaning a clean SKU changes nothing |
| SanPhamService.CandidatesDistinct | src/main/java/com/lapxpert/backend/sanpham/service/SanPhamService.java:666-669 | the candidates tried are all different |
| SanPhamService.CandidatesBelow | src/main/java/com/lapxpert/backend/sanpham/service/SanPhamService.java:666-669 | exactly the candidates tried before the n-th |
| SanPhamService.CandidatesBelowSize | src/main/java/com/lapxpert/backend/sanpham/service/SanPhamService.java:666-669 | n candidates are tried before the n-th |
| SanPhamService.GenerateUniqueSku | src/main/java/com/lapxpert/backend/sanpham/service/SanPhamService.java:652-672 | the SKU returned is free and every candidate tried before it was taken, so it is the first free one |
| SanPhamService.SubsetSize | src/main/java/com/lapxpert/backend/sanpham/service/SanPhamService.java:666-669 | the loop ends because the taken set bounds the candidates tried |
| SanPhamService.ValidateProductBusinessRules | src/main/java/com/lapxpert/backend/sanpham/service/SanPhamService.java:748-760 | accepted exactly when the code, if set, is SP and three digits, the name, if set, has at least three characters once trimmed, and there are at most ten images; a bad code gives its own message |
| SanPhamService.GeneratedCodePassesRules | src/main/java/com/lapxpert/backend/sanpham/service/SanPhamService.java:51-760 | every code the generator hands out passes the code rule |
| SanPhamService.Successes | src/main/java/com/lapxpert/backend/sanpham/service/SanPhamService.java:700-741 | never more successes than ids |
| SanPhamService.Updated | src/main/java/com/lapxpert/backend/sanpham/service/SanPhamService.java:700-741 | every id found gets the new status and every other product is untouched |
| SanPhamService.BatchStep | src/main/java/com/lapxpert/backend/sanpham/service/SanPhamService.java:704-733 | one step of the loop splits the counts and the statuses off the head of the list |
| SanPhamService.UpdateMultipleProductStatus | src/main/java/com/lapxpert/backend/sanpham/service/SanPhamService.java:700-741 | every id is counted once, as a success or a failure; the successes and the new statuses are the ones the specification functions give; the summary message matches the counts |
| SanPhamService.AllFoundAllSucceed | src/main/java/com/lapxpert/backend/sanpham/service/SanPhamService.java:700-741 | with every id present and both statuses known the whole batch succeeds |
| WebSocketIntegration.RulesRouteAway | src/main/java/com/lapxpert/backend/common/service/WebSocketIntegrationService.java:1542-1571 | the routing table has eighteen rules and none leads to the global channel |
| WebSocketIntegration.FirstMatchSpec | src/main/java/com/lapxpert/backend/common/service/WebSocketIntegrationService.java:1542-1571 | for any table whose rules avoid the global channel, trying rules from k on gives the global channel exactly when no remaining fragment occurs, and otherwise the channel of the first fragment, in order, that occurs |
| WebSocketIntegration.DetermineChannelByDestination | src/main/java/com/lapxpert/backend/common/service/WebSocketIntegrationService.java:1542-1571 | a destination's channel is that of the first rule whose fragment occurs in it, and the global channel exactly when none does |
| WebSocketIntegration.ProductTopicsGoToPrice | src/main/java/com/lapxpert/backend/common/service/WebSocketIntegrationService.java:1542-1571 | every destination naming /san-pham/ goes to the price channel |
| WebSocketIntegration.ProductListGoesToPrice | src/main/java/com/lapxpert/backend/common/service/WebSocketIntegrationService.java:1542-1571 | the product list topic never reaches the data channel's /list-updated rule |
| WebSocketIntegration.VoucherUpdateRoute | src/main/java/com/lapxpert/backend/common/service/WebSocketIntegrationService.java:285-339 | the three expiry update types go to /expired as PHIEU_GIAM_GIA_EXPIRED, exactly those, and every other type to /updated |
| WebSocketIntegration.OrderStatusRoute | src/main/java/com/lapxpert/backend/common/service/WebSocketIntegrationService.java:522-553 | CREATED goes to /new, UPDATED to /updated and anything else to /status-changed, each exactly in its case |
| WebSocketIntegration.ReplaceChar | src/main/java/com/lapxpert/backend/common/service/WebSocketIntegrationService.java:912 | each occurrence of the character is replaced and nothing else changes |
| WebSocketIntegration.ListUpdateType | src/main/java/com/lapxpert/backend/common/service/WebSocketIntegrationService.java:912 | position by position the data type with each '-' turned to '_' and every other character upper-cased, so no '-' or lower-case letter remains, followed by _LIST_UPDATE |
| WebSocketIntegration.IntegrationService.constructor | src/main/java/com/lapxpert/backend/common/service/WebSocketIntegrationService.java:44-81 | enabled as configured, no transaction, no queue, nothing sent and all counters zero |
| WebSocketIntegration.IntegrationService.PendingMessageCount | src/main/java/com/lapxpert/backend/common/service/WebSocketIntegrationService.java:1591-1602 | the count of queued messages, positive exactly when some are pending |
| WebSocketIntegration.IntegrationService.HasPendingMessages | src/main/java/com/lapxpert/backend/common/service/WebSocketIntegrationService.java:1591-1594 | true exactly when the thread's queue exists and is not empty |
| WebSocketIntegration.IntegrationService.GenerateSequenceNumber | src/main/java/com/lapxpert/backend/common/service/WebSocketIntegrationService.java:1534-1536 | each number is one more than the last |
| WebSocketIntegration.IntegrationService.SendImmediately | src/main/java/com/lapxpert/backend/common/service/WebSocketIntegrationService.java:1448-1470 | the message is published and counted |
| WebSocketIntegration.IntegrationService.PublishMessage | src/main/java/com/lapxpert/backend/common/service/WebSocketIntegrationService.java:1390-1399 | queued and counted as queued inside a transaction, sent at once outside |
| WebSocketIntegration.IntegrationService.BeginTransaction | src/main/java/com/lapxpert/backend/common/service/WebSocketIntegrationService.java:1405-1443 | a transaction is open afterwards |
| WebSocketIntegration.IntegrationService.DeliverQueuedMessages | src/main/java/com/lapxpert/backend/common/service/WebSocketIntegrationService.java:1476-1510 | every queued message is sent, in order, and counted |
| WebSocketIntegration.IntegrationService.Commit | src/main/java/com/lapxpert/backend/common/service/WebSocketIntegrationService.java:1414-1427 | the queue is delivered in order and then removed |
| WebSocketIntegration.IntegrationService.Rollback | src/main/java/com/lapxpert/backend/common/service/WebSocketIntegrationService.java:1516-1528 | the queue is discarded unsent and a non-empty one is counted as a rollback |
| WebSocketIntegration.IntegrationService.SendCustomMessage | src/main/java/com/lapxpert/backend/common/service/WebSocketIntegrationService.java:857-873 | routed by its destination, sent or queued; nothing when integration is off |
| WebSocketIntegration.IntegrationService.SendOrderUpdate | src/main/java/com/lapxpert/backend/common/service/WebSocketIntegrationService.java:522-553 | the order's own topic, then the topic for its status; nothing when integration is off |
| WebSocketIntegration.IntegrationService.SendDataListUpdate | src/main/java/com/lapxpert/backend/common/service/WebSocketIntegrationService.java:893-925 | a new sequence number, then the type's list topic and the general one; nothing when integration is off |
| WebSocketIntegration.TransactionLifecycle | src/main/java/com/lapxpert/backend/common/service/WebSocketIntegrationService.java:1390-1528 | on a fresh service, custom messages sent inside a transaction reach Redis on commit as exactly the routed messages in order, and on rollback none is sent and one rollback is counted when any was queued |
| RealTimeSync.AddListener | lapxpert-frontend-client/src/composables/useRealTimeSync.js:377-385 | the type's callback set is created when missing and holds the callback; other types are untouched and no empty set appears |
| RealTimeSync.RemoveListener | lapxpert-frontend-client/src/composables/useRealTimeSync.js:386-393 | the callback is gone, the type is dropped once its set is empty, other types are untouched and no type is added |
| RealTimeSync.RemoveUndoesAdd | lapxpert-frontend-client/src/composables/useRealTimeSync.js:377-393 | unsubscribing a newly added callback restores the registry |
| RealTimeSync.SyncEngine.constructor | lapxpert-frontend-client/src/composables/useRealTimeSync.js:58-68 | no listeners, no events, nothing notified or posted; the tab id and keys as given |
| RealTimeSync.SyncEngine.AddEventListener | lapxpert-frontend-client/src/composables/useRealTimeSync.js:377-385 | the registry becomes the one the add function describes and keeps no empty set |
| RealTimeSync.SyncEngine.Unsubscribe | lapxpert-frontend-client/src/composables/useRealTimeSync.js:386-393 | the registry becomes the one the remove function describes and keeps no empty set |
| RealTimeSync.SyncEngine.BroadcastToOtherTabs | lapxpert-frontend-client/src/composables/useRealTimeSync.js:334-369 | a message stamped with this tab is posted exactly when the channel exists |
| RealTimeSync.SyncEngine.EmitStateChangeEvent | lapxpert-frontend-client/src/composables/useRealTimeSync.js:401-431 | the event heads the history (at most 100 kept), the type's callbacks are notified, and a STATE_CHANGE message is broadcast when the channel exists |
| RealTimeSync.Fold | lapxpert-frontend-client/src/composables/useRealTimeSync.js:401-431 | the history after several emissions never grows past 100 or its earlier size |
| RealTimeSync.HistoryForgetsOldEvents | lapxpert-frontend-client/src/composables/useRealTimeSync.js:401-431 | after 100 more emissions no older event is left |
| RealTimeSync.FoldPrefix | lapxpert-frontend-client/src/composables/useRealTimeSync.js:401-431 | until 100 events have been emitted the newest come first, in reverse emission order |
| RealTimeSync.HandleCrossTabMessage | lapxpert-frontend-client/src/composables/useRealTimeSync.js:292-327 | a missing message and one from this tab are ignored, and only those; a sync request never comes from this tab |
| RealTimeSync.OwnBroadcastIgnored | lapxpert-frontend-client/src/composables/useRealTimeSync.js:292-369 | a tab never acts on its own broadcast |
| RealTimeSync.ValidateStateData | lapxpert-frontend-client/src/composables/useRealTimeSync.js:438-454 | no validator means valid; a boolean is wrapped without errors; a result object passes through; a thrown error is invalid with one message |
| RealTimeSync.MergeStates | lapxpert-frontend-client/src/composables/useRealTimeSync.js:462-474 | the incoming state wins unless a strategy returns a merged state |
| RealTimeSync.IsRelevantTopic | lapxpert-frontend-client/src/composables/useRealTimeSync.js:1074-1093 | no topic is never relevant; a given type is a substring test; otherwise some word of the entity's table must occur, both ways |
| RealTimeSync.AnyOccurs | lapxpert-frontend-client/src/composables/useRealTimeSync.js:1089-1092 | some word occurs in the text, both ways |
| RealTimeSync.UnknownEntityNeverRelevant | lapxpert-frontend-client/src/composables/useRealTimeSync.js:1074-1093 | an entity missing from the table finds no topic relevant |
| RealTimeSync.FirstScopeFrom | lapxpert-frontend-client/src/composables/useRealTimeSync.js:1101-1120 | GENERAL_DATA exactly when no remaining key occurs; otherwise the scope of the first key, in table order, that occurs |
| RealTimeSync.GetDataScopeFromTopic | lapxpert-frontend-client/src/composables/useRealTimeSync.js:1101-1120 | null exactly for a missing or empty topic, otherwise the scope of the first key found |
| RealTimeSync.PriceTopicIsPricing | lapxpert-frontend-client/src/composables/useRealTimeSync.js:1101-1120 | a price topic is pricing data although it also contains the product key |
| RealTimeSync.ShouldAutoRefresh | lapxpert-frontend-client/src/composables/useRealTimeSync.js:1241-1253 | the general scope always refreshes, and any other scope only when it is the entity's own |
| RealTimeSync.UnmatchedTopicRefreshes | lapxpert-frontend-client/src/composables/useRealTimeSync.js:1101-1253 | a topic with no known key triggers a refresh for every entity |
| WebSocketLogger.LevelOf | lapxpert-frontend-admin/src/utils/WebSocketLogger.js:21-44 | the level table is looked up by the upper-cased name, each level exactly for its name |
| WebSocketLogger.Logger.ShouldLog | lapxpert-frontend-admin/src/utils/WebSocketLogger.js:256-258 | true exactly when the level name is among the enabled levels |
| WebSocketLogger.Logger.ShouldLogLevel | lapxpert-frontend-admin/src/utils/WebSocketLogger.js:263-272 | an unknown level never logs; CRITICAL always logs; any other level logs only in development and when enabled |
| WebSocketLogger.Logger.FormatMessage | lapxpert-frontend-admin/src/utils/WebSocketLogger.js:375-380 | the line starts with the level's emoji, names the component after " [" and ends with the message; without a context nothing else is added |
| WebSocketLogger.Throttle | lapxpert-frontend-admin/src/utils/WebSocketLogger.js:278-303 | a call bumps the counter; it logs exactly when the rate is reached or, above a rate of 50, after five quiet minutes, and then resets the counter; the rate and the burst window never change |
| WebSocketLogger.Run | lapxpert-frontend-admin/src/utils/WebSocketLogger.js:278-303 | one answer per call |
| WebSocketLogger.Falses | lapxpert-frontend-admin/src/utils/WebSocketLogger.js:278-303 | a run of n non-logging answers |
| WebSocketLogger.LogsEveryNthCall | lapxpert-frontend-admin/src/utils/WebSocketLogger.js:278-303 | for a rate of at most 50 exactly one call in each run of rate calls logs, the last one, whatever the clock |
| WebSocketLogger.QuietBusyKeyLogs | lapxpert-frontend-admin/src/utils/WebSocketLogger.js:292-300 | a busy key still logs after five quiet minutes |
| WebSocketLogger.BurstThrottle | lapxpert-frontend-admin/src/utils/WebSocketLogger.js:308-339 | the counter is bumped or reset on logging, the rate is kept and a burst window is always open afterwards |
| WebSocketLogger.BurstDoublesRate | lapxpert-frontend-admin/src/utils/WebSocketLogger.js:315-331 | inside a live window past the threshold the rate is doubled and the window counts the call |
| WebSocketLogger.ExpiredWindowUsesPlainRate | lapxpert-frontend-admin/src/utils/WebSocketLogger.js:315-331 | an expired window starts over and the plain rate applies |
| WebSocketLogger.ThrottleEntry.constructor | lapxpert-frontend-admin/src/utils/WebSocketLogger.js:49-84 | a fresh entry with its rate, counter 0, nothing logged and no burst window |
| WebSocketLogger.NewDefaultThrottleConfig | lapxpert-frontend-admin/src/utils/WebSocketLogger.js:49-84 | one fresh entry per named row plus the default of rate 10, every rate at least 5 and every counter 0 |
| WebSocketLogger.Logger.constructor | lapxpert-frontend-admin/src/utils/WebSocketLogger.js:90-98 | the defaults overlaid with the caller's entries, sharing the entry objects; missing levels default to all three; no open group |
| WebSocketLogger.Logger.Resolve | lapxpert-frontend-admin/src/utils/WebSocketLogger.js:279-280 | the key's own entry, else the default entry, else none, each exactly in its case |
| WebSocketLogger.Logger.UnknownKeysShareDefault | lapxpert-frontend-admin/src/utils/WebSocketLogger.js:279-280 | all keys outside the table share the default entry |
| WebSocketLogger.Logger.UpperCaseDebugNeverLogs | lapxpert-frontend-admin/src/utils/WebSocketLogger.js:256-272 | an upper-case level name passes the level table but not the enabled list |
| WebSocketLogger.Logger.ShouldThrottle | lapxpert-frontend-admin/src/utils/WebSocketLogger.js:278-303 | the resolved entry advances one call as the throttling function says and its answer is returned; with no entry it always logs |
| WebSocketLogger.Logger.ShouldThrottleWithBurstDetection | lapxpert-frontend-admin/src/utils/WebSocketLogger.js:308-339 | the same with the burst rule |
| WebSocketLogger.Logger.ResetThrottling | lapxpert-frontend-admin/src/utils/WebSocketLogger.js:443-451 | a key in the table gets counter 0, no last log and no burst window; the default entry serving a missing key is untouched |
| WebSocketLogger.Logger.Critical | lapxpert-frontend-admin/src/utils/WebSocketLogger.js:104-116 | written with console.error whenever the level is enabled, in any environment |
| WebSocketLogger.Logger.Debug | lapxpert-frontend-admin/src/utils/WebSocketLogger.js:122-129 | written only in development and when enabled |
| WebSocketLogger.Logger.Trace | lapxpert-frontend-admin/src/utils/WebSocketLogger.js:135-143 | written in development when enabled and the key's sampling says so; otherwise nothing is written and the entry does not advance |
| WebSocketLogger.Logger.Group | lapxpert-frontend-admin/src/utils/WebSocketLogger.js:220-228 | a group with the level's marker, the component and the title is opened exactly when the level may log |
| WebSocketLogger.Logger.GroupEnd | lapxpert-frontend-admin/src/utils/WebSocketLogger.js:233-238 | the innermost group is closed, and an empty stack stays empty |
| WebSocketLogger.SharedDefaultsShareCounters | lapxpert-frontend-admin/src/utils/WebSocketLogger.js:92 | two loggers over the same defaults advance one shared counter |
| PaymentMethodValidation.FilterAllowed | lapxpert-frontend-client/src/composables/usePaymentValidation.js:61-85 | exactly the methods allowed for the channel whose minimum the amount reaches, in order |
| PaymentMethodValidation.GetAvailablePaymentMethods | lapxpert-frontend-client/src/composables/usePaymentValidation.js:61-85 | a table method is offered exactly when the channel allows it and the amount reaches its minimum |
| PaymentMethodValidation.GetPaymentMethod | lapxpert-frontend-client/src/composables/usePaymentValidation.js:139-141 | a row exactly for TIEN_MAT, VNPAY and MOMO, the one with that value |
| PaymentMethodValidation.LookupOwnValue | lapxpert-frontend-client/src/composables/usePaymentValidation.js:139-141 | every row is found by its own value |
| PaymentMethodValidation.ValidatePaymentMethod | lapxpert-frontend-client/src/composables/usePaymentValidation.js:94-132 | an unknown method is invalid with one error; otherwise valid exactly when allowed, above the minimum and not cash online without delivery; valid exactly when there is no error; never a warning; the cash rule's error comes last |
| PaymentMethodValidation.AvailableIffValidForDelivery | lapxpert-frontend-client/src/composables/usePaymentValidation.js:61-132 | a method is offered exactly when validating it for a delivery finds no error |
| PaymentMethodValidation.CashOfferedButRejectedWithoutDelivery | lapxpert-frontend-client/src/composables/usePaymentValidation.js:61-132 | cash is offered online yet rejected without delivery |
| PaymentMethodValidation.VnPayMinimum | lapxpert-frontend-client/src/composables/usePaymentValidation.js:28-36 | VNPay is neither offered nor valid below 10,000 VND |
| PaymentMethodValidation.RequiresAdditionalVerification | lapxpert-frontend-client/src/composables/usePaymentValidation.js:215-230 | exactly cash above 15,000,000 VND needs extra verification |
| VoucherMonitoring.FirstTypeFrom | lapxpert-frontend-client/src/composables/useVoucherMonitoring.js:146-158 | no type exactly when the topic contains none of the remaining suffixes; otherwise the type of the first suffix, in order, that it contains |
| VoucherMonitoring.ExtractTypeFromTopic | lapxpert-frontend-client/src/composables/useVoucherMonitoring.js:146-158 | a missing or empty topic has no type; any other topic the type of the first of /expired, /new, /updated, /alternatives, /better-suggestion it contains |
| VoucherMonitoring.ExpiredCheckedFirst | lapxpert-frontend-client/src/composables/useVoucherMonitoring.js:146-158 | a topic containing /expired is an expiry whatever else it contains |
| VoucherMonitoring.KindOf | lapxpert-frontend-client/src/composables/useVoucherMonitoring.js:75-144 | a message without a type is handled as unknown |
| VoucherMonitoring.TypeFieldHidesTopic | lapxpert-frontend-client/src/composables/useVoucherMonitoring.js:77 | a type field that is set decides the kind even when the topic names another one |
| VoucherMonitoring.Process | lapxpert-frontend-client/src/composables/useVoucherMonitoring.js:75-462 | the list caps (50, 20, 10, 5 and 50 notifications) are kept; updated and unknown messages change nothing; with notifications off the notification history and the dialog are untouched |
| VoucherMonitoring.RecordedKindsGiveUpdates | lapxpert-frontend-client/src/composables/useVoucherMonitoring.js:161-375 | an expiry, new voucher, alternative or suggestion leaves updates to show and, with notifications on, heads the notification history |
| VoucherMonitoring.HasVoucherUpdates | lapxpert-frontend-client/src/composables/useVoucherMonitoring.js:604-609 | true exactly when one of the four record lists is non-empty; the notification history does not count |
| VoucherMonitoring.VoucherMessages | lapxpert-frontend-client/src/composables/useVoucherMonitoring.js:60-66 | exactly the history's voucher messages, in order |
| VoucherMonitoring.ProcessAll | lapxpert-frontend-client/src/composables/useVoucherMonitoring.js:69 | processing messages one by one keeps the list caps |
| VoucherMonitoring.ProcessAllAppend | lapxpert-frontend-client/src/composables/useVoucherMonitoring.js:69 | processing two batches in turn equals processing their concatenation |
| VoucherMonitoring.AsWrittenRecordsExpiryTwice | lapxpert-frontend-client/src/composables/useVoucherMonitoring.js:59-70 | with the watcher as written, a second message after an expiry records that expiry a second time |
| Common.Reverse | lapxpert-frontend-client/src/composables/useVoucherMonitoring.js:59-70 | the reversal of the newest-first history: same length, position i holding the element counted i from the end |
| Common.NewestEntries | lapxpert-frontend-client/src/composables/useVoucherMonitoring.js:59-70 | the first k entries of the newest-first history, reversed back, are exactly the k messages that arrived last |
| VoucherMonitoring.VoucherMessagesAppend | lapxpert-frontend-client/src/composables/useVoucherMonitoring.js:60-66 | the voucher messages of a concatenation are those of each part |
| VoucherMonitoring.IntendedProcessesEachOnce | lapxpert-frontend-client/src/composables/useVoucherMonitoring.js:59-70 | with the intended watcher two deliveries process each message exactly once, in arrival order |
| VoucherMonitoring.DeliveryStep | lapxpert-frontend-client/src/composables/useVoucherMonitoring.js:59-70 | one intended watcher run over a new batch brings the state for the earlier messages to the state for all of them |
| VoucherMonitoring.IntendedProcessesAllOnce | lapxpert-frontend-client/src/composables/useVoucherMonitoring.js:59-70 | over any number of deliveries the intended watcher processes every message exactly once, in arrival order |
| VoucherMonitoring.ProcessBetterVoucherSuggestion | lapxpert-frontend-client/src/composables/useVoucherMonitoring.js:541-560 | accept and reject give their answers, exactly for those two actions, and any other action gives nothing |
| VoucherMonitoring.RecentRecords | lapxpert-frontend-client/src/composables/useVoucherMonitoring.js:590-602 | exactly the records newer than one hour before now, in order |
| VoucherMonitoring.VoucherMonitor.constructor | lapxpert-frontend-client/src/composables/useVoucherMonitoring.js:36-48 | all lists empty, no suggestion, dialog closed, notifications on |
| VoucherMonitoring.VoucherMonitor.ProcessVoucherMessage | lapxpert-frontend-client/src/composables/useVoucherMonitoring.js:75-144 | the monitor's lists change as the processing function says and the caps are kept |
| VoucherMonitoring.VoucherMonitor.OnMessageHistoryChange | lapxpert-frontend-client/src/composables/useVoucherMonitoring.js:59-70 | only the newly arrived history entries are processed (the corrected watcher) |
| VoucherMonitoring.VoucherMonitor.ProcessBatch | lapxpert-frontend-client/src/composables/useVoucherMonitoring.js:59-70 | processing a batch message by message leaves the state the specification fold over the batch gives, and keeps the lists consistent |
| VoucherMonitoring.VoucherMonitor.ToggleVoucherNotifications | lapxpert-frontend-client/src/composables/useVoucherMonitoring.js:525-536 | the notification switch flips |
| VoucherMonitoring.VoucherMonitor.CloseSuggestionDialog | lapxpert-frontend-client/src/composables/useVoucherMonitoring.js:562-565 | the dialog closes and the current suggestion is cleared |
| VoucherMonitoring.VoucherMonitor.ClearVoucherHistory | lapxpert-frontend-client/src/composables/useVoucherMonitoring.js:570-576 | the four lists and the notification history are emptied; the dialog and the switch are untouched |
| RealTimePricing.OrInt | lapxpert-frontend-admin/src/composables/useRealTimePricing.js:82-83 | JavaScript `||` on optional numbers: the first when it is non-zero, else the second |
| RealTimePricing.OrReal | lapxpert-frontend-admin/src/composables/useRealTimePricing.js:139 | the same on the percentage fields |
| RealTimePricing.SeverityOf | lapxpert-frontend-admin/src/composables/useRealTimePricing.js:138-145 | error from 20%, warn from 10%, info from 5% and success below, each band both ways, on the absolute change |
| RealTimePricing.DeterminePriceSeverity | lapxpert-frontend-admin/src/composables/useRealTimePricing.js:138-145 | the severity of the message's percentage: changePercent, else phanTramThayDoi, else 0 |
| RealTimePricing.SeverityMonotone | lapxpert-frontend-admin/src/composables/useRealTimePricing.js:138-145 | a larger change never gets a lower severity, and the sign does not matter |
| RealTimePricing.ToUpdate | lapxpert-frontend-admin/src/composables/useRealTimePricing.js:77-89 | the record keeps the variant, the new and old prices (English field first) and the severity |
| RealTimePricing.ProcessPrice | lapxpert-frontend-admin/src/composables/useRealTimePricing.js:73-136 | the new record heads the list and becomes the last update, a truthy variant joins the affected set, and with warnings on a notification of that severity heads the notifications; otherwise they are untouched |
| RealTimePricing.ProcessPriceConsistent | lapxpert-frontend-admin/src/composables/useRealTimePricing.js:73-136 | processing keeps the caps (100 updates, 20 notifications), the last update at the head of the list and every listed variant affected |
| RealTimePricing.UpdatesForVariant | lapxpert-frontend-admin/src/composables/useRealTimePricing.js:193-195 | exactly the updates about the variant, in list order |
| RealTimePricing.GetLatestPriceForVariant | lapxpert-frontend-admin/src/composables/useRealTimePricing.js:200-203 | no price exactly when no update names the variant; otherwise the new price of the first update about it |
| RealTimePricing.LatestIn | lapxpert-frontend-admin/src/composables/useRealTimePricing.js:200-203 | the first update about the variant, which is also the head of the filtered list |
| RealTimePricing.LatestAfterUpdate | lapxpert-frontend-admin/src/composables/useRealTimePricing.js:73-136 | right after an update about a variant its latest price is that update's new price |
| RealTimePricing.HasRecentPriceChange | lapxpert-frontend-admin/src/composables/useRealTimePricing.js:182-188 | true exactly when some update about the variant is newer than the window |
| RealTimePricing.FreshUpdateIsRecent | lapxpert-frontend-admin/src/composables/useRealTimePricing.js:182-188 | an update stamped now counts as recent for any positive window |
| RealTimePricing.PriceMessages | lapxpert-frontend-admin/src/composables/useRealTimePricing.js:45-48 | exactly the history's price messages, in order |
| RealTimePricing.ProcessAllConsistent | lapxpert-frontend-admin/src/composables/useRealTimePricing.js:61-66 | processing a batch keeps the state invariant |
| RealTimePricing.AsWrittenListsUpdateTwice | lapxpert-frontend-admin/src/composables/useRealTimePricing.js:42-67 | with the watcher as written one price update followed by any other message is listed twice |
| RealTimePricing.IntendedListsUpdateOnce | lapxpert-frontend-admin/src/composables/useRealTimePricing.js:42-67 | with the intended watcher the second delivery adds nothing for the already processed update |
| RealTimePricing.RecentPriceUpdates | lapxpert-frontend-admin/src/composables/useRealTimePricing.js:307-312 | exactly the updates newer than one hour before now, in order |
| RealTimePricing.PricingMonitor.constructor | lapxpert-frontend-admin/src/composables/useRealTimePricing.js:23-29 | empty state, warnings shown |
| RealTimePricing.PricingMonitor.ProcessePriceUpdate | lapxpert-frontend-admin/src/composables/useRealTimePricing.js:73-136 | the state changes as the processing function says and the invariant is kept |
| RealTimePricing.PricingMonitor.OnMessageHistoryChange | lapxpert-frontend-admin/src/composables/useRealTimePricing.js:42-67 | only the newly arrived history entries are processed (the corrected watcher) |
| RealTimePricing.PricingMonitor.ProcessBatch | lapxpert-frontend-admin/src/composables/useRealTimePricing.js:42-67 | processing a batch message by message leaves the state the specification fold over the batch gives, and keeps the lists consistent |
| RealTimePricing.PriceMessagesAppend | lapxpert-frontend-admin/src/composables/useRealTimePricing.js:42-67 | the price messages of two histories are those of each, in order |
| RealTimePricing.ProcessAllAppend | lapxpert-frontend-admin/src/composables/useRealTimePricing.js:42-67 | processing two runs of messages is processing the first, then the second |
| RealTimePricing.DeliveryStep | lapxpert-frontend-admin/src/composables/useRealTimePricing.js:42-67 | one intended watcher run over a new batch brings the state for the earlier messages to the state for all of them |
| RealTimePricing.IntendedListsAllOnce | lapxpert-frontend-admin/src/composables/useRealTimePricing.js:42-67 | over any number of deliveries the intended watcher lists every price update exactly once, in arrival order |
| RealTimePricing.PricingMonitor.TogglePriceWarnings | lapxpert-frontend-admin/src/composables/useRealTimePricing.js:272-283 | the warning switch flips |
| RealTimePricing.PricingMonitor.ClearPriceHistory | lapxpert-frontend-admin/src/composables/useRealTimePricing.js:288-293 | both lists, the affected set and the last update are cleared |
| OrderMapping.ValidateSerialNumberId | lapxpert-frontend-admin/src/utils/orderMapping.js:16-26 | a serial number id is kept exactly when it is a positive number, otherwise it becomes null |
| OrderMapping.ValidateSerialNumber | lapxpert-frontend-admin/src/utils/orderMapping.js:28-37 | a serial number is kept unchanged exactly when it is a non-empty string, otherwise it becomes null |
| OrderMapping.AddressPayloadOf | lapxpert-frontend-admin/src/utils/orderMapping.js:85-94 | an address is sent only for a delivery whose street is present, and then carries the trimmed street, which is not empty |
| OrderMapping.PaymentStatus | lapxpert-frontend-admin/src/utils/orderMapping.js:156-160 | VNPAY, MOMO and MIXED start unpaid and every other method starts paid, both directions |
| OrderMapping.PrimaryMethod | lapxpert-frontend-admin/src/utils/orderMapping.js:164-166 | a non-mixed method is sent as is; a mixed payment sends its first part's method, or TIEN_MAT when it has no parts |
| OrderMapping.MapTabToHoaDonDto | lapxpert-frontend-admin/src/utils/orderMapping.js:56-193 | a missing tab, a missing payment method and a missing stored user each give their own error, exactly in those cases; a success keeps one detail line per product and the voucher codes |
| OrderMapping.PaymentStatusRule | lapxpert-frontend-admin/src/utils/orderMapping.js:156-160 | a mapped order is unpaid exactly when its method is VNPAY, MOMO or MIXED and paid exactly otherwise |
| OrderMapping.DeliveryRule | lapxpert-frontend-admin/src/utils/orderMapping.js:142-154 | a delivery is awaiting confirmation and carries the recipient, a counter sale is completed and carries none; an address only ever goes with a delivery |
| OrderMapping.MixedPaymentRule | lapxpert-frontend-admin/src/utils/orderMapping.js:156-170 | a mixed payment is flagged, unpaid, carries its parts and names the first part's method (or cash) as the primary method |
| OrderMapping.ClassifiedLine | lapxpert-frontend-admin/src/utils/orderMapping.js:264-301 | a line is flagged new exactly when it has no id, and keeps an id exactly when it has one |
| OrderMapping.ClassifiedLines | lapxpert-frontend-admin/src/utils/orderMapping.js:264-301 | one classified line per product line |
| OrderMapping.CountNew | lapxpert-frontend-admin/src/utils/orderMapping.js:261-301 | the new-item count never exceeds the number of lines |
| OrderMapping.ClassifyItems | lapxpert-frontend-admin/src/utils/orderMapping.js:261-301 | the loop with its two counters yields the classified lines, the number of new lines, and counts that add up to the number of lines |
| OrderMapping.MapOrderToUpdateDto | lapxpert-frontend-admin/src/utils/orderMapping.js:224-318 | a missing order is an error; otherwise it fails exactly when the tab mapping fails; the order's own status is kept when set, a paid order stays paid, the lines are classified and the summary's counts add up to the number of lines |
| OrderMapping.CountNewIsFlagged | lapxpert-frontend-admin/src/utils/orderMapping.js:261-309 | the summary's new-item count equals the number of lines flagged new |
| VoucherMonitoringService.FindRecentlyExpired | src/main/java/com/lapxpert/backend/phieugiamgia/service/VoucherMonitoringService.java:134-146 | exactly the expired candidates last known as running, never more than the candidates |
| VoucherMonitoringService.FindNewlyActivated | src/main/java/com/lapxpert/backend/phieugiamgia/service/VoucherMonitoringService.java:152-168 | exactly the running candidates last known as not started, never more than the candidates |
| VoucherMonitoringService.UntrackedNeverAnnounced | src/main/java/com/lapxpert/backend/phieugiamgia/service/VoucherMonitoringService.java:134-168 | a voucher never tracked is announced neither as expired nor as new |
| VoucherMonitoringService.Puts | src/main/java/com/lapxpert/backend/phieugiamgia/service/VoucherMonitoringService.java:182-192 | the puts of the loop track the old keys plus every listed id |
| VoucherMonitoringService.StateOf | src/main/java/com/lapxpert/backend/phieugiamgia/service/VoucherMonitoringService.java:174-215 | the state mirroring a catalogue tracks exactly the listed ids |
| VoucherMonitoringService.Restrict | src/main/java/com/lapxpert/backend/phieugiamgia/service/VoucherMonitoringService.java:201-207 | the removal of deleted vouchers keeps exactly the tracked ids still listed, with their states |
| VoucherMonitoringService.PutsOverride | src/main/java/com/lapxpert/backend/phieugiamgia/service/VoucherMonitoringService.java:182-192 | after the puts every listed id holds its last listed state, whatever the map held before |
| VoucherMonitoringService.TrackingMirrorsCatalogue | src/main/java/com/lapxpert/backend/phieugiamgia/service/VoucherMonitoringService.java:174-215 | the tracking update leaves exactly the current vouchers with their current states, whatever was tracked before |
| VoucherMonitoringService.StateOfListed | src/main/java/com/lapxpert/backend/phieugiamgia/service/VoucherMonitoringService.java:182-192 | with distinct ids each listed voucher is tracked with its own state |
| VoucherMonitoringService.ExpiryAnnouncedOnce | src/main/java/com/lapxpert/backend/phieugiamgia/service/VoucherMonitoringService.java:93-146 | once a cycle has tracked a voucher as ended, the next cycle does not announce its expiry again |
| VoucherMonitoringService.TransitionNotice | src/main/java/com/lapxpert/backend/phieugiamgia/service/VoucherMonitoringService.java:413-424 | not started to running sends a new-voucher notice and running to ended an expiry notice, each exactly in that case; nothing else sends one |
| VoucherMonitoringService.EventExpiryNotRepeated | src/main/java/com/lapxpert/backend/phieugiamgia/service/VoucherMonitoringService.java:407-430 | an expiry handled as an event is not announced again by the next scheduled cycle |
| VoucherMonitoringService.Monitor.constructor | src/main/java/com/lapxpert/backend/phieugiamgia/service/VoucherMonitoringService.java:52-56 | the service starts with nothing tracked, not populated and nothing sent |
| VoucherMonitoringService.Monitor.InitializeVoucherStateTracking | src/main/java/com/lapxpert/backend/phieugiamgia/service/VoucherMonitoringService.java:64-84 | every voucher's current state is put and the populated flag is set; nothing is sent |
| VoucherMonitoringService.Monitor.PutAll | src/main/java/com/lapxpert/backend/phieugiamgia/service/VoucherMonitoringService.java:182-192 | the loop of puts leaves the map the specification of the puts describes |
| VoucherMonitoringService.Monitor.UpdateVoucherStateTracking | src/main/java/com/lapxpert/backend/phieugiamgia/service/VoucherMonitoringService.java:174-215 | afterwards the tracking map mirrors the catalogue exactly |
| VoucherMonitoringService.Monitor.MonitorVoucherChanges | src/main/java/com/lapxpert/backend/phieugiamgia/service/VoucherMonitoringService.java:93-129 | nothing happens before the initial state is populated; otherwise the expiry notices and then the new-voucher notices of the filtered candidates are sent and the tracking mirrors the catalogue |
| VoucherMonitoringService.Monitor.HandleVoucherStateChange | src/main/java/com/lapxpert/backend/phieugiamgia/service/VoucherMonitoringService.java:407-430 | the new state is recorded at once and the transition's notice, if any, is sent; a null new state changes nothing |
| AiChat.Utf16Length | lapxpert-frontend-admin/src/apis/aiChat.js:198-205 | the JavaScript length of a string is at least its number of characters and positive for a non-empty string |
| AiChat.ValidateChatMessage | lapxpert-frontend-admin/src/apis/aiChat.js:188-216 | valid exactly when the message is a string whose trimmed text is non-empty and at most 1000 UTF-16 units, and then carries that trimmed text; the empty error exactly for a missing or blank message; the too-long error exactly for a non-blank one over the limit |
| AiChat.ValidationIdempotent | lapxpert-frontend-admin/src/apis/aiChat.js:188-216 | a validated message validates again to the same result |
| AiChat.FormatChatRequest | lapxpert-frontend-admin/src/apis/aiChat.js:175-181 | the message is the trimmed content, the user defaults to "anonymous", and the session id is the given one unless falsy, else the generated one |
| AiChat.ValidatedMessageSentUnchanged | lapxpert-frontend-admin/src/apis/aiChat.js:175-216 | a validated message is sent exactly as validated |
| AiChat.ToRecommendation | lapxpert-frontend-admin/src/apis/aiChat.js:228-236 | the id is the variant id unless falsy, else the product id; the url is the given one unless empty, else /products/ and that id; the score is 0 exactly when both scores are missing or zero |
| AiChat.ExtractProductRecommendations | lapxpert-frontend-admin/src/apis/aiChat.js:223-237 | no answer or no list gives no recommendations; otherwise one mapped entry per listed product, in order |
| AiChat.VariantLink | lapxpert-frontend-admin/src/apis/aiChat.js:229-235 | a product listed with only a variant id links to that variant's page |
| CartStore.Added | lapxpert-frontend-client/src/stores/cartStore.js:20-41 | a product missing an id, or whose serial is already in the cart, leaves the cart unchanged; otherwise its unit is appended |
| CartStore.AddedKeepsSerialsUnique | lapxpert-frontend-client/src/stores/cartStore.js:27-37 | adding never puts a serial number in the cart twice |
| CartStore.Without | lapxpert-frontend-client/src/stores/cartStore.js:47-49 | removal keeps exactly the lines with another serial, in order, never longer, unchanged when the serial is absent |
| CartStore.WithoutAppend | lapxpert-frontend-client/src/stores/cartStore.js:48 | the filter distributes over concatenation |
| CartStore.RemoveUndoesAdd | lapxpert-frontend-client/src/stores/cartStore.js:20-49 | removing a unit that was just added restores the cart |
| CartStore.TotalPriceAppend | lapxpert-frontend-client/src/stores/cartStore.js:14 | the total of two lists is the sum of their totals |
| CartStore.TotalPrice | lapxpert-frontend-client/src/stores/cartStore.js:14 | an empty cart totals 0 and a cart of non-negative prices never totals below 0 |
| CartStore.AddRaisesTotal | lapxpert-frontend-client/src/stores/cartStore.js:13-41 | adding a new unit raises the count by one and the total by its price |
| CartStore.Cart.constructor | lapxpert-frontend-client/src/stores/cartStore.js:6 | the cart starts from the stored list, or empty, with nothing selected for checkout |
| CartStore.Cart.TotalItems | lapxpert-frontend-client/src/stores/cartStore.js:13 | the number of lines in the cart |
| CartStore.Cart.AddItem | lapxpert-frontend-client/src/stores/cartStore.js:20-41 | the cart becomes Added of the old cart and keeps serials unique |
| CartStore.Cart.RemoveItem | lapxpert-frontend-client/src/stores/cartStore.js:47-49 | the cart becomes Without of the old cart |
| CartStore.Cart.ClearCart | lapxpert-frontend-client/src/stores/cartStore.js:51-53 | the cart is emptied |
| CartStore.Cart.ComputeTotalPrice | lapxpert-frontend-client/src/stores/cartStore.js:14 | the reduce from 0 yields the total price of the lines |
| CartStore.Cart.SetSelectedItemsForCheckout | lapxpert-frontend-client/src/stores/cartStore.js:57-59 | the checkout selection becomes the given list |
| CartStore.Cart.ClearSelectedItemsForCheckout | lapxpert-frontend-client/src/stores/cartStore.js:61-63 | the checkout selection is emptied |
| ChatStore.Normalise | lapxpert-frontend-admin/src/stores/chatStore.js:27-29 | a bare session id becomes a room with that id; a room object is kept |
| ChatStore.Filtered | lapxpert-frontend-admin/src/stores/chatStore.js:14-16 | a room is shown exactly when it is waiting and its session is not disabled |
| ChatStore.Disabled | lapxpert-frontend-admin/src/stores/chatStore.js:65-70 | after disabling, the id is in the list and nothing else was added |
| ChatStore.DisableIdempotent | lapxpert-frontend-admin/src/stores/chatStore.js:66-67 | disabling twice is disabling once, and no id is ever listed twice |
| ChatStore.DisableHidesRoom | lapxpert-frontend-admin/src/stores/chatStore.js:14-16 | disabling a session hides exactly its rooms from those shown |
| ChatStore.NothingDisabledShowsAll | lapxpert-frontend-admin/src/stores/chatStore.js:14-16 | with nothing disabled every waiting room is shown, in order |
| ChatStore.ChatRooms.constructor | lapxpert-frontend-admin/src/stores/chatStore.js:7-10 | no rooms, not loading, no poll, and the disabled list loaded from storage (or empty) |
| ChatStore.ChatRooms.WaitingRoomCount | lapxpert-frontend-admin/src/stores/chatStore.js:13 | the number of rooms shown, never more than the waiting rooms |
| ChatStore.ChatRooms.FetchWaitingRooms | lapxpert-frontend-admin/src/stores/chatStore.js:22-36 | on success one normalised room per session, in order; on failure no rooms; loading ends either way |
| ChatStore.ChatRooms.StartPolling | lapxpert-frontend-admin/src/stores/chatStore.js:41-48 | an immediate fetch, then the new interval replaces any running one |
| ChatStore.ChatRooms.StopPolling | lapxpert-frontend-admin/src/stores/chatStore.js:53-59 | no poll is left running |
| ChatStore.ChatRooms.DisableRoom | lapxpert-frontend-admin/src/stores/chatStore.js:65-70 | the list becomes Disabled of the old list, written to storage only when it grew |
| ChatStore.ChatRooms.ResetDisabledRooms | lapxpert-frontend-admin/src/stores/chatStore.js:75-78 | the list and storage are emptied, so every waiting room is shown |
| WebSocketMessages.SequenceGenerator.IncrementAndGet | src/main/java/com/lapxpert/backend/websocket/dto/WebSocketMessage.java:84 | the shared message counter advances by one, wrapping like a Java long, and the new value is returned |
| WebSocketMessages.Message.Empty | src/main/java/com/lapxpert/backend/websocket/dto/WebSocketMessage.java:42 | the no-argument constructor leaves every field null |
| WebSocketMessages.Message.Stamped | src/main/java/com/lapxpert/backend/websocket/dto/WebSocketMessage.java:190-221 | the convenience constructors keep destination, type and target user, stamp the current time and a fresh id, and take the next sequence number |
| WebSocketMessages.Message.WithCacheInvalidation | src/main/java/com/lapxpert/backend/websocket/dto/WebSocketMessage.java:234-237 | the cache-invalidation map is replaced and the same message is returned |
| WebSocketMessages.Message.WithCacheInvalidationScope | src/main/java/com/lapxpert/backend/websocket/dto/WebSocketMessage.java:242-251 | scope, version, requiresRefresh = true and the timestamp are set, a missing map is created, every other entry is kept, and the message then has cache-invalidation metadata |
| WebSocketMessages.Message.HasCacheInvalidation | src/main/java/com/lapxpert/backend/websocket/dto/WebSocketMessage.java:256-258 | holds exactly when a map is present with at least one key |
| WebSocketMessages.Message.IsUserSpecific | src/main/java/com/lapxpert/backend/websocket/dto/WebSocketMessage.java:320-322 | holds exactly when the target user is present and has a character above U+0020, i.e. is non-blank after trim |
| WebSocketMessages.Message.IsHighPriority | src/main/java/com/lapxpert/backend/websocket/dto/WebSocketMessage.java:327-329 | holds exactly when the priority is present and reads "high" letter by letter ignoring case; a null priority is not high |
| WebSocketMessages.Message.FormattedDestination | src/main/java/com/lapxpert/backend/websocket/dto/WebSocketMessage.java:334-339 | a user-specific message's log destination is the destination, " (user: ", the user and a closing ")", with nothing else; any other message logs the destination unchanged |
| WebSocketMessages.Message.RequiresDeliveryConfirmation | src/main/java/com/lapxpert/backend/websocket/dto/WebSocketMessage.java:344-346 | holds exactly when a delivery confirmation is present and enabled |
| WebSocketMessages.Message.SupportsRetry | src/main/java/com/lapxpert/backend/websocket/dto/WebSocketMessage.java:351-353 | holds exactly when a retry configuration allows at least one retry |
| WebSocketMessages.Message.MessageAge | src/main/java/com/lapxpert/backend/websocket/dto/WebSocketMessage.java:358-360 | the age is defined exactly when there is a timestamp (else a null dereference), lies in the long range and equals now minus the timestamp when that difference fits |
| WebSocketMessages.Message.IsExpired | src/main/java/com/lapxpert/backend/websocket/dto/WebSocketMessage.java:365-370 | never expired without a retry configuration or with ttl <= 0; otherwise expired exactly when the age exceeds the ttl; a missing timestamp then throws |
| WebSocketMessages.ExpiredStaysExpired | src/main/java/com/lapxpert/backend/websocket/dto/WebSocketMessage.java:358-370 | once expired a message stays expired as the clock moves forward (while the age fits in a long) |
| WebSocketMessages.Builder.constructor | src/main/java/com/lapxpert/backend/websocket/dto/WebSocketMessage.java:226-228 | the builder starts from a fresh message with no id, sequence number or timestamp |
| WebSocketMessages.Builder.Build | src/main/java/com/lapxpert/backend/websocket/dto/WebSocketMessage.java:303-314 | timestamp, id and sequence number are filled only where still null; the counter advances only when the sequence number is filled; the built message has all three |
| BatchInfoDto.ForItem | src/main/java/com/lapxpert/backend/websocket/dto/BatchInfo.java:67-75 | id, size, index and mode are kept; the item is last exactly when index == size - 1 |
| BatchInfoDto.ForLastItem | src/main/java/com/lapxpert/backend/websocket/dto/BatchInfo.java:80-82 | always marked last, at index size - 1, with the given id, size and mode |
| BatchInfoDto.ForBulkUpdate | src/main/java/com/lapxpert/backend/websocket/dto/BatchInfo.java:87-96 | index 0, last, mode BULK_UPDATE, with the given id, size and metadata |
| BatchInfoDto.ForBatch | src/main/java/com/lapxpert/backend/websocket/dto/BatchInfo.java:67-75 | one forItem result per index of a batch of n, in order |
| BatchInfoDto.OnlyFinalItemIsLast | src/main/java/com/lapxpert/backend/websocket/dto/BatchInfo.java:72 | in a non-empty batch the final item is marked last and every other item is not |
| BatchInfoDto.LastItemIsFinalItem | src/main/java/com/lapxpert/backend/websocket/dto/BatchInfo.java:80-82 | forLastItem equals forItem at the final index of the batch |
| ThrottleInfoDto.ForRateLimit | src/main/java/com/lapxpert/backend/websocket/dto/ThrottleInfo.java:74-82 | strategy RATE_LIMIT; delayed exactly when throttledCount > 0; key, interval and count kept |
| ThrottleInfoDto.ForDebounce | src/main/java/com/lapxpert/backend/websocket/dto/ThrottleInfo.java:87-94 | strategy DEBOUNCE; the delay flag passed through; no count recorded |
| ThrottleInfoDto.ForBatchCollect | src/main/java/com/lapxpert/backend/websocket/dto/ThrottleInfo.java:99-107 | strategy BATCH_COLLECT; always delayed; the collected count recorded |
| ThrottleInfoDto.ForPriorityQueue | src/main/java/com/lapxpert/backend/websocket/dto/ThrottleInfo.java:112-119 | strategy PRIORITY_QUEUE; the priority recorded; interval and count left null |
| ThrottleInfoDto.StrategiesDistinct | src/main/java/com/lapxpert/backend/websocket/dto/ThrottleInfo.java:74-119 | results of two different factories never coincide |
| ThrottleInfoDto.RateLimitAgreesWithBatchCollect | src/main/java/com/lapxpert/backend/websocket/dto/ThrottleInfo.java:80 | rate limiting and batch collection mark the same count delayed alike exactly when the count is positive |
| PriceUpdates.DetermineChangeType | src/main/java/com/lapxpert/backend/sanpham/dto/PriceUpdateMessage.java:95-108 | INCREASE iff both prices are present and the new one is higher, DECREASE iff lower, UPDATE iff a price is missing or they are equal |
| PriceUpdates.ChangeTypeAntisymmetric | src/main/java/com/lapxpert/backend/sanpham/dto/PriceUpdateMessage.java:100-107 | swapping old and new price swaps INCREASE and DECREASE and keeps UPDATE |
| PriceUpdates.GroupedReadsBack | src/main/java/com/lapxpert/backend/sanpham/dto/PriceUpdateMessage.java:120-127 | the comma-grouped amount of `%,.0f` reads back as the number once the commas are removed |
| PriceUpdates.FormatAmountReadsBack | src/main/java/com/lapxpert/backend/sanpham/dto/PriceUpdateMessage.java:120-127 | a rendered amount is its sign followed by the grouped digits, which read back as its magnitude |
| PriceUpdates.CreateVietnameseMessage | src/main/java/com/lapxpert/backend/sanpham/dto/PriceUpdateMessage.java:113-129 | without both prices the "updated" text around the product name; otherwise the increase, decrease or plain-change template selected by the change type |
| PriceUpdates.FromEvent | src/main/java/com/lapxpert/backend/sanpham/dto/PriceUpdateMessage.java:71-90 | the event's fields are copied, the change type is derived from the two prices and the text from that change type |
| PriceUpdates.MessageNamesProduct | src/main/java/com/lapxpert/backend/sanpham/dto/PriceUpdateMessage.java:113-129 | every message contains the product name ("null" when missing) |
| PriceUpdates.MessageShowsAmounts | src/main/java/com/lapxpert/backend/sanpham/dto/PriceUpdateMessage.java:119-128 | with both prices, the message contains both rendered amounts |
| ResponseTypes.AllTypesComplete | src/main/java/com/lapxpert/backend/chatbox/dto/ResponseType.java:11-14 | `values()` lists every response type |
| ResponseTypes.ValueInjective | src/main/java/com/lapxpert/backend/chatbox/dto/ResponseType.java:11-25 | no two response types share a wire value (also the `toString` text, lines 67-70) |
| ResponseTypes.FromValue | src/main/java/com/lapxpert/backend/chatbox/dto/ResponseType.java:30-37 | a found type has that value; the value of any type is looked up as that type; anything else gives "Unknown ResponseType: " and the value |
| ResponseTypes.ExactlyOneKind | src/main/java/com/lapxpert/backend/chatbox/dto/ResponseType.java:42-65 | exactly one of the four kind tests holds for each type |
| AiChatErrors.ForStatus | src/main/java/com/lapxpert/backend/chatbox/exception/AiChatException.java:28-34 | a client error carrying the status and its text, with no body, timeout or cause |
| AiChatErrors.ForResponse | src/main/java/com/lapxpert/backend/chatbox/exception/AiChatException.java:39-45 | the given kind, status and body, both shown in the message; no timeout |
| AiChatErrors.ForTimeout | src/main/java/com/lapxpert/backend/chatbox/exception/AiChatException.java:50-56 | a timeout error recording the seconds, with no status or body |
| AiChatErrors.WithMessage | src/main/java/com/lapxpert/backend/chatbox/exception/AiChatException.java:61-78 | the message, cause and kind as given; no status, body or timeout |
| AiChatErrors.TimeoutWithMessage | src/main/java/com/lapxpert/backend/chatbox/exception/AiChatException.java:83-100 | a timeout error with the message, cause and seconds; no status or body |
| AiChatErrors.VietnameseMessage | src/main/java/com/lapxpert/backend/chatbox/exception/AiChatException.java:133-146 | fixed texts for client and server errors; a timeout names its seconds, or 180 when none is recorded |
| AiChatErrors.TimeoutMessageNamesSeconds | src/main/java/com/lapxpert/backend/chatbox/exception/AiChatException.java:139-142 | the Vietnamese message of a timeout raised with its seconds contains those seconds |
| AiChatErrors.ExactlyOneKind | src/main/java/com/lapxpert/backend/chatbox/exception/AiChatException.java:151-167 | exactly one of isClientError, isServerError and isTimeoutError holds |
| AiChatErrors.TimeoutAndStatusExclusive | src/main/java/com/lapxpert/backend/chatbox/exception/AiChatException.java:28-100 | the status constructors record no timeout; the timeout constructors give timeout errors with no status; the status-only constructor gives a client error |

## Left out

- Persistence: JPA repositories and entities are a `map` field or parameters; a save always succeeds. SerialNumber.java is not part of this model: its `reserveWithTracking`, `markAsSold` and `releaseReservation` are modelled as status changes, and `isReserved` as a test for RESERVED.
- SerialNumberService: `reserveSpecificSerialNumbers`, `releaseFromSold`, `reserveItemsWithTracking`, the scheduled cleanup jobs, `generateSerialNumbers`, the audit history and the published events are not modelled. The distributed lock and the optimistic-locking retry are modelled as one uncontended run.
- HoaDonService: the `createHoaDon` orchestration, e-mail, voucher application, `updateHoaDon`, `updateOrderLineItems`, the shipping-fee lookup, audit history and events are not modelled.
- HoaDon.Order.ProcessMixedPayment: a gateway part is counted as a pending redirect; building its payment URL is not modelled.
- RealTimeOrders: the STOMP client itself, the `subscribeTo*` topic handlers, the health-check timers, `initiateErrorRecovery`, `triggerStateSynchronization`, the lifecycle hooks and the online/offline listener are not modelled.
- RealTimeOrders.StabilityAfter: the error rate is a float in the source; the model takes `errorRate * 20` as a natural number.
- RealTimeOrders.OrderConnection.Transmit: the path where the client throws while publishing (MESSAGE_SEND_ERROR) is not modelled.
- Chat and PosView: the `setInterval` reconnect loop, `onerror`/`onclose`, console output, the `send*` helpers (`sendPublicMessage`, `sendPrivateMessage`, `sendJoinNotification`, `sendPosUpdate`) and `isWebSocketConnected` are not modelled.
- Stomp.Encode: headers are written in the order given; JavaScript enumerates integer-like object keys first, which is not captured.
- Whether `JSON.parse` succeeds on a payload is a parameter wherever the source parses one.
- AiChat: `testConnection`, `sendChatMessage` and `generateSessionId` (random) are not modelled.
- Front ends in general: toasts, console logging, Vue reactivity and the integration callbacks are not modelled; `localStorage` contents are a parameter.
- PaymentMethodValidation: `calculatePaymentFee` (floating point) and `getRecommendedPaymentMethods` are not modelled.
- WebSocketLogger: `shouldThrottleWithAggregation`, `setupCleanupTimer`, `getThrottlingStats`, `disableThrottling` and the `WebSocketLoggerUtils` wrappers are not modelled.
- RealTimeSync: the WebSocket handlers, optimistic updates, persistence, `syncStateData` and conflict resolution are not modelled; JavaScript `Set` iteration order is not modelled.
- VoucherMonitoringService: the recommendation engine is not modelled.
- WebSocketIntegration: the other `send*` methods are not modelled; Redis and JSON serialization are abstracted; floating-point percentages are not modelled.
- GhnService: the HTTP calls and `buildGHNRequest` are not modelled.
- VnPayConfig: `md5` and `Sha256` are not modelled; the HMAC-SHA512 digest is the `mac` parameter.
- VnPayService: parsing `vnp_ExpireDate` is replaced by an `expiredAt` parameter; the clock is a parameter.
- WebSocketMessages: payload, metadata and the nested classes are opaque values; the builder's setters are direct field assignments; `backoffMultiplier` (a double) and the Lombok all-arguments constructor are not modelled.
- PriceUpdates: the locale's digit grouping is taken to be a comma. PriceChangeEvent.java is not part of this model.
- AiChatErrors: a null status or error kind (which throws in the source) is not modelled.
- OrderMapping: the `typeof` checks of the serial validators and the `validationFunctions`/`updateActiveTabData` callbacks are not modelled.
- ChatStore: the asynchronous fetch is modelled as completing before the next operation.
- The Python AI service, the thin controllers and the configuration classes are outside the model.
- PaymentValidation.ValidateOrderInfo, VnPayService.ValidateCreateOrderParameters, VnPayConfig.ValidateConfiguration, SanPhamService.ValidateProductBusinessRules, Shipping.PlaceIssue, Shipping.StringHash, StringSort.LexLe and the length rules of OrderValidation: Java and JavaScript count lengths, compare and hash in UTF-16 code units; the model counts code points, so text outside the Basic Multilingual Plane is measured, ordered and hashed differently. Only AiChat.Utf16Length counts UTF-16 units.
- Common.Lower, Common.Upper, Common.EqualsIgnoreCase, Common.JavaParseInteger, WebSocketMessages.Message.IsHighPriority, WebSocketLogger.LevelOf, GhnService.MapErrorToUserMessage, WebSocketIntegration.ListUpdateType, SanPhamService.GenerateMaSanPham and OrderValidation.LooksFake: case folding and digit tests cover ASCII only; the Unicode case mappings and non-ASCII digits of `toUpperCase`, `toLowerCase`, `equalsIgnoreCase` and `Character.isDigit` are not modelled (Vietnamese letters with diacritics keep their case).
- OrderValidation.ValidateField, OrderValidation.ValidateOrderData and OrderValidation.Truthy: a JavaScript number reaching a rule is an integer; fractional numbers, NaN and Infinity are not modelled, so `minValue` on a fraction and the truthiness of NaN are outside the model.
- OrderValidation.JsNumber: reads blank text and optionally '-'-signed ASCII digit runs only; decimals, exponents, a leading '+', hexadecimal and Infinity (which `Number` accepts) are read as NaN.
- Stomp.Dispatch: subscription ids are looked up in a map; an id such as "constructor" or "toString", which the source finds on the object's prototype chain, is treated as unregistered.
- PosView.GetStaffId: the stored id is an integral number or a string; fractional, exponent and other non-integral numbers are not modelled.
- HoaDon.Order.Cancel: releasing the cancelled order's reserved serial numbers back to inventory is not modelled here; SerialNumbers.Inventory.ReleaseReservations models that release on its own.
- WebSocketIntegration.IntegrationService.OrderMessages: the payload's entries are put beside "orderId" and "status" in one flat map, whereas the source nests the caller's payload under "data".
- RealTimePricing.IsIncrease: a missing old price is modelled as absent, so no update counts as an increase; JavaScript compares an explicit null as 0, which the model does not distinguish from a missing price.
- AiChat.Interpolate: a missing id is written as "undefined"; an explicit null, which JavaScript writes as "null", is not distinguished.
- WebSocketMessages.Message.WithCacheInvalidationScope: the metadata map is a value, so sharing one map between messages (aliasing) and the exception thrown when the map is immutable are not modelled.
- AiChatSocket: an exception thrown by the STOMP client's `send` is not modelled; a send always reaches the topic.
- RealTimeSync.IsRelevantTopic: the entity table is a map; an entity such as "constructor", which the source finds on the object's prototype chain and then fails on, is treated as having no table entry.

## Findings

| source | as written | input that shows it | evidently intended | confidence | as-written member | corrected member |
|---|---|---|---|---|---|---|
| lapxpert-frontend-client/src/composables/useRealTimeOrderManagement.js:808-818 | a failed resend in `processQueuedMessages` pushes the entry with a raised retry count, but `sendMessage` (lines 822-868) has already queued a fresh copy of it | one queued message with retry count 0 whose resend fails leaves two entries; an exhausted message comes back with count 0 | each failed message stays queued once, with its count raised, until it is exhausted | high, not executed | RealTimeOrders.AsWrittenDuplicatesFailure | RealTimeOrders.FlushIntendedKeepsFailures |
| src/main/java/com/lapxpert/backend/payment/service/PaymentValidationService.java:79-80 | the IPv4 check splits on '.' with Java `split`, which drops trailing empty pieces, then counts four parts | "1.2.3.4." is accepted as an IPv4 address (the same split is at src/main/java/com/lapxpert/backend/payment/vnpay/VNPayConfig.java:255, modelled as written) | exactly four dot-separated numbers 0-255 | high, not executed | PaymentValidation.TrailingDotAccepted | PaymentValidation.IPv4Exactly |
| src/main/java/com/lapxpert/backend/payment/vnpay/VNPayService.java:81 | `vnp_Amount` is `total*100` with `total` a Java `int` | `total` = 21474837 passes the argument checks and is sent as -2147483596 | compute in `long`, as `createOrderWithOrderId` does at line 305 | high, not executed | VnPayService.AmountOverflowExample | VnPayService.AmountParamReadsBack |
| lapxpert-frontend-client/src/composables/useVoucherMonitoring.js:59-70 | the deep watch on the message list processes every message in the list each time it changes | a voucher-expired message followed by any other message records the expiry twice | process only the messages added since the last run | medium, not executed | VoucherMonitoring.AsWrittenRecordsExpiryTwice | VoucherMonitoring.IntendedProcessesEachOnce |
| lapxpert-frontend-admin/src/composables/useRealTimePricing.js:42-67 | the deep watch on the message list reprocesses every PRICE_UPDATE in the list each time it changes | a PRICE_UPDATE followed by any other message lists the update twice | process only the messages added since the last run | medium, not executed | RealTimePricing.AsWrittenListsUpdateTwice | RealTimePricing.IntendedListsUpdateOnce |
