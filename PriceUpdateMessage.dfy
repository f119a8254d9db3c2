/**
 * The real-time price update notification (sanpham/dto/PriceUpdateMessage.java):
 * the change type derived from the old and new selling price, the
 * Vietnamese warning text, and the message built from a price change
 * event.
 *
 * Prices are whole amounts of dong (`int`); `%,.0f` renders them with a
 * comma between groups of three digits. The event is given by its fields.
 */
module PriceUpdates {
  import opened Common

  const Increase := "INCREASE"
  const Decrease := "DECREASE"
  const Update := "UPDATE"

  /**
   * `determineChangeType`: UPDATE when either price is missing or the two
   * are equal, otherwise the direction of the change.
   */
  function DetermineChangeType(oldPrice: Option<int>, newPrice: Option<int>): (r: string)
    ensures r == Increase || r == Decrease || r == Update
    ensures r == Increase <==> oldPrice.Some? && newPrice.Some? && newPrice.value > oldPrice.value
    ensures r == Decrease <==> oldPrice.Some? && newPrice.Some? && newPrice.value < oldPrice.value
    ensures r == Update <==> oldPrice.None? || newPrice.None? || newPrice.value == oldPrice.value
  {
    if oldPrice.None? || newPrice.None? then Update
    else if newPrice.value > oldPrice.value then Increase
    else if newPrice.value < oldPrice.value then Decrease
    else Update
  }

  /** Swapping the two prices swaps INCREASE and DECREASE and keeps UPDATE. */
  lemma ChangeTypeAntisymmetric(oldPrice: Option<int>, newPrice: Option<int>)
    ensures DetermineChangeType(oldPrice, newPrice) == Increase <==> DetermineChangeType(newPrice, oldPrice) == Decrease
    ensures DetermineChangeType(oldPrice, newPrice) == Update <==> DetermineChangeType(newPrice, oldPrice) == Update
  {
  }

  // ------------------------------------------------------------ amounts

  /** A natural number in groups of three digits separated by commas. */
  function Grouped(n: nat): (r: string)
    ensures r != []
  {
    if n < 1000 then NatToString(n) else Grouped(n / 1000) + "," + PadDigits(n % 1000, 3)
  }

  /** `%,.0f` of a whole amount: a minus sign, then the grouped digits. */
  function FormatAmount(n: int): string
  {
    if n < 0 then "-" + Grouped(-n) else Grouped(n)
  }

  /** The string with its group separators removed. */
  function Ungrouped(s: string): (r: string)
    ensures |r| <= |s|
  {
    if s == [] then [] else (if s[0] == ',' then [] else [s[0]]) + Ungrouped(s[1..])
  }

  lemma {:induction false} UngroupedAppend(a: string, b: string)
    ensures Ungrouped(a + b) == Ungrouped(a) + Ungrouped(b)
    decreases |a|
  {
    if a == [] {
      assert a + b == b;
    } else {
      ConsAppend(a, b);
      UngroupedAppend(a[1..], b);
    }
  }

  lemma {:induction false} UngroupedDigits(s: string)
    requires AllDigits(s)
    ensures Ungrouped(s) == s
    decreases |s|
  {
    if s != [] {
      UngroupedDigits(s[1..]);
    }
  }

  function Pow10(k: nat): (r: nat)
    ensures r >= 1
  {
    if k == 0 then 1 else 10 * Pow10(k - 1)
  }

  /** Appending digits shifts the value of the left part. */
  lemma {:induction false} DigitsValueAppend(a: string, b: string)
    requires AllDigits(a) && AllDigits(b)
    ensures AllDigits(a + b)
    ensures DigitsValue(a + b) == DigitsValue(a) * Pow10(|b|) + DigitsValue(b)
    decreases |b|
  {
    if b == [] {
      assert a + b == a;
    } else {
      var b' := b[..|b| - 1];
      DigitsValueAppend(a, b');
      assert (a + b)[..|a + b| - 1] == a + b';
      ShiftDigit(DigitsValue(a), Pow10(|b'|), DigitsValue(b'), DigitValue(b[|b| - 1]));
    }
  }

  /** The arithmetic of appending one digit to a shifted value. */
  lemma ShiftDigit(x: int, p: int, y: int, d: int)
    ensures (x * p + y) * 10 + d == x * (p * 10) + (y * 10 + d)
  {
    assert (x * p) * 10 == x * (p * 10);
  }

  /** A remainder below 1000, padded, has exactly three digits. */
  lemma PadThree(m: nat)
    requires m < 1000
    ensures |PadDigits(m, 3)| == 3
  {
    NatToStringAtMost3(m);
  }

  /** The grouped rendering reads back as the number once the commas are removed. */
  lemma {:induction false} GroupedReadsBack(n: nat)
    ensures AllDigits(Ungrouped(Grouped(n)))
    ensures DigitsValue(Ungrouped(Grouped(n))) == n
  {
    if n < 1000 {
      UngroupedDigits(NatToString(n));
      NatToStringValue(n);
    } else {
      GroupedReadsBack(n / 1000);
      var u := Ungrouped(Grouped(n / 1000));
      var low := PadDigits(n % 1000, 3);
      UngroupedGroupedStep(n);
      PadThree(n % 1000);
      PadDigitsValue(n % 1000, 3);
      Pow10Three();
      DigitsValueAppend(u, low);
    }
  }

  lemma Pow10Three()
    ensures Pow10(3) == 1000
  {
    assert Pow10(0) == 1 && Pow10(1) == 10 && Pow10(2) == 100;
  }

  /** Removing the commas from a grouping of four digits or more leaves the high part's digits, then the low three. */
  lemma UngroupedGroupedStep(n: nat)
    requires n >= 1000
    ensures Ungrouped(Grouped(n)) == Ungrouped(Grouped(n / 1000)) + PadDigits(n % 1000, 3)
  {
    var high := Grouped(n / 1000);
    var low := PadDigits(n % 1000, 3);
    assert Grouped(n) == (high + ",") + low;
    UngroupedAppend(high + ",", low);
    assert Ungrouped(high + ",") == Ungrouped(high) by {
      UngroupedAppend(high, ",");
      UngroupedComma();
    }
    UngroupedDigits(low);
  }

  lemma UngroupedComma()
    ensures Ungrouped(",") == []
  {
    assert ","[1..] == [];
  }

  /** `%,.0f` of an amount reads back as the amount: its sign, then its digits once the commas are removed. */
  lemma FormatAmountReadsBack(n: int)
    ensures n >= 0 ==> AllDigits(Ungrouped(FormatAmount(n))) && DigitsValue(Ungrouped(FormatAmount(n))) == n
    ensures n < 0 ==> FormatAmount(n)[0] == '-' && FormatAmount(n)[1..] == Grouped(-n)
    ensures n < 0 ==> AllDigits(Ungrouped(Grouped(-n))) && DigitsValue(Ungrouped(Grouped(-n))) == -n
  {
    if n < 0 {
      GroupedReadsBack(-n);
      var g := Grouped(-n);
      assert FormatAmount(n) == "-" + g;
      assert ("-" + g)[1..] == g;
    } else {
      GroupedReadsBack(n);
      assert FormatAmount(n) == Grouped(n);
    }
  }

  // ----------------------------------------------------------- messages

  /** The separate parts of the warning text around the product name and the two amounts. */
  const NoPricesHead := "Giá sản phẩm "
  const NoPricesTail := " đã được cập nhật"
  const IncreaseHead := "\U{26A0}\U{FE0F} Giá sản phẩm "
  const IncreaseFrom := " đã tăng từ "
  const IncreaseTo := "₫ lên "
  const DecreaseHead := "\U{1F389} Giá sản phẩm "
  const DecreaseFrom := " đã giảm từ "
  const DecreaseTo := "₫ xuống "
  const ChangeHead := "Giá sản phẩm "
  const ChangeFrom := " đã thay đổi từ "
  const ChangeTo := "₫ thành "
  const Dong := "₫"

  /** The fixed text before the name, between the name and the old amount, and between the two amounts. */
  datatype Template = Template(head: string, from: string, to: string)

  /** The template of a change type; anything but INCREASE or DECREASE reads as a plain change. */
  function TemplateOf(changeType: string): Template
  {
    if changeType == Increase then Template(IncreaseHead, IncreaseFrom, IncreaseTo)
    else if changeType == Decrease then Template(DecreaseHead, DecreaseFrom, DecreaseTo)
    else Template(ChangeHead, ChangeFrom, ChangeTo)
  }

  /** The product name and the two amounts spliced into a template. */
  function Fill(t: Template, name: string, oldAmount: int, newAmount: int): (r: string)
    ensures StartsWith(r, t.head)
  {
    var r := t.head + name + t.from + FormatAmount(oldAmount) + t.to + FormatAmount(newAmount) + Dong;
    assert r[..|t.head|] == t.head;
    r
  }

  /**
   * `createVietnameseMessage`: without both prices only the product name;
   * otherwise the template of the change type, with both amounts.
   */
  function CreateVietnameseMessage(productName: Option<string>, oldPrice: Option<int>, newPrice: Option<int>, changeType: string): (r: string)
    ensures oldPrice.None? || newPrice.None? ==> r == NoPricesHead + JavaString(productName) + NoPricesTail
    ensures oldPrice.Some? && newPrice.Some? && changeType == Increase ==> StartsWith(r, IncreaseHead)
    ensures oldPrice.Some? && newPrice.Some? && changeType == Decrease ==> StartsWith(r, DecreaseHead)
    ensures oldPrice.Some? && newPrice.Some? && changeType != Increase && changeType != Decrease ==> StartsWith(r, ChangeHead)
  {
    var name := JavaString(productName);
    if oldPrice.None? || newPrice.None? then NoPricesHead + name + NoPricesTail
    else Fill(TemplateOf(changeType), name, oldPrice.value, newPrice.value)
  }

  /** The fields of a `PriceChangeEvent` that the message copies. */
  datatype PriceChangeEvent = PriceChangeEvent(
    variantId: Option<int>, sku: Option<string>, productName: Option<string>,
    oldPrice: Option<int>, newPrice: Option<int>, timestamp: Option<int>, nguoiThucHien: Option<string>)

  datatype PriceUpdateMessage = PriceUpdateMessage(
    variantId: Option<int>, sku: Option<string>, productName: Option<string>,
    oldPrice: Option<int>, newPrice: Option<int>, message: string,
    timestamp: Option<int>, changeType: string, nguoiThucHien: Option<string>)

  /** `fromEvent`: the event's fields, its change type, and the warning text for it. */
  function FromEvent(e: PriceChangeEvent): (m: PriceUpdateMessage)
    ensures m.variantId == e.variantId && m.sku == e.sku && m.productName == e.productName
    ensures m.oldPrice == e.oldPrice && m.newPrice == e.newPrice
    ensures m.timestamp == e.timestamp && m.nguoiThucHien == e.nguoiThucHien
    ensures m.changeType == DetermineChangeType(e.oldPrice, e.newPrice)
    ensures m.message == CreateVietnameseMessage(e.productName, e.oldPrice, e.newPrice, m.changeType)
  {
    var changeType := DetermineChangeType(e.oldPrice, e.newPrice);
    PriceUpdateMessage(e.variantId, e.sku, e.productName, e.oldPrice, e.newPrice,
                       CreateVietnameseMessage(e.productName, e.oldPrice, e.newPrice, changeType),
                       e.timestamp, changeType, e.nguoiThucHien)
  }

  /** Every message names the product (a missing name reads "null"). */
  lemma MessageNamesProduct(e: PriceChangeEvent)
    ensures Contains(FromEvent(e).message, JavaString(e.productName))
  {
    var name := JavaString(e.productName);
    if e.oldPrice.None? || e.newPrice.None? {
      ContainsSuffix(NoPricesHead, name);
      ContainsExtend(NoPricesHead + name, name, NoPricesTail);
    } else {
      var t := TemplateOf(DetermineChangeType(e.oldPrice, e.newPrice));
      var o, n := FormatAmount(e.oldPrice.value), FormatAmount(e.newPrice.value);
      ContainsSuffix(t.head, name);
      ContainsExtend(t.head + name, name, t.from);
      ContainsExtend(t.head + name + t.from, name, o);
      ContainsExtend(t.head + name + t.from + o, name, t.to);
      ContainsExtend(t.head + name + t.from + o + t.to, name, n);
      ContainsExtend(t.head + name + t.from + o + t.to + n, name, Dong);
    }
  }

  /** A message about a price change with both prices shows the old and the new amount. */
  lemma MessageShowsAmounts(e: PriceChangeEvent)
    requires e.oldPrice.Some? && e.newPrice.Some?
    ensures Contains(FromEvent(e).message, FormatAmount(e.oldPrice.value))
    ensures Contains(FromEvent(e).message, FormatAmount(e.newPrice.value))
  {
    var name := JavaString(e.productName);
    var t := TemplateOf(DetermineChangeType(e.oldPrice, e.newPrice));
    var o, n := FormatAmount(e.oldPrice.value), FormatAmount(e.newPrice.value);
    ContainsSuffix(t.head + name + t.from, o);
    ContainsExtend(t.head + name + t.from + o, o, t.to);
    ContainsExtend(t.head + name + t.from + o + t.to, o, n);
    ContainsExtend(t.head + name + t.from + o + t.to + n, o, Dong);
    ContainsSuffix(t.head + name + t.from + o + t.to, n);
    ContainsExtend(t.head + name + t.from + o + t.to + n, n, Dong);
  }
}
