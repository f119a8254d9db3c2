/**
 * The customer cart store (cartStore.js): a list of serial-numbered items,
 * each physical unit at most once, with its count and total price, and the
 * selection handed to checkout.
 *
 * Identifiers are numbers; zero or absence is falsy, as in JavaScript.
 * The localStorage persistence is not modelled: the stored list is the
 * constructor's parameter.
 */
module CartStore {
  import opened Common

  /** A cart line: one serial-numbered unit. */
  datatype CartItem = CartItem(productId: int, variantId: int, serialId: int, name: string, price: int, image: string)

  /** The argument of `addItem`, whose identifiers may be missing. */
  datatype Product = Product(productId: Option<int>, variantId: Option<int>, serialId: Option<int>,
                             name: string, price: int, image: string)

  predicate Truthy(x: Option<int>) { x.Some? && x.value != 0 }

  /** The guard of `addItem`: all three identifiers are present and non-zero. */
  predicate HasCompleteIds(p: Product)
  {
    Truthy(p.productId) && Truthy(p.variantId) && Truthy(p.serialId)
  }

  function ItemOf(p: Product): CartItem
    requires HasCompleteIds(p)
  {
    CartItem(p.productId.value, p.variantId.value, p.serialId.value, p.name, p.price, p.image)
  }

  predicate HasSerial(items: seq<CartItem>, serialId: int)
  {
    exists i :: 0 <= i < |items| && items[i].serialId == serialId
  }

  /** No serial number is in the cart twice. */
  predicate UniqueSerials(items: seq<CartItem>)
  {
    forall i, j :: 0 <= i < j < |items| ==> items[i].serialId != items[j].serialId
  }

  /**
   * The cart after `addItem`: an incomplete product or a serial number
   * already present leaves it unchanged; otherwise the unit is appended.
   */
  function Added(items: seq<CartItem>, p: Product): (r: seq<CartItem>)
    ensures !HasCompleteIds(p) ==> r == items
    ensures HasCompleteIds(p) && HasSerial(items, p.serialId.value) ==> r == items
    ensures HasCompleteIds(p) && !HasSerial(items, p.serialId.value) ==> r == items + [ItemOf(p)]
  {
    if !HasCompleteIds(p) || HasSerial(items, p.serialId.value) then items else items + [ItemOf(p)]
  }

  /** Adding never creates a duplicate serial number. */
  lemma AddedKeepsSerialsUnique(items: seq<CartItem>, p: Product)
    requires UniqueSerials(items)
    ensures UniqueSerials(Added(items, p))
  {
  }

  /** The cart after `removeItem`: every line with that serial number is dropped, the rest kept in order. */
  function Without(items: seq<CartItem>, serialId: int): (r: seq<CartItem>)
    ensures |r| <= |items|
    ensures !HasSerial(r, serialId)
    ensures forall x :: x in r <==> x in items && x.serialId != serialId
    ensures !HasSerial(items, serialId) ==> r == items
  {
    if items == [] then []
    else
      var rest := Without(items[1..], serialId);
      assert items == [items[0]] + items[1..];
      if items[0].serialId == serialId then rest else [items[0]] + rest
  }

  lemma {:induction false} WithoutAppend(a: seq<CartItem>, b: seq<CartItem>, serialId: int)
    ensures Without(a + b, serialId) == Without(a, serialId) + Without(b, serialId)
    decreases |a|
  {
    if a == [] {
      assert a + b == b;
    } else {
      WithoutAppend(a[1..], b, serialId);
      ConsAppend(a, b);
    }
  }

  /** Removing a unit that was just added restores the cart. */
  lemma RemoveUndoesAdd(items: seq<CartItem>, p: Product)
    requires HasCompleteIds(p) && !HasSerial(items, p.serialId.value)
    ensures Without(Added(items, p), p.serialId.value) == items
  {
    WithoutAppend(items, [ItemOf(p)], p.serialId.value);
    assert Without([ItemOf(p)], p.serialId.value) == [] by {
      assert [ItemOf(p)][1..] == [];
    }
  }

  /** `totalPrice`: the sum of the line prices. */
  function TotalPrice(items: seq<CartItem>): (t: int)
    ensures (forall i :: 0 <= i < |items| ==> items[i].price >= 0) ==> t >= 0
    ensures items == [] ==> t == 0
  {
    if items == [] then 0 else TotalPrice(items[..|items| - 1]) + items[|items| - 1].price
  }

  lemma {:induction false} TotalPriceAppend(a: seq<CartItem>, b: seq<CartItem>)
    ensures TotalPrice(a + b) == TotalPrice(a) + TotalPrice(b)
    decreases |b|
  {
    if b == [] {
      assert a + b == a;
    } else {
      var c := b[..|b| - 1];
      TotalPriceAppend(a, c);
      assert (a + b)[..|a + b| - 1] == a + c;
    }
  }

  /** Adding a new unit raises the total by its price and the count by one. */
  lemma AddRaisesTotal(items: seq<CartItem>, p: Product)
    requires HasCompleteIds(p) && !HasSerial(items, p.serialId.value)
    ensures TotalPrice(Added(items, p)) == TotalPrice(items) + p.price
    ensures |Added(items, p)| == |items| + 1
  {
    TotalPriceAppend(items, [ItemOf(p)]);
    assert [ItemOf(p)][..0] == [];
  }

  class Cart {
    var items: seq<CartItem>
    var selectedItemsForCheckout: seq<CartItem>

    /** The store as loaded: the stored list, or the empty cart. */
    constructor(stored: Option<seq<CartItem>>)
      ensures items == (if stored.Some? then stored.value else [])
      ensures selectedItemsForCheckout == []
    {
      items := if stored.Some? then stored.value else [];
      selectedItemsForCheckout := [];
    }

    /** `totalItems` */
    function TotalItems(): (n: nat)
      reads this
      ensures n == |items|
    {
      |items|
    }

    /** addItem: the `find` over the list, then the push. */
    method AddItem(p: Product)
      modifies this`items
      ensures items == Added(old(items), p)
      ensures UniqueSerials(old(items)) ==> UniqueSerials(items)
    {
      if UniqueSerials(items) {
        AddedKeepsSerialsUnique(items, p);
      }
      if !HasCompleteIds(p) {
        return;
      }
      var serialId := p.serialId.value;
      var i := 0;
      while i < |items| && items[i].serialId != serialId
        invariant 0 <= i <= |items|
        invariant forall k :: 0 <= k < i ==> items[k].serialId != serialId
      {
        i := i + 1;
      }
      if i == |items| {
        items := items + [ItemOf(p)];
      }
    }

    /** removeItem: the `filter`, one line at a time. */
    method RemoveItem(serialId: int)
      modifies this`items
      ensures items == Without(old(items), serialId)
    {
      var kept: seq<CartItem> := [];
      var i := 0;
      while i < |items|
        invariant 0 <= i <= |items|
        invariant items == old(items)
        invariant kept == Without(items[..i], serialId)
      {
        WithoutAppend(items[..i], [items[i]], serialId);
        assert items[..i + 1] == items[..i] + [items[i]];
        assert Without([items[i]], serialId) == (if items[i].serialId == serialId then [] else [items[i]]) by {
          assert [items[i]][1..] == [];
        }
        if items[i].serialId != serialId {
          kept := kept + [items[i]];
        }
        i := i + 1;
      }
      assert items[..i] == items;
      items := kept;
    }

    method ClearCart()
      modifies this`items
      ensures items == []
    {
      items := [];
    }

    /** totalPrice: the `reduce` from 0. */
    method ComputeTotalPrice() returns (sum: int)
      ensures sum == TotalPrice(items)
    {
      sum := 0;
      var i := 0;
      while i < |items|
        invariant 0 <= i <= |items|
        invariant sum == TotalPrice(items[..i])
      {
        assert items[..i + 1][..i] == items[..i];
        sum := sum + items[i].price;
        i := i + 1;
      }
      assert items[..i] == items;
    }

    method SetSelectedItemsForCheckout(selection: seq<CartItem>)
      modifies this`selectedItemsForCheckout
      ensures selectedItemsForCheckout == selection
    {
      selectedItemsForCheckout := selection;
    }

    method ClearSelectedItemsForCheckout()
      modifies this`selectedItemsForCheckout
      ensures selectedItemsForCheckout == []
    {
      selectedItemsForCheckout := [];
    }
  }
}
