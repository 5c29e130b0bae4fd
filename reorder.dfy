/** The re-order page (src/pages/ReOrder.tsx): which items of a past order are
    selected and in what quantity, the total of the selection, and adding the
    selection to the cart one unit at a time. */
module ReOrder {
  import opened Wrappers
  import opened Types
  import opened Text
  import opened Seqs
  import opened CartContext

  /** The selection flags after the page's effect has run over `items`. */
  function InitialSelection(items: seq<OrderItem>): map<string, bool>
  {
    if items == [] then map[]
    else InitialSelection(items[..|items| - 1])[items[|items| - 1].serviceId := true]
  }

  /** The quantities after the page's effect: for a repeated service id the
      later item overwrites the earlier one. */
  function InitialQuantities(items: seq<OrderItem>): map<string, int>
  {
    if items == [] then map[]
    else InitialQuantities(items[..|items| - 1])[items[|items| - 1].serviceId := items[|items| - 1].quantity]
  }

  /** The effect that seeds the page's state from the order. */
  method InitialState(items: seq<OrderItem>) returns (selected: map<string, bool>, quantities: map<string, int>)
    ensures selected == InitialSelection(items) && quantities == InitialQuantities(items)
  {
    selected, quantities := map[], map[];
    for k := 0 to |items|
      invariant selected == InitialSelection(items[..k])
      invariant quantities == InitialQuantities(items[..k])
    {
      assert items[..k + 1][..k] == items[..k];
      selected := selected[items[k].serviceId := true];
      quantities := quantities[items[k].serviceId := items[k].quantity];
    }
    assert items[..|items|] == items;
  }

  /** Initially exactly the ordered services are selected, all with flag true. */
  lemma {:induction false} InitialSelectionSpec(items: seq<OrderItem>)
    ensures forall id :: id in InitialSelection(items) <==> exists i :: 0 <= i < |items| && items[i].serviceId == id
    ensures forall id :: id in InitialSelection(items) ==> InitialSelection(items)[id]
    decreases |items|
  {
    if items != [] {
      var n := |items| - 1;
      var p := items[..n];
      InitialSelectionSpec(p);
      forall id ensures id in InitialSelection(items) <==> exists i :: 0 <= i < |items| && items[i].serviceId == id {
        if id in InitialSelection(p) && id != items[n].serviceId {
          var i :| 0 <= i < |p| && p[i].serviceId == id;
          assert items[i].serviceId == id;
        }
        if id != items[n].serviceId && exists i :: 0 <= i < |items| && items[i].serviceId == id {
          var i :| 0 <= i < |items| && items[i].serviceId == id;
          assert p[i].serviceId == id;
        }
      }
    }
  }

  /** The quantity map has the same keys as the selection, and each service
      id gets the quantity of the last order item carrying it (of its only
      item, when ids are distinct). */
  lemma {:induction false} InitialQuantitiesSpec(items: seq<OrderItem>)
    ensures InitialQuantities(items).Keys == InitialSelection(items).Keys
    ensures forall i :: 0 <= i < |items| && (forall j :: i < j < |items| ==> items[j].serviceId != items[i].serviceId) ==>
              items[i].serviceId in InitialQuantities(items) &&
              InitialQuantities(items)[items[i].serviceId] == items[i].quantity
    decreases |items|
  {
    if items != [] {
      var n := |items| - 1;
      var p := items[..n];
      InitialQuantitiesSpec(p);
      forall i | 0 <= i < |items| && (forall j :: i < j < |items| ==> items[j].serviceId != items[i].serviceId)
        ensures items[i].serviceId in InitialQuantities(items) &&
                InitialQuantities(items)[items[i].serviceId] == items[i].quantity
      {
        if i < n {
          assert p[i] == items[i];
          assert forall j :: i < j < |p| ==> p[j] == items[j];
        }
      }
    }
  }

  /** `selectedItems[id]`: an id never seen reads as not selected. */
  function IsSelectedBy(selected: map<string, bool>): OrderItem -> bool
  {
    (item: OrderItem) => item.serviceId in selected && selected[item.serviceId]
  }

  /** `quantities[id] || item.quantity`: a missing or zero entry falls back to the
      order's quantity. */
  function QuantityFor(quantities: map<string, int>, item: OrderItem): (r: int)
    ensures r == item.quantity || (item.serviceId in quantities && r == quantities[item.serviceId])
    ensures item.serviceId in quantities && quantities[item.serviceId] > 0 ==> r == quantities[item.serviceId]
    ensures item.quantity >= 1 && (item.serviceId in quantities ==> quantities[item.serviceId] >= 0) ==> r >= 1
  {
    if item.serviceId in quantities && quantities[item.serviceId] != 0 then quantities[item.serviceId] else item.quantity
  }

  /** The service record `handleAddToCart` builds for an order item. */
  function ServiceOf(item: OrderItem): Service
  {
    Service(item.serviceId, item.serviceName, "", item.price, "", 0.0, Some(item.providerId))
  }

  /** What one selected order item contributes to the total. */
  function ItemTotal(quantities: map<string, int>, item: OrderItem): (r: real)
    ensures item.price >= 0.0 && QuantityFor(quantities, item) >= 0 ==> r >= 0.0
  {
    item.price * QuantityFor(quantities, item) as real
  }

  /** No order item has a negative price or chosen quantity. */
  predicate NonNegativeOrder(items: seq<OrderItem>, quantities: map<string, int>)
  {
    forall i :: 0 <= i < |items| ==> items[i].price >= 0.0 && QuantityFor(quantities, items[i]) >= 0
  }

  /** `calculateTotal`: price times chosen quantity over the selected items. */
  function CalculateTotal(items: seq<OrderItem>, selected: map<string, bool>, quantities: map<string, int>): (r: real)
    ensures (forall i :: 0 <= i < |items| ==> !IsSelectedBy(selected)(items[i])) ==> r == 0.0
    ensures NonNegativeOrder(items, quantities) ==> r >= 0.0
  {
    if items == [] then 0.0
    else
      var last := items[|items| - 1];
      assert NonNegativeOrder(items, quantities) ==> NonNegativeOrder(items[..|items| - 1], quantities);
      CalculateTotal(items[..|items| - 1], selected, quantities) +
        (if IsSelectedBy(selected)(last) then ItemTotal(quantities, last) else 0.0)
  }

  /** The cart lines after adding each order item of `toAdd` its chosen number
      of times, in order. */
  function AddAll(items: seq<CartItem>, toAdd: seq<OrderItem>, quantities: map<string, int>): seq<CartItem>
  {
    if toAdd == [] then items
    else
      var last := toAdd[|toAdd| - 1];
      AddTimes(AddAll(items, toAdd[..|toAdd| - 1], quantities), ServiceOf(last), QuantityFor(quantities, last))
  }

  /** The line an order item becomes in a cart that did not hold its service. */
  function FreshLine(quantities: map<string, int>, item: OrderItem): CartItem
  {
    CartItem(ServiceOf(item), QuantityFor(quantities, item), Some(""), Some(0.0))
  }

  function FreshLines(toAdd: seq<OrderItem>, quantities: map<string, int>): seq<CartItem>
  {
    seq(|toAdd|, i requires 0 <= i < |toAdd| => FreshLine(quantities, toAdd[i]))
  }

  /** Order items whose service ids are pairwise distinct. */
  predicate DistinctIds(items: seq<OrderItem>)
  {
    forall i, j :: 0 <= i < j < |items| ==> items[i].serviceId != items[j].serviceId
  }

  lemma FreshLinesSnoc(toAdd: seq<OrderItem>, x: OrderItem, quantities: map<string, int>)
    ensures FreshLines(toAdd + [x], quantities) == FreshLines(toAdd, quantities) + [FreshLine(quantities, x)]
  {
  }

  /** Adding order items with distinct services and positive quantities to an
      empty cart gives one fresh line per item, in order. */
  lemma {:induction false} AddAllFresh(toAdd: seq<OrderItem>, quantities: map<string, int>)
    requires DistinctIds(toAdd)
    requires forall i :: 0 <= i < |toAdd| ==> QuantityFor(quantities, toAdd[i]) >= 1
    ensures AddAll([], toAdd, quantities) == FreshLines(toAdd, quantities)
    decreases |toAdd|
  {
    if toAdd != [] {
      var n := |toAdd| - 1;
      var pre, x := toAdd[..n], toAdd[n];
      AddAllFresh(pre, quantities);
      var lines := FreshLines(pre, quantities);
      forall i | 0 <= i < |lines| ensures lines[i].service.id != ServiceOf(x).id {
        assert lines[i].service.id == toAdd[i].serviceId;
      }
      AddTimesAbsent(lines, ServiceOf(x), QuantityFor(quantities, x));
      assert toAdd == pre + [x];
      FreshLinesSnoc(pre, x, quantities);
    }
  }

  /** Filtering keeps service ids distinct. */
  lemma {:induction false} FilterDistinct(items: seq<OrderItem>, keep: OrderItem -> bool)
    requires DistinctIds(items)
    ensures DistinctIds(Filter(items, keep))
    decreases |items|
  {
    if items != [] {
      var n := |items| - 1;
      var p, x := items[..n], items[n];
      assert items == p + [x];
      FilterDistinct(p, keep);
      FilterSnoc(p, x, keep);
      var before := Filter(p, keep);
      forall y | y in before ensures y.serviceId != x.serviceId {
        var j :| 0 <= j < |p| && p[j] == y;
        assert items[j] == y;
      }
      if keep(x) {
        var r := before + [x];
        forall i, j | 0 <= i < j < |r| ensures r[i].serviceId != r[j].serviceId {
          if j == |before| {
            assert r[i] in before;
          }
        }
      }
    }
  }

  /** On an empty cart, re-ordering order items with distinct services and
      positive chosen quantities yields exactly one line per selected item, in
      order, holding its chosen quantity. */
  lemma ReorderIntoEmptyCart(items: seq<OrderItem>, selected: map<string, bool>, quantities: map<string, int>)
    requires DistinctIds(items)
    requires forall i :: 0 <= i < |items| ==> QuantityFor(quantities, items[i]) >= 1
    ensures var toAdd := Filter(items, IsSelectedBy(selected));
            AddAll([], toAdd, quantities) == FreshLines(toAdd, quantities)
  {
    var toAdd := Filter(items, IsSelectedBy(selected));
    FilterDistinct(items, IsSelectedBy(selected));
    forall i | 0 <= i < |toAdd| ensures QuantityFor(quantities, toAdd[i]) >= 1 {
      assert toAdd[i] in items;
    }
    AddAllFresh(toAdd, quantities);
  }

  /** The selection total shown on the page equals the cart subtotal that
      adding the selection to an empty cart produces. */
  lemma SelectionTotalIsCartTotal(items: seq<OrderItem>, selected: map<string, bool>, quantities: map<string, int>)
    requires DistinctIds(items)
    requires forall i :: 0 <= i < |items| ==> QuantityFor(quantities, items[i]) >= 1
    ensures CartTotal(AddAll([], Filter(items, IsSelectedBy(selected)), quantities)) ==
            CalculateTotal(items, selected, quantities)
  {
    ReorderIntoEmptyCart(items, selected, quantities);
    FreshLinesTotal(items, selected, quantities);
  }

  lemma FreshLinesTotalSnoc(toAdd: seq<OrderItem>, x: OrderItem, quantities: map<string, int>)
    ensures CartTotal(FreshLines(toAdd + [x], quantities)) ==
            CartTotal(FreshLines(toAdd, quantities)) + ItemTotal(quantities, x)
  {
    var lines := FreshLines(toAdd, quantities);
    FreshLinesSnoc(toAdd, x, quantities);
    SumAppend(lines, [FreshLine(quantities, x)], LineGross);
    assert [FreshLine(quantities, x)][..0] == [];
  }

  lemma {:induction false} FreshLinesTotal(items: seq<OrderItem>, selected: map<string, bool>, quantities: map<string, int>)
    ensures CartTotal(FreshLines(Filter(items, IsSelectedBy(selected)), quantities)) ==
            CalculateTotal(items, selected, quantities)
    decreases |items|
  {
    if items != [] {
      var n := |items| - 1;
      var p, x := items[..n], items[n];
      assert items == p + [x];
      FreshLinesTotal(p, selected, quantities);
      FilterSnoc(p, x, IsSelectedBy(selected));
      if IsSelectedBy(selected)(x) {
        assert Filter(items, IsSelectedBy(selected)) == Filter(p, IsSelectedBy(selected)) + [x];
        FreshLinesTotalSnoc(Filter(p, IsSelectedBy(selected)), x, quantities);
      } else {
        assert Filter(items, IsSelectedBy(selected)) == Filter(p, IsSelectedBy(selected));
      }
    }
  }

  /** The inner loop of `handleAddToCart`: one `addToCart` per unit. */
  method AddRepeatedly(cart: Cart, service: Service, quantity: int)
    requires cart.Valid()
    modifies cart
    ensures cart.Valid()
    ensures cart.cartItems == AddTimes(old(cart.cartItems), service, quantity)
    ensures cart.savedCarts == old(cart.savedCarts) && cart.promoCode == old(cart.promoCode) &&
            cart.promoDiscount == old(cart.promoDiscount)
  {
    var i := 0;
    while i < quantity
      invariant 0 <= i <= if quantity < 0 then 0 else quantity
      invariant cart.Valid()
      invariant cart.cartItems == AddTimes(old(cart.cartItems), service, i)
      invariant cart.savedCarts == old(cart.savedCarts) && cart.promoCode == old(cart.promoCode) &&
                cart.promoDiscount == old(cart.promoDiscount)
    {
      cart.AddToCart(service, None);
      i := i + 1;
    }
    if quantity <= 0 {
      assert i == 0;
    } else {
      assert i == quantity;
    }
  }

  class ReOrderPage {
    const orderItems: seq<OrderItem>
    var selectedItems: map<string, bool>
    var quantities: map<string, int>

    /** The page for an order, after its effect has seeded the state. */
    constructor (items: seq<OrderItem>)
      ensures orderItems == items
      ensures selectedItems == InitialSelection(items) && quantities == InitialQuantities(items)
    {
      orderItems := items;
      var s, q := InitialState(items);
      selectedItems, quantities := s, q;
    }

    /** `handleItemSelection(serviceId, checked)`. */
    method HandleItemSelection(serviceId: string, checked: bool)
      modifies this
      ensures selectedItems == old(selectedItems)[serviceId := checked]
      ensures quantities == old(quantities)
    {
      selectedItems := selectedItems[serviceId := checked];
    }

    /** `handleQuantityChange(serviceId, value)`: only a text that parses to a
        positive integer is recorded. */
    method HandleQuantityChange(serviceId: string, value: string)
      modifies this
      ensures var parsed := ParseInt(value);
              quantities == if parsed.Some? && parsed.value > 0 then old(quantities)[serviceId := parsed.value]
                            else old(quantities)
      ensures selectedItems == old(selectedItems)
    {
      var quantity := ParseInt(value);
      if quantity.Some? && quantity.value > 0 {
        quantities := quantities[serviceId := quantity.value];
      }
    }

    /** `calculateTotal` over the page's state. */
    function Total(): real
      reads this
    {
      CalculateTotal(orderItems, selectedItems, quantities)
    }

    /** `handleAddToCart`: with nothing selected, no cart call is made and false
        is returned; otherwise every selected item is added, one `addToCart` per
        unit, and true is returned. */
    method HandleAddToCart(cart: Cart) returns (added: bool)
      requires cart.Valid()
      modifies cart
      ensures cart.Valid()
      ensures added <==> Filter(orderItems, IsSelectedBy(selectedItems)) != []
      ensures cart.cartItems == AddAll(old(cart.cartItems), Filter(orderItems, IsSelectedBy(selectedItems)), quantities)
      ensures cart.savedCarts == old(cart.savedCarts) && cart.promoCode == old(cart.promoCode) &&
              cart.promoDiscount == old(cart.promoDiscount)
    {
      var itemsToAdd := Filter(orderItems, IsSelectedBy(selectedItems));
      if |itemsToAdd| == 0 {
        return false;
      }
      for j := 0 to |itemsToAdd|
        invariant cart.Valid()
        invariant cart.cartItems == AddAll(old(cart.cartItems), itemsToAdd[..j], quantities)
        invariant cart.savedCarts == old(cart.savedCarts) && cart.promoCode == old(cart.promoCode) &&
                  cart.promoDiscount == old(cart.promoDiscount)
      {
        var item := itemsToAdd[j];
        assert itemsToAdd[..j + 1][..j] == itemsToAdd[..j];
        AddRepeatedly(cart, ServiceOf(item), QuantityFor(quantities, item));
      }
      assert itemsToAdd[..|itemsToAdd|] == itemsToAdd;
      return true;
    }
  }
}
