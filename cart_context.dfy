/** The cart ledger of src/context/CartContext.tsx: the lines keyed by service
    id, the applied promo code and its discount, the saved snapshots, the
    mutators and the derived totals. Each mutator is one atomic step; toasts,
    the clipboard and the localStorage mirror are not modelled. */
module CartContext {
  import opened Wrappers
  import opened Types
  import opened Text
  import opened Seqs
  import Pricing

  /* ---------- lines ---------- */

  /** Some line holds service `id`. */
  predicate HasLine(items: seq<CartItem>, id: string)
  {
    exists i :: 0 <= i < |items| && items[i].service.id == id
  }

  /** The ledger invariant: one line per service id, every quantity at least 1. */
  predicate LinesValid(items: seq<CartItem>)
  {
    (forall i, j :: 0 <= i < j < |items| ==> items[i].service.id != items[j].service.id) &&
    (forall i :: 0 <= i < |items| ==> items[i].quantity >= 1)
  }

  /** The line `addToCart` appends for a service not yet in the cart. */
  function NewLine(service: Service, notes: Option<string>): CartItem
  {
    CartItem(service, 1, Some(notes.GetOr("")), Some(0.0))
  }

  /** The lines after `addToCart(service, notes)`. */
  function AddLine(items: seq<CartItem>, service: Service, notes: Option<string>): (r: seq<CartItem>)
    ensures HasLine(r, service.id)
    ensures |r| == if HasLine(items, service.id) then |items| else |items| + 1
    ensures forall i :: 0 <= i < |items| && items[i].service.id != service.id ==> r[i] == items[i]
  {
    if HasLine(items, service.id) then
      var r := seq(|items|, i requires 0 <= i < |items| =>
        if items[i].service.id == service.id then items[i].(quantity := items[i].quantity + 1) else items[i]);
      assert HasLine(r, service.id) by {
        var k :| 0 <= k < |items| && items[k].service.id == service.id;
        assert r[k].service.id == service.id;
      }
      r
    else
      var r := items + [NewLine(service, notes)];
      assert r[|items|].service.id == service.id;
      r
  }

  /** The test `item.service.id !== serviceId` of `removeFromCart`. */
  function LineOtherThan(id: string): CartItem -> bool
  {
    (item: CartItem) => item.service.id != id
  }

  /** The lines after `removeFromCart(id)`. */
  function RemoveLine(items: seq<CartItem>, id: string): (r: seq<CartItem>)
    ensures |r| <= |items|
    ensures forall x :: x in r <==> x in items && x.service.id != id
  {
    Filter(items, LineOtherThan(id))
  }

  /** The lines of `updateQuantity(id, quantity)` before the discount pass. */
  function SetQuantity(items: seq<CartItem>, id: string, quantity: int): (r: seq<CartItem>)
    ensures |r| == |items|
    ensures forall i :: 0 <= i < |r| ==> r[i].(quantity := items[i].quantity) == items[i]
    ensures forall i :: 0 <= i < |r| && items[i].service.id == id ==> r[i].quantity == quantity
    ensures !HasLine(items, id) ==> r == items
  {
    seq(|items|, i requires 0 <= i < |items| =>
      if items[i].service.id == id then items[i].(quantity := quantity) else items[i])
  }

  /** The lines after `updateCartItemNotes(id, notes)`. */
  function SetNotes(items: seq<CartItem>, id: string, notes: string): (r: seq<CartItem>)
    ensures |r| == |items|
    ensures forall i :: 0 <= i < |r| ==> r[i].(notes := items[i].notes) == items[i]
    ensures forall i :: 0 <= i < |r| && items[i].service.id == id ==> r[i].notes == Some(notes)
    ensures !HasLine(items, id) ==> r == items
  {
    seq(|items|, i requires 0 <= i < |items| =>
      if items[i].service.id == id then items[i].(notes := Some(notes)) else items[i])
  }

  /** Adding keeps one line per service and every quantity at least 1. */
  lemma AddLineValid(items: seq<CartItem>, service: Service, notes: Option<string>)
    requires LinesValid(items)
    ensures LinesValid(AddLine(items, service, notes))
    ensures HasLine(AddLine(items, service, notes), service.id)
  {
    var r := AddLine(items, service, notes);
    if !HasLine(items, service.id) {
      assert r[|items|].service.id == service.id;
    } else {
      var k :| 0 <= k < |items| && items[k].service.id == service.id;
      assert r[k].service.id == service.id;
    }
  }

  /** Adding a service already in the cart raises that line's quantity by one and
      touches nothing else: not the other lines, not any `appliedDiscount`. */
  lemma AddLinePresent(items: seq<CartItem>, service: Service, notes: Option<string>, k: nat)
    requires LinesValid(items) && k < |items| && items[k].service.id == service.id
    ensures AddLine(items, service, notes) == items[k := items[k].(quantity := items[k].quantity + 1)]
  {
    var r := AddLine(items, service, notes);
    var e := items[k := items[k].(quantity := items[k].quantity + 1)];
    assert |r| == |e|;
    forall i | 0 <= i < |items| ensures r[i] == e[i] {
      if i != k {
        assert items[i].service.id != service.id;
      }
    }
  }

  /** Adding a service not in the cart appends one line with quantity 1, the
      given notes (or ""), and discount 0. */
  lemma AddLineAbsent(items: seq<CartItem>, service: Service, notes: Option<string>)
    requires !HasLine(items, service.id)
    ensures AddLine(items, service, notes) ==
            items + [CartItem(service, 1, Some(if notes.Some? then notes.value else ""), Some(0.0))]
  {
  }

  /** Removing drops every line of that service, keeps the others in order, and
      changes nothing when the service is absent. */
  lemma RemoveLineSpec(items: seq<CartItem>, id: string)
    ensures !HasLine(RemoveLine(items, id), id)
    ensures forall x :: x in RemoveLine(items, id) <==> x in items && x.service.id != id
    ensures IsSubsequence(RemoveLine(items, id), items)
    ensures !HasLine(items, id) ==> RemoveLine(items, id) == items
  {
    var r := RemoveLine(items, id);
    forall i | 0 <= i < |r| ensures r[i].service.id != id {
      assert r[i] in r;
    }
    if !HasLine(items, id) {
      FilterAll(items, LineOtherThan(id));
    }
  }

  /** Removing a line keeps the ledger invariant. */
  lemma {:induction false} RemoveLineValid(items: seq<CartItem>, id: string)
    requires LinesValid(items)
    ensures LinesValid(RemoveLine(items, id))
    decreases |items|
  {
    if items != [] {
      RemoveLineValid(items[1..], id);
      var rest := RemoveLine(items[1..], id);
      assert RemoveLine(items, id) == if items[0].service.id != id then [items[0]] + rest else rest;
      forall x | x in rest ensures x.service.id != items[0].service.id && x.quantity >= 1 {
        assert x in items[1..];
      }
    }
  }

  /** After `updateQuantity(id, q)` with `q >= 1`: that line has quantity `q`,
      every line (even when `id` is absent) has its discount recomputed from its
      own quantity, and all else is kept; the ledger invariant holds. */
  lemma UpdateQuantitySpec(items: seq<CartItem>, id: string, quantity: int)
    requires LinesValid(items) && quantity >= 1
    ensures var r := Pricing.QuantityDiscounted(SetQuantity(items, id, quantity));
            |r| == |items| && LinesValid(r) &&
            forall i :: 0 <= i < |items| ==>
              r[i].service == items[i].service && r[i].notes == items[i].notes &&
              r[i].quantity == (if items[i].service.id == id then quantity else items[i].quantity) &&
              r[i].appliedDiscount == Some(Pricing.UnitDiscount(items[i].service.price, r[i].quantity))
    ensures !HasLine(items, id) ==>
              Pricing.QuantityDiscounted(SetQuantity(items, id, quantity)) == Pricing.QuantityDiscounted(items)
  {
    var s := SetQuantity(items, id, quantity);
    Pricing.QuantityDiscountedKeepsLines(s);
    if !HasLine(items, id) {
      assert s == items;
    }
  }

  /** `updateCartItemNotes` changes only the notes of the matching line. */
  lemma SetNotesSpec(items: seq<CartItem>, id: string, notes: string)
    requires LinesValid(items)
    ensures var r := SetNotes(items, id, notes);
            |r| == |items| && LinesValid(r) &&
            forall i :: 0 <= i < |items| ==>
              r[i].service == items[i].service && r[i].quantity == items[i].quantity &&
              r[i].appliedDiscount == items[i].appliedDiscount &&
              r[i].notes == (if items[i].service.id == id then Some(notes) else items[i].notes)
  {
  }

  /* ---------- totals ---------- */

  /** `items.reduce((total, item) => total + f(item), 0)`. */
  function SumOf(items: seq<CartItem>, f: CartItem -> real): real
  {
    if items == [] then 0.0 else SumOf(items[..|items| - 1], f) + f(items[|items| - 1])
  }

  lemma {:induction false} SumAppend(a: seq<CartItem>, b: seq<CartItem>, f: CartItem -> real)
    ensures SumOf(a + b, f) == SumOf(a, f) + SumOf(b, f)
    decreases |b|
  {
    if b != [] {
      assert (a + b)[..|a + b| - 1] == a + b[..|b| - 1];
      SumAppend(a, b[..|b| - 1], f);
    } else {
      assert a + b == a;
    }
  }

  /** Replacing one line changes a sum by the difference of that line's terms. */
  lemma {:induction false} SumUpdate(items: seq<CartItem>, k: nat, x: CartItem, f: CartItem -> real)
    requires k < |items|
    ensures SumOf(items[k := x], f) == SumOf(items, f) - f(items[k]) + f(x)
    decreases |items|
  {
    var u := items[k := x];
    if k == |items| - 1 {
      assert u[..|u| - 1] == items[..|items| - 1];
    } else {
      assert u[..|u| - 1] == items[..|items| - 1][k := x];
      SumUpdate(items[..|items| - 1], k, x, f);
    }
  }

  function LineGross(item: CartItem): real { item.service.price * item.quantity as real }

  function LineCount(item: CartItem): real { item.quantity as real }

  function LineDiscountTotal(item: CartItem): real { item.appliedDiscount.GetOr(0.0) * item.quantity as real }

  /** A sum of non-negative terms is non-negative. */
  lemma {:induction false} SumNonNegative(items: seq<CartItem>, f: CartItem -> real)
    ensures (forall i :: 0 <= i < |items| ==> f(items[i]) >= 0.0) ==> SumOf(items, f) >= 0.0
    decreases |items|
  {
    if items != [] {
      var p := items[..|items| - 1];
      assert forall i :: 0 <= i < |p| ==> p[i] == items[i];
      SumNonNegative(p, f);
    }
  }

  /** Lines with no negative price or quantity. */
  predicate NonNegativeLines(items: seq<CartItem>)
  {
    forall i :: 0 <= i < |items| ==> items[i].service.price >= 0.0 && items[i].quantity >= 0
  }

  /** Every line holds at least one unit. */
  predicate PositiveQuantities(items: seq<CartItem>)
  {
    forall i :: 0 <= i < |items| ==> items[i].quantity >= 1
  }

  /** Lines with no negative applied discount or quantity. */
  predicate NonNegativeDiscounts(items: seq<CartItem>)
  {
    forall i :: 0 <= i < |items| ==> items[i].appliedDiscount.GetOr(0.0) >= 0.0 && items[i].quantity >= 0
  }

  /** `getCartTotal`: the gross subtotal, 0 for an empty cart and the line's
      own gross amount for a single line. */
  function CartTotal(items: seq<CartItem>): (r: real)
    ensures items == [] ==> r == 0.0
    ensures |items| == 1 ==> r == items[0].service.price * items[0].quantity as real
  {
    if |items| == 1 then
      assert items[..0] == [];
      assert SumOf(items, LineGross) == SumOf([], LineGross) + LineGross(items[0]);
      SumOf(items, LineGross)
    else SumOf(items, LineGross)
  }

  /** Lines without negative prices or quantities never total below 0. */
  lemma CartTotalNonNegative(items: seq<CartItem>)
    requires NonNegativeLines(items)
    ensures CartTotal(items) >= 0.0
  {
    assert forall i :: 0 <= i < |items| ==> LineGross(items[i]) >= 0.0;
    SumNonNegative(items, LineGross);
  }

  /** `getCartItemCount`: at least one unit per line while every quantity is at
      least 1. */
  function ItemCount(items: seq<CartItem>): (r: int)
    ensures PositiveQuantities(items) ==> r >= |items|
  {
    if items == [] then 0 else ItemCount(items[..|items| - 1]) + items[|items| - 1].quantity
  }

  /** The item-level discounts `getDiscountedTotal` subtracts. */
  function ItemDiscounts(items: seq<CartItem>): (r: real)
    ensures NonNegativeDiscounts(items) ==> r >= 0.0
  {
    SumNonNegative(items, LineDiscountTotal);
    assert NonNegativeDiscounts(items) ==> forall i :: 0 <= i < |items| ==> LineDiscountTotal(items[i]) >= 0.0;
    SumOf(items, LineDiscountTotal)
  }

  /** `getDiscountedTotal`: subtotal less item discounts and the promo discount,
      floored at 0. */
  function DiscountedTotal(items: seq<CartItem>, promoDiscount: real): (r: real)
    ensures r >= 0.0
    ensures r == 0.0 || r == CartTotal(items) - ItemDiscounts(items) - promoDiscount
    ensures r >= CartTotal(items) - ItemDiscounts(items) - promoDiscount
  {
    var discounted := CartTotal(items) - ItemDiscounts(items) - promoDiscount;
    if discounted > 0.0 then discounted else 0.0
  }

  /** With no negative discount anywhere, the discounted total never exceeds the
      gross subtotal, and equals it minus the discounts when that is positive. */
  lemma DiscountedTotalBounds(items: seq<CartItem>, promoDiscount: real)
    requires 0.0 <= promoDiscount && 0.0 <= ItemDiscounts(items) && 0.0 <= CartTotal(items)
    ensures DiscountedTotal(items, promoDiscount) <= CartTotal(items)
  {
  }

  /** Every line with its discount recomputed saves at most 15% of its gross
      price, so the item discounts are at most 15% of the subtotal. */
  lemma {:induction false} RecomputedDiscountsBounded(items: seq<CartItem>)
    requires forall i :: 0 <= i < |items| ==> items[i].service.price >= 0.0 && items[i].quantity >= 0
    ensures 0.0 <= ItemDiscounts(Pricing.QuantityDiscounted(items)) <= 0.15 * CartTotal(items)
    decreases |items|
  {
    if items != [] {
      var n := |items| - 1;
      var r := Pricing.QuantityDiscounted(items);
      assert r[..n] == Pricing.QuantityDiscounted(items[..n]);
      RecomputedDiscountsBounded(items[..n]);
      Pricing.UnitDiscountMonotone(items[n].service.price, items[n].quantity, items[n].quantity);
      var d := Pricing.UnitDiscount(items[n].service.price, items[n].quantity);
      assert LineDiscountTotal(r[n]) == d * items[n].quantity as real;
      assert 0.0 <= d * items[n].quantity as real <= 0.15 * items[n].service.price * items[n].quantity as real;
    }
  }

  /** One more unit on line `k` raises the item count by one and the subtotal by
      that line's unit price. */
  lemma IncrementTotals(items: seq<CartItem>, k: nat)
    requires k < |items|
    ensures ItemCount(items[k := items[k].(quantity := items[k].quantity + 1)]) == ItemCount(items) + 1
    ensures CartTotal(items[k := items[k].(quantity := items[k].quantity + 1)]) == CartTotal(items) + items[k].service.price
  {
    var x := items[k].(quantity := items[k].quantity + 1);
    SumUpdate(items, k, x, LineGross);
    ItemCountUpdate(items, k, x);
  }

  /** Adding one more unit of a service already in the cart raises the item
      count by one and the subtotal by that line's unit price. */
  lemma AddLineTotalsPresent(items: seq<CartItem>, service: Service, notes: Option<string>, k: nat)
    requires LinesValid(items) && k < |items| && items[k].service.id == service.id
    ensures ItemCount(AddLine(items, service, notes)) == ItemCount(items) + 1
    ensures CartTotal(AddLine(items, service, notes)) == CartTotal(items) + items[k].service.price
  {
    AddLinePresent(items, service, notes, k);
    IncrementTotals(items, k);
  }

  /** Adding a service not yet in the cart raises the item count by one and the
      subtotal by its price. */
  lemma AddLineTotalsAbsent(items: seq<CartItem>, service: Service, notes: Option<string>)
    requires !HasLine(items, service.id)
    ensures ItemCount(AddLine(items, service, notes)) == ItemCount(items) + 1
    ensures CartTotal(AddLine(items, service, notes)) == CartTotal(items) + service.price
  {
    var r := AddLine(items, service, notes);
    assert r[..|r| - 1] == items;
    SumAppend(items, [NewLine(service, notes)], LineGross);
    assert [NewLine(service, notes)][..0] == [];
  }

  lemma {:induction false} ItemCountUpdate(items: seq<CartItem>, k: nat, x: CartItem)
    requires k < |items|
    ensures ItemCount(items[k := x]) == ItemCount(items) - items[k].quantity + x.quantity
    decreases |items|
  {
    var u := items[k := x];
    if k == |items| - 1 {
      assert u[..|u| - 1] == items[..|items| - 1];
    } else {
      assert u[..|u| - 1] == items[..|items| - 1][k := x];
      ItemCountUpdate(items[..|items| - 1], k, x);
    }
  }

  /** The cart lines after `n` calls of `addToCart(service)`. */
  function AddTimes(items: seq<CartItem>, service: Service, n: int): seq<CartItem>
    decreases n
  {
    if n <= 0 then items else AddLine(AddTimes(items, service, n - 1), service, None)
  }

  /** Adding a service not yet in the cart `n >= 1` times gives one new line with
      quantity `n` and discount 0; the earlier lines are untouched. */
  lemma {:induction false} AddTimesAbsent(items: seq<CartItem>, service: Service, n: int)
    requires !HasLine(items, service.id) && n >= 1
    ensures AddTimes(items, service, n) == items + [CartItem(service, n, Some(""), Some(0.0))]
    decreases n
  {
    if n > 1 {
      AddTimesAbsent(items, service, n - 1);
      var before := items + [CartItem(service, n - 1, Some(""), Some(0.0))];
      assert before[|items|].service.id == service.id;
      AddLinePresentNoDup(before, service, |items|);
      assert before[|items| := before[|items|].(quantity := n)] == items + [CartItem(service, n, Some(""), Some(0.0))];
    }
  }

  /** `AddLinePresent` for a line whose id no other line shares. */
  lemma AddLinePresentNoDup(items: seq<CartItem>, service: Service, k: nat)
    requires k < |items| && items[k].service.id == service.id
    requires forall i :: 0 <= i < |items| && i != k ==> items[i].service.id != service.id
    ensures AddLine(items, service, None) == items[k := items[k].(quantity := items[k].quantity + 1)]
  {
    var r := AddLine(items, service, None);
    assert HasLine(items, service.id);
    assert |r| == |items|;
    forall i | 0 <= i < |items| ensures r[i] == items[k := items[k].(quantity := items[k].quantity + 1)][i] {
    }
  }

  /** The totals of a one-line cart are that line's own figures. */
  lemma SingleLineTotals(line: CartItem)
    ensures CartTotal([line]) == LineGross(line)
    ensures ItemDiscounts([line]) == LineDiscountTotal(line)
  {
    assert [line][..0] == [];
    assert SumOf([line], LineGross) == SumOf([], LineGross) + LineGross(line);
    assert SumOf([line], LineDiscountTotal) == SumOf([], LineDiscountTotal) + LineDiscountTotal(line);
  }

  /** SAVE20 on a 500-dollar subtotal gives 100 off. */
  lemma Save20On500()
    ensures Pricing.ApplyPromoCode("SAVE20", 500.0) == PromoCodeResult(true, 100.0, "20% discount applied")
  {
    assert Upper("SAVE20") == "SAVE20" by {
      assert forall i :: 0 <= i < |"SAVE20"| ==> Upper("SAVE20")[i] == "SAVE20"[i];
    }
    assert NatToString(20) == "20" by {
      assert NatToString(2) == "2";
    }
  }

  /** Setting a lone line of a 100-dollar service to 5 units earns 5 dollars
      off per unit. */
  lemma SetFiveOnOneLine(line: CartItem)
    requires line.service.price == 100.0 && line.quantity == 5
    ensures Pricing.QuantityDiscounted(SetQuantity([line], line.service.id, 5)) == [line.(appliedDiscount := Some(5.0))]
  {
    assert SetQuantity([line], line.service.id, 5) == [line];
    Pricing.RateSteps(5);
  }

  /** Five `addToCart` calls of a 100-dollar service, then `updateQuantity`
      to 5, then SAVE20. Adding does not recompute discounts, so the cart
      first shows 500; the update earns 5% per unit (475); SAVE20 takes 20% of
      the gross 500, leaving 375. */
  lemma RepeatedAddsScenario(service: Service)
    requires service.price == 100.0
    ensures AddTimes([], service, 5) == [CartItem(service, 5, Some(""), Some(0.0))]
    ensures DiscountedTotal(AddTimes([], service, 5), 0.0) == 500.0
    ensures var updated := Pricing.QuantityDiscounted(SetQuantity(AddTimes([], service, 5), service.id, 5));
            DiscountedTotal(updated, 0.0) == 475.0 &&
            Pricing.ApplyPromoCode("SAVE20", CartTotal(updated)) == PromoCodeResult(true, 100.0, "20% discount applied") &&
            DiscountedTotal(updated, 100.0) == 375.0
  {
    AddTimesAbsent([], service, 5);
    var line := CartItem(service, 5, Some(""), Some(0.0));
    SingleLineTotals(line);
    SetFiveOnOneLine(line);
    SingleLineTotals(line.(appliedDiscount := Some(5.0)));
    Save20On500();
  }

  /* ---------- saved carts and sharing ---------- */

  /** `savedCarts.find(cart => cart.id === id)`. */
  function FindSavedCart(saved: seq<SavedCart>, id: string): (r: Option<SavedCart>)
    ensures r.None? <==> forall k :: 0 <= k < |saved| ==> saved[k].id != id
    ensures r.Some? ==> r.value in saved && r.value.id == id
  {
    if saved == [] then None
    else if saved[0].id == id then Some(saved[0])
    else
      var rest := FindSavedCart(saved[1..], id);
      assert forall k :: 1 <= k < |saved| ==> saved[k] == saved[1..][k - 1];
      rest
  }

  /** A snapshot appended under a fresh id is the one found under that id. */
  lemma {:induction false} FindAppended(saved: seq<SavedCart>, snapshot: SavedCart)
    requires forall k :: 0 <= k < |saved| ==> saved[k].id != snapshot.id
    ensures FindSavedCart(saved + [snapshot], snapshot.id) == Some(snapshot)
    decreases |saved|
  {
    if saved != [] {
      assert (saved + [snapshot])[1..] == saved[1..] + [snapshot];
      FindAppended(saved[1..], snapshot);
    }
  }

  /** `savedCart.promoCode || null`: an empty code reads as none. */
  function RestoredPromoCode(code: Option<string>): (r: Option<string>)
    ensures r.None? <==> code.None? || code.value == ""
    ensures r.Some? ==> r == code
  {
    if code == Some("") then None else code
  }

  /** The name `saveCartForLater` gives the n-th saved cart: "Cart n". */
  function SavedCartName(n: nat): (r: string)
    ensures |r| > 5 && r[..5] == "Cart "
    ensures AllDigits(r[5..]) && DigitsValue(r[5..]) == n
  {
    NatToStringRoundTrip(n);
    assert ("Cart " + NatToString(n))[5..] == NatToString(n);
    "Cart " + NatToString(n)
  }

  const SharedCartPath := "/shared-cart/"

  /** The link `shareCart` returns for snapshot `id` under `origin`. */
  function ShareLink(origin: string, id: string): (r: string)
    ensures RouteCartId(origin, r) == Some(id)
  {
    origin + SharedCartPath + id
  }

  /** The `cartId` route parameter of a link under `origin`, if it is a shared-cart link. */
  function RouteCartId(origin: string, link: string): (r: Option<string>)
    ensures r.Some? <==> origin + SharedCartPath <= link
    ensures r.Some? ==> link == origin + SharedCartPath + r.value
  {
    var prefix := origin + SharedCartPath;
    if prefix <= link then Some(link[|prefix|..]) else None
  }

  /** All snapshot ids differ. */
  predicate UniqueSavedIds(saved: seq<SavedCart>)
  {
    forall i, j :: 0 <= i < j < |saved| ==> saved[i].id != saved[j].id
  }

  /* ---------- the ledger ---------- */

  class Cart {
    var cartItems: seq<CartItem>
    var savedCarts: seq<SavedCart>
    var promoCode: Option<string>
    var promoDiscount: real

    /** One line per service, quantities at least 1, in the live cart and in
        every snapshot; snapshot ids are distinct. */
    ghost predicate Valid()
      reads this
    {
      LinesValid(cartItems) &&
      (forall k :: 0 <= k < |savedCarts| ==> LinesValid(savedCarts[k].items)) &&
      UniqueSavedIds(savedCarts)
    }

    /** The provider's initial state: no lines, no promo, no snapshots. */
    constructor ()
      ensures Valid()
      ensures cartItems == [] && savedCarts == [] && promoCode == None && promoDiscount == 0.0
    {
      cartItems := [];
      savedCarts := [];
      promoCode := None;
      promoDiscount := 0.0;
    }

    /** `addToCart(service, notes)`: one more unit; discounts are not recomputed. */
    method AddToCart(service: Service, notes: Option<string>)
      requires Valid()
      modifies this
      ensures Valid()
      ensures cartItems == AddLine(old(cartItems), service, notes)
      ensures savedCarts == old(savedCarts) && promoCode == old(promoCode) && promoDiscount == old(promoDiscount)
    {
      AddLineValid(cartItems, service, notes);
      cartItems := AddLine(cartItems, service, notes);
    }

    /** `removeFromCart(serviceId)`. */
    method RemoveFromCart(serviceId: string)
      requires Valid()
      modifies this
      ensures Valid()
      ensures cartItems == RemoveLine(old(cartItems), serviceId)
      ensures savedCarts == old(savedCarts) && promoCode == old(promoCode) && promoDiscount == old(promoDiscount)
    {
      RemoveLineValid(cartItems, serviceId);
      cartItems := RemoveLine(cartItems, serviceId);
    }

    /** `updateQuantity(serviceId, quantity)`: ignored below 1; otherwise sets the
        quantity and recomputes the discount of every line. */
    method UpdateQuantity(serviceId: string, quantity: int)
      requires Valid()
      modifies this
      ensures Valid()
      ensures quantity < 1 ==> cartItems == old(cartItems)
      ensures quantity >= 1 ==> cartItems == Pricing.QuantityDiscounted(SetQuantity(old(cartItems), serviceId, quantity))
      ensures savedCarts == old(savedCarts) && promoCode == old(promoCode) && promoDiscount == old(promoDiscount)
    {
      if quantity < 1 {
        return;
      }
      UpdateQuantitySpec(cartItems, serviceId, quantity);
      var updatedItems := SetQuantity(cartItems, serviceId, quantity);
      cartItems := Pricing.CalculateQuantityDiscounts(updatedItems);
    }

    /** `updateCartItemNotes(serviceId, notes)`. */
    method UpdateCartItemNotes(serviceId: string, notes: string)
      requires Valid()
      modifies this
      ensures Valid()
      ensures cartItems == SetNotes(old(cartItems), serviceId, notes)
      ensures savedCarts == old(savedCarts) && promoCode == old(promoCode) && promoDiscount == old(promoDiscount)
    {
      SetNotesSpec(cartItems, serviceId, notes);
      cartItems := SetNotes(cartItems, serviceId, notes);
    }

    /** `clearCart`: no lines, no promo; snapshots are kept. */
    method ClearCart()
      requires Valid()
      modifies this
      ensures Valid()
      ensures cartItems == [] && promoCode == None && promoDiscount == 0.0
      ensures savedCarts == old(savedCarts)
    {
      cartItems := [];
      promoCode := None;
      promoDiscount := 0.0;
    }

    /** `applyPromoCode(code)` of the context: evaluated against the gross
        subtotal; on success the code is stored as typed with its discount. */
    method ApplyPromoCode(code: string) returns (applied: bool)
      requires Valid()
      modifies this
      ensures Valid()
      ensures var result := Pricing.ApplyPromoCode(code, CartTotal(old(cartItems)));
              applied == result.valid &&
              (applied ==> promoCode == Some(code) && promoDiscount == result.discount) &&
              (!applied ==> promoCode == old(promoCode) && promoDiscount == old(promoDiscount))
      ensures cartItems == old(cartItems) && savedCarts == old(savedCarts)
    {
      var result := Pricing.ApplyPromoCode(code, CartTotal(cartItems));
      if result.valid {
        promoCode := Some(code);
        promoDiscount := result.discount;
        return true;
      }
      return false;
    }

    /** `removePromoCode`. */
    method RemovePromoCode()
      requires Valid()
      modifies this
      ensures Valid()
      ensures promoCode == None && promoDiscount == 0.0
      ensures cartItems == old(cartItems) && savedCarts == old(savedCarts)
    {
      promoCode := None;
      promoDiscount := 0.0;
    }

    /** `saveCartForLater`, with the generated id passed in as `newId`: refused
        on an empty cart; otherwise appends "Cart N" holding the current lines
        and promo, and returns its id. */
    method SaveCartForLater(newId: string) returns (savedId: Option<string>)
      requires Valid()
      requires forall k :: 0 <= k < |savedCarts| ==> savedCarts[k].id != newId
      modifies this
      ensures Valid()
      ensures old(cartItems) == [] ==> savedId == None && savedCarts == old(savedCarts)
      ensures old(cartItems) != [] ==>
                savedId == Some(newId) &&
                savedCarts == old(savedCarts) +
                  [SavedCart(newId, SavedCartName(|old(savedCarts)| + 1), old(cartItems), old(promoCode), old(promoDiscount))]
      ensures cartItems == old(cartItems) && promoCode == old(promoCode) && promoDiscount == old(promoDiscount)
    {
      if cartItems == [] {
        return None;
      }
      var cartName := SavedCartName(|savedCarts| + 1);
      var newSavedCart := SavedCart(newId, cartName, cartItems, promoCode, promoDiscount);
      savedCarts := savedCarts + [newSavedCart];
      return Some(newId);
    }

    /** `loadSavedCart(savedCartId)`: an unknown id changes nothing; a known one
        overwrites the lines and the promo (an empty code reads as none). */
    method LoadSavedCart(savedCartId: string)
      requires Valid()
      modifies this
      ensures Valid()
      ensures FindSavedCart(old(savedCarts), savedCartId).None? ==>
                cartItems == old(cartItems) && promoCode == old(promoCode) && promoDiscount == old(promoDiscount)
      ensures FindSavedCart(old(savedCarts), savedCartId).Some? ==>
                var snapshot := FindSavedCart(old(savedCarts), savedCartId).value;
                cartItems == snapshot.items && promoCode == RestoredPromoCode(snapshot.promoCode) &&
                promoDiscount == snapshot.promoDiscount
      ensures savedCarts == old(savedCarts)
    {
      var savedCart := FindSavedCart(savedCarts, savedCartId);
      if savedCart.None? {
        return;
      }
      cartItems := savedCart.value.items;
      promoCode := RestoredPromoCode(savedCart.value.promoCode);
      promoDiscount := savedCart.value.promoDiscount;
    }

    /** `shareCart`, with the page origin and the generated id passed in: ""
        on an empty cart; otherwise saves a snapshot and returns its link. */
    method ShareCart(origin: string, newId: string) returns (link: string)
      requires Valid()
      requires forall k :: 0 <= k < |savedCarts| ==> savedCarts[k].id != newId
      modifies this
      ensures Valid()
      ensures old(cartItems) == [] ==> link == "" && savedCarts == old(savedCarts)
      ensures old(cartItems) != [] ==>
                link == ShareLink(origin, newId) &&
                savedCarts == old(savedCarts) +
                  [SavedCart(newId, SavedCartName(|old(savedCarts)| + 1), old(cartItems), old(promoCode), old(promoDiscount))]
      ensures cartItems == old(cartItems) && promoCode == old(promoCode) && promoDiscount == old(promoDiscount)
    {
      if cartItems == [] {
        return "";
      }
      var shareableCartId := SaveCartForLater(newId);
      link := ShareLink(origin, shareableCartId.value);
    }

    /** The shared-cart page (src/pages/SharedCart.tsx): with a non-empty route
        id that names a saved cart, load it; otherwise change nothing. */
    method OpenSharedCart(cartId: Option<string>) returns (loaded: bool)
      requires Valid()
      modifies this
      ensures Valid()
      ensures loaded <==> cartId.Some? && cartId.value != "" && FindSavedCart(old(savedCarts), cartId.value).Some?
      ensures !loaded ==> cartItems == old(cartItems) && promoCode == old(promoCode) && promoDiscount == old(promoDiscount)
      ensures loaded ==>
                var snapshot := FindSavedCart(old(savedCarts), cartId.value).value;
                cartItems == snapshot.items && promoCode == RestoredPromoCode(snapshot.promoCode) &&
                promoDiscount == snapshot.promoDiscount
      ensures savedCarts == old(savedCarts)
    {
      if cartId.None? || cartId.value == "" {
        return false;
      }
      var cartExists := FindSavedCart(savedCarts, cartId.value).Some?;
      if cartExists {
        LoadSavedCart(cartId.value);
        return true;
      }
      return false;
    }
  }
}
