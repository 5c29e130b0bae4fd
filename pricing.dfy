/** The pricing rules of src/lib/cart.ts: the promo-code table and its
    validation, the quantity-discount table and its per-line recomputation, and
    the projection of a cart for sharing. */
module Pricing {
  import opened Wrappers
  import opened Types
  import opened Text

  datatype PromoKind = Percentage | Fixed

  /** One entry of the promo table: a percentage or a fixed amount, and an
      optional minimum cart total. */
  datatype PromoRule = PromoRule(discount: nat, kind: PromoKind, min: Option<nat>)

  /** `PROMO_CODES`, keyed by the upper-case code. */
  const PromoCodes: map<string, PromoRule> := map[
    "WELCOME10" := PromoRule(10, Percentage, None),
    "SAVE20" := PromoRule(20, Percentage, Some(100)),
    "FLAT25" := PromoRule(25, Fixed, Some(150)),
    "SPECIAL15" := PromoRule(15, Percentage, None)
  ]

  const InvalidPromoMessage := "Invalid promo code"

  /** The rule's minimum is in force: present and not zero (`promoInfo.min &&`). */
  predicate HasMinimum(rule: PromoRule)
  {
    rule.min.Some? && rule.min.value != 0
  }

  /** `applyPromoCode(code, cartTotal)`. */
  function ApplyPromoCode(code: string, cartTotal: real): (r: PromoCodeResult)
    ensures !r.valid ==> r.discount == 0.0
    ensures r.valid <==> Upper(code) in PromoCodes &&
                         !(HasMinimum(PromoCodes[Upper(code)]) && cartTotal < PromoCodes[Upper(code)].min.value as real)
  {
    var upperCode := Upper(code);
    if upperCode !in PromoCodes then
      PromoCodeResult(false, 0.0, InvalidPromoMessage)
    else
      var rule := PromoCodes[upperCode];
      if HasMinimum(rule) && cartTotal < rule.min.value as real then
        PromoCodeResult(false, 0.0, "Requires minimum purchase of $" + NatToString(rule.min.value))
      else if rule.kind == Percentage then
        PromoCodeResult(true, cartTotal * rule.discount as real / 100.0, NatToString(rule.discount) + "% discount applied")
      else
        PromoCodeResult(true, rule.discount as real, "$" + NatToString(rule.discount) + " discount applied")
  }

  /** The code is looked up without regard to case. */
  lemma PromoCaseInsensitive(code: string, cartTotal: real)
    ensures ApplyPromoCode(code, cartTotal) == ApplyPromoCode(Upper(code), cartTotal)
  {
    UpperIdempotent(code);
  }

  /** A code outside the table is rejected with no discount and the fixed message. */
  lemma PromoUnknown(code: string, cartTotal: real)
    requires Upper(code) !in PromoCodes
    ensures ApplyPromoCode(code, cartTotal) == PromoCodeResult(false, 0.0, "Invalid promo code")
  {
  }

  /** A known code with a minimum is rejected, with no discount, exactly when the
      total is strictly below the minimum; a total equal to it is accepted. */
  lemma PromoMinimum(code: string, cartTotal: real)
    requires Upper(code) in PromoCodes && PromoCodes[Upper(code)].min.Some?
    ensures var r := ApplyPromoCode(code, cartTotal);
            !r.valid <==> cartTotal < PromoCodes[Upper(code)].min.value as real
    ensures var r := ApplyPromoCode(code, cartTotal);
            !r.valid ==> r.discount == 0.0 &&
                         r.message == "Requires minimum purchase of $" + NatToString(PromoCodes[Upper(code)].min.value)
  {
  }

  /** A percentage code takes that share of the total, so on a non-negative total
      the discount lies between zero and the total. */
  lemma PromoPercentage(code: string, cartTotal: real)
    requires Upper(code) in PromoCodes && PromoCodes[Upper(code)].kind == Percentage
    requires ApplyPromoCode(code, cartTotal).valid
    ensures ApplyPromoCode(code, cartTotal).discount ==
            cartTotal * PromoCodes[Upper(code)].discount as real / 100.0
    ensures cartTotal >= 0.0 ==> 0.0 <= ApplyPromoCode(code, cartTotal).discount <= cartTotal
  {
    var rule := PromoCodes[Upper(code)];
    assert rule.discount <= 100 by {
      assert Upper(code) in {"WELCOME10", "SAVE20", "SPECIAL15", "FLAT25"};
    }
  }

  /** FLAT25 gives exactly 25 off once its minimum of 150 is met, whatever the
      total, with no clamping against the total. */
  lemma PromoFlat25(code: string, cartTotal: real)
    requires Upper(code) == "FLAT25"
    ensures ApplyPromoCode(code, cartTotal).valid <==> cartTotal >= 150.0
    ensures cartTotal >= 150.0 ==> ApplyPromoCode(code, cartTotal).discount == 25.0
  {
  }

  datatype QuantityTier = QuantityTier(threshold: nat, rate: real)

  /** `QUANTITY_DISCOUNTS`, thresholds ascending. */
  const QuantityDiscounts: seq<QuantityTier> :=
    [QuantityTier(5, 0.05), QuantityTier(10, 0.1), QuantityTier(20, 0.15)]

  /** The rate of the last tier of `tiers` whose threshold the quantity reaches,
      scanning from the end; 0 when it reaches none. */
  function RateIn(tiers: seq<QuantityTier>, quantity: int): real
  {
    if tiers == [] then 0.0
    else if quantity >= tiers[|tiers| - 1].threshold as int then tiers[|tiers| - 1].rate
    else RateIn(tiers[..|tiers| - 1], quantity)
  }

  /** The per-unit quantity discount for a line. */
  function UnitDiscount(price: real, quantity: int): real
  {
    price * RateIn(QuantityDiscounts, quantity)
  }

  /** The rate applied is that of the highest threshold not above the quantity,
      and nothing below the lowest threshold. */
  lemma {:induction false} RateIsHighestReached(quantity: int)
    ensures quantity < 5 ==> RateIn(QuantityDiscounts, quantity) == 0.0
    ensures quantity >= 5 ==>
              exists i :: 0 <= i < |QuantityDiscounts| &&
                          QuantityDiscounts[i].threshold as int <= quantity &&
                          RateIn(QuantityDiscounts, quantity) == QuantityDiscounts[i].rate &&
                          forall j :: i < j < |QuantityDiscounts| ==> quantity < QuantityDiscounts[j].threshold as int
  {
    RateSteps(quantity);
    if quantity >= 20 {
      assert QuantityDiscounts[2].threshold as int <= quantity;
    } else if quantity >= 10 {
      assert QuantityDiscounts[1].threshold as int <= quantity;
    } else if quantity >= 5 {
      assert QuantityDiscounts[0].threshold as int <= quantity;
    }
  }

  /** The quantity-discount step function written out. */
  lemma RateSteps(quantity: int)
    ensures RateIn(QuantityDiscounts, quantity) ==
            if quantity >= 20 then 0.15 else if quantity >= 10 then 0.1 else if quantity >= 5 then 0.05 else 0.0
  {
    var t, q := QuantityDiscounts, quantity;
    assert t[..|t| - 1] == t[..2] && t[..2][..1] == t[..1] && t[..1][..0] == t[..0];
    assert RateIn(t, q) == if q >= 20 then 0.15 else RateIn(t[..2], q);
    assert RateIn(t[..2], q) == if q >= 10 then 0.1 else RateIn(t[..1], q);
    assert RateIn(t[..1], q) == if q >= 5 then 0.05 else RateIn(t[..0], q);
  }

  /** More units never earn a smaller per-unit discount, and the discount never
      exceeds 15% of the unit price (for a non-negative price). */
  lemma UnitDiscountMonotone(price: real, q1: int, q2: int)
    requires 0.0 <= price && q1 <= q2
    ensures 0.0 <= UnitDiscount(price, q1) <= UnitDiscount(price, q2) <= 0.15 * price
  {
    RateSteps(q1);
    RateSteps(q2);
  }

  /** The loop of `calculateQuantityDiscounts` for one line: scan the tiers from
      the highest down and stop at the first threshold the quantity reaches. */
  method LineDiscount(item: CartItem) returns (appliedDiscount: real)
    ensures appliedDiscount == UnitDiscount(item.service.price, item.quantity)
  {
    appliedDiscount := 0.0;
    var i := |QuantityDiscounts| - 1;
    assert QuantityDiscounts[..i + 1] == QuantityDiscounts;
    while i >= 0
      invariant -1 <= i < |QuantityDiscounts|
      invariant appliedDiscount == 0.0
      invariant RateIn(QuantityDiscounts, item.quantity) == RateIn(QuantityDiscounts[..i + 1], item.quantity)
    {
      assert QuantityDiscounts[..i + 1][..i] == QuantityDiscounts[..i];
      if item.quantity >= QuantityDiscounts[i].threshold as int {
        appliedDiscount := item.service.price * QuantityDiscounts[i].rate;
        return;
      }
      i := i - 1;
    }
  }

  /** A line with its `appliedDiscount` recomputed from its own quantity. */
  function Rediscounted(item: CartItem): CartItem
  {
    item.(appliedDiscount := Some(UnitDiscount(item.service.price, item.quantity)))
  }

  /** What `calculateQuantityDiscounts` returns: every line recomputed. */
  function QuantityDiscounted(items: seq<CartItem>): seq<CartItem>
  {
    seq(|items|, i requires 0 <= i < |items| => Rediscounted(items[i]))
  }

  /** `calculateQuantityDiscounts(items)`. */
  method CalculateQuantityDiscounts(items: seq<CartItem>) returns (result: seq<CartItem>)
    ensures result == QuantityDiscounted(items)
  {
    result := [];
    for k := 0 to |items|
      invariant result == QuantityDiscounted(items[..k])
    {
      var d := LineDiscount(items[k]);
      result := result + [items[k].(appliedDiscount := Some(d))];
    }
    assert items[..|items|] == items;
  }

  /** The recomputation keeps length, order and every field but `appliedDiscount`,
      which becomes the unit discount of the line's own quantity. */
  lemma QuantityDiscountedKeepsLines(items: seq<CartItem>)
    ensures |QuantityDiscounted(items)| == |items|
    ensures forall i :: 0 <= i < |items| ==>
              var r := QuantityDiscounted(items)[i];
              r.service == items[i].service && r.quantity == items[i].quantity && r.notes == items[i].notes &&
              r.appliedDiscount == Some(UnitDiscount(items[i].service.price, items[i].quantity))
  {
  }

  /** Recomputing twice is the same as recomputing once. */
  lemma QuantityDiscountedIdempotent(items: seq<CartItem>)
    ensures QuantityDiscounted(QuantityDiscounted(items)) == QuantityDiscounted(items)
  {
    var once := QuantityDiscounted(items);
    assert forall i :: 0 <= i < |items| ==> QuantityDiscounted(once)[i] == once[i];
  }

  /** One line of the shared-cart payload. */
  datatype SharedLine = SharedLine(serviceId: string, quantity: int, notes: string)

  datatype SharedCartData = SharedCartData(items: seq<SharedLine>, promoCode: Option<string>)

  function ShareLine(item: CartItem): SharedLine
  {
    SharedLine(item.service.id, item.quantity, item.notes.GetOr(""))
  }

  /** `formatSharedCartData(cartItems, promoCode)`; a call without a promo code
      passes `None`, the parameter's default. */
  function FormatSharedCartData(cartItems: seq<CartItem>, promoCode: Option<string>): (r: SharedCartData)
    ensures |r.items| == |cartItems| && r.promoCode == promoCode
    ensures forall i :: 0 <= i < |cartItems| ==>
              r.items[i].serviceId == cartItems[i].service.id &&
              r.items[i].quantity == cartItems[i].quantity &&
              r.items[i].notes == (if cartItems[i].notes.Some? then cartItems[i].notes.value else "")
  {
    SharedCartData(seq(|cartItems|, i requires 0 <= i < |cartItems| => ShareLine(cartItems[i])), promoCode)
  }

  /** The shared payload carries no discount, so recomputing quantity discounts
      does not change what is shared. */
  lemma SharedDataIgnoresDiscounts(cartItems: seq<CartItem>, promoCode: Option<string>)
    ensures FormatSharedCartData(QuantityDiscounted(cartItems), promoCode) == FormatSharedCartData(cartItems, promoCode)
  {
    var a := FormatSharedCartData(QuantityDiscounted(cartItems), promoCode);
    var b := FormatSharedCartData(cartItems, promoCode);
    assert forall i :: 0 <= i < |cartItems| ==> a.items[i] == b.items[i];
  }
}
