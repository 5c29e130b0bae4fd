/** The pure helpers of src/context/cart/cartUtils.ts: building snapshots,
    delegating promo evaluation, and the local-storage snapshot's default.
    The storage and database calls themselves are not modelled. */
module CartUtils {
  import opened Wrappers
  import opened Types
  import Pricing

  /** A `saved_carts` row as the database returns it (its `created_at` clock
      reading is not modelled). */
  datatype DbCart = DbCart(id: string, name: string, items: seq<CartItem>)

  /** The current-cart record kept in local storage. */
  datatype StoredCart = StoredCart(cartItems: seq<CartItem>, promoCode: Option<string>, promoDiscount: real)

  /** `transformDbCartToAppCart`: id, name and lines are copied; the promo is
      always dropped, because the database row carries none. */
  function TransformDbCartToAppCart(dbCart: DbCart): (r: SavedCart)
    ensures r.id == dbCart.id && r.name == dbCart.name && r.items == dbCart.items
    ensures r.promoCode == None && r.promoDiscount == 0.0
  {
    SavedCart(dbCart.id, dbCart.name, dbCart.items, None, 0.0)
  }

  /** A snapshot that went through the database and back keeps its lines but
      loses any promo it had. */
  lemma DatabaseRoundTripDropsPromo(snapshot: SavedCart)
    ensures var back := TransformDbCartToAppCart(DbCart(snapshot.id, snapshot.name, snapshot.items));
            back.items == snapshot.items && back.id == snapshot.id &&
            (back == snapshot <==> snapshot.promoCode == None && snapshot.promoDiscount == 0.0)
  {
  }

  /** `createLocalSavedCart`, with the generated id passed in. */
  function CreateLocalSavedCart(cartItems: seq<CartItem>, promoCode: Option<string>, promoDiscount: real,
                                cartName: string, newId: string): (r: SavedCart)
    ensures r.items == cartItems && r.name == cartName && r.id == newId
    ensures r.promoCode == promoCode && r.promoDiscount == promoDiscount
  {
    SavedCart(newId, cartName, cartItems, promoCode, promoDiscount)
  }

  /** `handlePromoCode`: exactly the pricing rule's verdict. */
  function HandlePromoCode(code: string, cartTotal: real): (r: PromoCodeResult)
    ensures r == Pricing.ApplyPromoCode(code, cartTotal)
  {
    Pricing.ApplyPromoCode(code, cartTotal)
  }

  /** What `saveCartToLocalStorage` writes. */
  function SaveCartToLocalStorage(cartItems: seq<CartItem>, promoCode: Option<string>, promoDiscount: real): StoredCart
  {
    StoredCart(cartItems, promoCode, promoDiscount)
  }

  /** `loadCartFromLocalStorage`, given what storage holds (`None` when nothing
      is stored or it cannot be read): the stored record, or an empty cart. */
  function LoadCartFromLocalStorage(stored: Option<StoredCart>): (r: StoredCart)
    ensures stored.None? ==> r == StoredCart([], None, 0.0)
    ensures stored.Some? ==> r == stored.value
  {
    match stored
    case Some(data) => data
    case None => StoredCart([], None, 0.0)
  }

  /** Loading what was saved gives back the same lines and promo state. */
  lemma LocalStorageRoundTrip(cartItems: seq<CartItem>, promoCode: Option<string>, promoDiscount: real)
    ensures LoadCartFromLocalStorage(Some(SaveCartToLocalStorage(cartItems, promoCode, promoDiscount))) ==
            StoredCart(cartItems, promoCode, promoDiscount)
  {
  }
}
