/**
 * The cart page (app/cart/page.js): a per-product buffer of what the user
 * typed into each quantity box, the commit that turns a buffered value into
 * UPDATE_CART, and the remove button.
 */
module CartPage {
  import opened Wrappers
  import opened JsNumbers
  import opened CartContext

  /** What a quantity box displays: the typed text, or the committed quantity. */
  datatype Shown = Typed(text: string) | Committed(quantity: int)

  /** The page body: the empty-cart message, or one quantity box per cart line. */
  datatype CartView = EmptyCart | Lines(boxes: seq<Shown>)

  /** `updatedQuantities[item.id] || item.quantity` */
  function ShownQuantity(buffer: map<int, string>, item: Item): (r: Shown)
    ensures r.Typed? <==> ItemId(item) in buffer && buffer[ItemId(item)] != ""
    ensures r.Typed? ==> r.text == buffer[ItemId(item)]
    ensures r.Committed? ==> r.quantity == item.quantity
  {
    if ItemId(item) in buffer && buffer[ItemId(item)] != "" then Typed(buffer[ItemId(item)])
    else Committed(item.quantity)
  }

  /** `cart.length === 0 ? <empty message> : cart.map(...)` */
  function Render(cart: seq<Item>, buffer: map<int, string>): (v: CartView)
    ensures v.EmptyCart? <==> |cart| == 0
    ensures v.Lines? ==>
      && |v.boxes| == |cart|
      && (forall i :: 0 <= i < |cart| ==> v.boxes[i] == ShownQuantity(buffer, cart[i]))
  {
    if |cart| == 0 then EmptyCart
    else Lines(seq(|cart|, i requires 0 <= i < |cart| => ShownQuantity(buffer, cart[i])))
  }

  /** The quantity `updateQuantity(id)` commits: the parsed buffered text, when that is a number above 0. */
  function CommittedQuantity(buffer: map<int, string>, id: int): (r: Option<int>)
    ensures r.Some? ==> r.value >= 1 && id in buffer && ParseInt(buffer[id]) == r
    ensures r.None? <==> id !in buffer || ParseInt(buffer[id]).None? || ParseInt(buffer[id]).value <= 0
  {
    var quantity := if id in buffer then ParseInt(buffer[id]) else None;
    if quantity.Some? && quantity.value > 0 then quantity else None
  }

  /** Typing a positive number and committing it sets exactly that quantity. */
  lemma CommitTypedNumber(buffer: map<int, string>, id: int, n: int)
    requires n >= 1
    ensures CommittedQuantity(buffer[id := IntToString(n)], id) == Some(n)
  {
    ParseIntOfIntToString(n);
  }

  /** Typing zero or a negative number commits nothing. */
  lemma CommitRejectsNonPositive(buffer: map<int, string>, id: int, n: int)
    requires n <= 0
    ensures CommittedQuantity(buffer[id := IntToString(n)], id) == None
  {
    ParseIntOfIntToString(n);
  }

  /** Whatever the buffer holds, a commit keeps the cart well formed: only positive quantities get through. */
  lemma CommitKeepsWellFormed(cart: seq<Item>, buffer: map<int, string>, id: int)
    requires WellFormed(cart)
    ensures var q := CommittedQuantity(buffer, id);
      q.Some? ==> WellFormed(Reduce(cart, UpdateCart(id, q.value)))
  {
    var q := CommittedQuantity(buffer, id);
    if q.Some? {
      ReduceKeepsWellFormed(cart, UpdateCart(id, q.value));
    }
  }

  class CartPage {
    /** The shared cart (`useCart()`). */
    const store: CartProvider
    /** `updatedQuantities`: product id to the text typed in its box. */
    var updatedQuantities: map<int, string>

    constructor (store: CartProvider)
      ensures this.store == store && updatedQuantities == map[]
    {
      this.store := store;
      updatedQuantities := map[];
    }

    /** `handleQuantityChange(productId, quantity)`: record the typed text for that product only. */
    method HandleQuantityChange(productId: int, quantity: string)
      modifies this
      ensures updatedQuantities == old(updatedQuantities)[productId := quantity]
    {
      updatedQuantities := updatedQuantities[productId := quantity];
    }

    /** `updateQuantity(productId)`: dispatch UPDATE_CART only for a parsed quantity above 0. */
    method UpdateQuantity(productId: int)
      requires store.Valid()
      modifies store
      ensures store.Valid()
      ensures match CommittedQuantity(updatedQuantities, productId)
        case Some(q) =>
          && store.cart == Reduce(old(store.cart), UpdateCart(productId, q))
          && store.storage == old(store.storage)[StorageKey := store.serialize(store.cart)]
        case None => store.cart == old(store.cart) && store.storage == old(store.storage)
      ensures WellFormed(old(store.cart)) ==> WellFormed(store.cart)
    {
      if WellFormed(store.cart) {
        CommitKeepsWellFormed(store.cart, updatedQuantities, productId);
      }
      var quantity := if productId in updatedQuantities then ParseInt(updatedQuantities[productId]) else None;
      if quantity.Some? && quantity.value > 0 {
        store.Dispatch(UpdateCart(productId, quantity.value));
      }
    }

    /** `removeFromCart(productId)`: one REMOVE_FROM_CART for that id. */
    method RemoveFromCart(productId: int)
      requires store.Valid()
      modifies store
      ensures store.Valid()
      ensures store.cart == Reduce(old(store.cart), Action.RemoveFromCart(productId))
      ensures store.storage == old(store.storage)[StorageKey := store.serialize(store.cart)]
      ensures forall i :: 0 <= i < |store.cart| ==> ItemId(store.cart[i]) != productId
      ensures WellFormed(old(store.cart)) ==> WellFormed(store.cart)
    {
      if WellFormed(store.cart) {
        ReduceKeepsWellFormed(store.cart, Action.RemoveFromCart(productId));
      }
      store.Dispatch(Action.RemoveFromCart(productId));
    }
  }
}
