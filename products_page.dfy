/**
 * The storefront page (app/products/page.jsx): adding to the cart needs a
 * session, signing out empties the cart, and the header badge shows how
 * many lines the cart has. The session is an abstract flag.
 */
module ProductsPage {
  import opened Wrappers
  import opened CartContext

  /** The badge on the Cart button: shown only for a non-empty cart, with the number of lines (not units). */
  function CartBadge(cart: seq<Item>): (r: Option<int>)
    ensures r.Some? <==> |cart| > 0
    ensures r.Some? ==> r.value == |cart|
  {
    if |cart| > 0 then Some(|cart|) else None
  }

  /** Adding a product already in the cart adds a unit but leaves the badge as it was. */
  lemma BadgeCountsLines(cart: seq<Item>, product: Product, k: nat)
    requires k < |cart| && ItemId(cart[k]) == product.id
    ensures var r := Reduce(cart, AddToCart(product, 1));
      CartBadge(r) == CartBadge(cart) && TotalQuantity(r) == TotalQuantity(cart) + 1
  {
    var j := FindIndex(cart, product.id);
    AddExisting(cart, product, 1, j);
    AddTotal(cart, product, 1);
  }

  class ProductsPage {
    /** The shared cart (`useCart()`). */
    const store: CartProvider
    /** Whether `useSession()` has a session. */
    var session: bool
    var showSignInModal: bool
    var showSignOutModal: bool
    /** `addedToCart`: the product whose button flashes "Added!". */
    var addedToCart: Option<int>

    constructor (store: CartProvider, session: bool)
      ensures this.store == store && this.session == session
      ensures !showSignInModal && !showSignOutModal && addedToCart == None
    {
      this.store := store;
      this.session := session;
      showSignInModal := false;
      showSignOutModal := false;
      addedToCart := None;
    }

    /**
     * `addToCart(product)`: without a session, open the sign-in prompt and
     * dispatch nothing; with one, ADD_TO_CART one unit and flash the button.
     */
    method AddToCart(product: Product)
      requires store.Valid()
      modifies this, store
      ensures store.Valid()
      ensures session == old(session) && showSignOutModal == old(showSignOutModal)
      ensures !session ==>
        && showSignInModal && addedToCart == old(addedToCart)
        && store.cart == old(store.cart) && store.storage == old(store.storage)
      ensures session ==>
        && showSignInModal == old(showSignInModal) && addedToCart == Some(product.id)
        && store.cart == Reduce(old(store.cart), Action.AddToCart(product, 1))
        && store.storage == old(store.storage)[StorageKey := store.serialize(store.cart)]
      ensures WellFormed(old(store.cart)) ==> WellFormed(store.cart)
    {
      if !session {
        showSignInModal := true;
        return;
      }
      if WellFormed(store.cart) {
        ReduceKeepsWellFormed(store.cart, Action.AddToCart(product, 1));
      }
      store.Dispatch(Action.AddToCart(product, 1));
      addedToCart := Some(product.id);
    }

    /** `handleSignOut()`: ask for confirmation. */
    method HandleSignOut()
      modifies this
      ensures showSignOutModal
      ensures session == old(session) && showSignInModal == old(showSignInModal) && addedToCart == old(addedToCart)
    {
      showSignOutModal := true;
    }

    /** `confirmSignOut()`: CLEAR_CART, end the session, close the prompt. */
    method ConfirmSignOut()
      requires store.Valid()
      modifies this, store
      ensures store.Valid()
      ensures store.cart == [] && store.storage == old(store.storage)[StorageKey := store.serialize([])]
      ensures !session && !showSignOutModal
      ensures showSignInModal == old(showSignInModal) && addedToCart == old(addedToCart)
    {
      store.Dispatch(ClearCart);
      session := false;
      showSignOutModal := false;
    }
  }
}
