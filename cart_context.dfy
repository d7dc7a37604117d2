/**
 * The client-side cart (app/context/CartContext.js): the reducer that turns
 * a cart command into the next cart, and the provider that owns the cart,
 * hydrates it from the browser's key/value storage once and writes it back
 * after every change.
 */
module CartContext {
  import opened Wrappers
  import Listing

  /**
   * A catalogue product as the storefront receives it. The price is a whole
   * number of cents: every field is then finite data, which a text encoding
   * such as JSON can carry without loss.
   */
  datatype Product = Product(
    id: int,
    name: string,
    description: string,
    price: int,
    imageUrl: string,
    category: string,
    stock: int)

  /** A cart line: the product's fields copied when it was added, plus a quantity. */
  datatype Item = Item(product: Product, quantity: int)

  /** `item.id` */
  function ItemId(item: Item): int {
    item.product.id
  }

  /** The command objects passed to `dispatch`, by their `type`. */
  datatype Action =
    | AddToCart(product: Product, quantity: int)
    | UpdateCart(productId: int, quantity: int)
    | RemoveFromCart(productId: int)
    | SetCart(cart: seq<Item>)
    | ClearCart
    | Unknown(kind: string)

  /** `state.findIndex((item) => item.id === id)`: the first line with that id, or -1. */
  function FindIndex(s: seq<Item>, id: int): (k: int)
    ensures -1 <= k < |s|
    ensures k == -1 <==> forall i :: 0 <= i < |s| ==> ItemId(s[i]) != id
    ensures k >= 0 ==> ItemId(s[k]) == id && forall i :: 0 <= i < k ==> ItemId(s[i]) != id
  {
    if s == [] then -1
    else if ItemId(s[0]) == id then 0
    else
      var k := FindIndex(s[1..], id);
      if k == -1 then -1 else k + 1
  }

  /** ADD_TO_CART: merge into the first line with the product's id, or append a new line. */
  function Add(s: seq<Item>, product: Product, quantity: int): (r: seq<Item>)
    ensures FindIndex(r, product.id) >= 0
    ensures |s| <= |r| <= |s| + 1
    ensures FindIndex(s, product.id) >= 0 ==> |r| == |s|
  {
    var k := FindIndex(s, product.id);
    if k >= 0 then
      var r := s[k := s[k].(quantity := s[k].quantity + quantity)];
      assert ItemId(r[k]) == product.id;
      r
    else
      var r := s + [Item(product, quantity)];
      assert ItemId(r[|s|]) == product.id;
      r
  }

  /** UPDATE_CART: every line with the id gets the new quantity; nothing else changes. */
  function Update(s: seq<Item>, id: int, quantity: int): (r: seq<Item>)
    ensures |r| == |s|
    ensures forall i :: 0 <= i < |s| ==>
      r[i] == if ItemId(s[i]) == id then s[i].(quantity := quantity) else s[i]
  {
    if s == [] then []
    else
      [if ItemId(s[0]) == id then s[0].(quantity := quantity) else s[0]]
      + Update(s[1..], id, quantity)
  }

  /** REMOVE_FROM_CART: drop every line with the id. */
  function Remove(s: seq<Item>, id: int): (r: seq<Item>)
    ensures FindIndex(r, id) == -1
    ensures |r| <= |s|
  {
    Listing.Without(s, ItemId, id)
  }

  /** `cartReducer(state, action)` */
  function Reduce(s: seq<Item>, a: Action): (r: seq<Item>)
    ensures a.AddToCart? ==> FindIndex(r, a.product.id) >= 0
    ensures a.RemoveFromCart? ==> FindIndex(r, a.productId) == -1
    ensures a.UpdateCart? ==> |r| == |s|
    ensures a.Unknown? ==> r == s
  {
    match a
    case AddToCart(p, q) => Add(s, p, q)
    case UpdateCart(id, q) => Update(s, id, q)
    case RemoveFromCart(id) => Remove(s, id)
    case SetCart(c) => c
    case ClearCart => []
    case Unknown(_) => s
  }

  /** Applies a stream of commands in order, as the provider does one dispatch at a time. */
  function ReduceAll(s: seq<Item>, actions: seq<Action>): (r: seq<Item>)
    ensures |actions| > 0 && actions[|actions| - 1].ClearCart? ==> r == []
    ensures (forall i :: 0 <= i < |actions| ==> actions[i].Unknown?) ==> r == s
    decreases |actions|
  {
    if actions == [] then s else ReduceAll(Reduce(s, actions[0]), actions[1..])
  }

  /** No product occurs on two lines. */
  ghost predicate DistinctIds(s: seq<Item>) {
    Listing.DistinctKeys(s, ItemId)
  }

  /** Every line holds at least one unit. */
  predicate AllPositive(s: seq<Item>) {
    forall i :: 0 <= i < |s| ==> s[i].quantity >= 1
  }

  /** The cart invariant: one line per product, and each with a positive quantity. */
  ghost predicate WellFormed(s: seq<Item>) {
    DistinctIds(s) && AllPositive(s)
  }

  /** The ids present in the cart. */
  ghost function Ids(s: seq<Item>): set<int> {
    set i | 0 <= i < |s| :: ItemId(s[i])
  }

  /** Total number of units over all lines. */
  function TotalQuantity(s: seq<Item>): int {
    if s == [] then 0 else s[0].quantity + TotalQuantity(s[1..])
  }

  /** The commands the storefront's own callers issue: positive quantities, and well-formed replacement carts. */
  ghost predicate Guarded(a: Action) {
    match a
    case AddToCart(_, q) => q >= 1
    case UpdateCart(_, q) => q >= 1
    case SetCart(c) => WellFormed(c)
    case _ => true
  }

  // ---------------------------------------------------------------- ADD_TO_CART

  /** Adding a product already in the cart raises the quantity of its (first) line by the amount; length and every other line stay. */
  lemma AddExisting(s: seq<Item>, product: Product, quantity: int, k: nat)
    requires k < |s| && ItemId(s[k]) == product.id
    requires forall i :: 0 <= i < k ==> ItemId(s[i]) != product.id
    ensures var r := Reduce(s, AddToCart(product, quantity));
      && |r| == |s|
      && r[k] == s[k].(quantity := s[k].quantity + quantity)
      && (forall i :: 0 <= i < |s| && i != k ==> r[i] == s[i])
  {
  }

  /** Adding a product not in the cart appends one new line at the end, carrying the product's fields and the amount. */
  lemma AddAbsent(s: seq<Item>, product: Product, quantity: int)
    requires forall i :: 0 <= i < |s| ==> ItemId(s[i]) != product.id
    ensures Reduce(s, AddToCart(product, quantity)) == s + [Item(product, quantity)]
  {
  }

  lemma {:induction false} TotalQuantityAppend(a: seq<Item>, b: seq<Item>)
    ensures TotalQuantity(a + b) == TotalQuantity(a) + TotalQuantity(b)
  {
    if a != [] {
      assert (a + b)[0] == a[0] && (a + b)[1..] == a[1..] + b;
      TotalQuantityAppend(a[1..], b);
    } else {
      assert a + b == b;
    }
  }

  lemma {:induction false} TotalQuantityAt(s: seq<Item>, k: nat, q: int)
    requires k < |s|
    ensures TotalQuantity(s[k := s[k].(quantity := q)]) == TotalQuantity(s) - s[k].quantity + q
  {
    var t := s[k := s[k].(quantity := q)];
    if k > 0 {
      assert t[1..] == s[1..][k - 1 := s[k].(quantity := q)];
      TotalQuantityAt(s[1..], k - 1, q);
    } else {
      assert t[1..] == s[1..];
    }
  }

  /** Whichever way ADD_TO_CART goes, the cart holds exactly `quantity` more units. */
  lemma AddTotal(s: seq<Item>, product: Product, quantity: int)
    ensures TotalQuantity(Reduce(s, AddToCart(product, quantity))) == TotalQuantity(s) + quantity
  {
    var k := FindIndex(s, product.id);
    if k >= 0 {
      TotalQuantityAt(s, k, s[k].quantity + quantity);
    } else {
      TotalQuantityAppend(s, [Item(product, quantity)]);
      assert [Item(product, quantity)][1..] == [];
    }
  }

  /** Adding the same new product twice leaves one line whose quantity is the sum. */
  lemma AddTwice(s: seq<Item>, product: Product, q1: int, q2: int)
    requires forall i :: 0 <= i < |s| ==> ItemId(s[i]) != product.id
    ensures Reduce(Reduce(s, AddToCart(product, q1)), AddToCart(product, q2))
         == s + [Item(product, q1 + q2)]
  {
    AddAbsent(s, product, q1);
    AddExisting(s + [Item(product, q1)], product, q2, |s|);
  }

  /** The ids in the cart after ADD_TO_CART are the ids before plus the product's. */
  lemma AddIds(s: seq<Item>, product: Product, quantity: int)
    ensures Ids(Reduce(s, AddToCart(product, quantity))) == Ids(s) + {product.id}
  {
    var r := Reduce(s, AddToCart(product, quantity));
    var k := FindIndex(s, product.id);
    if k >= 0 {
      forall x | x in Ids(s) ensures x in Ids(r) {
        var i :| 0 <= i < |s| && ItemId(s[i]) == x;
        assert ItemId(r[i]) == x;
      }
      assert ItemId(r[k]) == product.id;
    } else {
      forall x | x in Ids(s) ensures x in Ids(r) {
        var i :| 0 <= i < |s| && ItemId(s[i]) == x;
        assert ItemId(r[i]) == x;
      }
      assert ItemId(r[|s|]) == product.id;
    }
  }

  // ---------------------------------------------------------------- UPDATE_CART

  /** UPDATE_CART with an id no line has leaves the cart as it was. */
  lemma UpdateAbsent(s: seq<Item>, id: int, quantity: int)
    requires forall i :: 0 <= i < |s| ==> ItemId(s[i]) != id
    ensures Reduce(s, UpdateCart(id, quantity)) == s
  {
  }

  // ---------------------------------------------------------------- REMOVE_FROM_CART

  /** After REMOVE_FROM_CART no line has the id, and every other line is still there. */
  lemma RemoveExact(s: seq<Item>, id: int)
    ensures var r := Reduce(s, RemoveFromCart(id));
      && (forall i :: 0 <= i < |r| ==> ItemId(r[i]) != id)
      && (forall x :: x in s && ItemId(x) != id ==> x in r)
      && (forall x :: x in r ==> x in s)
  {
  }

  /** REMOVE_FROM_CART keeps the remaining lines in their order: removing from a concatenation removes from each part. */
  lemma RemoveKeepsOrder(a: seq<Item>, b: seq<Item>, id: int)
    ensures Reduce(a + b, RemoveFromCart(id))
         == Reduce(a, RemoveFromCart(id)) + Reduce(b, RemoveFromCart(id))
  {
    Listing.WithoutAppend(a, b, ItemId, id);
  }

  /** Removing twice is removing once; removing an absent id changes nothing. */
  lemma RemoveIdempotent(s: seq<Item>, id: int)
    ensures var r := Reduce(s, RemoveFromCart(id));
      Reduce(r, RemoveFromCart(id)) == r
    ensures (forall i :: 0 <= i < |s| ==> ItemId(s[i]) != id) ==> Reduce(s, RemoveFromCart(id)) == s
  {
    Listing.WithoutIdempotent(s, ItemId, id);
  }

  // ---------------------------------------------------------------- SET_CART, CLEAR_CART, default

  /** SET_CART replaces the cart, CLEAR_CART empties it and an unknown command leaves it. */
  lemma OtherCommands(s: seq<Item>, c: seq<Item>, kind: string)
    ensures Reduce(s, SetCart(c)) == c
    ensures Reduce(s, ClearCart) == []
    ensures Reduce(s, Unknown(kind)) == s
  {
  }

  // ---------------------------------------------------------------- invariants

  /** Every command but SET_CART keeps the ids distinct, because ADD_TO_CART merges by id. */
  lemma ReduceKeepsDistinct(s: seq<Item>, a: Action)
    requires DistinctIds(s) && !a.SetCart?
    ensures DistinctIds(Reduce(s, a))
  {
    var r := Reduce(s, a);
    match a
    case AddToCart(p, q) =>
      var k := FindIndex(s, p.id);
      forall i, j | 0 <= i < j < |r| ensures ItemId(r[i]) != ItemId(r[j]) {
        if j == |s| {
          assert ItemId(r[i]) == ItemId(s[i]);
        } else {
          assert ItemId(r[i]) == ItemId(s[i]) && ItemId(r[j]) == ItemId(s[j]);
        }
      }
    case UpdateCart(id, q) =>
      forall i, j | 0 <= i < j < |r| ensures ItemId(r[i]) != ItemId(r[j]) {
        assert ItemId(r[i]) == ItemId(s[i]) && ItemId(r[j]) == ItemId(s[j]);
      }
    case RemoveFromCart(id) =>
      Listing.WithoutKeepsDistinct(s, ItemId, id);
    case ClearCart =>
    case Unknown(_) =>
  }

  /** The storefront's guarded commands keep the cart well formed. */
  lemma ReduceKeepsWellFormed(s: seq<Item>, a: Action)
    requires WellFormed(s) && Guarded(a)
    ensures WellFormed(Reduce(s, a))
  {
    if !a.SetCart? {
      ReduceKeepsDistinct(s, a);
    }
    if a.RemoveFromCart? {
      var r := Reduce(s, a);
      forall i | 0 <= i < |r| ensures r[i].quantity >= 1 {
        assert r[i] in s;
      }
    }
  }

  /** Across a whole stream of guarded commands the cart stays well formed. */
  lemma {:induction false} ReduceAllKeepsWellFormed(s: seq<Item>, actions: seq<Action>)
    requires WellFormed(s)
    requires forall i :: 0 <= i < |actions| ==> Guarded(actions[i])
    ensures WellFormed(ReduceAll(s, actions))
    decreases |actions|
  {
    if actions != [] {
      ReduceKeepsWellFormed(s, actions[0]);
      ReduceAllKeepsWellFormed(Reduce(s, actions[0]), actions[1..]);
    }
  }

  // ---------------------------------------------------------------- persistence

  /** The storage slot the cart lives under. */
  const StorageKey: string := "cart"

  /**
   * `JSON.stringify` and `JSON.parse` as far as the cart needs them: parsing
   * what was serialised gives the cart back, and a serialised cart is never
   * the empty string (an empty cart is `"[]"`).
   */
  ghost predicate Codec(serialize: seq<Item> -> string, parse: string -> seq<Item>) {
    forall c :: parse(serialize(c)) == c && serialize(c) != ""
  }

  /** The cart the mount effect restores from the storage: the parsed saved value if there is a non-empty one, else the initial `[]`. */
  function Hydrate(storage: map<string, string>, parse: string -> seq<Item>): (r: seq<Item>)
    ensures StorageKey !in storage || storage[StorageKey] == "" ==> r == []
    ensures StorageKey in storage && storage[StorageKey] != "" ==> r == parse(storage[StorageKey])
  {
    if StorageKey in storage && storage[StorageKey] != "" then Reduce([], SetCart(parse(storage[StorageKey])))
    else []
  }

  /** Hydrating from the storage as the provider last wrote it gives back the cart it wrote. */
  lemma HydrateAfterPersist(storage: map<string, string>, c: seq<Item>,
                            serialize: seq<Item> -> string, parse: string -> seq<Item>)
    requires Codec(serialize, parse)
    ensures Hydrate(storage[StorageKey := serialize(c)], parse) == c
  {
  }

  /** `CartProvider`: the cart state plus the browser storage it persists to. */
  class CartProvider {
    var cart: seq<Item>
    var storage: map<string, string>
    const serialize: seq<Item> -> string
    const parse: string -> seq<Item>

    /** The storage slot holds the serialised current cart. */
    ghost predicate Valid()
      reads this
    {
      Codec(serialize, parse) && StorageKey in storage && storage[StorageKey] == serialize(cart)
    }

    /**
     * Mounting the provider: the reducer starts at `[]`; then the effects of
     * the first render run in order: the hydration effect reads the saved
     * value (and queues SET_CART), and the persistence effect writes that
     * render's cart, `[]`. The queued SET_CART re-renders and the
     * persistence effect writes the hydrated cart.
     */
    constructor Mount(saved: map<string, string>, serialize: seq<Item> -> string, parse: string -> seq<Item>)
      requires Codec(serialize, parse)
      ensures Valid()
      ensures this.serialize == serialize && this.parse == parse
      ensures cart == Hydrate(saved, parse)
      ensures storage == saved[StorageKey := serialize(cart)]
    {
      var state: seq<Item> := [];
      var slots := saved;
      var savedCart := if StorageKey in slots then Some(slots[StorageKey]) else None;
      slots := slots[StorageKey := serialize(state)];
      if savedCart.Some? && savedCart.value != "" {
        state := Reduce(state, SetCart(parse(savedCart.value)));
        slots := slots[StorageKey := serialize(state)];
      }
      this.serialize := serialize;
      this.parse := parse;
      cart := state;
      storage := slots;
    }

    /** `dispatch(action)`: reduce, then persist the new cart. */
    method Dispatch(a: Action)
      requires Valid()
      modifies this
      ensures Valid()
      ensures cart == Reduce(old(cart), a)
      ensures storage == old(storage)[StorageKey := serialize(cart)]
    {
      cart := Reduce(cart, a);
      storage := storage[StorageKey := serialize(cart)];
    }
  }
}
