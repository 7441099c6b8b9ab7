/** The cart store of js/modules/cart.js: an ordered list of line items,
    each a snapshot of a catalogue record plus a quantity, changed in place
    by the CartManager and written to local storage after every change. */
module Cart {
  import opened Common
  import opened Catalogue
  import opened Storage

  /** The storage key the cart is written under. */
  const CartKey: string := "noonOpticals_cart"

  /** A line item `{...product, qty}`: the product's fields copied at the
      moment it was added, and how many of it are in the cart. */
  datatype Line = Line(product: Product, qty: int)

  /** The `cartKey` field: undefined until the constructor assigns it. */
  datatype KeySlot = Undefined | Assigned(key: string)

  /** The storage key a `KeySlot` names: local storage turns an undefined
      key into the text "undefined". */
  function KeyText(k: KeySlot): string
  {
    match k
    case Undefined => "undefined"
    case Assigned(s) => s
  }

  /** The cart's invariants: no two lines for the same product, and every
      quantity at least 1. */
  predicate WellFormed(cart: seq<Line>)
  {
    && (forall i, j :: 0 <= i < j < |cart| ==> cart[i].product.id != cart[j].product.id)
    && (forall i :: 0 <= i < |cart| ==> cart[i].qty >= 1)
  }

  /** `cart.find(item => item.id === id)`, as the position of the first line
      with that id. */
  function FindLine(cart: seq<Line>, id: int): (r: Option<nat>)
    ensures r.Some? ==> r.value < |cart| && cart[r.value].product.id == id
    ensures r.Some? ==> forall j :: 0 <= j < r.value ==> cart[j].product.id != id
    ensures r.None? <==> forall j :: 0 <= j < |cart| ==> cart[j].product.id != id
  {
    if cart == [] then None
    else if cart[0].product.id == id then Some(0)
    else match FindLine(cart[1..], id)
      case None => None
      case Some(k) => Some(k + 1)
  }

  /** The cart after `addItem(p)`: the line for `p.id` gains one, or a new
      line with quantity 1 is appended. */
  function AddLine(cart: seq<Line>, p: Product): seq<Line>
  {
    match FindLine(cart, p.id)
    case Some(i) => cart[i := cart[i].(qty := cart[i].qty + 1)]
    case None => cart + [Line(p, 1)]
  }

  /** The cart after `removeItem(id)`: `cart.filter(item => item.id !== id)`. */
  function RemoveLines(cart: seq<Line>, id: int): seq<Line>
  {
    if cart == [] then []
    else if cart[0].product.id == id then RemoveLines(cart[1..], id)
    else [cart[0]] + RemoveLines(cart[1..], id)
  }

  /** The cart after `updateQuantity(id, n)`: the line's quantity becomes
      `Math.max(1, n)`; without such a line the cart is unchanged. */
  function SetQuantity(cart: seq<Line>, id: int, n: int): seq<Line>
  {
    match FindLine(cart, id)
    case Some(i) => cart[i := cart[i].(qty := Max(1, n))]
    case None => cart
  }

  /** The price `addItem(p)` adds to the total: the price stored in the
      existing line for `p.id`, or `p`'s own price for a new line. */
  function AddedPrice(cart: seq<Line>, p: Product): int
  {
    match FindLine(cart, p.id)
    case Some(i) => cart[i].product.price
    case None => p.price
  }

  function Subtotal(l: Line): int { l.product.price * l.qty }

  /** `getTotal()`: the reduce of price times quantity, in line order. */
  function Total(cart: seq<Line>): int
  {
    if cart == [] then 0 else Total(cart[..|cart| - 1]) + Subtotal(cart[|cart| - 1])
  }

  /** `getItemCount()`: the reduce of quantities, in line order. */
  function ItemCount(cart: seq<Line>): int
  {
    if cart == [] then 0 else ItemCount(cart[..|cart| - 1]) + cart[|cart| - 1].qty
  }

  /** `loadCart()` reading `key`: the stored list, or the empty cart when
      nothing is stored or the stored text does not parse (the error is
      caught and logged). */
  function LoadCart(entries: map<string, Stored<Line>>, key: string): (r: seq<Line>)
    ensures key !in entries ==> r == []
    ensures key in entries && entries[key].Unparsable? ==> r == []
    ensures key in entries && entries[key].Encoded? ==> r == entries[key].lines
  {
    if key !in entries then []
    else match entries[key]
      case Encoded(lines) => lines
      case Unparsable(_) => []
  }

  /** The storage after `saveCart()`: the whole cart under `cartKey` when
      the write succeeds, the old storage when it throws. */
  function Persisted(entries: map<string, Stored<Line>>, cart: seq<Line>, quotaOk: bool): map<string, Stored<Line>>
  {
    if quotaOk then entries[CartKey := Encoded(cart)] else entries
  }

  /** The cart the constructor starts with, as written: `loadCart()` runs
      before `cartKey` is assigned, so it reads the key "undefined". */
  function InitialCart(entries: map<string, Stored<Line>>): seq<Line>
  {
    LoadCart(entries, KeyText(Undefined))
  }

  /** The cart the constructor evidently means to start with: the one saved
      under `CartKey`. */
  function CorrectedInitialCart(entries: map<string, Stored<Line>>): (r: seq<Line>)
    ensures CartKey in entries && entries[CartKey].Encoded? ==> r == entries[CartKey].lines
    ensures CartKey !in entries || entries[CartKey].Unparsable? ==> r == []
  {
    LoadCart(entries, CartKey)
  }

  /** `window.addToCart(id)`: the cart after adding the catalogue record
      with that id, unless there is none or it is out of stock. */
  function GuardedAdd(cart: seq<Line>, catalogue: seq<Product>, id: int): seq<Line>
  {
    match FindProduct(catalogue, id)
    case Some(p) => if p.inStock then AddLine(cart, p) else cart
    case None => cart
  }

  class CartManager {
    var cart: seq<Line>
    var cartKey: KeySlot
    const store: LocalStorage<Line>

    /** After construction the key is assigned. */
    predicate Valid()
      reads this
    {
      cartKey == Assigned(CartKey)
    }

    /** The constructor as written: `cart` is loaded while `cartKey` is
        still undefined, and only then is the key assigned. */
    constructor (store: LocalStorage<Line>)
      ensures Valid() && this.store == store
      ensures cart == InitialCart(store.entries)
    {
      this.store := store;
      cart := [];
      cartKey := Undefined;
      new;
      cart := LoadCartNow();
      cartKey := Assigned(CartKey);
    }

    /** `loadCart()`: read the cart under the current `cartKey`; never throws. */
    method LoadCartNow() returns (lines: seq<Line>)
      ensures lines == LoadCart(store.entries, KeyText(cartKey))
    {
      var key := KeyText(cartKey);
      if key !in store.entries {
        lines := [];
      } else {
        match store.entries[key]
        case Encoded(saved) => lines := saved;
        case Unparsable(_) => lines := [];
      }
    }

    /** `saveCart()`: write the whole cart; a failed write is caught and
        the in-memory cart stays as it is. */
    method SaveCart(quotaOk: bool)
      requires Valid()
      modifies store
      ensures store.entries == Persisted(old(store.entries), cart, quotaOk)
    {
      var written := store.SetItem(KeyText(cartKey), Encoded(cart), quotaOk);
    }

    /** `addItem(product)`. */
    method AddItem(product: Product, quotaOk: bool)
      requires Valid()
      modifies this, store
      ensures Valid()
      ensures cart == AddLine(old(cart), product)
      ensures store.entries == Persisted(old(store.entries), cart, quotaOk)
      ensures WellFormed(old(cart)) ==> WellFormed(cart)
      ensures ItemCount(cart) == ItemCount(old(cart)) + 1
    {
      var existing := FindLine(cart, product.id);
      match existing {
        case Some(i) =>
          cart := cart[i := cart[i].(qty := cart[i].qty + 1)];
        case None =>
          cart := cart + [Line(product, 1)];
      }
      AddLineCountAndTotal(old(cart), product);
      if WellFormed(old(cart)) {
        AddLinePreservesWellFormed(old(cart), product);
      }
      SaveCart(quotaOk);
    }

    /** `removeItem(productId)`. */
    method RemoveItem(productId: int, quotaOk: bool)
      requires Valid()
      modifies this, store
      ensures Valid()
      ensures cart == RemoveLines(old(cart), productId)
      ensures store.entries == Persisted(old(store.entries), cart, quotaOk)
      ensures WellFormed(old(cart)) ==> WellFormed(cart)
    {
      cart := RemoveLines(cart, productId);
      if WellFormed(old(cart)) {
        RemoveLinesPreservesWellFormed(old(cart), productId);
      }
      SaveCart(quotaOk);
    }

    /** `updateQuantity(productId, quantity)`: nothing is written when the
        cart has no line for the id. */
    method UpdateQuantity(productId: int, quantity: int, quotaOk: bool)
      requires Valid()
      modifies this, store
      ensures Valid()
      ensures cart == SetQuantity(old(cart), productId, quantity)
      ensures FindLine(old(cart), productId).Some? ==>
        store.entries == Persisted(old(store.entries), cart, quotaOk)
      ensures FindLine(old(cart), productId).None? ==> store.entries == old(store.entries)
      ensures WellFormed(old(cart)) ==> WellFormed(cart)
    {
      var item := FindLine(cart, productId);
      if item.Some? {
        var i := item.value;
        cart := cart[i := cart[i].(qty := Max(1, quantity))];
        SaveCart(quotaOk);
      }
      if WellFormed(old(cart)) {
        SetQuantityPreservesWellFormed(old(cart), productId, quantity);
      }
    }

    /** `clearCart()`. */
    method ClearCart(quotaOk: bool)
      requires Valid()
      modifies this, store
      ensures Valid()
      ensures cart == [] && Total(cart) == 0 && ItemCount(cart) == 0
      ensures store.entries == Persisted(old(store.entries), [], quotaOk)
    {
      cart := [];
      SaveCart(quotaOk);
    }

    /** `getTotal()`: never negative while prices and quantities are not. */
    function GetTotal(): (t: int)
      reads this
      ensures (forall i :: 0 <= i < |cart| ==> cart[i].product.price >= 0 && cart[i].qty >= 0) ==> t >= 0
    {
      TotalNonNegative(cart);
      Total(cart)
    }

    /** `getItemCount()`: in a well-formed cart, at least one per line. */
    function GetItemCount(): (n: int)
      reads this
      ensures WellFormed(cart) ==> n >= |cart|
    {
      if WellFormed(cart) then ItemCountAtLeastLines(cart); ItemCount(cart) else ItemCount(cart)
    }
  }

  /** `window.addToCart(productId)`: look the id up in the catalogue and add
      it only when it exists and is in stock; otherwise nothing happens,
      not even a write. */
  method WindowAddToCart(manager: CartManager, catalogue: seq<Product>, productId: int, quotaOk: bool)
    requires manager.Valid()
    modifies manager, manager.store
    ensures manager.Valid()
    ensures manager.cart == GuardedAdd(old(manager.cart), catalogue, productId)
    ensures (FindProduct(catalogue, productId).None? || !FindProduct(catalogue, productId).value.inStock) ==>
      manager.cart == old(manager.cart) && manager.store.entries == old(manager.store.entries)
    ensures (FindProduct(catalogue, productId).Some? && FindProduct(catalogue, productId).value.inStock) ==>
      manager.store.entries == Persisted(old(manager.store.entries), manager.cart, quotaOk)
  {
    var product := FindProduct(catalogue, productId);
    if product.Some? && product.value.inStock {
      manager.AddItem(product.value, quotaOk);
    }
  }

  // ---------------------------------------------------------------------
  // Properties of the line-list operations

  /** Changing one line changes the total by the difference of its
      subtotals and the item count by the difference of its quantities. */
  lemma {:induction false} UpdateAt(cart: seq<Line>, i: nat, l: Line)
    requires i < |cart|
    ensures Total(cart[i := l]) == Total(cart) - Subtotal(cart[i]) + Subtotal(l)
    ensures ItemCount(cart[i := l]) == ItemCount(cart) - cart[i].qty + l.qty
  {
    var n := |cart|;
    if i < n - 1 {
      assert cart[i := l][..n - 1] == cart[..n - 1][i := l];
      UpdateAt(cart[..n - 1], i, l);
    } else {
      assert cart[i := l][..n - 1] == cart[..n - 1];
    }
  }

  /** Appending a line adds its subtotal and its quantity. */
  lemma AppendLine(cart: seq<Line>, l: Line)
    ensures Total(cart + [l]) == Total(cart) + Subtotal(l)
    ensures ItemCount(cart + [l]) == ItemCount(cart) + l.qty
  {
    assert (cart + [l])[..|cart|] == cart;
  }

  /** `addItem` on an id already in the cart raises that line's quantity by
      one and changes nothing else; in particular the line keeps the
      price, name and image it was added with. On a new id it appends a
      fresh line with quantity 1 and leaves the earlier lines alone. */
  lemma AddLineEffect(cart: seq<Line>, p: Product)
    ensures FindLine(cart, p.id).Some? ==>
      var i := FindLine(cart, p.id).value;
      && |AddLine(cart, p)| == |cart|
      && AddLine(cart, p)[i].product == cart[i].product
      && AddLine(cart, p)[i].qty == cart[i].qty + 1
      && forall j :: 0 <= j < |cart| && j != i ==> AddLine(cart, p)[j] == cart[j]
    ensures FindLine(cart, p.id).None? ==>
      && (forall j :: 0 <= j < |cart| ==> cart[j].product.id != p.id)
      && AddLine(cart, p)[..|cart|] == cart
      && AddLine(cart, p)[|cart|..] == [Line(p, 1)]
  {
  }

  /** After `addItem` the item count has grown by exactly one and the total
      by the price stored in the affected line. */
  lemma AddLineCountAndTotal(cart: seq<Line>, p: Product)
    ensures ItemCount(AddLine(cart, p)) == ItemCount(cart) + 1
    ensures Total(AddLine(cart, p)) == Total(cart) + AddedPrice(cart, p)
  {
    var found := FindLine(cart, p.id);
    if found.Some? {
      var i := found.value;
      UpdateAt(cart, i, cart[i].(qty := cart[i].qty + 1));
    } else {
      AppendLine(cart, Line(p, 1));
    }
  }

  lemma AddLinePreservesWellFormed(cart: seq<Line>, p: Product)
    requires WellFormed(cart)
    ensures WellFormed(AddLine(cart, p))
  {
  }

  /** `removeItem` keeps exactly the lines with other ids. */
  lemma {:induction false} RemoveLinesMembers(cart: seq<Line>, id: int)
    ensures |RemoveLines(cart, id)| <= |cart|
    ensures forall l :: l in RemoveLines(cart, id) <==> l in cart && l.product.id != id
  {
    if cart != [] {
      RemoveLinesMembers(cart[1..], id);
      assert cart == [cart[0]] + cart[1..];
    }
  }

  /** Without a line for the id, `removeItem` changes nothing. */
  lemma {:induction false} RemoveLinesAbsent(cart: seq<Line>, id: int)
    requires forall j :: 0 <= j < |cart| ==> cart[j].product.id != id
    ensures RemoveLines(cart, id) == cart
  {
    if cart != [] {
      RemoveLinesAbsent(cart[1..], id);
    }
  }

  /** Removing twice is removing once. */
  lemma RemoveLinesIdempotent(cart: seq<Line>, id: int)
    ensures RemoveLines(RemoveLines(cart, id), id) == RemoveLines(cart, id)
  {
    RemoveLinesMembers(cart, id);
    var r := RemoveLines(cart, id);
    forall j | 0 <= j < |r| ensures r[j].product.id != id {
      assert r[j] in r;
    }
    RemoveLinesAbsent(r, id);
  }

  /** `filter` works piecewise: removing from a joined cart is removing
      from each part, so the remaining lines keep their order however many
      lines carry the id. */
  lemma {:induction false} RemoveLinesConcat(a: seq<Line>, b: seq<Line>, id: int)
    ensures RemoveLines(a + b, id) == RemoveLines(a, id) + RemoveLines(b, id)
  {
    if a == [] {
      assert a + b == b;
    } else {
      assert (a + b)[0] == a[0] && (a + b)[1..] == a[1..] + b;
      RemoveLinesConcat(a[1..], b, id);
    }
  }

  /** When only line `i` has the id, `removeItem` deletes just that line
      and keeps the others in their order; a well-formed cart is such a
      cart. */
  lemma {:induction false} RemoveLinesKeepsOrder(cart: seq<Line>, id: int, i: nat)
    requires i < |cart| && cart[i].product.id == id
    requires forall j :: 0 <= j < |cart| && j != i ==> cart[j].product.id != id
    ensures RemoveLines(cart, id) == cart[..i] + cart[i + 1..]
  {
    var tail := cart[1..];
    assert forall j :: 0 <= j < |tail| ==> tail[j] == cart[j + 1];
    if i == 0 {
      RemoveLinesAbsent(tail, id);
      assert cart[..0] + cart[1..] == tail;
    } else {
      RemoveLinesKeepsOrder(tail, id, i - 1);
      assert RemoveLines(cart, id) == [cart[0]] + (tail[..i - 1] + tail[i..]);
      assert tail[..i - 1] == cart[1..i] && tail[i..] == cart[i + 1..];
      assert cart[..i] == [cart[0]] + cart[1..i];
    }
  }

  lemma RemoveLinesPreservesWellFormed(cart: seq<Line>, id: int)
    requires WellFormed(cart)
    ensures WellFormed(RemoveLines(cart, id))
  {
    if i :| 0 <= i < |cart| && cart[i].product.id == id {
      RemoveLinesKeepsOrder(cart, id, i);
      var r := RemoveLines(cart, id);
      forall a, b | 0 <= a < b < |r| ensures r[a].product.id != r[b].product.id {
        var a' := if a < i then a else a + 1;
        var b' := if b < i then b else b + 1;
        assert r[a] == cart[a'] && r[b] == cart[b'];
      }
    } else {
      RemoveLinesAbsent(cart, id);
    }
  }

  /** `updateQuantity` sets the line's quantity to at least 1 and changes
      nothing else; an absent id leaves the cart as it is. */
  lemma SetQuantityEffect(cart: seq<Line>, id: int, n: int)
    ensures FindLine(cart, id).Some? ==>
      var i := FindLine(cart, id).value;
      && |SetQuantity(cart, id, n)| == |cart|
      && SetQuantity(cart, id, n)[i].product == cart[i].product
      && SetQuantity(cart, id, n)[i].qty == (if n < 1 then 1 else n)
      && forall j :: 0 <= j < |cart| && j != i ==> SetQuantity(cart, id, n)[j] == cart[j]
    ensures FindLine(cart, id).None? ==> SetQuantity(cart, id, n) == cart
  {
  }

  lemma SetQuantityPreservesWellFormed(cart: seq<Line>, id: int, n: int)
    requires WellFormed(cart)
    ensures WellFormed(SetQuantity(cart, id, n))
  {
  }

  /** In a well-formed cart every line holds at least one item. */
  lemma {:induction false} ItemCountAtLeastLines(cart: seq<Line>)
    requires forall i :: 0 <= i < |cart| ==> cart[i].qty >= 1
    ensures ItemCount(cart) >= |cart|
  {
    if cart != [] {
      ItemCountAtLeastLines(cart[..|cart| - 1]);
    }
  }

  /** With non-negative prices and quantities the total is non-negative. */
  lemma {:induction false} TotalNonNegative(cart: seq<Line>)
    ensures (forall i :: 0 <= i < |cart| ==> cart[i].product.price >= 0 && cart[i].qty >= 0) ==> Total(cart) >= 0
  {
    if cart != [] {
      TotalNonNegative(cart[..|cart| - 1]);
      var l := cart[|cart| - 1];
      if l.product.price >= 0 && l.qty >= 0 {
        assert Subtotal(l) >= 0;
      }
    }
  }

  // ---------------------------------------------------------------------
  // Persistence

  /** A successful save followed by a load under the same key gives the
      cart back; a failed save leaves storage as it was. */
  lemma SaveThenLoad(entries: map<string, Stored<Line>>, cart: seq<Line>)
    ensures LoadCart(Persisted(entries, cart, true), CartKey) == cart
    ensures Persisted(entries, cart, false) == entries
  {
  }

  /** The constructor as written never sees a saved cart: whatever was
      saved under `CartKey`, it starts from what is stored under
      "undefined", which the cart store never writes. */
  lemma InitialCartMissesSavedCart(entries: map<string, Stored<Line>>, cart: seq<Line>)
    requires "undefined" !in entries
    requires cart != []
    ensures InitialCart(Persisted(entries, cart, true)) == []
    ensures InitialCart(Persisted(entries, cart, true)) != cart
  {
    assert CartKey != "undefined";
  }

  /** Loading under `CartKey`, the key the cart is saved under, restores
      the cart saved last. */
  lemma CorrectedInitialCartRestoresSave(entries: map<string, Stored<Line>>, cart: seq<Line>)
    ensures CorrectedInitialCart(Persisted(entries, cart, true)) == cart
  {
    SaveThenLoad(entries, cart);
  }

  // ---------------------------------------------------------------------
  // The catalogue guard

  /** `window.addToCart` with an id the catalogue does not have, or with
      id 3 (out of stock), leaves the cart unchanged. */
  lemma GuardedAddNoOp(cart: seq<Line>, id: int)
    requires id < 1 || id > 12 || id == 3
    ensures GuardedAdd(cart, ProductsData, id) == cart
  {
    CatalogueLookup(id);
    if id == 3 {
      Product3OutOfStock();
    }
  }

  /** Any other id adds exactly one item, at the catalogue price when the
      product is new to the cart. */
  lemma GuardedAddInStock(cart: seq<Line>, id: int)
    requires 1 <= id <= 12 && id != 3
    ensures ItemCount(GuardedAdd(cart, ProductsData, id)) == ItemCount(cart) + 1
    ensures FindLine(cart, id).None? ==>
      Total(GuardedAdd(cart, ProductsData, id)) == Total(cart) + ProductsData[id - 1].price
  {
    CatalogueLookup(id);
    CatalogueIds();
    OnlyProduct3OutOfStock();
    AddLineCountAndTotal(cart, ProductsData[id - 1]);
  }

  /** Starting empty, adding product 1 twice and then product 3 gives one
      line for product 1 with quantity 2, two items, and twice its price. */
  lemma ScenarioTwiceOneThenThree()
    ensures var c := GuardedAdd(GuardedAdd(GuardedAdd([], ProductsData, 1), ProductsData, 1), ProductsData, 3);
      && c == [Line(ProductsData[0], 2)]
      && ItemCount(c) == 2
      && Total(c) == 2 * 3499
  {
    CatalogueLookup(1);
    GuardedAddNoOp([Line(ProductsData[0], 2)], 3);
    var c1 := GuardedAdd([], ProductsData, 1);
    assert c1 == [Line(ProductsData[0], 1)];
    assert GuardedAdd(c1, ProductsData, 1) == [Line(ProductsData[0], 2)];
  }
}
