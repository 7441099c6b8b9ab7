/** The older cart of script.js: a module-level `cart` list over an
    eight-record catalogue, changed in place by `addToCart` and
    `removeFromCart` and written to local storage under "prismCart". Unlike
    js/modules/cart.js it has no stock or existence guard and no error
    handling around storage. */
module LegacyCart {
  import opened Common
  import opened Storage

  const StorageKey: string := "prismCart"

  /** A record of the script's own catalogue; prices are whole dollars. */
  datatype LegacyProduct = LegacyProduct(id: int, name: string, category: string, price: int, img: string)

  /** The product photographs, by product id. */
  const Photo1: string := "https://images.unsplash.com/photo-1577803645773-f96470509666?q=80&w=2070&auto=format&fit=crop"
  const Photo2: string := "https://images.unsplash.com/photo-1511499767150-a48a237f0083?q=80&w=2080&auto=format&fit=crop"
  const Photo3: string := "https://images.unsplash.com/photo-1473496169904-658ba7c44d8a?q=80&w=2070&auto=format&fit=crop"
  const Photo4: string := "https://images.unsplash.com/photo-1591076482161-42ce6da69f67?q=80&w=2070&auto=format&fit=crop"
  const Photo5: string := "https://images.unsplash.com/photo-1572635196237-14b3f281503f?q=80&w=2080&auto=format&fit=crop"
  const Photo6: string := "https://images.unsplash.com/photo-1574258495973-f010dfbb5371?q=80&w=2070&auto=format&fit=crop"
  const Photo7: string := "https://images.unsplash.com/photo-1583394838336-acd977736f90?q=80&w=2084&auto=format&fit=crop"
  const Photo8: string := "https://images.unsplash.com/photo-1509695507497-903c140c43b0?q=80&w=2073&auto=format&fit=crop"

  const Products: seq<LegacyProduct> := [
    LegacyProduct(1, "Neon Vision", "Sport", 120, Photo1),
    LegacyProduct(2, "Crystal Clear", "Reading", 85, Photo2),
    LegacyProduct(3, "Golden Hour", "Sun", 150, Photo3),
    LegacyProduct(4, "Urban Tech", "Blue Light", 95, Photo4),
    LegacyProduct(5, "Classic Aviator", "Sun", 135, Photo5),
    LegacyProduct(6, "Retro Round", "Fashion", 110, Photo6),
    LegacyProduct(7, "Smart Vision", "Blue Light", 99, Photo7),
    LegacyProduct(8, "Elite Pro", "Sport", 145, Photo8)
  ]

  /** A line `{...product, qty}`. When the id was not in the catalogue,
      `product` is undefined, the spread copies nothing, and the line holds
      only its quantity: `snapshot` is then `None`. */
  datatype LegacyLine = LegacyLine(snapshot: Option<LegacyProduct>, qty: int)

  /** `item.id`, undefined for a line without a snapshot. */
  function LineId(l: LegacyLine): Option<int>
  {
    match l.snapshot
    case Some(p) => Some(p.id)
    case None => None
  }

  /** `products.find(p => p.id === id)`: the first record with that id.
      This is the same search as `Catalogue.FindProduct`, kept apart
      because the script's records have their own, smaller shape. */
  function FindLegacyProduct(products: seq<LegacyProduct>, id: int): (r: Option<LegacyProduct>)
    ensures r.Some? ==> r.value in products && r.value.id == id
    ensures r.Some? ==>
      exists i :: 0 <= i < |products| && products[i] == r.value && forall j :: 0 <= j < i ==> products[j].id != id
    ensures r.None? <==> forall i :: 0 <= i < |products| ==> products[i].id != id
  {
    if products == [] then None
    else if products[0].id == id then Some(products[0])
    else FindLegacyProduct(products[1..], id)
  }

  /** `cart.find(i => i.id === id)` for a numeric id, as a position; lines
      without a snapshot never match. */
  function FindLegacyLine(cart: seq<LegacyLine>, id: int): (r: Option<nat>)
    ensures r.Some? ==> r.value < |cart| && LineId(cart[r.value]) == Some(id)
    ensures r.Some? ==> forall j :: 0 <= j < r.value ==> LineId(cart[j]) != Some(id)
    ensures r.None? <==> forall j :: 0 <= j < |cart| ==> LineId(cart[j]) != Some(id)
  {
    if cart == [] then None
    else if LineId(cart[0]) == Some(id) then Some(0)
    else match FindLegacyLine(cart[1..], id)
      case None => None
      case Some(k) => Some(k + 1)
  }

  /** `products.find(p => p.id === id)` on the script's own list. */
  function ProductById(id: int): (r: Option<LegacyProduct>)
  {
    FindLegacyProduct(Products, id)
  }

  /** The cart after `addToCart(id)`: no catalogue check, so an unknown id
      appends a line with no snapshot. */
  function LegacyAdd(cart: seq<LegacyLine>, id: int): seq<LegacyLine>
  {
    match FindLegacyLine(cart, id)
    case Some(i) => cart[i := cart[i].(qty := cart[i].qty + 1)]
    case None => cart + [LegacyLine(ProductById(id), 1)]
  }

  /** The cart after `removeFromCart(id)`: `cart.filter(i => i.id !== id)`.
      The id is `None` when the rendered button passes `undefined`, which is
      what a line without a snapshot renders. */
  function LegacyRemove(cart: seq<LegacyLine>, id: Option<int>): seq<LegacyLine>
  {
    if cart == [] then []
    else if LineId(cart[0]) == id then LegacyRemove(cart[1..], id)
    else [cart[0]] + LegacyRemove(cart[1..], id)
  }

  /** The badge: `cart.reduce((a, b) => a + b.qty, 0)`. */
  function BadgeCount(cart: seq<LegacyLine>): int
  {
    if cart == [] then 0 else BadgeCount(cart[..|cart| - 1]) + cart[|cart| - 1].qty
  }

  /** `item.price * item.qty`; `None` is NaN, the product of an undefined
      price. */
  function LineAmount(l: LegacyLine): Option<int>
  {
    match l.snapshot
    case Some(p) => Some(p.price * l.qty)
    case None => None
  }

  /** The running `total += item.price * item.qty` after all lines, in line
      order; `None` is NaN, which every later addition keeps. */
  function CartTotal(cart: seq<LegacyLine>): Option<int>
  {
    if cart == [] then Some(0)
    else
      match (CartTotal(cart[..|cart| - 1]), LineAmount(cart[|cart| - 1]))
      case (Some(t), Some(a)) => Some(t + a)
      case _ => None
  }

  /** The module's start-up value
      `JSON.parse(localStorage.getItem('prismCart')) || []`: nothing stored
      parses as `null` and gives the empty cart; unparsable text throws,
      which `None` stands for. */
  function InitialCart(entries: map<string, Stored<LegacyLine>>): (r: Option<seq<LegacyLine>>)
    ensures StorageKey !in entries ==> r == Some([])
    ensures StorageKey in entries && entries[StorageKey].Unparsable? ==> r == None
    ensures StorageKey in entries && entries[StorageKey].Encoded? ==> r == Some(entries[StorageKey].lines)
  {
    if StorageKey !in entries then Some([])
    else match entries[StorageKey]
      case Encoded(lines) => Some(lines)
      case Unparsable(_) => None
  }

  /** The module-level state of script.js. */
  class PrismCart {
    var cart: seq<LegacyLine>
    const store: LocalStorage<LegacyLine>

    /** Script start-up; it only gets this far when the stored text parses. */
    constructor (store: LocalStorage<LegacyLine>)
      requires InitialCart(store.entries).Some?
      ensures this.store == store
      ensures cart == InitialCart(store.entries).value
    {
      this.store := store;
      cart := InitialCart(store.entries).value;
    }

    /** `saveCart()`: write the whole cart under "prismCart". Nothing catches
        a failed write: `ok` false means the exception escapes to the
        caller. */
    method SaveCart(quotaOk: bool) returns (ok: bool)
      modifies store
      ensures ok == quotaOk
      ensures store.entries == if ok then old(store.entries)[StorageKey := Encoded(cart)] else old(store.entries)
    {
      ok := store.SetItem(StorageKey, Encoded(cart), quotaOk);
    }

    /** `addToCart(id)`: the cart changes even when the write then throws. */
    method AddToCart(id: int, quotaOk: bool) returns (ok: bool)
      modifies this, store
      ensures cart == LegacyAdd(old(cart), id)
      ensures ok == quotaOk
      ensures store.entries == if ok then old(store.entries)[StorageKey := Encoded(cart)] else old(store.entries)
    {
      var product := ProductById(id);
      var item := FindLegacyLine(cart, id);
      if item.Some? {
        var i := item.value;
        cart := cart[i := cart[i].(qty := cart[i].qty + 1)];
      } else {
        cart := cart + [LegacyLine(product, 1)];
      }
      ok := SaveCart(quotaOk);
    }

    /** `removeFromCart(id)`. */
    method RemoveFromCart(id: Option<int>, quotaOk: bool) returns (ok: bool)
      modifies this, store
      ensures cart == LegacyRemove(old(cart), id)
      ensures ok == quotaOk
      ensures store.entries == if ok then old(store.entries)[StorageKey := Encoded(cart)] else old(store.entries)
    {
      cart := LegacyRemove(cart, id);
      ok := SaveCart(quotaOk);
    }

    /** The total `updateCartDisplay` shows: zero for an empty cart, and
        otherwise the sum accumulated line by line. */
    method DisplayedTotal() returns (total: Option<int>)
      ensures total == CartTotal(cart)
      ensures cart == [] ==> total == Some(0)
    {
      if |cart| == 0 {
        total := Some(0);
      } else {
        total := Some(0);
        var k := 0;
        while k < |cart|
          invariant 0 <= k <= |cart|
          invariant total == CartTotal(cart[..k])
        {
          assert cart[..k + 1][..k] == cart[..k];
          var amount := LineAmount(cart[k]);
          total := if total.Some? && amount.Some? then Some(total.value + amount.value) else None;
          k := k + 1;
        }
        assert cart[..k] == cart;
      }
    }
  }

  // ---------------------------------------------------------------------
  // Properties

  /** The script's catalogue has ids 1 to 8 in order. */
  lemma LegacyProductIds()
    ensures |Products| == 8
    ensures forall i :: 0 <= i < |Products| ==> Products[i].id == i + 1
  {
  }

  /** `addToCart` on an id already in the cart raises that line's quantity
      by one and changes nothing else; otherwise it appends
      `{...product, qty: 1}` at the end. */
  lemma LegacyAddEffect(cart: seq<LegacyLine>, id: int)
    ensures FindLegacyLine(cart, id).Some? ==>
      var i := FindLegacyLine(cart, id).value;
      && |LegacyAdd(cart, id)| == |cart|
      && LegacyAdd(cart, id)[i].snapshot == cart[i].snapshot
      && LegacyAdd(cart, id)[i].qty == cart[i].qty + 1
      && forall j :: 0 <= j < |cart| && j != i ==> LegacyAdd(cart, id)[j] == cart[j]
    ensures FindLegacyLine(cart, id).None? ==>
      && |LegacyAdd(cart, id)| == |cart| + 1
      && LegacyAdd(cart, id)[..|cart|] == cart
      && LegacyAdd(cart, id)[|cart|..] == [LegacyLine(ProductById(id), 1)]
  {
  }

  /** The badge grows by one on every `addToCart`, known id or not. */
  lemma LegacyAddBadge(cart: seq<LegacyLine>, id: int)
    ensures BadgeCount(LegacyAdd(cart, id)) == BadgeCount(cart) + 1
  {
    match FindLegacyLine(cart, id)
    case Some(i) =>
      BadgeUpdateAt(cart, i, cart[i].(qty := cart[i].qty + 1));
    case None =>
      var l := LegacyLine(ProductById(id), 1);
      assert (cart + [l])[..|cart|] == cart;
  }

  lemma {:induction false} BadgeUpdateAt(cart: seq<LegacyLine>, i: nat, l: LegacyLine)
    requires i < |cart|
    ensures BadgeCount(cart[i := l]) == BadgeCount(cart) - cart[i].qty + l.qty
  {
    var n := |cart|;
    if i < n - 1 {
      assert cart[i := l][..n - 1] == cart[..n - 1][i := l];
      BadgeUpdateAt(cart[..n - 1], i, l);
    } else {
      assert cart[i := l][..n - 1] == cart[..n - 1];
    }
  }

  /** The total is a number exactly when every line has a price: a single
      line without a snapshot turns it into NaN. */
  lemma {:induction false} CartTotalDefinedIff(cart: seq<LegacyLine>)
    ensures CartTotal(cart).Some? <==> forall i :: 0 <= i < |cart| ==> cart[i].snapshot.Some?
  {
    if cart != [] {
      var n := |cart|;
      CartTotalDefinedIff(cart[..n - 1]);
      assert forall i :: 0 <= i < n - 1 ==> cart[..n - 1][i] == cart[i];
    }
  }

  /** Adding an id the script's catalogue does not have, and that no line
      has, appends a line holding only `qty: 1`, and the total becomes NaN. */
  lemma LegacyAddUnknownId(cart: seq<LegacyLine>, id: int)
    requires id < 1 || id > 8
    requires FindLegacyLine(cart, id).None?
    ensures LegacyAdd(cart, id) == cart + [LegacyLine(None, 1)]
    ensures CartTotal(LegacyAdd(cart, id)).None?
  {
    LegacyProductIds();
    CartTotalDefinedIff(LegacyAdd(cart, id));
    assert LegacyAdd(cart, id)[|cart|].snapshot.None?;
  }

  /** Looking up an id of the script's catalogue finds its record. */
  lemma LegacyLookup(id: int)
    requires 1 <= id <= 8
    ensures ProductById(id) == Some(Products[id - 1])
  {
    LegacyProductIds();
    var p := FindLegacyProduct(Products, id);
    assert Products[id - 1].id == id;
    var k :| 0 <= k < |Products| && Products[k] == p.value;
    assert k == id - 1;
  }

  /** Adding a catalogue product to a cart whose total is a number adds
      the stored price of the line it lands in. */
  lemma LegacyAddTotal(cart: seq<LegacyLine>, id: int)
    requires 1 <= id <= 8
    requires CartTotal(cart).Some?
    ensures CartTotal(LegacyAdd(cart, id)).Some?
    ensures CartTotal(LegacyAdd(cart, id)).value == CartTotal(cart).value + LegacyAddedPrice(cart, id)
  {
    LegacyProductIds();
    var found := FindLegacyLine(cart, id);
    if found.Some? {
      AddTotalExisting(cart, id, found.value);
      assert LegacyAddedPrice(cart, id) == cart[found.value].snapshot.value.price;
    } else {
      AddTotalNew(cart, id);
    }
  }

  /** The existing-line case: one more unit at the line's stored price. */
  lemma AddTotalExisting(cart: seq<LegacyLine>, id: int, i: nat)
    requires CartTotal(cart).Some?
    requires FindLegacyLine(cart, id) == Some(i)
    ensures cart[i].snapshot.Some? && CartTotal(LegacyAdd(cart, id)).Some?
    ensures CartTotal(LegacyAdd(cart, id)).value == CartTotal(cart).value + cart[i].snapshot.value.price
  {
    var l := cart[i];
    assert LineId(l) == Some(id);
    var l' := l.(qty := l.qty + 1);
    assert LegacyAdd(cart, id) == cart[i := l'];
    TotalUpdateAt(cart, i, l');
    OneMoreUnit(l.snapshot.value.price, l.qty);
  }

  lemma OneMoreUnit(price: int, qty: int)
    ensures price * (qty + 1) == price * qty + price
  {
  }

  /** The new-line case: one unit at the catalogue price. */
  lemma AddTotalNew(cart: seq<LegacyLine>, id: int)
    requires 1 <= id <= 8
    requires CartTotal(cart).Some?
    requires FindLegacyLine(cart, id).None?
    ensures CartTotal(LegacyAdd(cart, id)).Some?
    ensures CartTotal(LegacyAdd(cart, id)).value == CartTotal(cart).value + LegacyAddedPrice(cart, id)
  {
    LegacyProductIds();
    LegacyLookup(id);
    var l := LegacyLine(Some(Products[id - 1]), 1);
    assert LegacyAdd(cart, id) == cart + [l];
    assert (cart + [l])[..|cart|] == cart;
  }

  lemma {:induction false} TotalUpdateAt(cart: seq<LegacyLine>, i: nat, l: LegacyLine)
    requires i < |cart| && CartTotal(cart).Some?
    requires cart[i].snapshot.Some? && l.snapshot.Some?
    ensures CartTotal(cart[i := l]).Some?
    ensures CartTotal(cart[i := l]).value ==
      CartTotal(cart).value - LineAmount(cart[i]).value + LineAmount(l).value
  {
    var n := |cart|;
    if i < n - 1 {
      assert cart[i := l][..n - 1] == cart[..n - 1][i := l];
      TotalUpdateAt(cart[..n - 1], i, l);
    } else {
      assert cart[i := l][..n - 1] == cart[..n - 1];
    }
  }

  /** The price `addToCart(id)` adds for an id in the catalogue: the price
      stored in the existing line, or the catalogue price for a new line. */
  function LegacyAddedPrice(cart: seq<LegacyLine>, id: int): int
    requires 1 <= id <= |Products|
  {
    match FindLegacyLine(cart, id)
    case Some(i) => cart[i].snapshot.value.price
    case None => Products[id - 1].price
  }

  /** `removeFromCart` keeps exactly the lines with a different id. */
  lemma {:induction false} LegacyRemoveMembers(cart: seq<LegacyLine>, id: Option<int>)
    ensures forall l :: l in LegacyRemove(cart, id) <==> l in cart && LineId(l) != id
  {
    if cart != [] {
      LegacyRemoveMembers(cart[1..], id);
      assert cart == [cart[0]] + cart[1..];
    }
  }

  lemma {:induction false} LegacyRemoveAbsent(cart: seq<LegacyLine>, id: Option<int>)
    requires forall j :: 0 <= j < |cart| ==> LineId(cart[j]) != id
    ensures LegacyRemove(cart, id) == cart
  {
    if cart != [] {
      LegacyRemoveAbsent(cart[1..], id);
    }
  }

  /** Removing twice is removing once. */
  lemma LegacyRemoveIdempotent(cart: seq<LegacyLine>, id: Option<int>)
    ensures LegacyRemove(LegacyRemove(cart, id), id) == LegacyRemove(cart, id)
  {
    LegacyRemoveMembers(cart, id);
    var r := LegacyRemove(cart, id);
    forall j | 0 <= j < |r| ensures LineId(r[j]) != id {
      assert r[j] in r;
    }
    LegacyRemoveAbsent(r, id);
  }

  /** `removeFromCart` keeps the order of what remains: a line with the id
      standing alone is cut out, everything else stays in place. */
  lemma {:induction false} LegacyRemoveKeepsOrder(cart: seq<LegacyLine>, id: Option<int>, i: nat)
    requires i < |cart| && LineId(cart[i]) == id
    requires forall j :: 0 <= j < |cart| && j != i ==> LineId(cart[j]) != id
    ensures LegacyRemove(cart, id) == cart[..i] + cart[i + 1..]
  {
    var tail := cart[1..];
    assert forall j :: 0 <= j < |tail| ==> tail[j] == cart[j + 1];
    if i == 0 {
      LegacyRemoveAbsent(tail, id);
      assert cart[..0] + cart[1..] == tail;
    } else {
      LegacyRemoveKeepsOrder(tail, id, i - 1);
      assert LegacyRemove(cart, id) == [cart[0]] + (tail[..i - 1] + tail[i..]);
      assert tail[..i - 1] == cart[1..i] && tail[i..] == cart[i + 1..];
      assert cart[..i] == [cart[0]] + cart[1..i];
    }
  }


  /** `removeFromCart` filters piecewise: removing from a joined cart is
      removing from each part, so the lines that remain keep their order
      however many lines carry the id. */
  lemma {:induction false} LegacyRemoveConcat(a: seq<LegacyLine>, b: seq<LegacyLine>, id: Option<int>)
    ensures LegacyRemove(a + b, id) == LegacyRemove(a, id) + LegacyRemove(b, id)
  {
    if a == [] {
      assert a + b == b;
    } else {
      assert (a + b)[0] == a[0] && (a + b)[1..] == a[1..] + b;
      LegacyRemoveConcat(a[1..], b, id);
    }
  }

  /** A rendered "Remove" button of a line without a snapshot passes
      `undefined`, which removes every such line and no other. */
  lemma RemoveUndefinedDropsBareLines(cart: seq<LegacyLine>)
    ensures forall l :: l in LegacyRemove(cart, None) <==> l in cart && l.snapshot.Some?
  {
    LegacyRemoveMembers(cart, None);
  }
}
