/**
 * The cart controller: listing the caller's lines with their total, adding a product
 * (merging into the caller's existing line for it), changing a line's quantity and
 * removing a line. Every operation is scoped to the authenticated caller.
 *
 * The store returns the caller's lines in an order it does not promise; that order is a
 * parameter (`listing`), and `ListingTotalIndependent` shows the total does not depend on it.
 */
module CartController {
  import opened Common
  import opened Tables

  datatype CartView = CartView(items: seq<CartItem>, totalPrice: int)

  ghost predicate Distinct(ids: seq<Id>)
  {
    forall i, j :: 0 <= i < j < |ids| ==> ids[i] != ids[j]
  }

  /** `ids` lists every cart line of `user`, each once, and nothing else. */
  ghost predicate IsListing(cart: map<Id, CartItem>, user: Id, ids: seq<Id>)
  {
    && (forall i :: 0 <= i < |ids| ==> ids[i] in cart && cart[ids[i]].userId == user)
    && (forall id :: id in cart && cart[id].userId == user ==> id in ids)
    && Distinct(ids)
  }

  ghost predicate HasLines(cart: map<Id, CartItem>, user: Id)
  {
    exists id :: id in cart && cart[id].userId == user
  }

  /** Every listed line exists and names a product of the catalog. */
  ghost predicate Priced(cart: map<Id, CartItem>, products: map<Id, Product>, ids: seq<Id>)
  {
    forall i :: 0 <= i < |ids| ==> ids[i] in cart && cart[ids[i]].productId in products
  }

  function LineAmount(cart: map<Id, CartItem>, products: map<Id, Product>, id: Id): int
    requires id in cart && cart[id].productId in products
  {
    products[cart[id].productId].price * cart[id].quantity
  }

  /** Σ price × quantity over the listed lines. */
  function LinesTotal(cart: map<Id, CartItem>, products: map<Id, Product>, ids: seq<Id>): int
    requires Priced(cart, products, ids)
  {
    if ids == [] then 0 else LineAmount(cart, products, ids[0]) + LinesTotal(cart, products, ids[1..])
  }

  /** With no negative price, a cart total is never negative. */
  lemma {:induction false} LinesTotalNonNegative(cart: map<Id, CartItem>, products: map<Id, Product>, ids: seq<Id>)
    requires Priced(cart, products, ids)
    requires forall i :: 0 <= i < |ids| ==> products[cart[ids[i]].productId].price >= 0 && cart[ids[i]].quantity >= 0
    ensures LinesTotal(cart, products, ids) >= 0
  {
    if ids != [] {
      assert products[cart[ids[0]].productId].price >= 0 && cart[ids[0]].quantity >= 0;
      LinesTotalNonNegative(cart, products, ids[1..]);
    }
  }

  lemma ListingPriced(cart: map<Id, CartItem>, products: map<Id, Product>, user: Id, ids: seq<Id>)
    requires CartConsistent(cart, products) && IsListing(cart, user, ids)
    ensures Priced(cart, products, ids)
  {
  }

  /** A listing is empty exactly when the user has no cart line. */
  lemma ListingEmptyIffNoLines(cart: map<Id, CartItem>, user: Id, ids: seq<Id>)
    requires IsListing(cart, user, ids)
    ensures ids == [] <==> !HasLines(cart, user)
  {
    if ids != [] {
      assert ids[0] in cart && cart[ids[0]].userId == user;
    }
  }

  lemma {:induction false} LinesTotalRemove(cart: map<Id, CartItem>, products: map<Id, Product>, ids: seq<Id>, i: nat)
    requires Priced(cart, products, ids) && i < |ids|
    ensures Priced(cart, products, ids[..i] + ids[i + 1..])
    ensures LinesTotal(cart, products, ids)
         == LineAmount(cart, products, ids[i]) + LinesTotal(cart, products, ids[..i] + ids[i + 1..])
  {
    if i == 0 {
      assert ids[..0] + ids[1..] == ids[1..];
    } else {
      LinesTotalRemove(cart, products, ids[1..], i - 1);
      assert ids[..i] + ids[i + 1..] == [ids[0]] + (ids[1..][..i - 1] + ids[1..][i..]);
    }
  }

  lemma {:induction false} LinesTotalAppend(cart: map<Id, CartItem>, products: map<Id, Product>, ids: seq<Id>, x: Id)
    requires Priced(cart, products, ids + [x])
    ensures Priced(cart, products, ids) && x in cart && cart[x].productId in products
    ensures LinesTotal(cart, products, ids + [x]) == LinesTotal(cart, products, ids) + LineAmount(cart, products, x)
  {
    assert (ids + [x])[|ids|] == x;
    assert forall i :: 0 <= i < |ids| ==> (ids + [x])[i] == ids[i];
    if ids != [] {
      assert (ids + [x])[1..] == ids[1..] + [x];
      LinesTotalAppend(cart, products, ids[1..], x);
    }
  }

  /** The total only reads the listed lines. */
  lemma {:induction false} LinesTotalAgree(c1: map<Id, CartItem>, c2: map<Id, CartItem>, products: map<Id, Product>, ids: seq<Id>)
    requires Priced(c1, products, ids) && Priced(c2, products, ids)
    requires forall i :: 0 <= i < |ids| ==> c1[ids[i]] == c2[ids[i]]
    ensures LinesTotal(c1, products, ids) == LinesTotal(c2, products, ids)
  {
    if ids != [] {
      LinesTotalAgree(c1, c2, products, ids[1..]);
    }
  }

  /** Two listings holding the same lines, counted with multiplicity, have the same total. */
  lemma {:induction false} LinesTotalPermutation(cart: map<Id, CartItem>, products: map<Id, Product>, a: seq<Id>, b: seq<Id>)
    requires Priced(cart, products, a)
    requires multiset(a) == multiset(b)
    ensures Priced(cart, products, b)
    ensures LinesTotal(cart, products, a) == LinesTotal(cart, products, b)
    decreases |a|
  {
    assert Priced(cart, products, b) by {
      forall j | 0 <= j < |b| ensures b[j] in cart && cart[b[j]].productId in products {
        assert b[j] in multiset(b);
        var k :| 0 <= k < |a| && a[k] == b[j];
      }
    }
    if a != [] {
      assert a[0] in multiset(b);
      var i :| 0 <= i < |b| && b[i] == a[0];
      var b' := b[..i] + b[i + 1..];
      LinesTotalRemove(cart, products, b, i);
      assert b == b[..i] + [b[i]] + b[i + 1..];
      assert multiset(b) == multiset(b[..i]) + multiset{b[i]} + multiset(b[i + 1..]);
      assert multiset(b') == multiset(b[..i]) + multiset(b[i + 1..]);
      assert a == [a[0]] + a[1..];
      assert multiset(a) == multiset{a[0]} + multiset(a[1..]);
      assert multiset(a[1..]) == multiset(a) - multiset{a[0]};
      assert multiset(b') == multiset(b) - multiset{b[i]};
      LinesTotalPermutation(cart, products, a[1..], b');
    }
  }

  /** Each element of a duplicate-free sequence occurs in it exactly once. */
  lemma {:induction false} DistinctMultiplicity(s: seq<Id>, x: Id)
    requires Distinct(s)
    ensures multiset(s)[x] == if x in s then 1 else 0
  {
    if s != [] {
      assert s == [s[0]] + s[1..];
      forall k | 0 <= k < |s| - 1 ensures s[1..][k] != s[0] {
        assert s[1..][k] == s[k + 1];
      }
      DistinctMultiplicity(s[1..], x);
    }
  }

  /** The listed total does not depend on the order in which the store returns the lines. */
  lemma ListingTotalIndependent(cart: map<Id, CartItem>, products: map<Id, Product>, user: Id, a: seq<Id>, b: seq<Id>)
    requires CartConsistent(cart, products)
    requires IsListing(cart, user, a) && IsListing(cart, user, b)
    ensures Priced(cart, products, a) && Priced(cart, products, b)
    ensures LinesTotal(cart, products, a) == LinesTotal(cart, products, b)
  {
    SameLinesSameMultiset(a, b, cart, user);
    LinesTotalPermutation(cart, products, a, b);
  }

  lemma SameLinesSameMultiset(a: seq<Id>, b: seq<Id>, cart: map<Id, CartItem>, user: Id)
    requires IsListing(cart, user, a) && IsListing(cart, user, b)
    ensures multiset(a) == multiset(b)
  {
    forall x ensures multiset(a)[x] == multiset(b)[x] {
      DistinctMultiplicity(a, x);
      DistinctMultiplicity(b, x);
      if x in a {
        var i :| 0 <= i < |a| && a[i] == x;
      }
      if x in b {
        var i :| 0 <= i < |b| && b[i] == x;
      }
    }
  }

  /** The caller's line for `product`, if there is one (unique when the cart is consistent). */
  ghost function LineFor(cart: map<Id, CartItem>, user: Id, product: Id): (r: Option<Id>)
    ensures r.Some? ==> r.value in cart && cart[r.value].userId == user && cart[r.value].productId == product
    ensures r.None? ==> forall id :: id in cart ==> !(cart[id].userId == user && cart[id].productId == product)
  {
    if exists id :: id in cart && cart[id].userId == user && cart[id].productId == product
    then Some(var id :| id in cart && cart[id].userId == user && cart[id].productId == product; id)
    else None
  }

  /** Adding `q` units to the line `id` raises the total of a listing that holds it once by price × q. */
  lemma {:induction false} LinesTotalBump(cart: map<Id, CartItem>, products: map<Id, Product>, ids: seq<Id>, id: Id, q: int)
    requires Priced(cart, products, ids) && Distinct(ids) && id in cart && cart[id].productId in products
    ensures var cart' := cart[id := cart[id].(quantity := cart[id].quantity + q)];
      && Priced(cart', products, ids)
      && LinesTotal(cart', products, ids)
         == LinesTotal(cart, products, ids) + (if id in ids then products[cart[id].productId].price * q else 0)
  {
    var cart' := cart[id := cart[id].(quantity := cart[id].quantity + q)];
    assert Priced(cart', products, ids);
    if ids != [] {
      assert Distinct(ids[1..]);
      LinesTotalBump(cart, products, ids[1..], id, q);
      if ids[0] == id {
        assert id !in ids[1..];
        var price := products[cart[id].productId].price;
        assert price * (cart[id].quantity + q) == price * cart[id].quantity + price * q;
      } else {
        assert id in ids <==> id in ids[1..];
      }
    }
  }

  /** Merging `q` more units into an existing line raises the caller's total by price × q. */
  lemma MergeRaisesTotal(cart: map<Id, CartItem>, products: map<Id, Product>, user: Id, id: Id, q: int,
                         before: seq<Id>, after: seq<Id>)
    requires CartConsistent(cart, products) && id in cart && cart[id].userId == user
    requires IsListing(cart, user, before)
    requires IsListing(cart[id := cart[id].(quantity := cart[id].quantity + q)], user, after)
    ensures var cart' := cart[id := cart[id].(quantity := cart[id].quantity + q)];
      && Priced(cart, products, before) && Priced(cart', products, after)
      && LinesTotal(cart', products, after)
         == LinesTotal(cart, products, before) + products[cart[id].productId].price * q
  {
    var cart' := cart[id := cart[id].(quantity := cart[id].quantity + q)];
    ListingPriced(cart, products, user, before);
    assert id in before;
    LinesTotalBump(cart, products, before, id, q);
    assert IsListing(cart', user, before);
    SameLinesSameMultiset(before, after, cart', user);
    LinesTotalPermutation(cart', products, before, after);
  }

  /** A new line of `q` units of `product` raises the caller's total by price × q. */
  lemma NewLineRaisesTotal(cart: map<Id, CartItem>, products: map<Id, Product>, user: Id, product: Id, q: int,
                           newId: Id, before: seq<Id>, after: seq<Id>)
    requires CartConsistent(cart, products) && product in products && newId !in cart
    requires IsListing(cart, user, before)
    requires IsListing(cart[newId := CartItem(user, product, q)], user, after)
    ensures var cart' := cart[newId := CartItem(user, product, q)];
      && Priced(cart, products, before) && Priced(cart', products, after)
      && LinesTotal(cart', products, after) == LinesTotal(cart, products, before) + products[product].price * q
  {
    var cart' := cart[newId := CartItem(user, product, q)];
    var grown := before + [newId];
    assert newId !in before;
    assert Priced(cart', products, grown);
    LinesTotalAppend(cart', products, before, newId);
    LinesTotalAgree(cart, cart', products, before);
    assert IsListing(cart', user, grown);
    SameLinesSameMultiset(grown, after, cart', user);
    LinesTotalPermutation(cart', products, grown, after);
  }

  predicate PositiveQuantity(quantity: Option<int>)
  {
    quantity.Some? && quantity.value > 0
  }

  /** The caller's cart lines and Σ price × quantity over exactly those lines. */
  method ListItemsAndTotal(db: Db, caller: Option<Id>, listing: seq<Id>) returns (r: Reply<CartView>)
    requires db.Valid()
    requires caller.Some? ==> IsListing(db.cartItems, caller.value, listing)
    ensures caller.None? ==> r == Failure(401)
    ensures caller.Some? ==> r.Success? && r.status == 200
    ensures caller.Some? && r.Success? ==>
      && |r.data.items| == |listing|
      && (forall i :: 0 <= i < |listing| ==> r.data.items[i] == db.cartItems[listing[i]])
      && (forall i :: 0 <= i < |listing| ==> r.data.items[i].userId == caller.value)
      && Priced(db.cartItems, db.products, listing)
      && r.data.totalPrice == LinesTotal(db.cartItems, db.products, listing)
  {
    if caller.None? {
      return Failure(401);
    }
    var cart := db.cartItems;
    ListingPriced(cart, db.products, caller.value, listing);
    var items := seq(|listing|, i requires 0 <= i < |listing| => cart[listing[i]]);
    r := Success(200, CartView(items, LinesTotal(cart, db.products, listing)));
  }

  /** Raising the quantity of an existing line keeps the cart consistent. */
  lemma MergeKeepsCart(cart: map<Id, CartItem>, products: map<Id, Product>, id: Id, q: int)
    requires CartConsistent(cart, products) && id in cart && q > 0
    ensures CartConsistent(cart[id := cart[id].(quantity := cart[id].quantity + q)], products)
  {
  }

  /** A new line for a catalog product the user has no line for keeps the cart consistent. */
  lemma InsertKeepsCart(cart: map<Id, CartItem>, products: map<Id, Product>, newId: Id, line: CartItem)
    requires CartConsistent(cart, products) && newId !in cart
    requires line.productId in products && line.quantity > 0
    requires forall id :: id in cart ==> !(cart[id].userId == line.userId && cart[id].productId == line.productId)
    ensures CartConsistent(cart[newId := line], products)
  {
  }

  /**
   * Add `quantity` units of a product: increase the caller's existing line for it, or
   * create a line. Each (user, product) pair keeps at most one line.
   */
  method AddItemToCart(db: Db, caller: Option<Id>, productId: Option<Id>, quantity: Option<int>, newId: Id)
    returns (r: Reply<CartItem>)
    requires db.Valid() && newId !in db.cartItems
    modifies db`cartItems
    ensures db.Valid()
    ensures caller.None? ==> r == Failure(401) && db.cartItems == old(db.cartItems)
    ensures caller.Some? && (Present(productId).None? || !PositiveQuantity(quantity)) ==>
      r == Failure(400) && db.cartItems == old(db.cartItems)
    ensures caller.Some? && Present(productId).Some? && PositiveQuantity(quantity) ==>
      var (user, product, q) := (caller.value, productId.value, quantity.value);
      var existing := LineFor(old(db.cartItems), user, product);
      && (existing.Some? ==>
            var line := old(db.cartItems)[existing.value];
            && db.cartItems == old(db.cartItems)[existing.value := line.(quantity := line.quantity + q)]
            && r == Success(200, line.(quantity := line.quantity + q)))
      && (existing.None? && product !in db.products ==>
            r == Failure(500) && db.cartItems == old(db.cartItems))
      && (existing.None? && product in db.products ==>
            db.cartItems == old(db.cartItems)[newId := CartItem(user, product, q)]
            && r == Success(201, CartItem(user, product, q)))
  {
    if caller.None? {
      return Failure(401);
    }
    if Present(productId).None? || quantity.None? || quantity.value <= 0 {
      return Failure(400);
    }
    var user, product, q := caller.value, productId.value, quantity.value;
    if exists id :: id in db.cartItems && db.cartItems[id].userId == user && db.cartItems[id].productId == product {
      var id :| id in db.cartItems && db.cartItems[id].userId == user && db.cartItems[id].productId == product;
      assert LineFor(db.cartItems, user, product) == Some(id);
      var line := db.cartItems[id].(quantity := db.cartItems[id].quantity + q);
      MergeKeepsCart(db.cartItems, db.products, id, q);
      db.cartItems := db.cartItems[id := line];
      return Success(200, line);
    }
    if product !in db.products {
      // the foreign key on productId rejects the insert
      return Failure(500);
    }
    var line := CartItem(user, product, q);
    InsertKeepsCart(db.cartItems, db.products, newId, line);
    db.cartItems := db.cartItems[newId := line];
    r := Success(201, line);
  }

  predicate Owns(cart: map<Id, CartItem>, user: Id, id: Id)
  {
    id in cart && cart[id].userId == user
  }

  /**
   * Set the quantity of one of the caller's lines. An update whose `where` matches no
   * row (another user's line, or none) makes the store throw, which is answered with 500.
   */
  method UpdateItemQuantity(db: Db, caller: Option<Id>, cartItemId: Option<Id>, quantity: Option<int>)
    returns (r: Reply<CartItem>)
    requires db.Valid()
    modifies db`cartItems
    ensures db.Valid()
    ensures caller.None? ==> r == Failure(401) && db.cartItems == old(db.cartItems)
    ensures caller.Some? && (Present(cartItemId).None? || !PositiveQuantity(quantity)) ==>
      r == Failure(400) && db.cartItems == old(db.cartItems)
    ensures caller.Some? && Present(cartItemId).Some? && PositiveQuantity(quantity) ==>
      if Owns(old(db.cartItems), caller.value, cartItemId.value) then
        var line := old(db.cartItems)[cartItemId.value].(quantity := quantity.value);
        db.cartItems == old(db.cartItems)[cartItemId.value := line] && r == Success(200, line)
      else
        r == Failure(500) && db.cartItems == old(db.cartItems)
  {
    if caller.None? {
      return Failure(401);
    }
    if Present(cartItemId).None? || quantity.None? || quantity.value <= 0 {
      return Failure(400);
    }
    var id := cartItemId.value;
    if !(id in db.cartItems && db.cartItems[id].userId == caller.value) {
      return Failure(500);
    }
    var line := db.cartItems[id].(quantity := quantity.value);
    db.cartItems := db.cartItems[id := line];
    r := Success(200, line);
  }

  /** Delete one of the caller's lines; a line the caller does not own is not touched. */
  method RemoveItemFromCart(db: Db, caller: Option<Id>, cartItemId: Option<Id>) returns (r: Reply<()>)
    requires db.Valid()
    modifies db`cartItems
    ensures db.Valid()
    ensures caller.None? ==> r == Failure(401) && db.cartItems == old(db.cartItems)
    ensures caller.Some? && Present(cartItemId).None? ==> r == Failure(400) && db.cartItems == old(db.cartItems)
    ensures caller.Some? && Present(cartItemId).Some? ==>
      if Owns(old(db.cartItems), caller.value, cartItemId.value) then
        db.cartItems == old(db.cartItems) - {cartItemId.value} && r == Success(200, ())
      else
        r == Failure(500) && db.cartItems == old(db.cartItems)
  {
    if caller.None? {
      return Failure(401);
    }
    if Present(cartItemId).None? {
      return Failure(400);
    }
    var id := cartItemId.value;
    if !(id in db.cartItems && db.cartItems[id].userId == caller.value) {
      return Failure(500);
    }
    db.cartItems := db.cartItems - {id};
    r := Success(200, ());
  }
}
