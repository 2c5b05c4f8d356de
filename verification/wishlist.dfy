/**
 * The wishlist controller: the caller's entries, adding a product (at most once per
 * user) and removing it again. Every operation is scoped to the authenticated caller.
 */
module WishlistController {
  import opened Common
  import opened Tables

  /** The caller's entry for `product`, if there is one (unique when the wishlist is consistent). */
  ghost function EntryFor(wishlist: map<Id, WishlistItem>, user: Id, product: Id): (r: Option<Id>)
    ensures r.Some? ==> r.value in wishlist && wishlist[r.value] == WishlistItem(user, product)
    ensures r.None? ==> forall id :: id in wishlist ==> wishlist[id] != WishlistItem(user, product)
  {
    if exists id :: id in wishlist && wishlist[id] == WishlistItem(user, product)
    then Some(var id :| id in wishlist && wishlist[id] == WishlistItem(user, product); id)
    else None
  }

  ghost predicate Listed(wishlist: map<Id, WishlistItem>, user: Id, product: Id)
  {
    exists id :: id in wishlist && wishlist[id] == WishlistItem(user, product)
  }

  /** The caller's entries, keyed by id. */
  method GetMyWishlistProducts(db: Db, caller: Option<Id>) returns (r: Reply<map<Id, WishlistItem>>)
    requires db.Valid()
    ensures caller.None? ==> r == Failure(401)
    ensures caller.Some? ==> r.Success? && r.status == 200
    ensures caller.Some? && r.Success? ==>
      && (forall id :: id in r.data <==> id in db.wishlistItems && db.wishlistItems[id].userId == caller.value)
      && (forall id :: id in r.data ==> r.data[id] == db.wishlistItems[id])
  {
    if caller.None? {
      return Failure(401);
    }
    var wishlist := db.wishlistItems;
    r := Success(200, map id | id in wishlist && wishlist[id].userId == caller.value :: wishlist[id]);
  }

  /**
   * Add a product to the caller's wishlist. A product already there is refused with 400,
   * so each (user, product) pair has at most one entry; a product missing from the
   * catalog violates the foreign key, which is answered with 500.
   */
  method AddProductToWishlist(db: Db, caller: Option<Id>, productId: Option<Id>, newId: Id)
    returns (r: Reply<WishlistItem>)
    requires db.Valid() && newId !in db.wishlistItems
    modifies db`wishlistItems
    ensures db.Valid()
    ensures caller.None? ==> r == Failure(401) && db.wishlistItems == old(db.wishlistItems)
    ensures caller.Some? && Present(productId).None? ==> r == Failure(400) && db.wishlistItems == old(db.wishlistItems)
    ensures caller.Some? && Present(productId).Some? ==>
      var entry := WishlistItem(caller.value, productId.value);
      && (Listed(old(db.wishlistItems), caller.value, productId.value) ==>
            r == Failure(400) && db.wishlistItems == old(db.wishlistItems))
      && (!Listed(old(db.wishlistItems), caller.value, productId.value) && productId.value !in db.products ==>
            r == Failure(500) && db.wishlistItems == old(db.wishlistItems))
      && (!Listed(old(db.wishlistItems), caller.value, productId.value) && productId.value in db.products ==>
            r == Success(201, entry) && db.wishlistItems == old(db.wishlistItems)[newId := entry])
  {
    if caller.None? {
      return Failure(401);
    }
    if Present(productId).None? {
      return Failure(400);
    }
    var entry := WishlistItem(caller.value, productId.value);
    if exists id :: id in db.wishlistItems && db.wishlistItems[id] == entry {
      return Failure(400);
    }
    if productId.value !in db.products {
      // the foreign key on productId rejects the insert
      return Failure(500);
    }
    db.wishlistItems := db.wishlistItems[newId := entry];
    r := Success(201, entry);
  }

  /** Remove a product from the caller's wishlist: its one entry is deleted, or 404 when there is none. */
  method RemoveProductFromWishlist(db: Db, caller: Option<Id>, productId: Option<Id>) returns (r: Reply<()>)
    requires db.Valid()
    modifies db`wishlistItems
    ensures db.Valid()
    ensures caller.None? ==> r == Failure(401) && db.wishlistItems == old(db.wishlistItems)
    ensures caller.Some? && Present(productId).None? ==> r == Failure(400) && db.wishlistItems == old(db.wishlistItems)
    ensures caller.Some? && Present(productId).Some? ==>
      var found := EntryFor(old(db.wishlistItems), caller.value, productId.value);
      && (found.None? ==> r == Failure(404) && db.wishlistItems == old(db.wishlistItems))
      && (found.Some? ==> r == Success(200, ()) && db.wishlistItems == old(db.wishlistItems) - {found.value})
      && !Listed(db.wishlistItems, caller.value, productId.value)
  {
    if caller.None? {
      return Failure(401);
    }
    if Present(productId).None? {
      return Failure(400);
    }
    var entry := WishlistItem(caller.value, productId.value);
    if !(exists id :: id in db.wishlistItems && db.wishlistItems[id] == entry) {
      return Failure(404);
    }
    var id :| id in db.wishlistItems && db.wishlistItems[id] == entry;
    assert EntryFor(db.wishlistItems, caller.value, productId.value) == Some(id);
    db.wishlistItems := db.wishlistItems - {id};
    r := Success(200, ());
  }

  /** Removing a product just added restores the caller's wishlist as it was. */
  method AddThenRemove(db: Db, caller: Id, productId: Id, newId: Id) returns (added: Reply<WishlistItem>, removed: Reply<()>)
    requires db.Valid() && newId !in db.wishlistItems && caller != "" && productId != ""
    requires productId in db.products && !Listed(db.wishlistItems, caller, productId)
    modifies db`wishlistItems
    ensures added == Success(201, WishlistItem(caller, productId)) && removed == Success(200, ())
    ensures db.wishlistItems == old(db.wishlistItems)
  {
    added := AddProductToWishlist(db, Some(caller), Some(productId), newId);
    assert db.wishlistItems == old(db.wishlistItems)[newId := WishlistItem(caller, productId)];
    assert newId in db.wishlistItems && db.wishlistItems[newId] == WishlistItem(caller, productId);
    assert forall id :: id in db.wishlistItems && db.wishlistItems[id] == WishlistItem(caller, productId) ==> id == newId;
    assert EntryFor(db.wishlistItems, caller, productId) == Some(newId);
    removed := RemoveProductFromWishlist(db, Some(caller), Some(productId));
    assert db.wishlistItems == old(db.wishlistItems)[newId := WishlistItem(caller, productId)] - {newId};
  }
}
