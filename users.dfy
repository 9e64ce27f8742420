/**
 * The address book, order history and wishlist of a user. A user has at
 * most one default address: making an address the default first clears the
 * flag on every address of the user.
 */
module UserService {
  import opened Entities
  import opened Store
  import opened Paging
  import opened OrderService

  // ---------------------------------------------------------------------
  // Addresses
  // ---------------------------------------------------------------------

  /** An address of the user that has not been removed. */
  predicate IsLiveAddressOf(addresses: map<Id, Address>, id: Id, userId: Id)
  {
    id in addresses && addresses[id].userId == userId && !addresses[id].deleted
  }

  /** The user's live addresses in row order, keeping only the defaults or only the others. */
  function LiveAddresses(ids: seq<Id>, addresses: map<Id, Address>, userId: Id, defaults: bool): (rows: seq<Id>)
    ensures forall id :: id in rows <==>
      id in ids && IsLiveAddressOf(addresses, id, userId) && addresses[id].isDefault == defaults
  {
    if ids == [] then []
    else
      var rest := LiveAddresses(ids[1..], addresses, userId, defaults);
      if IsLiveAddressOf(addresses, ids[0], userId) && addresses[ids[0]].isDefault == defaults then [ids[0]] + rest else rest
  }

  /**
   * `getAddresses`: the user's live addresses, the default ones first, each
   * group newest first.
   */
  method GetAddresses(db: Db, userId: Id) returns (rows: seq<Id>)
    requires db.Valid()
    ensures rows == LiveAddresses(db.addressIds, db.addresses, userId, true) + LiveAddresses(db.addressIds, db.addresses, userId, false)
    ensures forall id :: id in rows <==> IsLiveAddressOf(db.addresses, id, userId)
    ensures forall i, j :: 0 <= i < j < |rows| && db.addresses[rows[j]].isDefault ==> db.addresses[rows[i]].isDefault
  {
    var defaults := LiveAddresses(db.addressIds, db.addresses, userId, true);
    var others := LiveAddresses(db.addressIds, db.addresses, userId, false);
    rows := defaults + others;
    forall i, j | 0 <= i < j < |rows| && db.addresses[rows[j]].isDefault
      ensures db.addresses[rows[i]].isDefault
    {
      if i < |defaults| {
        assert rows[i] == defaults[i] && rows[i] in defaults;
      }
    }
  }

  /** Every address of the user with the default flag cleared; other users' addresses as they were. */
  function ClearDefaults(addresses: map<Id, Address>, userId: Id): (cleared: map<Id, Address>)
    ensures cleared.Keys == addresses.Keys
    ensures forall a :: a in addresses && addresses[a].userId != userId ==> cleared[a] == addresses[a]
    ensures forall a :: a in addresses && addresses[a].userId == userId ==> cleared[a] == addresses[a].(isDefault := false)
  {
    map a | a in addresses :: if addresses[a].userId == userId then addresses[a].(isDefault := false) else addresses[a]
  }

  /**
   * Writing an address after clearing its user's defaults, or writing one
   * that is not a default, keeps at most one default per user; a written
   * default is then its user's only one.
   */
  lemma PutAddressKeepsOneDefault(addresses: map<Id, Address>, id: Id, address: Address, cleared: map<Id, Address>)
    requires OneDefaultPerUser(addresses)
    requires address.isDefault ==> cleared == ClearDefaults(addresses, address.userId)
    requires !address.isDefault ==> cleared == addresses
    requires id in addresses ==> addresses[id].userId == address.userId
    ensures OneDefaultPerUser(cleared[id := address])
    ensures address.isDefault ==>
      var after := cleared[id := address];
      forall a :: (a in after && after[a].userId == address.userId && after[a].isDefault) ==> a == id
  {
  }

  /** Writing the address table with at most one default per user keeps the store valid. */
  lemma PutAddressKeepsValid(products: map<Id, Product>, productIds: seq<Id>, categories: map<Id, Category>,
                             carts: map<Id, Id>, items: map<Id, CartItem>, itemIds: seq<Id>,
                             orders: map<Id, Order>, orderIds: seq<Id>, payments: map<Id, Payment>, paymentIds: seq<Id>,
                             addresses: map<Id, Address>, addressIds: seq<Id>,
                             addresses': map<Id, Address>, addressIds': seq<Id>)
    requires StoreValid(products, productIds, categories, carts, items, itemIds, orders, orderIds, payments, paymentIds, addresses, addressIds)
    requires OneDefaultPerUser(addresses')
    requires addresses'.Keys == addresses.Keys ==> addressIds' == addressIds
    requires addresses'.Keys != addresses.Keys ==>
      exists id :: id !in addresses && addresses'.Keys == addresses.Keys + {id} && addressIds' == [id] + addressIds
    ensures StoreValid(products, productIds, categories, carts, items, itemIds, orders, orderIds, payments, paymentIds,
                       addresses', addressIds')
  {
    if addresses'.Keys != addresses.Keys {
      var id :| id !in addresses && addresses'.Keys == addresses.Keys + {id} && addressIds' == [id] + addressIds;
      forall i, j | 0 <= i < j < |addressIds'|
        ensures addressIds'[i] != addressIds'[j]
      {
        if i == 0 {
          assert addressIds'[j] == addressIds[j - 1] && addressIds'[j] in addresses;
        } else {
          assert addressIds'[i] == addressIds[i - 1] && addressIds'[j] == addressIds[j - 1];
        }
      }
      assert forall a :: a in addressIds' <==> a in addresses';
    }
  }

  /**
   * `createAddress`: with the default flag, every address of the user first
   * loses it and the new one is the user's only default; without it, no
   * existing address changes. The new address is listed first.
   */
  method CreateAddress(db: Db, userId: Id, addressId: Id, details: AddressDetails, isDefault: bool) returns (a: Address)
    requires db.Valid() && addressId !in db.addresses
    modifies db`addresses, db`addressIds
    ensures db.Valid()
    ensures a == Address(userId, details, isDefault, false)
    ensures db.addressIds == [addressId] + old(db.addressIds)
    ensures isDefault ==> db.addresses == ClearDefaults(old(db.addresses), userId)[addressId := a]
    ensures !isDefault ==> db.addresses == old(db.addresses)[addressId := a]
    ensures isDefault ==> forall b :: b in db.addresses && db.addresses[b].userId == userId && db.addresses[b].isDefault ==> b == addressId
  {
    a := Address(userId, details, isDefault, false);
    var cleared := if isDefault then ClearDefaults(db.addresses, userId) else db.addresses;
    PutAddressKeepsOneDefault(db.addresses, addressId, a, cleared);
    PutAddressKeepsValid(db.products, db.productIds, db.categories, db.carts, db.cartItems, db.cartItemIds,
                         db.orders, db.orderIds, db.payments, db.paymentIds, db.addresses, db.addressIds,
                         cleared[addressId := a], [addressId] + db.addressIds);
    db.addresses, db.addressIds := cleared[addressId := a], [addressId] + db.addressIds;
  }

  /** The address with every supplied field of the patch written. */
  function ApplyAddressPatch(a: Address, patch: AddressPatch): Address
  {
    var d := a.details;
    a.(details := d.(fullName := patch.fullName.GetOr(d.fullName),
                     phone := patch.phone.GetOr(d.phone),
                     addressLine1 := patch.addressLine1.GetOr(d.addressLine1),
                     addressLine2 := if patch.addressLine2.Some? then patch.addressLine2 else d.addressLine2,
                     city := patch.city.GetOr(d.city),
                     state := patch.state.GetOr(d.state),
                     postalCode := patch.postalCode.GetOr(d.postalCode),
                     country := if patch.country.Some? then patch.country else d.country),
       isDefault := patch.isDefault.GetOr(a.isDefault))
  }

  /** A patch keeps the owner and the tombstone, and writes the default flag only when it supplies one. */
  lemma AddressPatchKeepsOwner(a: Address, patch: AddressPatch)
    ensures ApplyAddressPatch(a, patch).userId == a.userId
    ensures ApplyAddressPatch(a, patch).deleted == a.deleted
    ensures ApplyAddressPatch(a, patch).isDefault == if patch.isDefault.Some? then patch.isDefault.value else a.isDefault
    ensures ApplyAddressPatch(ApplyAddressPatch(a, patch), patch) == ApplyAddressPatch(a, patch)
  {
  }

  /**
   * `updateAddress`: the address must be the user's (a removed one will do);
   * setting the default flag clears it on all the user's addresses first.
   */
  method UpdateAddress(db: Db, userId: Id, addressId: Id, patch: AddressPatch) returns (r: Result<Address>)
    requires db.Valid()
    modifies db`addresses
    ensures db.Valid()
    ensures r.Ok? <==> addressId in old(db.addresses) && old(db.addresses)[addressId].userId == userId
    ensures r.Err? ==> r.error == NotFound(AddressRecord) && db.addresses == old(db.addresses)
    ensures r.Ok? && patch.isDefault == Some(true) ==>
      && r.value == ApplyAddressPatch(ClearDefaults(old(db.addresses), userId)[addressId], patch)
      && db.addresses == ClearDefaults(old(db.addresses), userId)[addressId := r.value]
      && forall b :: b in db.addresses && db.addresses[b].userId == userId && db.addresses[b].isDefault ==> b == addressId
    ensures r.Ok? && patch.isDefault != Some(true) ==>
      r.value == ApplyAddressPatch(old(db.addresses)[addressId], patch) && db.addresses == old(db.addresses)[addressId := r.value]
  {
    if !(addressId in db.addresses && db.addresses[addressId].userId == userId) {
      return Err(NotFound(AddressRecord));
    }
    var cleared := if patch.isDefault == Some(true) then ClearDefaults(db.addresses, userId) else db.addresses;
    var a := ApplyAddressPatch(cleared[addressId], patch);
    if !a.isDefault {
      // The patch may turn the default off; the address then holds no default to clash with.
      assert OneDefaultPerUser(cleared[addressId := a]) by {
        if patch.isDefault != Some(true) {
          assert cleared == db.addresses;
        }
      }
    } else if patch.isDefault == Some(true) {
      PutAddressKeepsOneDefault(db.addresses, addressId, a, cleared);
    } else {
      assert a.isDefault == db.addresses[addressId].isDefault;
      assert OneDefaultPerUser(cleared[addressId := a]);
    }
    PutAddressKeepsValid(db.products, db.productIds, db.categories, db.carts, db.cartItems, db.cartItemIds,
                         db.orders, db.orderIds, db.payments, db.paymentIds, db.addresses, db.addressIds,
                         cleared[addressId := a], db.addressIds);
    db.addresses := cleared[addressId := a];
    r := Ok(a);
  }

  /**
   * `deleteAddress`: the user's address (a removed one will do) is
   * tombstoned; no other address changes.
   */
  method DeleteAddress(db: Db, userId: Id, addressId: Id) returns (r: Result<Address>)
    requires db.Valid()
    modifies db`addresses
    ensures db.Valid()
    ensures r.Ok? <==> addressId in old(db.addresses) && old(db.addresses)[addressId].userId == userId
    ensures r.Err? ==> r.error == NotFound(AddressRecord) && db.addresses == old(db.addresses)
    ensures r.Ok? ==>
      && r.value == old(db.addresses)[addressId].(deleted := true)
      && db.addresses == old(db.addresses)[addressId := r.value]
      && !IsLiveAddressOf(db.addresses, addressId, userId)
  {
    if !(addressId in db.addresses && db.addresses[addressId].userId == userId) {
      return Err(NotFound(AddressRecord));
    }
    var a := db.addresses[addressId].(deleted := true);
    PutAddressKeepsValid(db.products, db.productIds, db.categories, db.carts, db.cartItems, db.cartItemIds,
                         db.orders, db.orderIds, db.payments, db.paymentIds, db.addresses, db.addressIds,
                         db.addresses[addressId := a], db.addressIds);
    db.addresses := db.addresses[addressId := a];
    r := Ok(a);
  }

  // ---------------------------------------------------------------------
  // Order history
  // ---------------------------------------------------------------------

  /**
   * `getOrderHistory`: one page of all the user's orders, removed ones
   * included, newest first; `page` and `pageSize` default to 1 and 20.
   */
  method GetOrderHistory(db: Db, userId: Id, page: Option<int>, pageSize: Option<int>) returns (p: Page)
    requires page.GetOr(DefaultPage) >= 1 && pageSize.GetOr(DefaultPageSize) >= 1
    ensures p == PageOf(UserOrderIds(db.orderIds, db.orders, userId, true), page.GetOr(DefaultPage), pageSize.GetOr(DefaultPageSize))
    ensures forall id :: id in p.data ==> id in db.orders && db.orders[id].userId == userId
  {
    var rows := UserOrderIds(db.orderIds, db.orders, userId, true);
    p := PageOf(rows, page.GetOr(DefaultPage), pageSize.GetOr(DefaultPageSize));
    forall id | id in p.data
      ensures id in db.orders && db.orders[id].userId == userId
    {
      var k :| 0 <= k < |p.data| && p.data[k] == id;
      assert id in rows;
    }
  }

  /** The history lists at least the orders the user's own listing does: it adds the removed ones. */
  lemma HistoryIncludesListing(ids: seq<Id>, orders: map<Id, Order>, userId: Id)
    ensures forall id :: id in UserOrderIds(ids, orders, userId, false) ==> id in UserOrderIds(ids, orders, userId, true)
    ensures |UserOrderIds(ids, orders, userId, false)| <= |UserOrderIds(ids, orders, userId, true)|
  {
  }

  // ---------------------------------------------------------------------
  // Wishlist
  // ---------------------------------------------------------------------

  /** An item of the user's wishlist for the product, removed or not. */
  predicate IsWishlistEntry(wishlist: map<Id, WishlistItem>, id: Id, userId: Id, productId: Id)
  {
    id in wishlist && wishlist[id].userId == userId && wishlist[id].productId == productId
  }

  /**
   * `removeFromWishlist`: some item of the user for the product, removed or
   * not, is tombstoned; which one, when several match, is the store's choice.
   */
  method RemoveFromWishlist(db: Db, userId: Id, productId: Id) returns (r: Outcome)
    modifies db`wishlist
    ensures r.Refused? <==> forall id :: id in old(db.wishlist) ==> !IsWishlistEntry(old(db.wishlist), id, userId, productId)
    ensures r.Refused? ==> r.error == NotFound(WishlistRecord) && db.wishlist == old(db.wishlist)
    ensures r.Done? ==>
      exists id :: (&& IsWishlistEntry(old(db.wishlist), id, userId, productId)
                    && db.wishlist == old(db.wishlist)[id := old(db.wishlist)[id].(deleted := true)])
  {
    if id :| id in db.wishlist && IsWishlistEntry(db.wishlist, id, userId, productId) {
      db.wishlist := db.wishlist[id := db.wishlist[id].(deleted := true)];
      r := Done;
    } else {
      r := Refused(NotFound(WishlistRecord));
    }
  }
}
