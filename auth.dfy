/** The account store: the signed-in user, the favourite product ids and the order ledger. */
module Auth {

  import opened Seqs
  import opened Text
  import opened Cart

  /** A user; the four optional profile fields may be missing. */
  datatype User = User(
    id: string,
    name: string,
    email: string,
    phone: Option<string>,
    address: Option<string>,
    city: Option<string>,
    postalCode: Option<string>)

  /** `Partial<User>`: a field that is `None` is a key the update does not carry. */
  datatype UserPatch = UserPatch(
    id: Option<string>,
    name: Option<string>,
    email: Option<string>,
    phone: Option<string>,
    address: Option<string>,
    city: Option<string>,
    postalCode: Option<string>)

  datatype GiftDetails = GiftDetails(recipientName: string, recipientEmail: string, message: string)

  /** An order. The status is kept as text because the pages write statuses ('Pago Aprobado')
      outside the four the type names; orders built by the admin page carry no payment method. */
  datatype Order = Order(
    id: string,
    date: string,
    total: real,
    status: string,
    items: seq<CartItem>,
    paymentMethod: Option<string>,
    isGift: Option<bool>,
    giftDetails: Option<GiftDetails>)

  /** What a caller of `addOrder` supplies: an order without id, date and status. */
  datatype OrderData = OrderData(
    total: real,
    items: seq<CartItem>,
    paymentMethod: Option<string>,
    isGift: Option<bool>,
    giftDetails: Option<GiftDetails>)

  const PendingStatus: string := "Pendiente"

  /** `{ ...prev, ...data }` on a present user; a missing user stays missing. */
  function MergeProfile(user: Option<User>, patch: UserPatch): (r: Option<User>)
    ensures user.None? <==> r.None?
  {
    match user
    case None => None
    case Some(u) => Some(User(
      Pick(patch.id, u.id),
      Pick(patch.name, u.name),
      Pick(patch.email, u.email),
      PickOptional(patch.phone, u.phone),
      PickOptional(patch.address, u.address),
      PickOptional(patch.city, u.city),
      PickOptional(patch.postalCode, u.postalCode)))
  }

  function Pick(update: Option<string>, current: string): string
  {
    if update.Some? then update.value else current
  }

  function PickOptional(update: Option<string>, current: Option<string>): Option<string>
  {
    if update.Some? then update else current
  }

  /** The new favourites list after `toggleFavorite(productId)`. */
  function ToggledFavorites(favorites: seq<int>, productId: int): (r: seq<int>)
  {
    if productId in favorites then Filter((id: int) => id != productId, favorites)
    else favorites + [productId]
  }

  /** `Date.now().toString().slice(-6)` behind `ORD-`: the last six digits of the clock reading. */
  function OrderId(now: nat): (r: string)
    ensures 5 <= |r| <= 10 && r[..4] == "ORD-"
    ensures forall i :: 4 <= i < |r| ==> IsDigit(r[i])
  {
    var digits := NatToString(now);
    "ORD-" + (if |digits| > 6 then digits[|digits| - 6..] else digits)
  }

  /** The order `addOrder` records: the caller's data with the given id and date, status pending. */
  function NewOrder(data: OrderData, id: string, date: string): Order
  {
    Order(id, date, data.total, PendingStatus, data.items, data.paymentMethod, data.isGift, data.giftDetails)
  }

  // ---------------------------------------------------------------------------------------
  // Facts

  /** Merging a profile update overwrites exactly the fields the update carries. */
  lemma MergeProfileSpec(user: Option<User>, patch: UserPatch)
    ensures var r := MergeProfile(user, patch);
      user.Some? ==>
        && r.value.id == (if patch.id.Some? then patch.id.value else user.value.id)
        && r.value.name == (if patch.name.Some? then patch.name.value else user.value.name)
        && r.value.email == (if patch.email.Some? then patch.email.value else user.value.email)
        && r.value.phone == (if patch.phone.Some? then patch.phone else user.value.phone)
        && r.value.address == (if patch.address.Some? then patch.address else user.value.address)
        && r.value.city == (if patch.city.Some? then patch.city else user.value.city)
        && r.value.postalCode == (if patch.postalCode.Some? then patch.postalCode else user.value.postalCode)
  {
  }

  /** An update that carries no field leaves the user as it was; applying an update twice is
      applying it once. */
  lemma MergeProfileIdempotent(user: Option<User>, patch: UserPatch)
    ensures MergeProfile(user, UserPatch(None, None, None, None, None, None, None)) == user
    ensures MergeProfile(MergeProfile(user, patch), patch) == MergeProfile(user, patch)
  {
  }

  /** Toggling a present id removes every occurrence of it and keeps the rest in order; toggling
      an absent id appends it at the end. */
  lemma ToggleSpec(favorites: seq<int>, productId: int)
    ensures var r := ToggledFavorites(favorites, productId);
      && (productId in favorites ==>
            && productId !in r
            && (forall x :: x in r <==> x in favorites && x != productId)
            && r == Filter((id: int) => id != productId, favorites))
      && (productId !in favorites ==> r == favorites + [productId])
  {
    if productId in favorites {
      var r := Filter((id: int) => id != productId, favorites);
      forall x | x in favorites && x != productId ensures x in r {
        var i :| 0 <= i < |favorites| && favorites[i] == x;
      }
      forall x | x in r ensures x in favorites && x != productId {
        var i :| 0 <= i < |r| && r[i] == x;
      }
    }
  }

  /** `isFavorite` flips with every toggle. */
  lemma ToggleFlipsMembership(favorites: seq<int>, productId: int)
    ensures productId in ToggledFavorites(favorites, productId) <==> productId !in favorites
  {
    ToggleSpec(favorites, productId);
  }

  /** Toggling keeps a duplicate-free list duplicate-free. */
  lemma ToggleNoDuplicates(favorites: seq<int>, productId: int)
    requires NoDuplicates(favorites)
    ensures NoDuplicates(ToggledFavorites(favorites, productId))
  {
    if productId in favorites {
      FilterNoDuplicates((id: int) => id != productId, favorites);
    }
  }

  /** Toggling twice gives back the same set of ids; the exact list only when the id was absent,
      while a present id (held once) ends up moved to the end. */
  lemma ToggleTwice(favorites: seq<int>, productId: int)
    ensures var r := ToggledFavorites(ToggledFavorites(favorites, productId), productId);
      && (forall x :: x in r <==> x in favorites)
      && (productId !in favorites ==> r == favorites)
      && (productId in favorites ==> r == Filter((id: int) => id != productId, favorites) + [productId])
  {
    var once := ToggledFavorites(favorites, productId);
    ToggleSpec(favorites, productId);
    ToggleSpec(once, productId);
    if productId !in favorites {
      assert productId in once;
      var rest := Filter((id: int) => id != productId, once);
      FilterAppend((id: int) => id != productId, favorites, [productId]);
      FilterKeepsAll((id: int) => id != productId, favorites);
      assert Filter((id: int) => id != productId, [productId]) == [];
      assert rest == favorites;
    }
  }

  /** A recorded order carries the caller's total, items and payment method and is pending. */
  lemma NewOrderSpec(data: OrderData, id: string, date: string)
    ensures var o := NewOrder(data, id, date);
      && o.id == id && o.date == date && o.status == "Pendiente"
      && o.total == data.total && o.items == data.items && o.paymentMethod == data.paymentMethod
  {
  }

  // ---------------------------------------------------------------------------------------
  // The store

  class AuthStore {
    var user: Option<User>
    var favorites: seq<int>
    var orders: seq<Order>

    constructor ()
      ensures user == None && favorites == [] && orders == []
    {
      user := None;
      favorites := [];
      orders := [];
    }

    /** `isAuthenticated`: a user is signed in. */
    predicate IsAuthenticated()
      reads this
    {
      user.Some?
    }

    /** `isFavorite`: list membership. */
    predicate IsFavorite(productId: int)
      reads this
    {
      productId in favorites
    }

    method Logout()
      modifies this
      ensures user == None && !IsAuthenticated()
      ensures favorites == old(favorites) && orders == old(orders)
    {
      user := None;
    }

    method UpdateProfile(patch: UserPatch)
      modifies this
      ensures user == MergeProfile(old(user), patch)
      ensures old(user).None? ==> user.None?
      ensures favorites == old(favorites) && orders == old(orders)
    {
      user := MergeProfile(user, patch);
    }

    method ToggleFavorite(productId: int)
      modifies this
      ensures favorites == ToggledFavorites(old(favorites), productId)
      ensures IsFavorite(productId) <==> !old(IsFavorite(productId))
      ensures NoDuplicates(old(favorites)) ==> NoDuplicates(favorites)
      ensures user == old(user) && orders == old(orders)
    {
      ToggleFlipsMembership(favorites, productId);
      if NoDuplicates(favorites) {
        ToggleNoDuplicates(favorites, productId);
      }
      favorites := ToggledFavorites(favorites, productId);
    }

    /** `addOrder` with the clock reading and the date passed in; the id is built from the reading. */
    method AddOrder(data: OrderData, now: nat, date: string)
      modifies this
      ensures orders == [NewOrder(data, OrderId(now), date)] + old(orders)
      ensures |orders| == |old(orders)| + 1 && orders[1..] == old(orders)
      ensures orders[0].status == "Pendiente" && orders[0].total == data.total && orders[0].items == data.items
      ensures user == old(user) && favorites == old(favorites)
    {
      orders := [NewOrder(data, OrderId(now), date)] + orders;
    }
  }
}
