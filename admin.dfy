/** The admin panel: the order table with its status selector, the coupon form and the
    free-shipping setting. */
module Admin {

  import opened Seqs
  import opened Text
  import opened Cart
  import opened Auth

  /** The two demonstration orders shown when the user has none, dated `now`. */
  function MockOrders(now: string): seq<Order>
  {
    [ Order("ORD-123", now, 150.0, "Pendiente", [], None, None, None),
      Order("ORD-124", now, 85.0, "Pago Aprobado", [], None, None, None) ]
  }

  /** The table starts from the user's orders when there are any, else from the mock orders. */
  function InitialOrders(userOrders: seq<Order>, now: string): (r: seq<Order>)
    ensures |userOrders| > 0 ==> r == userOrders
    ensures |userOrders| == 0 ==> |r| == 2 && r[0].id == "ORD-123" && r[1].id == "ORD-124"
  {
    if |userOrders| > 0 then userOrders else MockOrders(now)
  }

  /** `prev.map(o => o.id === orderId ? { ...o, status: newStatus } : o)`. */
  function WithStatus(orders: seq<Order>, orderId: string, newStatus: string): (r: seq<Order>)
    ensures |r| == |orders|
  {
    seq(|orders|, i requires 0 <= i < |orders| =>
      if orders[i].id == orderId then orders[i].(status := newStatus) else orders[i])
  }

  /** Only orders with that id change, and only in their status; an unknown id changes nothing. */
  lemma WithStatusSpec(orders: seq<Order>, orderId: string, newStatus: string)
    ensures var r := WithStatus(orders, orderId, newStatus);
      && (forall i :: 0 <= i < |r| && orders[i].id == orderId ==> r[i] == orders[i].(status := newStatus))
      && (forall i :: 0 <= i < |r| && orders[i].id != orderId ==> r[i] == orders[i])
      && ((forall i :: 0 <= i < |orders| ==> orders[i].id != orderId) ==> r == orders)
  {
  }

  /** Setting a status twice is setting it once. */
  lemma WithStatusIdempotent(orders: seq<Order>, orderId: string, newStatus: string)
    ensures WithStatus(WithStatus(orders, orderId, newStatus), orderId, newStatus) == WithStatus(orders, orderId, newStatus)
  {
  }

  class AdminPanel {
    var orders: seq<Order>
    var newCouponCode: string
    var newCouponDiscount: string
    var shippingThresholdInput: string

    /** The panel as first rendered; the threshold's text is passed in. */
    constructor (userOrders: seq<Order>, now: string, thresholdText: string)
      ensures orders == InitialOrders(userOrders, now)
      ensures newCouponCode == "" && newCouponDiscount == "" && shippingThresholdInput == thresholdText
    {
      orders := InitialOrders(userOrders, now);
      newCouponCode := "";
      newCouponDiscount := "";
      shippingThresholdInput := thresholdText;
    }

    method HandleStatusChange(orderId: string, newStatus: string)
      modifies this
      ensures orders == WithStatus(old(orders), orderId, newStatus)
      ensures |orders| == |old(orders)|
      ensures newCouponCode == old(newCouponCode) && newCouponDiscount == old(newCouponDiscount)
      ensures shippingThresholdInput == old(shippingThresholdInput)
    {
      orders := WithStatus(orders, orderId, newStatus);
    }

    /** `handleAddCoupon`; `Number(newCouponDiscount)` is passed in as `discount`. With both inputs
        filled, the upper-cased code goes into the registry as an active coupon and the inputs
        are cleared; otherwise nothing changes. */
    method HandleAddCoupon(store: CartStore, discount: real)
      requires store.Valid()
      modifies this, store
      ensures store.Valid()
      ensures old(newCouponCode) != "" && old(newCouponDiscount) != "" ==>
        && store.coupons == UpsertCoupon(old(store.coupons), Coupon(Upper(old(newCouponCode)), discount, true))
        && newCouponCode == "" && newCouponDiscount == ""
      ensures old(newCouponCode) == "" || old(newCouponDiscount) == "" ==>
        && store.coupons == old(store.coupons)
        && newCouponCode == old(newCouponCode) && newCouponDiscount == old(newCouponDiscount)
      ensures store.cart == old(store.cart) && store.appliedCoupon == old(store.appliedCoupon)
      ensures store.freeShippingThreshold == old(store.freeShippingThreshold)
      ensures store.isCartOpen == old(store.isCartOpen)
      ensures orders == old(orders) && shippingThresholdInput == old(shippingThresholdInput)
    {
      if newCouponCode != "" && newCouponDiscount != "" {
        store.AddCoupon(Coupon(Upper(newCouponCode), discount, true));
        newCouponCode := "";
        newCouponDiscount := "";
      }
    }

    /** `handleSaveSettings`; `Number(shippingThresholdInput)` is passed in as `amount`. */
    method HandleSaveSettings(store: CartStore, amount: real)
      requires store.Valid()
      modifies store
      ensures store.Valid() && store.freeShippingThreshold == amount
      ensures store.cart == old(store.cart) && store.coupons == old(store.coupons)
      ensures store.appliedCoupon == old(store.appliedCoupon) && store.isCartOpen == old(store.isCartOpen)
    {
      store.SetFreeShippingThreshold(amount);
    }
  }
}
