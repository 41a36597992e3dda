/** The cart store: cart lines merged by variant, the coupon registry, the applied coupon,
    the free-shipping threshold, and the totals derived from them. */
module Cart {

  import opened Seqs
  import opened Text
  import opened Catalog

  /** A cart line: a copy of the product as it was when the line was created (so its price is
      the price at that moment), the quantity, the chosen variant and the variant key. */
  datatype CartItem = CartItem(
    product: Product,
    quantity: int,
    selectedColor: Option<string>,
    selectedSize: Option<string>,
    cartId: string)

  datatype Coupon = Coupon(code: string, discountPercentage: real, isActive: bool)

  const InitialCoupons: seq<Coupon> := [Coupon("ESEN10", 10.0, true), Coupon("BIENVENIDA20", 20.0, true)]
  const InitialFreeShippingThreshold: real := 100.0
  /** Shipping is free from this many units on. */
  const FreeShippingCount: int := 3
  const BaseShippingCost: real := 6.0

  // ---------------------------------------------------------------------------------------
  // Cart lines

  /** `color || 'default'`: an absent or empty choice reads as "default". */
  function OrDefault(choice: Option<string>): string
  {
    if choice.Some? && choice.value != "" then choice.value else "default"
  }

  /** The variant key `id-color-size` under which lines are merged. */
  function VariantKey(product: Product, color: Option<string>, size: Option<string>): string
  {
    IntToString(product.id) + "-" + OrDefault(color) + "-" + OrDefault(size)
  }

  function LineTotal(line: CartItem): real
  {
    line.product.price * line.quantity as real
  }

  predicate UniqueCartIds(cart: seq<CartItem>)
  {
    forall i, j :: 0 <= i < j < |cart| ==> cart[i].cartId != cart[j].cartId
  }

  /** What every reachable cart satisfies: one line per variant key, each with a positive quantity. */
  predicate WellFormed(cart: seq<CartItem>)
  {
    UniqueCartIds(cart) && forall i :: 0 <= i < |cart| ==> cart[i].quantity >= 1
  }

  predicate HasLine(cart: seq<CartItem>, cartId: string)
  {
    exists i :: 0 <= i < |cart| && cart[i].cartId == cartId
  }

  /** `cart.find(item => item.cartId === cartId)`. */
  function FindLine(cart: seq<CartItem>, cartId: string): (r: Option<CartItem>)
    ensures r.Some? <==> HasLine(cart, cartId)
    ensures r.Some? ==> r.value in cart && r.value.cartId == cartId
  {
    Find((l: CartItem) => l.cartId == cartId, cart)
  }

  /** `cart.filter(item => item.cartId !== cartId)`. */
  function RemoveLine(cart: seq<CartItem>, cartId: string): (r: seq<CartItem>)
    ensures forall i :: 0 <= i < |r| ==> r[i].cartId != cartId && r[i] in cart
    ensures forall i :: 0 <= i < |cart| && cart[i].cartId != cartId ==> cart[i] in r
  {
    Filter((l: CartItem) => l.cartId != cartId, cart)
  }

  /** The `map` that changes the quantity of the lines with key `cartId` by `delta`. */
  function ShiftQuantity(cart: seq<CartItem>, cartId: string, delta: int): (r: seq<CartItem>)
    ensures |r| == |cart|
  {
    seq(|cart|, i requires 0 <= i < |cart| =>
      if cart[i].cartId == cartId then cart[i].(quantity := cart[i].quantity + delta) else cart[i])
  }

  /** `addToCart`: a variant already in the cart gets one more unit; a new variant is appended
      as a line of quantity 1 holding a copy of the product. */
  function AddItem(cart: seq<CartItem>, product: Product, color: Option<string>, size: Option<string>): (r: seq<CartItem>)
    ensures HasLine(cart, VariantKey(product, color, size)) ==>
      |r| == |cart| &&
      forall i :: 0 <= i < |cart| ==>
        r[i] == if cart[i].cartId == VariantKey(product, color, size)
                then cart[i].(quantity := cart[i].quantity + 1) else cart[i]
    ensures !HasLine(cart, VariantKey(product, color, size)) ==>
      r == cart + [CartItem(product, 1, color, size, VariantKey(product, color, size))]
  {
    var key := VariantKey(product, color, size);
    if FindLine(cart, key).Some? then ShiftQuantity(cart, key, 1)
    else cart + [CartItem(product, 1, color, size, key)]
  }

  /** `decreaseQuantity`: the first line with that key decides; above 1 the quantity drops by one,
      otherwise (and when there is no such line) the lines with that key are filtered out. */
  function DecreaseItem(cart: seq<CartItem>, cartId: string): seq<CartItem>
  {
    var existing := FindLine(cart, cartId);
    if existing.Some? && existing.value.quantity > 1 then ShiftQuantity(cart, cartId, -1)
    else RemoveLine(cart, cartId)
  }

  /** `cartTotal`: the sum of the stored price times the quantity of each line. */
  function CartTotal(cart: seq<CartItem>): real
  {
    if cart == [] then 0.0 else LineTotal(cart[0]) + CartTotal(cart[1..])
  }

  /** `cartCount`: the number of units, not of lines. */
  function CartCount(cart: seq<CartItem>): int
  {
    if cart == [] then 0 else cart[0].quantity + CartCount(cart[1..])
  }

  // ---------------------------------------------------------------------------------------
  // Coupons

  predicate UniqueCodes(coupons: seq<Coupon>)
  {
    forall i, j :: 0 <= i < j < |coupons| ==> coupons[i].code != coupons[j].code
  }

  /** The coupon `applyCoupon` picks: the first active one whose code equals `code` ignoring case. */
  function FindCoupon(coupons: seq<Coupon>, code: string): (r: Option<Coupon>)
    ensures r.Some? <==> exists i :: 0 <= i < |coupons| && Upper(coupons[i].code) == Upper(code) && coupons[i].isActive
    ensures r.Some? ==> r.value in coupons && r.value.isActive && Upper(r.value.code) == Upper(code)
    ensures r.Some? ==>
      exists k :: 0 <= k < |coupons| && coupons[k] == r.value &&
        forall j :: 0 <= j < k ==> !(Upper(coupons[j].code) == Upper(code) && coupons[j].isActive)
  {
    Find((c: Coupon) => Upper(c.code) == Upper(code) && c.isActive, coupons)
  }

  /** The coupons whose code is not `code`, in order. */
  function WithoutCode(coupons: seq<Coupon>, code: string): (r: seq<Coupon>)
    ensures forall i :: 0 <= i < |r| ==> r[i].code != code && r[i] in coupons
    ensures forall i :: 0 <= i < |coupons| && coupons[i].code != code ==> coupons[i] in r
  {
    Filter((c: Coupon) => c.code != code, coupons)
  }

  /** `addCoupon`: drop any coupon with the same (case-sensitive) code, then append the new one. */
  function UpsertCoupon(coupons: seq<Coupon>, coupon: Coupon): seq<Coupon>
  {
    WithoutCode(coupons, coupon.code) + [coupon]
  }

  /** `toggleCouponStatus`. */
  function ToggleCoupon(coupons: seq<Coupon>, code: string): (r: seq<Coupon>)
    ensures |r| == |coupons|
  {
    seq(|coupons|, i requires 0 <= i < |coupons| =>
      if coupons[i].code == code then coupons[i].(isActive := !coupons[i].isActive) else coupons[i])
  }

  /** What `deleteCoupon` does to the applied coupon: it is detached only when its code is the deleted one. */
  function DetachDeleted(applied: Option<Coupon>, code: string): Option<Coupon>
  {
    if applied.Some? && applied.value.code == code then None else applied
  }

  // ---------------------------------------------------------------------------------------
  // Derived amounts

  /** `discountAmount`: a percentage of the cart total when a coupon is applied, else 0. */
  function DiscountAmount(cart: seq<CartItem>, applied: Option<Coupon>): real
  {
    if applied.Some? then CartTotal(cart) * (applied.value.discountPercentage / 100.0) else 0.0
  }

  /** `shippingCost`: free from three units on or when the total after discount reaches the threshold. */
  function ShippingCost(cart: seq<CartItem>, applied: Option<Coupon>, threshold: real): real
  {
    if CartCount(cart) >= FreeShippingCount || CartTotal(cart) - DiscountAmount(cart, applied) >= threshold
    then 0.0 else BaseShippingCost
  }

  /** `finalTotal`. */
  function FinalTotal(cart: seq<CartItem>, applied: Option<Coupon>, threshold: real): real
  {
    CartTotal(cart) - DiscountAmount(cart, applied) + ShippingCost(cart, applied, threshold)
  }

  // ---------------------------------------------------------------------------------------
  // Facts about the cart lines

  lemma {:induction false} TotalsAppend(a: seq<CartItem>, b: seq<CartItem>)
    ensures CartTotal(a + b) == CartTotal(a) + CartTotal(b)
    ensures CartCount(a + b) == CartCount(a) + CartCount(b)
  {
    if a == [] {
      assert a + b == b;
    } else {
      assert (a + b)[1..] == a[1..] + b;
      TotalsAppend(a[1..], b);
    }
  }

  /** The amounts of a cart split around the line at `k`. */
  lemma TotalsAround(cart: seq<CartItem>, k: nat)
    requires k < |cart|
    ensures cart == cart[..k] + [cart[k]] + cart[k + 1..]
    ensures CartTotal(cart) == CartTotal(cart[..k]) + LineTotal(cart[k]) + CartTotal(cart[k + 1..])
    ensures CartCount(cart) == CartCount(cart[..k]) + cart[k].quantity + CartCount(cart[k + 1..])
  {
    var before, mid, after := cart[..k], [cart[k]], cart[k + 1..];
    assert cart == (before + mid) + after;
    TotalsAppend(before + mid, after);
    TotalsAppend(before, mid);
    TotalsSingle(cart[k]);
  }

  lemma TotalsSingle(line: CartItem)
    ensures CartTotal([line]) == LineTotal(line) && CartCount([line]) == line.quantity
  {
    assert [line][1..] == [];
  }

  /** Replacing the line at `k` changes the amounts by the difference of the two lines. */
  lemma TotalsUpdate(cart: seq<CartItem>, k: nat, line: CartItem)
    requires k < |cart|
    ensures CartTotal(cart[k := line]) == CartTotal(cart) - LineTotal(cart[k]) + LineTotal(line)
    ensures CartCount(cart[k := line]) == CartCount(cart) - cart[k].quantity + line.quantity
  {
    var u := cart[k := line];
    TotalsAround(cart, k);
    TotalsAround(u, k);
    assert u[..k] == cart[..k] && u[k + 1..] == cart[k + 1..];
  }

  /** Shifting the quantity of a key no line has changes nothing. */
  lemma ShiftAbsent(cart: seq<CartItem>, cartId: string, delta: int)
    requires !HasLine(cart, cartId)
    ensures ShiftQuantity(cart, cartId, delta) == cart
  {
  }

  /** Filtering out a key no line has changes nothing. */
  lemma RemoveAbsent(cart: seq<CartItem>, cartId: string)
    requires !HasLine(cart, cartId)
    ensures RemoveLine(cart, cartId) == cart
  {
    FilterKeepsAll((l: CartItem) => l.cartId != cartId, cart);
  }

  lemma LineTotalShift(line: CartItem, delta: int)
    ensures LineTotal(line.(quantity := line.quantity + delta)) == LineTotal(line) + line.product.price * delta as real
  {
    var p, q := line.product.price, line.quantity as real;
    assert (line.quantity + delta) as real == q + delta as real;
    assert p * (q + delta as real) == p * q + p * delta as real;
  }

  lemma RemoveLineAppend(a: seq<CartItem>, b: seq<CartItem>, cartId: string)
    ensures RemoveLine(a + b, cartId) == RemoveLine(a, cartId) + RemoveLine(b, cartId)
  {
    FilterAppend((l: CartItem) => l.cartId != cartId, a, b);
  }

  /** With one line per key, shifting the quantity of the line at `k` by `delta` changes that line
      only, moves the unit count by `delta` and the total by the change in that line's amount. */
  lemma ShiftTotals(cart: seq<CartItem>, k: nat, delta: int)
    requires UniqueCartIds(cart) && k < |cart|
    ensures ShiftQuantity(cart, cart[k].cartId, delta) == cart[k := cart[k].(quantity := cart[k].quantity + delta)]
    ensures CartCount(ShiftQuantity(cart, cart[k].cartId, delta)) == CartCount(cart) + delta
    ensures CartTotal(ShiftQuantity(cart, cart[k].cartId, delta))
         == CartTotal(cart) - LineTotal(cart[k]) + LineTotal(cart[k].(quantity := cart[k].quantity + delta))
  {
    ShiftAt(cart, k, delta);
    TotalsUpdate(cart, k, cart[k].(quantity := cart[k].quantity + delta));
  }

  lemma ShiftAt(cart: seq<CartItem>, k: nat, delta: int)
    requires UniqueCartIds(cart) && k < |cart|
    ensures ShiftQuantity(cart, cart[k].cartId, delta) == cart[k := cart[k].(quantity := cart[k].quantity + delta)]
  {
    var line := cart[k].(quantity := cart[k].quantity + delta);
    var r := ShiftQuantity(cart, cart[k].cartId, delta);
    forall i | 0 <= i < |cart| ensures r[i] == cart[k := line][i] {
      if i != k {
        assert cart[i].cartId != cart[k].cartId;
      }
    }
  }


  /** With one line per key, removing the key of the line at `k` takes away exactly that line's
      units and amount, and keeps every other line, in order. */
  lemma RemoveTotals(cart: seq<CartItem>, k: nat)
    requires UniqueCartIds(cart) && k < |cart|
    ensures RemoveLine(cart, cart[k].cartId) == cart[..k] + cart[k + 1..]
    ensures CartCount(RemoveLine(cart, cart[k].cartId)) == CartCount(cart) - cart[k].quantity
    ensures CartTotal(RemoveLine(cart, cart[k].cartId)) == CartTotal(cart) - LineTotal(cart[k])
  {
    RemoveAt(cart, k);
    TotalsAround(cart, k);
    TotalsAppend(cart[..k], cart[k + 1..]);
  }

  lemma RemoveAt(cart: seq<CartItem>, k: nat)
    requires UniqueCartIds(cart) && k < |cart|
    ensures RemoveLine(cart, cart[k].cartId) == cart[..k] + cart[k + 1..]
  {
    KeyOnlyAt(cart, k);
    assert cart == cart[..k] + [cart[k]] + cart[k + 1..];
    RemoveOnly(cart[..k], cart[k], cart[k + 1..]);
  }

  /** Removing the key of a line no other line shares takes out that line alone. */
  lemma {:induction false} RemoveOnly(before: seq<CartItem>, line: CartItem, after: seq<CartItem>)
    requires !HasLine(before, line.cartId) && !HasLine(after, line.cartId)
    ensures RemoveLine(before + [line] + after, line.cartId) == before + after
  {
    var s := before + [line] + after;
    if before == [] {
      assert s == [line] + after && s[1..] == after;
      RemoveAbsent(after, line.cartId);
    } else {
      assert s[0] == before[0] && s[1..] == before[1..] + [line] + after;
      assert !HasLine(before[1..], line.cartId) by {
        forall i | 0 <= i < |before[1..]| ensures before[1..][i].cartId != line.cartId {
          assert before[1..][i] == before[i + 1];
        }
      }
      RemoveOnly(before[1..], line, after);
      assert before + after == [before[0]] + (before[1..] + after);
    }
  }

  /** With one line per key, no line before or after line `k` has its key. */
  lemma KeyOnlyAt(cart: seq<CartItem>, k: nat)
    requires UniqueCartIds(cart) && k < |cart|
    ensures !HasLine(cart[..k], cart[k].cartId) && !HasLine(cart[k + 1..], cart[k].cartId)
  {
    var before, after := cart[..k], cart[k + 1..];
    forall i | 0 <= i < |before| ensures before[i].cartId != cart[k].cartId {
      assert before[i] == cart[i];
    }
    forall i | 0 <= i < |after| ensures after[i].cartId != cart[k].cartId {
      assert after[i] == cart[k + 1 + i];
    }
  }

  lemma LineIndex(cart: seq<CartItem>, cartId: string) returns (k: nat)
    requires HasLine(cart, cartId)
    ensures k < |cart| && cart[k].cartId == cartId
  {
    k :| k < |cart| && cart[k].cartId == cartId;
  }

  /** Adding a product raises the unit count by exactly one, and the total by the price stored in
      the merged line, or by the product's price for a new line. */
  lemma AddItemTotals(cart: seq<CartItem>, product: Product, color: Option<string>, size: Option<string>)
    requires UniqueCartIds(cart)
    ensures CartCount(AddItem(cart, product, color, size)) == CartCount(cart) + 1
    ensures var key := VariantKey(product, color, size);
      CartTotal(AddItem(cart, product, color, size)) == CartTotal(cart) +
        (if HasLine(cart, key) then FindLine(cart, key).value.product.price else product.price)
  {
    var key := VariantKey(product, color, size);
    if HasLine(cart, key) {
      var k := LineIndex(cart, key);
      ShiftTotals(cart, k, 1);
      LineTotalShift(cart[k], 1);
      assert FindLine(cart, key).value == cart[k];
    } else {
      var line := CartItem(product, 1, color, size, key);
      TotalsAppend(cart, [line]);
      assert CartTotal([line]) == CartTotal([line][1..]) + LineTotal(line);
    }
  }

  /** `addToCart` keeps the cart well formed. */
  lemma AddItemWellFormed(cart: seq<CartItem>, product: Product, color: Option<string>, size: Option<string>)
    requires WellFormed(cart)
    ensures WellFormed(AddItem(cart, product, color, size))
  {
  }

  /** With one line per key, the line `find` returns for the key of line `k` is line `k`. */
  lemma FindLineAt(cart: seq<CartItem>, k: nat)
    requires UniqueCartIds(cart) && k < |cart|
    ensures FindLine(cart, cart[k].cartId) == Some(cart[k])
  {
    var r := FindLine(cart, cart[k].cartId);
    var j :| 0 <= j < |cart| && cart[j] == r.value;
    assert j == k;
  }

  /** `decreaseQuantity` on the key of line `k` removes exactly one unit: the line loses one unit
      when it has more than one and disappears when it has one; every other line is unchanged. */
  lemma DecreaseItemSpec(cart: seq<CartItem>, k: nat)
    requires WellFormed(cart) && k < |cart|
    ensures var r := DecreaseItem(cart, cart[k].cartId);
      && WellFormed(r)
      && CartCount(r) == CartCount(cart) - 1
      && r == if cart[k].quantity > 1 then cart[k := cart[k].(quantity := cart[k].quantity - 1)]
              else cart[..k] + cart[k + 1..]
  {
    if cart[k].quantity > 1 {
      DecreaseShifts(cart, k);
    } else {
      DecreaseRemoves(cart, k);
    }
  }

  lemma DecreaseShifts(cart: seq<CartItem>, k: nat)
    requires WellFormed(cart) && k < |cart| && cart[k].quantity > 1
    ensures var r := DecreaseItem(cart, cart[k].cartId);
      && r == cart[k := cart[k].(quantity := cart[k].quantity - 1)]
      && WellFormed(r) && CartCount(r) == CartCount(cart) - 1
  {
    FindLineAt(cart, k);
    ShiftTotals(cart, k, -1);
    var r := cart[k := cart[k].(quantity := cart[k].quantity - 1)];
    assert forall i :: 0 <= i < |r| ==> r[i].cartId == cart[i].cartId;
  }

  lemma DecreaseRemoves(cart: seq<CartItem>, k: nat)
    requires WellFormed(cart) && k < |cart| && cart[k].quantity == 1
    ensures var r := DecreaseItem(cart, cart[k].cartId);
      && r == cart[..k] + cart[k + 1..]
      && WellFormed(r) && CartCount(r) == CartCount(cart) - 1
  {
    FindLineAt(cart, k);
    RemoveTotals(cart, k);
    RemoveLineWellFormed(cart, cart[k].cartId);
  }

  /** `decreaseQuantity` on a key no line has changes nothing. */
  lemma DecreaseAbsent(cart: seq<CartItem>, cartId: string)
    requires !HasLine(cart, cartId)
    ensures DecreaseItem(cart, cartId) == cart
  {
    RemoveAbsent(cart, cartId);
  }

  /** Filtering lines keeps a well-formed cart well formed. */
  lemma RemoveLineWellFormed(cart: seq<CartItem>, cartId: string)
    requires WellFormed(cart)
    ensures WellFormed(RemoveLine(cart, cartId))
  {
    WellFormedFilter((l: CartItem) => l.cartId != cartId, cart);
  }

  lemma WellFormedFilter(f: CartItem -> bool, cart: seq<CartItem>)
    requires WellFormed(cart)
    ensures WellFormed(Filter(f, cart))
  {
    assert DistinctKeys((l: CartItem) => l.cartId, cart);
    FilterDistinctKeys(f, (l: CartItem) => l.cartId, cart);
    var r := Filter(f, cart);
    forall i | 0 <= i < |r| ensures r[i].quantity >= 1 {
      var j :| 0 <= j < |cart| && cart[j] == r[i];
    }
  }

  /** `removeFromCart` keeps a well-formed cart well formed, leaves no line with that key, takes
      away exactly that line's units and amount, and keeps every other line in order. */
  lemma RemoveLineSpec(cart: seq<CartItem>, cartId: string)
    requires WellFormed(cart)
    ensures WellFormed(RemoveLine(cart, cartId))
    ensures !HasLine(RemoveLine(cart, cartId), cartId)
    ensures !HasLine(cart, cartId) ==> RemoveLine(cart, cartId) == cart
    ensures forall k :: 0 <= k < |cart| && cart[k].cartId == cartId ==>
      RemoveLine(cart, cartId) == cart[..k] + cart[k + 1..] &&
      CartCount(RemoveLine(cart, cartId)) == CartCount(cart) - cart[k].quantity &&
      CartTotal(RemoveLine(cart, cartId)) == CartTotal(cart) - LineTotal(cart[k])
  {
    RemoveLineWellFormed(cart, cartId);
    if HasLine(cart, cartId) {
      var k := LineIndex(cart, cartId);
      RemoveTotals(cart, k);
      forall j | 0 <= j < |cart| && cart[j].cartId == cartId ensures j == k { }
    } else {
      RemoveAbsent(cart, cartId);
    }
  }

  // ---------------------------------------------------------------------------------------
  // Facts about the amounts

  /** With non-negative stored prices and positive quantities the total is non-negative. */
  lemma {:induction false} CartTotalNonNegative(cart: seq<CartItem>)
    requires forall i :: 0 <= i < |cart| ==> cart[i].product.price >= 0.0 && cart[i].quantity >= 1
    ensures CartTotal(cart) >= 0.0
    ensures CartCount(cart) >= |cart|
  {
    if cart != [] {
      CartTotalNonNegative(cart[1..]);
      assert LineTotal(cart[0]) >= 0.0;
    }
  }

  /** A discount of at most 100 percent never exceeds the total, so the final total is never
      negative; it is the total after discount plus a shipping fee of 0 or 6. */
  lemma FinalTotalBounds(cart: seq<CartItem>, applied: Option<Coupon>, threshold: real)
    requires forall i :: 0 <= i < |cart| ==> cart[i].product.price >= 0.0 && cart[i].quantity >= 1
    requires applied.Some? ==> 0.0 <= applied.value.discountPercentage <= 100.0
    ensures 0.0 <= DiscountAmount(cart, applied) <= CartTotal(cart)
    ensures FinalTotal(cart, applied, threshold) >= 0.0
    ensures FinalTotal(cart, applied, threshold) == CartTotal(cart) - DiscountAmount(cart, applied)
      || FinalTotal(cart, applied, threshold) == CartTotal(cart) - DiscountAmount(cart, applied) + 6.0
  {
    CartTotalNonNegative(cart);
    if applied.Some? {
      var t, f := CartTotal(cart), applied.value.discountPercentage / 100.0;
      FractionBounds(t, f);
      assert DiscountAmount(cart, applied) == t * f;
      assert t * f <= t;
    }
  }

  lemma FractionBounds(t: real, f: real)
    requires t >= 0.0 && 0.0 <= f <= 1.0
    ensures 0.0 <= t * f <= t
  {
    assert t - t * f == t * (1.0 - f);
  }

  /** The shipping fee is waived from three units on, whatever the amount, and otherwise exactly
      when the total after discount reaches the threshold. */
  lemma ShippingRule(cart: seq<CartItem>, applied: Option<Coupon>, threshold: real)
    ensures CartCount(cart) >= 3 ==> ShippingCost(cart, applied, threshold) == 0.0
    ensures CartCount(cart) < 3 ==>
      (ShippingCost(cart, applied, threshold) == 0.0 <==> CartTotal(cart) - DiscountAmount(cart, applied) >= threshold)
    ensures ShippingCost(cart, applied, threshold) != 0.0 ==> ShippingCost(cart, applied, threshold) == 6.0
  {
  }

  /** One 45.00 dress with ESEN10 (typed in any case): 4.50 off, 6 shipping, 46.50 to pay. */
  lemma DressWithEsen10()
    ensures var cart := AddItem([], Products[0], None, None);
      var applied := FindCoupon(InitialCoupons, "esen10");
      && cart == [CartItem(Products[0], 1, None, None, "1-default-default")]
      && applied == Some(InitialCoupons[0])
      && CartTotal(cart) == 45.0
      && DiscountAmount(cart, applied) == 4.5
      && ShippingCost(cart, applied, InitialFreeShippingThreshold) == 6.0
      && FinalTotal(cart, applied, InitialFreeShippingThreshold) == 46.5
  {
    OneDress();
    var cart := [CartItem(Products[0], 1, None, None, "1-default-default")];
    Esen10AnyCase();
    assert CartTotal(cart) == LineTotal(cart[0]) + CartTotal(cart[1..]);
    assert CartTotal(cart) == 45.0;
    var applied := Some(InitialCoupons[0]);
    assert DiscountAmount(cart, applied) == 45.0 * (10.0 / 100.0) == 4.5;
    assert CartCount(cart) == 1;
    assert ShippingCost(cart, applied, InitialFreeShippingThreshold) == 6.0;
  }

  lemma OneDress()
    ensures AddItem([], Products[0], None, None) == [CartItem(Products[0], 1, None, None, "1-default-default")]
  {
    assert IntToString(1) == "1";
    assert VariantKey(Products[0], None, None) == "1-default-default";
  }

  lemma Esen10AnyCase()
    ensures FindCoupon(InitialCoupons, "esen10") == Some(InitialCoupons[0])
  {
    var u := Upper("esen10");
    assert u == "ESEN10" by {
      assert |u| == 6;
      forall i | 0 <= i < 6 ensures u[i] == "ESEN10"[i] {
        assert u[i] == UpperChar("esen10"[i]);
      }
    }
    var v := Upper("ESEN10");
    assert v == "ESEN10" by {
      forall i | 0 <= i < 6 ensures v[i] == "ESEN10"[i] {
        assert v[i] == UpperChar("ESEN10"[i]);
      }
    }
    assert FindIndex((c: Coupon) => Upper(c.code) == Upper("esen10") && c.isActive, InitialCoupons) == Some(0);
  }

  /** A 100.00 cart of two units with BIENVENIDA20: 80 after discount is below the threshold, so
      6 shipping, 86 to pay; with a third unit shipping becomes free. */
  lemma HundredWithBienvenida20()
    ensures var cart := AddItem(AddItem([], Products[0], None, None), Products[2], None, None);
      var applied := Some(InitialCoupons[1]);
      && CartTotal(cart) == 100.0
      && CartCount(cart) == 2
      && FinalTotal(cart, applied, InitialFreeShippingThreshold) == 86.0
      && ShippingCost(AddItem(cart, Products[1], None, None), applied, InitialFreeShippingThreshold) == 0.0
  {
    var cart := AddItem(AddItem([], Products[0], None, None), Products[2], None, None);
    DressAndTrousers();
    AddItemTotals(cart, Products[1], None, None);
  }

  /** The dress and the 55.00 product in one cart: two lines, 100.00 for two units. */
  lemma DressAndTrousers()
    ensures var cart := AddItem(AddItem([], Products[0], None, None), Products[2], None, None);
      CartTotal(cart) == 100.0 && CartCount(cart) == 2
  {
    OneDress();
    var c1 := [CartItem(Products[0], 1, None, None, "1-default-default")];
    var line := CartItem(Products[2], 1, None, None, "3-default-default");
    assert IntToString(3) == "3";
    assert VariantKey(Products[2], None, None) == "3-default-default";
    assert !HasLine(c1, "3-default-default") by {
      assert c1[0].cartId[0] != "3-default-default"[0];
    }
    assert AddItem(c1, Products[2], None, None) == c1 + [line];
    TotalsAppend(c1, [line]);
    TotalsSingle(c1[0]);
    TotalsSingle(line);
  }

  // ---------------------------------------------------------------------------------------
  // Facts about the coupon registry

  /** After `addCoupon` the new coupon is last, it is the only one with its code, and every other
      coupon is still there, in order. */
  lemma UpsertCouponSpec(coupons: seq<Coupon>, coupon: Coupon)
    requires UniqueCodes(coupons)
    ensures var r := UpsertCoupon(coupons, coupon);
      && r[|r| - 1] == coupon
      && (forall i :: 0 <= i < |r| && r[i].code == coupon.code ==> i == |r| - 1)
      && UniqueCodes(r)
      && (forall i :: 0 <= i < |coupons| && coupons[i].code != coupon.code ==> coupons[i] in r)
      && r[..|r| - 1] == WithoutCode(coupons, coupon.code)
  {
    var rest := WithoutCode(coupons, coupon.code);
    WithoutCodeUnique(coupons, coupon.code);
    assert (rest + [coupon])[..|rest|] == rest;
  }

  lemma WithoutCodeUnique(coupons: seq<Coupon>, code: string)
    requires UniqueCodes(coupons)
    ensures UniqueCodes(WithoutCode(coupons, code))
  {
    UniqueCodesFilter((c: Coupon) => c.code != code, coupons);
  }

  lemma UniqueCodesFilter(f: Coupon -> bool, coupons: seq<Coupon>)
    requires UniqueCodes(coupons)
    ensures UniqueCodes(Filter(f, coupons))
  {
    assert DistinctKeys((c: Coupon) => c.code, coupons);
    FilterDistinctKeys(f, (c: Coupon) => c.code, coupons);
  }

  /** `toggleCouponStatus` flips the active flag of the coupons with that code and of no other;
      codes, percentages and order stay as they were. */
  lemma ToggleCouponSpec(coupons: seq<Coupon>, code: string)
    requires UniqueCodes(coupons)
    ensures var r := ToggleCoupon(coupons, code);
      && UniqueCodes(r)
      && (forall i :: 0 <= i < |r| ==>
            r[i].code == coupons[i].code && r[i].discountPercentage == coupons[i].discountPercentage
            && (r[i].isActive <==> (coupons[i].code == code) != coupons[i].isActive))
      && ToggleCoupon(r, code) == coupons
  {
  }

  /** `deleteCoupon` leaves no coupon with that code, keeps the others, and detaches the applied
      coupon exactly when its code is the deleted one. */
  lemma DeleteCouponSpec(coupons: seq<Coupon>, applied: Option<Coupon>, code: string)
    requires UniqueCodes(coupons)
    ensures var r := WithoutCode(coupons, code);
      && UniqueCodes(r)
      && (forall i :: 0 <= i < |r| ==> r[i].code != code)
      && (forall i :: 0 <= i < |coupons| && coupons[i].code != code ==> coupons[i] in r)
    ensures DetachDeleted(applied, code).None? <==> applied.None? || applied.value.code == code
    ensures DetachDeleted(applied, code).Some? ==> DetachDeleted(applied, code) == applied
  {
    WithoutCodeUnique(coupons, code);
  }

  // ---------------------------------------------------------------------------------------
  // The store

  class CartStore {
    var cart: seq<CartItem>
    var isCartOpen: bool
    var coupons: seq<Coupon>
    var freeShippingThreshold: real
    var appliedCoupon: Option<Coupon>

    ghost predicate Valid()
      reads this
    {
      WellFormed(cart) && UniqueCodes(coupons)
    }

    constructor ()
      ensures Valid()
      ensures cart == [] && !isCartOpen && coupons == InitialCoupons
      ensures freeShippingThreshold == InitialFreeShippingThreshold && appliedCoupon == None
    {
      cart := [];
      isCartOpen := false;
      coupons := InitialCoupons;
      freeShippingThreshold := InitialFreeShippingThreshold;
      appliedCoupon := None;
    }

    method AddToCart(product: Product, color: Option<string>, size: Option<string>)
      requires Valid()
      modifies this
      ensures Valid()
      ensures cart == AddItem(old(cart), product, color, size) && isCartOpen
      ensures CartCount(cart) == CartCount(old(cart)) + 1
      ensures coupons == old(coupons) && appliedCoupon == old(appliedCoupon)
      ensures freeShippingThreshold == old(freeShippingThreshold)
    {
      AddItemWellFormed(cart, product, color, size);
      AddItemTotals(cart, product, color, size);
      cart := AddItem(cart, product, color, size);
      isCartOpen := true;
    }

    method DecreaseQuantity(cartId: string)
      requires Valid()
      modifies this
      ensures Valid()
      ensures cart == DecreaseItem(old(cart), cartId)
      ensures HasLine(old(cart), cartId) ==> CartCount(cart) == CartCount(old(cart)) - 1
      ensures !HasLine(old(cart), cartId) ==> cart == old(cart)
      ensures isCartOpen == old(isCartOpen) && coupons == old(coupons) && appliedCoupon == old(appliedCoupon)
      ensures freeShippingThreshold == old(freeShippingThreshold)
    {
      if HasLine(cart, cartId) {
        ghost var k := LineIndex(cart, cartId);
        DecreaseItemSpec(cart, k);
      } else {
        DecreaseAbsent(cart, cartId);
      }
      cart := DecreaseItem(cart, cartId);
    }

    method RemoveFromCart(cartId: string)
      requires Valid()
      modifies this
      ensures Valid()
      ensures cart == RemoveLine(old(cart), cartId) && !HasLine(cart, cartId)
      ensures isCartOpen == old(isCartOpen) && coupons == old(coupons) && appliedCoupon == old(appliedCoupon)
      ensures freeShippingThreshold == old(freeShippingThreshold)
    {
      RemoveLineSpec(cart, cartId);
      cart := RemoveLine(cart, cartId);
    }

    method ClearCart()
      requires Valid()
      modifies this
      ensures Valid()
      ensures cart == [] && appliedCoupon == None
      ensures isCartOpen == old(isCartOpen) && coupons == old(coupons)
      ensures freeShippingThreshold == old(freeShippingThreshold)
    {
      cart := [];
      appliedCoupon := None;
    }

    method SetIsCartOpen(open: bool)
      requires Valid()
      modifies this
      ensures Valid()
      ensures isCartOpen == open
      ensures cart == old(cart) && coupons == old(coupons) && appliedCoupon == old(appliedCoupon)
      ensures freeShippingThreshold == old(freeShippingThreshold)
    {
      isCartOpen := open;
    }

    /** Stores a copy of the chosen coupon: later changes to the registry do not reach it. */
    method ApplyCoupon(code: string) returns (ok: bool)
      requires Valid()
      modifies this
      ensures Valid()
      ensures ok <==> exists i :: 0 <= i < |coupons| && Upper(coupons[i].code) == Upper(code) && coupons[i].isActive
      ensures appliedCoupon == if ok then FindCoupon(coupons, code) else old(appliedCoupon)
      ensures cart == old(cart) && isCartOpen == old(isCartOpen) && coupons == old(coupons)
      ensures freeShippingThreshold == old(freeShippingThreshold)
    {
      var found := FindCoupon(coupons, code);
      if found.Some? {
        appliedCoupon := found;
        ok := true;
      } else {
        ok := false;
      }
    }

    method RemoveCoupon()
      requires Valid()
      modifies this
      ensures Valid()
      ensures appliedCoupon == None
      ensures cart == old(cart) && isCartOpen == old(isCartOpen) && coupons == old(coupons)
      ensures freeShippingThreshold == old(freeShippingThreshold)
    {
      appliedCoupon := None;
    }

    method AddCoupon(coupon: Coupon)
      requires Valid()
      modifies this
      ensures Valid()
      ensures coupons == UpsertCoupon(old(coupons), coupon)
      ensures coupons[|coupons| - 1] == coupon
      ensures forall i :: 0 <= i < |coupons| && coupons[i].code == coupon.code ==> i == |coupons| - 1
      ensures cart == old(cart) && isCartOpen == old(isCartOpen) && appliedCoupon == old(appliedCoupon)
      ensures freeShippingThreshold == old(freeShippingThreshold)
    {
      UpsertCouponSpec(coupons, coupon);
      coupons := UpsertCoupon(coupons, coupon);
    }

    /** Flips the registry entry only; an applied copy keeps its state and its discount. */
    method ToggleCouponStatus(code: string)
      requires Valid()
      modifies this
      ensures Valid()
      ensures coupons == ToggleCoupon(old(coupons), code)
      ensures appliedCoupon == old(appliedCoupon)
      ensures DiscountAmount(cart, appliedCoupon) == DiscountAmount(old(cart), old(appliedCoupon))
      ensures cart == old(cart) && isCartOpen == old(isCartOpen)
      ensures freeShippingThreshold == old(freeShippingThreshold)
    {
      ToggleCouponSpec(coupons, code);
      coupons := ToggleCoupon(coupons, code);
    }

    method DeleteCoupon(code: string)
      requires Valid()
      modifies this
      ensures Valid()
      ensures coupons == WithoutCode(old(coupons), code)
      ensures appliedCoupon == DetachDeleted(old(appliedCoupon), code)
      ensures old(appliedCoupon).Some? && old(appliedCoupon).value.code == code ==>
        DiscountAmount(cart, appliedCoupon) == 0.0
      ensures cart == old(cart) && isCartOpen == old(isCartOpen)
      ensures freeShippingThreshold == old(freeShippingThreshold)
    {
      WithoutCodeUnique(coupons, code);
      coupons := WithoutCode(coupons, code);
      if appliedCoupon.Some? && appliedCoupon.value.code == code {
        appliedCoupon := None;
      }
    }

    method SetFreeShippingThreshold(amount: real)
      requires Valid()
      modifies this
      ensures Valid()
      ensures freeShippingThreshold == amount
      ensures cart == old(cart) && isCartOpen == old(isCartOpen) && coupons == old(coupons)
      ensures appliedCoupon == old(appliedCoupon)
    {
      freeShippingThreshold := amount;
    }
  }
}
