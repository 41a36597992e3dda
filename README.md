# Storefront business rules in Dafny

This project models the in-memory business rules of a small fashion storefront built on React.
The stores and the pages keep state. The model keeps it too, as classes, and states and proves
what every handler does to it.

- **Cart store** (`Cart.CartStore`, `cart.dfy`):
  - cart lines are merged by the variant key `id-color-size`; adding, decreasing, removing and
    clearing lines are modelled;
  - the coupon registry supports upsert by code, toggle and delete;
  - the applied coupon is a copy, so toggling the registry entry does not reach it and only
    deleting its code detaches it;
  - derived values: subtotal, unit count, percentage discount, shipping (free from three units, or
    once the total after discount reaches the threshold, otherwise 6) and the final total.
- **Account store** (`Auth.AuthStore`, `auth.dfy`): toggling favourite ids, prepending pending
  orders, merging a partial profile update, and logging out, which keeps favourites and orders.
- **Product store** (`ProductStore.ProductStore`, `product_store.dfy`): replacing a product by id.
- **Shop page** (`Shop.ShopPage`, `shop.dfy`):
  - the `filteredProducts` pipeline: search, category, sale-only, an inclusive effective-price
    range, then a sort;
  - the pipeline is a method that narrows its working list step by step. It is proved equal to one
    filter pass with all conditions, followed by a reference stable sort;
  - the stable sort is proved sorted, a permutation, and stable per rank. "Newest" is proved to be
    the new items followed by the others;
  - the category and sale choices are written to URL parameters and read back, and the two
    directions round-trip.
- **Navigation bar** (`Navbar`, `navbar.dfy`): the first four search matches, and the submit guard
  for a blank query.
- **Product page** (`ProductDetail`, `product_detail.dfy`):
  - the recently viewed id list: move to the front, deduplicate, keep at most eight;
  - the recently viewed products shown: catalog products only, not the current one, at most four;
  - related products: the same category first, topped up from an arbitrary shuffle of the other
    categories;
  - the quantity stepper and the collapsible sections.
- **Carousel** (`Hero.Carousel`, `hero.dfy`): the slide index under JavaScript's truncating `%`.
- **Admin panel** (`Admin.AdminPanel`, `admin.dfy`): order status by id, the mock-order fallback,
  the coupon form (upper-cased code) and the shipping-threshold setting.
- **Checkout page** (`Checkout.CheckoutPage`, `checkout.dfy`):
  - the name split used for prefill;
  - the digits-only reference number, capped at four digits for pago móvil;
  - the coupon box;
  - the submit step: record the order with the final total and the current lines, then clear the
    cart.
- **Profile page** (`Profile`, `profile.dfy`): the favourite products shown and the default tab.
- **Catalog** (`Catalog`, `catalog.dfy`): the eight products and four categories with their facts.
- **Shared modules**: `Seqs` (`seqs.dfy`) defines Option and `filter`/`find`/`slice`. `Text`
  (`text.dfy`) defines ASCII case folding, `includes`, `trim`, `split`/`join` on spaces,
  number-to-text and the digit filter.

Modelling choices:
- Money is an exact `real`.
- Case folding is ASCII only.
- Clocks, random shuffles and `Number(...)` parsing are parameters:
  - `Auth.AuthStore.AddOrder` and `Checkout.CheckoutPage.HandleSubmit` take the clock reading
    and the date, and build the order id from the reading with `Auth.OrderId`;
  - `ProductDetail.RelatedProducts` takes the shuffled candidates, which must be a permutation of
    the other-category products;
  - `Admin.AdminPanel.HandleAddCoupon` and `HandleSaveSettings` take the parsed number.
- Quirks of the data kept as they are:
  - `Product` has no `salePrice`, yet the shop reads one. The model makes it optional, and every
    catalog entry leaves it out (`Shop.CatalogEffectivePrices`).
  - Order statuses are plain text, because the admin page writes 'Pago Aprobado', which the
    `Order` type does not list.
  - `paymentMethod` is optional, because the admin mock orders have none.
- The applied coupon is a copy of the registry entry, as the code does. A design that re-reads the
  registry would differ.
- `addOrder` accepts any line list, including an empty one.

## Model

| member | source | states |
|---|---|---|
| `Cart.AddItem` | src/context/CartContext.tsx:57-68 | A variant already in the cart gains one unit in every line with its key, and no line is added or lost. A new variant is appended as one line of quantity 1 with key `id-(color or default)-(size or default)`. |
| `Cart.VariantKey` | src/context/CartContext.tsx:59 | The line key `id-(color or default)-(size or default)`. `Cart.AddItem` states that lines are merged or appended by it. |
| `Cart.AddItemTotals` | src/context/CartContext.tsx:57-68 | Adding raises the unit count by exactly one. The total rises by the price stored in the merged line, or by the product's price for a new line. |
| `Cart.AddItemWellFormed` | src/context/CartContext.tsx:57-68 | Adding keeps one line per key, each line with quantity at least 1. |
| `Cart.CartStore.AddToCart` | src/context/CartContext.tsx:57-70 | The cart becomes the merged cart and the sidebar opens. The unit count grows by one, and coupons, the applied coupon and the threshold are untouched. |
| `Cart.DecreaseItemSpec` | src/context/CartContext.tsx:72-82 | For a present key: above 1 the line loses one unit, at 1 it disappears, and no other line changes. The unit count drops by one and the cart stays well formed. |
| `Cart.DecreaseAbsent` | src/context/CartContext.tsx:72-82 | Decreasing a key no line has changes nothing. |
| `Cart.DecreaseItem` | src/context/CartContext.tsx:72-82 | One unit fewer for a line above 1, and the line's removal at 1. `Cart.DecreaseItemSpec` and `Cart.DecreaseAbsent` state it. |
| `Cart.CartStore.DecreaseQuantity` | src/context/CartContext.tsx:72-82 | The store's cart takes the decreased cart: one unit fewer for a present key, unchanged for an absent one. The other fields are untouched. |
| `Cart.RemoveLine` | src/context/CartContext.tsx:85 | Keeps exactly the lines whose key differs, and nothing else. |
| `Cart.RemoveLineSpec` | src/context/CartContext.tsx:84-86 | Removal leaves no line with the key and keeps every other line in order. It subtracts exactly that line's units and amount, and is a no-op for an absent key. |
| `Cart.CartStore.RemoveFromCart` | src/context/CartContext.tsx:84-86 | The cart loses the lines with that key and stays well formed. The other fields are untouched. |
| `Cart.CartStore.ClearCart` | src/context/CartContext.tsx:88-91 | Empty cart and no applied coupon. The coupons, threshold and sidebar flag are kept. |
| `Cart.CartStore.SetIsCartOpen` | src/context/CartContext.tsx:47 | Only the sidebar flag changes. |
| `Cart.FindCoupon` | src/context/CartContext.tsx:95 | Finds a coupon iff some coupon's code equals the code ignoring case and is active. The one found is the first such coupon in the registry. |
| `Cart.CartStore.ApplyCoupon` | src/context/CartContext.tsx:94-101 | Returns true iff an active coupon matches ignoring case, and then stores that coupon. On false the applied coupon and everything else are unchanged. |
| `Cart.CartStore.RemoveCoupon` | src/context/CartContext.tsx:103-105 | Only the applied coupon is cleared. |
| `Cart.UpsertCouponSpec` | src/context/CartContext.tsx:108-110 | After adding, the new coupon is last and is the only one with its code. Codes stay unique, and every other coupon stays, in order. |
| `Cart.UpsertCoupon` | src/context/CartContext.tsx:108-110 | The registry without the code, followed by the new coupon. `Cart.UpsertCouponSpec` states it. |
| `Cart.CartStore.AddCoupon` | src/context/CartContext.tsx:108-110 | The registry becomes the upserted one. The cart and applied coupon are untouched. |
| `Cart.ToggleCouponSpec` | src/context/CartContext.tsx:112-114 | Only coupons with that code flip `isActive`. Codes, percentages and order stay, and toggling again restores the registry. |
| `Cart.ToggleCoupon` | src/context/CartContext.tsx:112-114 | The registry with `isActive` flipped on every coupon with that code, and the same length. `Cart.ToggleCouponSpec` states the rest. |
| `Cart.CartStore.ToggleCouponStatus` | src/context/CartContext.tsx:112-114 | The registry is toggled. The applied copy and the discount amount stay exactly as they were. |
| `Cart.DeleteCouponSpec` | src/context/CartContext.tsx:116-121 | No coupon with that code remains and the others stay. The applied coupon is detached iff its code is the deleted one. |
| `Cart.DetachDeleted` | src/context/CartContext.tsx:116-121 | The applied coupon after a delete: cleared when its code is the deleted one, kept otherwise. `Cart.DeleteCouponSpec` states it. |
| `Cart.CartStore.DeleteCoupon` | src/context/CartContext.tsx:116-121 | The registry loses the code. Deleting the applied coupon's code clears it, so the discount becomes 0. |
| `Cart.CartStore.SetFreeShippingThreshold` | src/context/CartContext.tsx:54 | Only the threshold changes. |
| `Cart.CartStore.constructor` | src/context/CartContext.tsx:46-55 | Empty closed cart, the coupons ESEN10 (10%) and BIENVENIDA20 (20%), threshold 100, no coupon applied. |
| `Cart.TotalsAppend` | src/context/CartContext.tsx:123-124 | The total and the unit count of two carts together are the sums of their parts. |
| `Cart.CartTotalNonNegative` | src/context/CartContext.tsx:123-124 | With non-negative prices and positive quantities, the total is non-negative and the unit count is at least the number of lines. |
| `Cart.CartTotal` | src/context/CartContext.tsx:123 | The sum of price times quantity over the lines. `Cart.TotalsAppend` and `Cart.CartTotalNonNegative` state it. |
| `Cart.CartCount` | src/context/CartContext.tsx:124 | The sum of the quantities, that is, the number of units. `Cart.TotalsAppend` and `Cart.CartTotalNonNegative` state it. |
| `Cart.DiscountAmount` | src/context/CartContext.tsx:126 | The total times the applied coupon's percentage over 100, or 0 with no coupon. `Cart.FinalTotalBounds` bounds it. |
| `Cart.ShippingCost` | src/context/CartContext.tsx:129-132 | 0 from three units on or when the total after discount reaches the threshold, otherwise 6. `Cart.ShippingRule` states it. |
| `Cart.FinalTotal` | src/context/CartContext.tsx:134 | Total minus discount plus shipping. `Cart.FinalTotalBounds`, `Cart.ShippingRule` and the two worked examples state it. |
| `Cart.FinalTotalBounds` | src/context/CartContext.tsx:126-134 | For a percentage of at most 100, the discount lies between 0 and the total. The final total is non-negative and equals the total after discount plus 0 or 6. |
| `Cart.ShippingRule` | src/context/CartContext.tsx:129-132 | Shipping is free from three units on. Below that it is free iff the total after discount reaches the threshold; otherwise it is 6. |
| `Cart.DressWithEsen10` | src/context/CartContext.tsx:123-134 | One 45.00 dress with "esen10" gives 4.50 off, 6 shipping and 46.50 to pay. |
| `Cart.HundredWithBienvenida20` | src/context/CartContext.tsx:123-134 | A two-unit 100.00 cart with BIENVENIDA20 pays 80 + 6 = 86. A third unit makes shipping free. |
| `Auth.MergeProfile` | src/context/AuthContext.tsx:117-119 | A missing user stays missing, and a present user stays present. |
| `Auth.MergeProfileSpec` | src/context/AuthContext.tsx:117-119 | Each field takes the update's value when the update carries it, and keeps the old value otherwise. |
| `Auth.MergeProfileIdempotent` | src/context/AuthContext.tsx:117-119 | An empty update changes nothing, and applying an update twice equals applying it once. |
| `Auth.ToggleSpec` | src/context/AuthContext.tsx:121-128 | A present id loses every occurrence and the rest stays in order. An absent id is appended at the end. |
| `Auth.ToggledFavorites` | src/context/AuthContext.tsx:121-128 | The list without the id when present, the list with the id appended otherwise. `Auth.ToggleSpec`, `Auth.ToggleFlipsMembership`, `Auth.ToggleNoDuplicates` and `Auth.ToggleTwice` state it. |
| `Auth.ToggleFlipsMembership` | src/context/AuthContext.tsx:121-130 | `isFavorite` of the toggled id flips. |
| `Auth.ToggleNoDuplicates` | src/context/AuthContext.tsx:121-128 | Toggling keeps a duplicate-free list duplicate-free. |
| `Auth.ToggleTwice` | src/context/AuthContext.tsx:123-127 | Toggling twice restores the set of ids. For an absent id it restores the exact list; a present id ends up moved to the end. |
| `Auth.OrderId` | src/context/AuthContext.tsx:135 | The id is `ORD-` followed by one to six digits. |
| `Auth.NewOrderSpec` | src/context/AuthContext.tsx:132-138 | The recorded order has the given id and date, status 'Pendiente', and the caller's total, items and payment method. |
| `Auth.NewOrder` | src/context/AuthContext.tsx:132-138 | The pending order built from the caller's data, id and date. `Auth.NewOrderSpec` states it. |
| `Auth.AuthStore.AddOrder` | src/context/AuthContext.tsx:132-140 | Exactly one pending order is prepended, with the id `Auth.OrderId` builds from the clock reading, and the earlier orders follow unchanged. User and favourites are untouched. |
| `Auth.AuthStore.ToggleFavorite` | src/context/AuthContext.tsx:121-130 | The favourites take the toggled list, membership of the id flips, and duplicate-freedom is kept. |
| `Auth.AuthStore.IsFavorite` | src/context/AuthContext.tsx:130 | Membership of the id in the favourites list. `Auth.ToggleFlipsMembership` and `Auth.AuthStore.ToggleFavorite` state that toggling flips it. |
| `Auth.AuthStore.UpdateProfile` | src/context/AuthContext.tsx:117-119 | The user takes the merged profile, and a missing user stays missing. |
| `Auth.AuthStore.Logout` | src/context/AuthContext.tsx:98-101 | No user and not authenticated. Favourites and orders are unchanged. |
| `Auth.AuthStore.IsAuthenticated` | src/context/AuthContext.tsx:145 | Whether a user is held. `Auth.AuthStore.Logout` states that it ends false. |
| `Auth.AuthStore.constructor` | src/context/AuthContext.tsx:51-53 | No user, no favourites, no orders. |
| `ProductStore.ReplaceById` | src/context/ProductContext.tsx:15 | The list keeps its length. |
| `ProductStore.ReplaceByIdSpec` | src/context/ProductContext.tsx:15 | Entries with the update's id become the update. Every other entry is unchanged, in its position. |
| `ProductStore.ReplaceAbsent` | src/context/ProductContext.tsx:15 | An update whose id no entry has leaves the list unchanged. |
| `ProductStore.ReplaceIdempotent` | src/context/ProductContext.tsx:15 | Applying the same update twice equals applying it once. |
| `ProductStore.ReplaceKeepsIds` | src/context/ProductContext.tsx:15 | The sequence of ids is unchanged. |
| `ProductStore.ProductStore.UpdateProduct` | src/context/ProductContext.tsx:14-16 | The list takes the replaced list. Its length and its ids are kept. |
| `ProductStore.ProductStore.constructor` | src/context/ProductContext.tsx:12 | The list starts as the catalog. |
| `Shop.BySearch` | src/pages/Shop.tsx:58-64 | Every kept product's lower-cased name or category contains the lower-cased query. |
| `Shop.BySale` | src/pages/Shop.tsx:72-74 | Every kept product is flagged on sale or has a positive sale price. |
| `Shop.ByPrice` | src/pages/Shop.tsx:77-80 | Every kept product's effective price lies in the inclusive range. |
| `Shop.Passing` | src/pages/Shop.tsx:53-80 | Keeps exactly the products that pass every active filter: a non-empty query, a non-empty selected category, sale-only, and the price range. |
| `Shop.SearchStep` | src/pages/Shop.tsx:55-64 | The search step yields the products passing the search condition, and does nothing for an empty query. |
| `Shop.CategoryStep` | src/pages/Shop.tsx:67-69 | The category step narrows the search stage to the products whose category equals the chosen one exactly. |
| `Shop.SaleStep` | src/pages/Shop.tsx:72-74 | The sale step narrows the previous stage by the sale condition when sale-only is on. |
| `Shop.PriceStep` | src/pages/Shop.tsx:77-80 | The price step turns the previous stage into the one-pass filter by all conditions. |
| `Shop.ShopPage.FilteredProducts` | src/pages/Shop.tsx:53-100 | The step-by-step pipeline equals one pass with all conditions in catalog order, arranged by the sort option. The input list is a value and is not changed. |
| `Shop.SortSpec` | src/pages/Shop.tsx:83-97 | The sort is non-decreasing in rank and a permutation of its input. |
| `Shop.SortStable` | src/pages/Shop.tsx:83-97 | Products of equal rank keep their input order. |
| `Shop.Sort` | src/pages/Shop.tsx:83-97 | The reference stable insertion sort by rank. `Shop.SortSpec` and `Shop.SortStable` state it. |
| `Shop.PriceSorts` | src/pages/Shop.tsx:83-94 | Price ascending is a non-decreasing permutation in effective price, and price descending a non-increasing one. |
| `Shop.NewestFirst` | src/pages/Shop.tsx:95-97 | "Newest" lists all new items, in input order, followed by all others, in input order. |
| `Shop.ArrangeIsPermutation` | src/pages/Shop.tsx:82-97 | Every sort option keeps exactly the filtered products. |
| `Shop.Arrange` | src/pages/Shop.tsx:82-97 | Sort by ascending or descending effective price, or new items first, and the filtered order for any other option. `Shop.ArrangeIsPermutation`, `Shop.PriceSorts` and `Shop.NewestFirst` state it. |
| `Shop.CatalogEffectivePrices` | src/pages/Shop.tsx:72-80 | For every catalog product, the effective price is the list price and the sale filter reads only the flag. |
| `Shop.EffectivePrice` | src/pages/Shop.tsx:78 | The sale price when the product is on sale with a non-zero sale price, the list price otherwise. `Shop.ByPrice`, `Shop.PriceSorts` and `Shop.CatalogEffectivePrices` state it. |
| `Shop.ParamsFor` | src/pages/Shop.tsx:35-51 | `category` is present iff a non-empty category is chosen, and `filter=sale` iff sale-only is on. No other key is present. |
| `Shop.CategoryFromParams` | src/pages/Shop.tsx:19-26 | The category is read iff the parameter is present and non-empty, and its value is the parameter. |
| `Shop.SaleFromParams` | src/pages/Shop.tsx:28-32 | True iff the parameter `filter` is `sale`. `Shop.ParamsRoundTrip` and `Shop.ShopPage.SyncFromParams` state it. |
| `Shop.ParamsRoundTrip` | src/pages/Shop.tsx:18-51 | Reading back the parameters the handlers build gives the same category and sale state, and any search is dropped. |
| `Shop.ParamsNormalise` | src/pages/Shop.tsx:18-51 | Rebuilding parameters from the synced state keeps a non-empty category and `filter=sale`. |
| `Shop.ShopPage.constructor` | src/pages/Shop.tsx:10-14 | No category, no sale filter, price range 0 to 1000, sort "default". |
| `Shop.ShopPage.SyncFromParams` | src/pages/Shop.tsx:18-33 | The category and sale state become what the parameters say. |
| `Shop.ShopPage.HandleCategoryChange` | src/pages/Shop.tsx:35-41 | The category is set, and the parameters carry it and the current sale state. Reading them back gives the same state. |
| `Shop.ShopPage.HandleSaleToggle` | src/pages/Shop.tsx:43-51 | The sale state flips, and the parameters carry the category and the new sale state. Reading them back gives the same state. |
| `Navbar.QuickResults` | src/components/Navbar.tsx:26-31 | At most four results, none for an empty query. Each result matches the search and comes from the catalog. |
| `Navbar.QuickResultsArePrefix` | src/components/Navbar.tsx:27-30 | The results are exactly the first min(4, k) of the k matches, in catalog order. |
| `Navbar.EarlyMatchOffered` | src/components/Navbar.tsx:27-30 | Each of the first four matches is offered. |
| `Navbar.SearchBox.Submit` | src/components/Navbar.tsx:33-40 | A blank query (all white space, as `trim` reads it, every Unicode space separator included) changes nothing. Any other query closes the box, clears the query and navigates with the typed text. |
| `Navbar.SearchBox.constructor` | src/components/Navbar.tsx:15-16 | Closed box, empty query. |
| `ProductDetail.NewViewedIds` | src/pages/ProductDetail.tsx:40 | The current id first, then the old list without it in order, cut to 8 ids: the length is min(8, 1 + the number of other ids). |
| `ProductDetail.NewViewedIdsSpec` | src/pages/ProductDetail.tsx:40 | The current id appears exactly once, and a duplicate-free list stays duplicate-free. |
| `ProductDetail.Lookup` | src/pages/ProductDetail.tsx:33 | Finds an entry with the id iff the catalog has one, and it is the first entry with that id. |
| `ProductDetail.ViewedOthers` | src/pages/ProductDetail.tsx:32-34 | Only catalog products other than the current one. |
| `ProductDetail.ViewedOthersIds` | src/pages/ProductDetail.tsx:32-34 | In stored order, the kept products' ids are exactly the stored ids known to the catalog, minus the current one. |
| `ProductDetail.ShownViewed` | src/pages/ProductDetail.tsx:32-35 | At most four catalog products, none of them the current one. |
| `ProductDetail.ShownViewedIds` | src/pages/ProductDetail.tsx:32-35 | The shown ids are the first four of those ids. |
| `ProductDetail.SameCategory` | src/pages/ProductDetail.tsx:51-52 | Catalog products of the same category, never the current one. |
| `ProductDetail.OtherCategories` | src/pages/ProductDetail.tsx:55-56 | Catalog products of other categories, never the current one. |
| `ProductDetail.FillFromOthers` | src/pages/ProductDetail.tsx:55-58 | Under any shuffle, the fill comes from the other categories and excludes the current product. |
| `ProductDetail.RelatedSpec` | src/pages/ProductDetail.tsx:50-62 | Related never holds the current product, and the same-category products come first, in catalog order. Four or more of them are the whole list; with fewer, other-category products top it up to four, or to as many as exist. |
| `ProductDetail.RelatedProducts` | src/pages/ProductDetail.tsx:50-62 | The same-category products, topped up from the shuffled other categories when fewer than four. `ProductDetail.RelatedSpec` and `ProductDetail.FillFromOthers` state it. |
| `ProductDetail.DetailPanel.constructor` | src/pages/ProductDetail.tsx:17-18 | Quantity 1, no section open. |
| `ProductDetail.DetailPanel.Decrement` | src/pages/ProductDetail.tsx:170 | The quantity becomes max(1, q - 1) and so never drops below 1. |
| `ProductDetail.DetailPanel.Increment` | src/pages/ProductDetail.tsx:177 | The quantity grows by exactly 1. |
| `ProductDetail.DetailPanel.ToggleSection` | src/pages/ProductDetail.tsx:66-68 | The open section closes; any other section opens alone. |
| `Hero.JsRem` | src/components/Hero.tsx:40 | JavaScript's remainder: for a non-negative dividend it is the mathematical remainder; for a negative one it lies in (-n, 0] and differs from the dividend by a multiple of n. |
| `Hero.Next` | src/components/Hero.tsx:40 | `(i + 1) % n` under JavaScript's `%`. `Hero.StepsInRange`, `Hero.NextPrevInverse` and `Hero.FullTurn` state it. |
| `Hero.Prev` | src/components/Hero.tsx:44 | `(i - 1 + n) % n` under JavaScript's `%`. `Hero.StepsInRange` and `Hero.NextPrevInverse` state it. |
| `Hero.StepsInRange` | src/components/Hero.tsx:39-45 | From an index in range, next and previous stay in `[0, n)`: next wraps from the last slide to 0, previous from 0 to the last. |
| `Hero.NextPrevInverse` | src/components/Hero.tsx:39-45 | Previous after next, and next after previous, return to the start. |
| `Hero.AdvanceWraps` | src/components/Hero.tsx:40 | k ≤ n steps forward move the index k places, wrapping once past the end. |
| `Hero.FullTurn` | src/components/Hero.tsx:5-40 | As many steps forward as there are slides return to the start. |
| `Hero.Carousel.constructor` | src/components/Hero.tsx:30 | The first slide is shown. |
| `Hero.Carousel.NextSlide` | src/components/Hero.tsx:39-41 | The index moves one slide forward, wrapping, and stays in range. |
| `Hero.Carousel.PrevSlide` | src/components/Hero.tsx:43-45 | The index moves one slide back, wrapping, and stays in range. |
| `Hero.Carousel.SelectDot` | src/components/Hero.tsx:117 | Clicking dot i shows slide i. |
| `Admin.InitialOrders` | src/pages/Admin.tsx:14-17 | The user's orders when there are any; otherwise the two mock orders ORD-123 and ORD-124. |
| `Admin.MockOrders` | src/pages/Admin.tsx:15-16 | The two mock orders ORD-123 (150, 'Pendiente') and ORD-124 (85, 'Pago Aprobado'). `Admin.InitialOrders` states when they are used. |
| `Admin.WithStatusSpec` | src/pages/Admin.tsx:23-25 | Only orders with that id change, and only in status. The count is kept, and an unknown id changes nothing. |
| `Admin.WithStatus` | src/pages/Admin.tsx:24 | Every order with the id takes the new status; the count is kept. `Admin.WithStatusSpec` and `Admin.WithStatusIdempotent` state the rest. |
| `Admin.WithStatusIdempotent` | src/pages/Admin.tsx:24 | Setting the same status twice equals setting it once. |
| `Admin.AdminPanel.constructor` | src/pages/Admin.tsx:14-21 | The orders start from the fallback rule, and the coupon inputs are empty. |
| `Admin.AdminPanel.HandleStatusChange` | src/pages/Admin.tsx:23-25 | The orders take the status update, and the count is kept. |
| `Admin.AdminPanel.HandleAddCoupon` | src/pages/Admin.tsx:27-38 | With both inputs filled, the upper-cased active coupon is upserted and both inputs are cleared. Otherwise the registry and the inputs are unchanged. |
| `Admin.AdminPanel.HandleSaveSettings` | src/pages/Admin.tsx:40-43 | The threshold becomes the parsed amount. |
| `Checkout.NameSplit` | src/pages/Checkout.tsx:41-42 | With a space in the name, first + " " + last is the name. Without one, the first name is the name and the last name is empty. The first name has no space. |
| `Checkout.FirstName` | src/pages/Checkout.tsx:41 | The part of the name before its first space. `Checkout.NameSplit` states it. |
| `Checkout.LastName` | src/pages/Checkout.tsx:42 | The part of the name after its first space, or empty. `Checkout.NameSplit` states it. |
| `Checkout.PrefillSpec` | src/pages/Checkout.tsx:36-47 | Email, address, city and postal code come from the profile, each missing one as "". The name fields split the profile name at its first space: with a space, first name, a space and last name give the name back; without one, the first name is the whole name and the last name is empty. Country and the payment fields are kept. |
| `Checkout.Prefill` | src/pages/Checkout.tsx:36-47 | The form after the prefill for a signed-in user. `Checkout.PrefillSpec` states it. |
| `Checkout.ReferenceInput` | src/pages/Checkout.tsx:337-342 | The field either keeps its value or takes the digits of what was typed. |
| `Checkout.ReferenceInputSpec` | src/pages/Checkout.tsx:339-341 | The field stays digits-only. With pago móvil up to four digits are taken and more than four are refused, so from a field of at most four digits it never passes four. With transferencia every digit is taken. |
| `Checkout.CheckoutPage.constructor` | src/pages/Checkout.tsx:13-31 | Empty form (country Mexico), pago móvil, empty coupon box, not processing, no success. |
| `Checkout.CheckoutPage.PrefillFrom` | src/pages/Checkout.tsx:36-47 | The form takes the prefill, and nothing else changes. |
| `Checkout.CheckoutPage.ChangeReference` | src/pages/Checkout.tsx:337-342 | Only the reference field changes, by the sanitiser. |
| `Text.TrimIdeographicSpace` | src/pages/Checkout.tsx:57-58 | An ideographic space (U+3000, a Unicode space separator) before a code is trimmed away, and one alone trims to nothing, as `trim` does. |
| `Checkout.CheckoutPage.HandleApplyCoupon` | src/pages/Checkout.tsx:55-66 | The error is cleared, and a blank input does nothing more. Otherwise the trimmed code is applied: success stores the coupon and empties the input; failure shows the error and keeps the coupon. The cart, registry, threshold, sidebar flag, form and processing flags are unchanged. |
| `Checkout.CheckoutPage.HandleSubmit` | src/pages/Checkout.tsx:68-90 | The order is prepended with the id built from the clock reading, the final total and the cart lines at submit time, pending. The cart then ends empty with no coupon, and the page shows success. The coupon box, registry, threshold and sidebar flag are unchanged. |
| `Profile.FavoriteProducts` | src/pages/Profile.tsx:58 | Exactly the catalog products whose id is a favourite. |
| `Profile.FavoritesBySetOnly` | src/pages/Profile.tsx:58 | Only the set of favourite ids matters, so duplicates and order in it change nothing. |
| `Profile.NoFavorites` | src/pages/Profile.tsx:58 | No favourites, no products. |
| `Profile.FavoritesInCatalogOrder` | src/pages/Profile.tsx:58 | The favourites keep catalog order: those of two catalog parts together are those of the first part followed by those of the second. |
| `Profile.FavoritesUnique` | src/pages/Profile.tsx:58 | Over a catalog with unique ids, each product is shown once. |
| `Profile.ActiveTab` | src/pages/Profile.tsx:23 | The tab is never empty: it is "profile" or the parameter's value. |
| `Profile.ActiveTabSpec` | src/pages/Profile.tsx:23-27 | An absent or empty parameter gives "profile", and a non-empty one gives its value. Setting a tab and reading it back gives the tab. |
| `Catalog.CatalogIds` | src/data/products.ts:11-72 | The product ids are 1 to 8, and unique. |
| `Catalog.CatalogPrices` | src/data/products.ts:11-72 | Every price is positive, and no entry carries a sale price. |
| `Catalog.CategoryIdsUnique` | src/data/products.ts:74-95 | Category ids are unique. |
| `Catalog.BolsosIsEmpty` | src/data/products.ts:90-94 | The category 'Bolsos' has no product. |
| `Catalog.UnlistedCategoriesHoldProducts` | src/data/products.ts:20-50 | 'Blusas' and 'Pantalones' hold products. |
| `Catalog.UnlistedCategoriesNotOffered` | src/data/products.ts:74-95 | 'Blusas' and 'Pantalones' are not among the listed categories. |

## Left out

- JSX rendering, motion animations, class names and `toFixed` formatting. The pages About, Home,
  Footer, ProductCard and CartSidebar are presentation only.
- react-router: `navigate`, `useSearchParams` as a library, and `encodeURIComponent`. URL
  parameters are a plain map; the navigation target is returned as the raw query.
- The provider wiring in `App.tsx`. The stores are independent objects passed to the page
  methods.
- localStorage persistence of the user, favourites, orders and the recently viewed ids. The
  stored id list is an input and an output of `ProductDetail.NewViewedIds`.
- `login` and `register`: they are timed mocks.
- The `setTimeout` delays in checkout. Only the resulting state step is modelled.
- The slide `setInterval`: it takes the same step as `Hero.Carousel.NextSlide`.
- `Math.random` in related products. The shuffle is a parameter constrained to be a permutation.
- `Date.now` and `toISOString`. The clock reading and the date are parameters; `Auth.OrderId`
  builds the order id from the reading, and its contract gives the id's shape.
- IEEE floating point: money is an exact real. `Number(...)` parsing: parsed values are
  parameters.
- Unicode case mapping: `Text.Lower` and `Text.Upper` fold ASCII letters only.
- `window.scrollTo`, `alert` and `focus`.
- The inline setters of the shop's price range and sort select, and of the checkout's other form
  fields and payment-method switch. Each assigns one field.
- The checkout page's remove-coupon button and the admin page's coupon toggle and delete
  buttons: each calls one store method directly (`Cart.CartStore.RemoveCoupon`,
  `Cart.CartStore.ToggleCouponStatus`, `Cart.CartStore.DeleteCoupon`).
- `Shop.ShopPage.FilteredProducts` sorts a value rather than sorting an array in place. `result`
  is a fresh copy of the products in the source, so no shared state is lost. `Shop.Sort` is a
  reference stable sort: for this comparator, the stable `Array.prototype.sort` must give the
  same order.
- `Auth.MergeProfile`: a `Partial<User>` whose key is present with the value `undefined` is not
  modelled. An absent key and `None` are the same.
- `Checkout.ReferenceInputSpec`: the four-digit bound under pago móvil holds only from a field of at
  most four digits. A longer reference typed under transferencia survives the switch to pago móvil,
  because that switch only sets the method; the field then refuses every change that leaves more
  than four digits. From six digits or more, a one-character deletion is refused too, until the
  field is cleared or cut to four digits or fewer in one step.
- The page guards that redirect a visitor who is not signed in, such as the checkout and profile
  redirects to the login page.
