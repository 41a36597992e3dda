/** The catalog data: the `Product` record and the fixed `products` and `categories` lists. */
module Catalog {

  import opened Seqs

  /** A sellable item. `isNew` and `isSale` are optional flags in the source; an absent flag
      reads as `false`. The record type declares no `salePrice`, yet the shop page reads one,
      so it is an optional field here that every catalog entry leaves unset. */
  datatype Product = Product(
    id: int,
    name: string,
    price: real,
    image: string,
    category: string,
    isNew: bool,
    isSale: bool,
    salePrice: Option<real>)

  datatype Category = Category(id: int, name: string, image: string)

  /** The initial product list. */
  const Products: seq<Product> := [
      Product(1, "Vestido Floral de Verano", 45.00, "https://images.unsplash.com/photo-1572804013309-59a88b7e92f1?q=80&w=1000&auto=format&fit=crop", "Vestidos", true, false, None),
      Product(2, "Blusa de Seda Blanca", 32.00, "https://images.unsplash.com/photo-1564257631407-4deb1f99d992?q=80&w=1000&auto=format&fit=crop", "Blusas", false, false, None),
      Product(3, "Pantalón Palazzo Negro", 55.00, "https://images.unsplash.com/photo-1509631179647-0177331693ae?q=80&w=1000&auto=format&fit=crop", "Pantalones", false, true, None),
      Product(4, "Chaqueta de Mezclilla", 68.00, "https://images.unsplash.com/photo-1544441893-675973e31985?q=80&w=1000&auto=format&fit=crop", "Chaquetas", false, false, None),
      Product(5, "Falda Midi Plisada", 38.00, "https://images.unsplash.com/photo-1583496661160-fb5886a0aaaa?q=80&w=1000&auto=format&fit=crop", "Faldas", true, false, None),
      Product(6, "Suéter de Punto Beige", 42.00, "https://images.unsplash.com/photo-1576566588028-4147f3842f27?q=80&w=1000&auto=format&fit=crop", "Suéteres", false, false, None),
      Product(7, "Bolso de Cuero Marrón", 85.00, "https://images.unsplash.com/photo-1584917865442-de89df76afd3?q=80&w=1000&auto=format&fit=crop", "Accesorios", false, false, None),
      Product(8, "Tacones Clásicos Nude", 60.00, "https://images.unsplash.com/photo-1543163521-1bf539c55dd2?q=80&w=1000&auto=format&fit=crop", "Zapatos", false, true, None)
    ]

  /** The category list shown by the shop's category filter and the navigation menu. */
  const Categories: seq<Category> := [
      Category(1, "Vestidos", "https://images.unsplash.com/photo-1595777457583-95e059d581b8?q=80&w=1000&auto=format&fit=crop"),
      Category(2, "Accesorios", "https://images.unsplash.com/photo-1611591437281-460bfbe1220a?q=80&w=1000&auto=format&fit=crop"),
      Category(3, "Zapatos", "https://images.unsplash.com/photo-1560343090-f0409e92791a?q=80&w=1000&auto=format&fit=crop"),
      Category(4, "Bolsos", "https://images.unsplash.com/photo-1584917865442-de89df76afd3?q=80&w=1000&auto=format&fit=crop")
    ]

  function ProductIds(ps: seq<Product>): (r: seq<int>)
    ensures |r| == |ps| && forall i :: 0 <= i < |ps| ==> r[i] == ps[i].id
  {
    seq(|ps|, i requires 0 <= i < |ps| => ps[i].id)
  }

  predicate UniqueIds(ps: seq<Product>)
  {
    forall i, j :: 0 <= i < j < |ps| ==> ps[i].id != ps[j].id
  }

  /** The products of one category, in catalog order. */
  function InCategory(ps: seq<Product>, category: string): (r: seq<Product>)
  {
    Filter((p: Product) => p.category == category, ps)
  }

  /** The catalog ids are 1 to 8, in order, and therefore distinct. */
  lemma CatalogIds()
    ensures ProductIds(Products) == [1, 2, 3, 4, 5, 6, 7, 8]
    ensures UniqueIds(Products)
  {
  }

  /** Every catalog price is positive and no catalog entry has a sale price. */
  lemma CatalogPrices()
    ensures forall i :: 0 <= i < |Products| ==> Products[i].price > 0.0 && Products[i].salePrice.None?
  {
  }

  /** The category ids are distinct. */
  lemma CategoryIdsUnique()
    ensures forall i, j :: 0 <= i < j < |Categories| ==> Categories[i].id != Categories[j].id
  {
  }

  /** The category "Bolsos" is offered but holds no product. */
  lemma BolsosIsEmpty()
    ensures InCategory(Products, "Bolsos") == []
  {
    var ps := Products;
    assert forall i :: 0 <= i < |ps| ==> ps[i].category != "Bolsos";
    FilterDropsAll((p: Product) => p.category == "Bolsos", ps);
  }

  /** "Blusas" and "Pantalones" hold products ... */
  lemma UnlistedCategoriesHoldProducts()
    ensures Products[1] in InCategory(Products, "Blusas")
    ensures Products[2] in InCategory(Products, "Pantalones")
  {
    var ps := Products;
    assert ps[1].category == "Blusas" && ps[2].category == "Pantalones";
  }

  /** ... but are not among the offered categories. */
  lemma UnlistedCategoriesNotOffered()
    ensures forall i :: 0 <= i < |Categories| ==> Categories[i].name != "Blusas" && Categories[i].name != "Pantalones"
  {
  }
}
