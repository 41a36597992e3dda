/** The product store: the editable product list, seeded with the catalog. */
module ProductStore {

  import opened Catalog

  /** `prev.map(p => p.id === updated.id ? updated : p)`. */
  function ReplaceById(products: seq<Product>, updated: Product): (r: seq<Product>)
    ensures |r| == |products|
  {
    seq(|products|, i requires 0 <= i < |products| => if products[i].id == updated.id then updated else products[i])
  }

  /** Every entry with the updated id becomes the update; every other entry stays where it was. */
  lemma ReplaceByIdSpec(products: seq<Product>, updated: Product)
    ensures var r := ReplaceById(products, updated);
      forall i :: 0 <= i < |r| ==>
        (products[i].id == updated.id ==> r[i] == updated) && (products[i].id != updated.id ==> r[i] == products[i])
  {
  }

  /** An update whose id no entry has changes nothing. */
  lemma ReplaceAbsent(products: seq<Product>, updated: Product)
    requires forall i :: 0 <= i < |products| ==> products[i].id != updated.id
    ensures ReplaceById(products, updated) == products
  {
  }

  /** Applying the same update twice is applying it once. */
  lemma ReplaceIdempotent(products: seq<Product>, updated: Product)
    ensures ReplaceById(ReplaceById(products, updated), updated) == ReplaceById(products, updated)
  {
  }

  /** The sequence of ids is unchanged; so unique ids stay unique. */
  lemma ReplaceKeepsIds(products: seq<Product>, updated: Product)
    ensures ProductIds(ReplaceById(products, updated)) == ProductIds(products)
  {
  }

  class ProductStore {
    var products: seq<Product>

    constructor ()
      ensures products == Products
    {
      products := Products;
    }

    method UpdateProduct(updated: Product)
      modifies this
      ensures products == ReplaceById(old(products), updated)
      ensures |products| == |old(products)|
      ensures ProductIds(products) == ProductIds(old(products))
    {
      ReplaceKeepsIds(products, updated);
      products := ReplaceById(products, updated);
    }
  }
}
