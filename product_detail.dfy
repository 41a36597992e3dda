/** The product page: the recently viewed list, related products, the quantity stepper and the
    collapsible sections. */
module ProductDetail {

  import opened Seqs
  import opened Catalog

  const MaxStoredViews: nat := 8
  const MaxShownViews: nat := 4
  const MaxRelated: nat := 4

  // ---------------------------------------------------------------------------------------
  // Recently viewed

  function Without(ids: seq<int>, id: int): (r: seq<int>)
    ensures forall i :: 0 <= i < |r| ==> r[i] != id && r[i] in ids
    ensures forall i :: 0 <= i < |ids| && ids[i] != id ==> ids[i] in r
  {
    Filter((v: int) => v != id, ids)
  }

  /** The stored id list after viewing `id`: moved (or put) to the front, at most eight kept. */
  function NewViewedIds(viewed: seq<int>, id: int): (r: seq<int>)
    ensures 1 <= |r| <= MaxStoredViews && r[0] == id
    ensures |r| == if 1 + |Without(viewed, id)| < MaxStoredViews then 1 + |Without(viewed, id)| else MaxStoredViews
    ensures r[1..] <= Without(viewed, id)
  {
    var r := Take([id] + Without(viewed, id), MaxStoredViews);
    assert r[1..] <= Without(viewed, id);
    r
  }

  /** The product with id `vid`, as `products.find` gives it. */
  function Lookup(catalog: seq<Product>, vid: int): (r: Option<Product>)
    ensures r.Some? ==> r.value in catalog && r.value.id == vid
    ensures r.None? <==> forall i :: 0 <= i < |catalog| ==> catalog[i].id != vid
    ensures r.Some? ==> exists k :: 0 <= k < |catalog| && catalog[k] == r.value && forall j :: 0 <= j < k ==> catalog[j].id != vid
  {
    Find((p: Product) => p.id == vid, catalog)
  }

  predicate InCatalog(catalog: seq<Product>, vid: int)
  {
    exists i :: 0 <= i < |catalog| && catalog[i].id == vid
  }

  /** The `map` to products followed by the `filter` that drops unknown ids and the current one. */
  function ViewedOthers(viewed: seq<int>, catalog: seq<Product>, currentId: int): (r: seq<Product>)
    ensures forall i :: 0 <= i < |r| ==> r[i] in catalog && r[i].id != currentId
  {
    if viewed == [] then []
    else
      var found := Lookup(catalog, viewed[0]);
      (if found.Some? && found.value.id != currentId then [found.value] else [])
        + ViewedOthers(viewed[1..], catalog, currentId)
  }

  /** The recently viewed products shown: the first four of those. */
  function ShownViewed(viewed: seq<int>, catalog: seq<Product>, currentId: int): (r: seq<Product>)
    ensures |r| <= MaxShownViews
    ensures forall i :: 0 <= i < |r| ==> r[i] in catalog && r[i].id != currentId
  {
    Take(ViewedOthers(viewed, catalog, currentId), MaxShownViews)
  }

  /** The ids kept by the display filter: known to the catalog and not the current product. */
  function ShownIds(viewed: seq<int>, catalog: seq<Product>, currentId: int): seq<int>
  {
    Filter((v: int) => v != currentId && InCatalog(catalog, v), viewed)
  }

  // ---------------------------------------------------------------------------------------
  // Related products

  /** `products.filter(p => p.category === product.category && p.id !== product.id)`. */
  function SameCategory(catalog: seq<Product>, product: Product): (r: seq<Product>)
    ensures forall i :: 0 <= i < |r| ==> r[i] in catalog && r[i].category == product.category && r[i].id != product.id
  {
    Filter((p: Product) => p.category == product.category && p.id != product.id, catalog)
  }

  /** The candidates for the fill: the other categories' products, without the current one. */
  function OtherCategories(catalog: seq<Product>, product: Product): (r: seq<Product>)
    ensures forall i :: 0 <= i < |r| ==> r[i] in catalog && r[i].category != product.category && r[i].id != product.id
  {
    Filter((p: Product) => p.category != product.category && p.id != product.id, catalog)
  }

  /** `getRelatedProducts`, with the random shuffle of the fill candidates passed in. */
  function RelatedProducts(catalog: seq<Product>, product: Product, shuffled: seq<Product>): seq<Product>
    requires multiset(shuffled) == multiset(OtherCategories(catalog, product))
  {
    var related := SameCategory(catalog, product);
    if |related| < MaxRelated then related + Take(shuffled, MaxRelated - |related|) else related
  }

  // ---------------------------------------------------------------------------------------
  // Facts

  /** The viewed id is first and appears once; the others keep their order; a duplicate-free
      list stays duplicate-free. */
  lemma NewViewedIdsSpec(viewed: seq<int>, id: int)
    ensures var r := NewViewedIds(viewed, id);
      && Count(r, id) == 1
      && (NoDuplicates(viewed) ==> NoDuplicates(r))
  {
    var rest := Without(viewed, id);
    var r := NewViewedIds(viewed, id);
    var tail := r[1..];
    assert r == [id] + tail;
    assert id !in tail by {
      forall i | 0 <= i < |tail| ensures tail[i] != id {
        assert tail[i] == rest[i];
      }
    }
    CountAppend([id], tail, id);
    if NoDuplicates(viewed) {
      FilterNoDuplicates((v: int) => v != id, viewed);
      forall i, j | 0 <= i < j < |r| ensures r[i] != r[j] {
        if i > 0 {
          assert r[i] == rest[i - 1] && r[j] == rest[j - 1];
        }
      }
    }
  }

  /** The shown products are, in stored order, those of the stored ids that the catalog knows and
      that are not the current product. */
  lemma {:induction false} ViewedOthersIds(viewed: seq<int>, catalog: seq<Product>, currentId: int)
    ensures ProductIds(ViewedOthers(viewed, catalog, currentId)) == ShownIds(viewed, catalog, currentId)
  {
    if viewed != [] {
      ViewedOthersIds(viewed[1..], catalog, currentId);
      var found := Lookup(catalog, viewed[0]);
      var head := if found.Some? && found.value.id != currentId then [found.value] else [];
      var rest := ViewedOthers(viewed[1..], catalog, currentId);
      ProductIdsAppend(head, rest);
      var keep := viewed[0] != currentId && InCatalog(catalog, viewed[0]);
      assert found.Some? <==> InCatalog(catalog, viewed[0]);
      assert ProductIds(head) == if keep then [viewed[0]] else [];
      assert ShownIds(viewed, catalog, currentId)
          == (if keep then [viewed[0]] else []) + ShownIds(viewed[1..], catalog, currentId);
    }
  }

  lemma ProductIdsAppend(a: seq<Product>, b: seq<Product>)
    ensures ProductIds(a + b) == ProductIds(a) + ProductIds(b)
  {
  }

  /** The shown ids are the first four of the stored ids the catalog knows, current one excluded. */
  lemma ShownViewedIds(viewed: seq<int>, catalog: seq<Product>, currentId: int)
    ensures ProductIds(ShownViewed(viewed, catalog, currentId)) == Take(ShownIds(viewed, catalog, currentId), MaxShownViews)
  {
    ViewedOthersIds(viewed, catalog, currentId);
    var all := ViewedOthers(viewed, catalog, currentId);
    if |all| > MaxShownViews {
      assert ProductIds(all[..MaxShownViews]) == ProductIds(all)[..MaxShownViews];
    }
  }

  /** However it is shuffled, the fill comes from the other categories' products. */
  lemma FillFromOthers(catalog: seq<Product>, product: Product, shuffled: seq<Product>, n: nat)
    requires multiset(shuffled) == multiset(OtherCategories(catalog, product))
    ensures var fill := Take(shuffled, n);
      forall i :: 0 <= i < |fill| ==>
        fill[i].id != product.id && fill[i] in catalog && fill[i].category != product.category
  {
    var others := OtherCategories(catalog, product);
    var fill := Take(shuffled, n);
    forall i | 0 <= i < |fill|
      ensures fill[i].id != product.id && fill[i] in catalog && fill[i].category != product.category
    {
      assert fill[i] == shuffled[i];
      assert fill[i] in multiset(others);
      var k :| 0 <= k < |others| && others[k] == fill[i];
    }
  }

  /** Related products never hold the current product; the same-category products come first, in
      catalog order; four or more of them make up the whole list, fewer are topped up from the
      other categories to four, or to as many as there are. */
  lemma RelatedSpec(catalog: seq<Product>, product: Product, shuffled: seq<Product>)
    requires multiset(shuffled) == multiset(OtherCategories(catalog, product))
    ensures var r := RelatedProducts(catalog, product, shuffled);
      var same := SameCategory(catalog, product);
      && (forall i :: 0 <= i < |r| ==> r[i].id != product.id && r[i] in catalog)
      && r[..|same|] == same
      && (|same| >= MaxRelated ==> r == same)
      && (|same| < MaxRelated ==>
            && |r| <= MaxRelated
            && |r| == (if |same| + |OtherCategories(catalog, product)| < MaxRelated
                       then |same| + |OtherCategories(catalog, product)| else MaxRelated)
            && forall i :: |same| <= i < |r| ==> r[i].category != product.category)
  {
    var same := SameCategory(catalog, product);
    if |same| < MaxRelated {
      var fill := Take(shuffled, MaxRelated - |same|);
      assert |shuffled| == |OtherCategories(catalog, product)| by {
        assert |multiset(shuffled)| == |multiset(OtherCategories(catalog, product))|;
      }
      FillFromOthers(catalog, product, shuffled, MaxRelated - |same|);
      AppendFacts(same, fill, product);
    }
  }

  lemma AppendFacts(same: seq<Product>, fill: seq<Product>, product: Product)
    requires forall i :: 0 <= i < |same| ==> same[i].id != product.id
    requires forall i :: 0 <= i < |fill| ==> fill[i].id != product.id && fill[i].category != product.category
    ensures var r := same + fill;
      && (forall i :: 0 <= i < |r| ==> r[i].id != product.id)
      && r[..|same|] == same
      && (forall i :: |same| <= i < |r| ==> r[i].category != product.category)
  {
    var r := same + fill;
    assert forall i :: |same| <= i < |r| ==> r[i] == fill[i - |same|];
    assert r[..|same|] == same;
  }

  // ---------------------------------------------------------------------------------------
  // Page state

  class DetailPanel {
    var quantity: int
    var openSection: Option<string>

    predicate Valid()
      reads this
    {
      quantity >= 1
    }

    constructor ()
      ensures Valid() && quantity == 1 && openSection == None
    {
      quantity := 1;
      openSection := None;
    }

    /** The minus button: `Math.max(1, quantity - 1)`. */
    method Decrement()
      modifies this
      ensures Valid()
      ensures quantity == if old(quantity) - 1 > 1 then old(quantity) - 1 else 1
      ensures openSection == old(openSection)
    {
      quantity := if quantity - 1 > 1 then quantity - 1 else 1;
    }

    /** The plus button. */
    method Increment()
      requires Valid()
      modifies this
      ensures Valid() && quantity == old(quantity) + 1
      ensures openSection == old(openSection)
    {
      quantity := quantity + 1;
    }

    /** `toggleSection`: the open section closes, any other section opens alone. */
    method ToggleSection(section: string)
      modifies this
      ensures openSection == if old(openSection) == Some(section) then None else Some(section)
      ensures quantity == old(quantity)
    {
      openSection := if openSection == Some(section) then None else Some(section);
    }
  }
}
