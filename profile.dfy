/** The profile page: the favourite products shown and the tab chosen by the URL. */
module Profile {

  import opened Seqs
  import opened Catalog

  /** `products.filter(p => favorites.includes(p.id))`. */
  function FavoriteProducts(catalog: seq<Product>, favorites: seq<int>): (r: seq<Product>)
    ensures |r| <= |catalog|
    ensures forall i :: 0 <= i < |r| ==> r[i] in catalog && r[i].id in favorites
    ensures forall i :: 0 <= i < |catalog| && catalog[i].id in favorites ==> catalog[i] in r
  {
    Filter((p: Product) => p.id in favorites, catalog)
  }

  /** `searchParams.get('tab') || 'profile'`. */
  function ActiveTab(params: map<string, string>): (r: string)
    ensures r != ""
    ensures r == "profile" || ("tab" in params && r == params["tab"])
  {
    if "tab" in params && params["tab"] != "" then params["tab"] else "profile"
  }

  /** Only which ids are favourites matters: repeating or reordering ids changes nothing. */
  lemma FavoritesBySetOnly(catalog: seq<Product>, favorites: seq<int>, other: seq<int>)
    requires forall x :: x in favorites <==> x in other
    ensures FavoriteProducts(catalog, favorites) == FavoriteProducts(catalog, other)
  {
    FilterExtensional((p: Product) => p.id in favorites, (p: Product) => p.id in other, catalog);
  }

  /** No favourites, no favourite products. */
  lemma NoFavorites(catalog: seq<Product>)
    ensures FavoriteProducts(catalog, []) == []
  {
    FilterDropsAll((p: Product) => p.id in [], catalog);
  }

  /** The selection keeps catalog order: the favourites of two catalog parts are those of the
      first part followed by those of the second. */
  lemma FavoritesInCatalogOrder(a: seq<Product>, b: seq<Product>, favorites: seq<int>)
    ensures FavoriteProducts(a + b, favorites) == FavoriteProducts(a, favorites) + FavoriteProducts(b, favorites)
  {
    FilterAppend((p: Product) => p.id in favorites, a, b);
  }

  /** Over a catalog with unique ids the selection holds each product once, whatever duplicates
      the favourites list holds. */
  lemma FavoritesUnique(catalog: seq<Product>, favorites: seq<int>)
    requires UniqueIds(catalog)
    ensures UniqueIds(FavoriteProducts(catalog, favorites))
  {
    UniqueIdsFilter((p: Product) => p.id in favorites, catalog);
  }

  lemma UniqueIdsFilter(f: Product -> bool, ps: seq<Product>)
    requires UniqueIds(ps)
    ensures UniqueIds(Filter(f, ps))
  {
    assert DistinctKeys((p: Product) => p.id, ps);
    FilterDistinctKeys(f, (p: Product) => p.id, ps);
  }

  /** The tab is the parameter's value when it is given and non-empty, and "profile" otherwise;
      `setActiveTab(t)` followed by this reading gives `t` back. */
  lemma ActiveTabSpec(params: map<string, string>, tab: string)
    ensures "tab" !in params || params["tab"] == "" ==> ActiveTab(params) == "profile"
    ensures "tab" in params && params["tab"] != "" ==> ActiveTab(params) == params["tab"]
    ensures tab != "" ==> ActiveTab(map["tab" := tab]) == tab
  {
  }
}
