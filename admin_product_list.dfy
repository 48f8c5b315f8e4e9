/**
 * The admin product list page (app/admin/products/page.tsx): the search
 * box over product names, the stock colouring, the empty and no-match
 * messages, and the handlers that delete a product or flip one of its
 * three home page flags through the admin products store.
 */
module AdminProductList {
  import opened Wrappers
  import opened Seqs
  import opened Text
  import opened Catalog
  import opened Utils
  import opened AdminProducts

  /** The product's lowercased name contains the lowercased query. */
  predicate NameMatches(p: Product, query: string)
  {
    Contains(Lower(p.name), Lower(query))
  }

  /** The filter callback of the page for one query. */
  function NameMatchesQuery(query: string): Product -> bool { (p: Product) => NameMatches(p, query) }

  /** `filteredProducts`: the products whose name matches the query, in store order. */
  function FilteredProducts(products: seq<Product>, query: string): (r: seq<Product>)
    ensures |r| == Count(products, NameMatchesQuery(query))
    ensures forall i :: 0 <= i < |r| ==> NameMatches(r[i], query)
    ensures forall i :: 0 <= i < |products| && NameMatches(products[i], query) ==> products[i] in r
    ensures IsSubsequence(r, products)
  {
    Filter(products, NameMatchesQuery(query))
  }

  /** An empty search box lists every product, in store order. */
  lemma EmptyQueryShowsAll(products: seq<Product>)
    ensures FilteredProducts(products, "") == products
  {
    forall i | 0 <= i < |products| ensures NameMatchesQuery("")(products[i]) {
      ContainsEmpty(Lower(products[i].name));
    }
    FilterAll(products, NameMatchesQuery(""));
  }

  /** "No products yet" is shown when the store holds no product. */
  predicate ShowsEmptyState(products: seq<Product>) { |products| == 0 }

  /** "No products match your search": the filtered list is empty while the store is not. */
  predicate ShowsNoMatch(products: seq<Product>, query: string)
  {
    |FilteredProducts(products, query)| == 0 && |products| > 0
  }

  /** The no-match message shows exactly when there are products and none of their names matches. */
  lemma NoMatchIff(products: seq<Product>, query: string)
    ensures ShowsNoMatch(products, query) <==>
              |products| > 0 && forall i :: 0 <= i < |products| ==> !NameMatches(products[i], query)
  {
    if |products| > 0 && forall i :: 0 <= i < |products| ==> !NameMatches(products[i], query) {
      FilterNone(products, NameMatchesQuery(query));
    }
  }

  /** The two messages never show together. */
  lemma MessagesExclusive(products: seq<Product>, query: string)
    ensures !(ShowsEmptyState(products) && ShowsNoMatch(products, query))
  {
  }

  /** The colour of the stock pill. */
  datatype StockTier = Red | Yellow | Green

  /** Red at zero stock, yellow below ten, green otherwise. */
  function Tier(stock: int): (t: StockTier)
    ensures t == Red <==> stock == 0
    ensures t == Yellow <==> stock != 0 && stock < 10
    ensures t == Green <==> stock >= 10
  {
    if stock == 0 then Red else if stock < 10 then Yellow else Green
  }

  /** The pill's colour follows the same three tiers as the shared `getStockStatus` label, for every stock. */
  lemma TierAgreesWithStockStatus(stock: int)
    ensures Tier(stock) == Red <==> GetStockStatus(stock) == "Out of stock"
    ensures Tier(stock) == Yellow <==> GetStockStatus(stock) == "Low stock"
    ensures Tier(stock) == Green <==> GetStockStatus(stock) == "In stock"
  {
  }

  /** An optional flag is truthy only when it holds `true`. */
  predicate Truthy(flag: Option<bool>) { flag == Some(true) }

  /** The partial row a toggle sends to `updateProduct`. */
  datatype Patch = TrendingPatch(isTrending: bool) | FeaturedPatch(featured: bool) | HeroShowcasePatch(isHeroShowcase: bool)

  /** `{ is_trending: !product.is_trending }` */
  function ToggleTrending(p: Product): (patch: Patch)
    ensures patch.TrendingPatch? && patch.isTrending == !Truthy(p.isTrending)
  {
    TrendingPatch(!Truthy(p.isTrending))
  }

  /** `{ featured: !product.featured }` */
  function ToggleFeatured(p: Product): (patch: Patch)
    ensures patch.FeaturedPatch? && patch.featured == !p.featured
  {
    FeaturedPatch(!p.featured)
  }

  /** `{ is_hero_showcase: !product.is_hero_showcase }` */
  function ToggleHeroShowcase(p: Product): (patch: Patch)
    ensures patch.HeroShowcasePatch? && patch.isHeroShowcase == !Truthy(p.isHeroShowcase)
  {
    HeroShowcasePatch(!Truthy(p.isHeroShowcase))
  }

  /** The row the database holds once a patch is written; the other columns are kept. */
  function Patched(p: Product, patch: Patch): Product
  {
    match patch
    case TrendingPatch(b) => p.(isTrending := Some(b))
    case FeaturedPatch(b) => p.(featured := b)
    case HeroShowcasePatch(b) => p.(isHeroShowcase := Some(b))
  }

  /** Whether the flag a patch writes is on for a product. */
  predicate FlagOn(p: Product, patch: Patch)
  {
    match patch
    case TrendingPatch(_) => Truthy(p.isTrending)
    case FeaturedPatch(_) => p.featured
    case HeroShowcasePatch(_) => Truthy(p.isHeroShowcase)
  }

  /**
   * Each toggle flips its flag, an absent flag counting as off, and leaves
   * every other column alone; a second click brings the flag back.
   */
  lemma TogglesFlip(p: Product)
    ensures FlagOn(Patched(p, ToggleTrending(p)), ToggleTrending(p)) == !Truthy(p.isTrending)
    ensures FlagOn(Patched(p, ToggleFeatured(p)), ToggleFeatured(p)) == !p.featured
    ensures FlagOn(Patched(p, ToggleHeroShowcase(p)), ToggleHeroShowcase(p)) == !Truthy(p.isHeroShowcase)
    ensures Patched(p, ToggleTrending(p)).(isTrending := p.isTrending) == p
    ensures Patched(p, ToggleFeatured(p)).(featured := p.featured) == p
    ensures Patched(p, ToggleHeroShowcase(p)).(isHeroShowcase := p.isHeroShowcase) == p
  {
  }

  /** Two clicks on the same toggle leave its flag as it was (an absent flag ends up `false`). */
  lemma ToggleTwice(p: Product)
    ensures var q := Patched(p, ToggleTrending(p));
            Truthy(Patched(q, ToggleTrending(q)).isTrending) == Truthy(p.isTrending)
    ensures var q := Patched(p, ToggleFeatured(p));
            Patched(q, ToggleFeatured(q)) == p
    ensures var q := Patched(p, ToggleHeroShowcase(p));
            Truthy(Patched(q, ToggleHeroShowcase(q)).isHeroShowcase) == Truthy(p.isHeroShowcase)
  {
  }

  /** The toast a toggle handler shows. */
  datatype Notice = Success(flagOn: bool) | UpdateFailed

  /** The page's own state: the search text and the mounted flag. */
  class ProductsPage {
    var searchQuery: string
    var mounted: bool

    constructor()
      ensures searchQuery == "" && !mounted
    {
      searchQuery, mounted := "", false;
    }

    /** Typing in the search box. */
    method SetSearchQuery(text: string)
      modifies this
      ensures searchQuery == text && mounted == old(mounted)
    {
      searchQuery := text;
    }

    /** The mount effect, with the outcome of the store's fetch given. */
    method Mount(store: AdminProductsStore, outcome: Remote<Option<seq<Product>>>)
      modifies this, store
      ensures mounted && searchQuery == old(searchQuery)
      ensures !store.loading
      ensures outcome.Succeeded? ==> store.products == (if outcome.data.Some? then outcome.data.value else [])
      ensures outcome.Failed? ==> store.products == old(store.products)
    {
      mounted := true;
      store.FetchProducts(outcome);
    }

    /** The rows listed under the current search. */
    function Listed(store: AdminProductsStore): (r: seq<Product>)
      reads this, store
      ensures forall i :: 0 <= i < |r| ==> NameMatches(r[i], searchQuery)
      ensures forall i :: 0 <= i < |store.products| && NameMatches(store.products[i], searchQuery) ==> store.products[i] in r
      ensures IsSubsequence(r, store.products)
    {
      FilteredProducts(store.products, searchQuery)
    }
  }

  /**
   * `handleDelete(product)`: the store's delete runs only when the admin
   * confirms, and the success toast is shown as soon as it is started,
   * whatever its outcome (the promise is not awaited).
   */
  method HandleDelete(product: Product, confirmed: bool, store: AdminProductsStore, outcome: Remote<()>)
    returns (toasted: bool)
    modifies store
    ensures toasted == confirmed
    ensures store.loading == old(store.loading)
    ensures !confirmed ==> store.products == old(store.products)
    ensures confirmed && outcome.Succeeded? ==> store.products == WithoutId(old(store.products), product.id)
    ensures confirmed && outcome.Failed? ==> store.products == old(store.products)
  {
    toasted := false;
    if confirmed {
      var _ := store.DeleteProduct(product.id, outcome);
      toasted := true;
    }
  }

  /**
   * One toggle handler: send `patch` for the product through the store's
   * `updateProduct`, then toast success or, when the store rethrows, failure.
   */
  method HandleToggle(product: Product, patch: Patch, store: AdminProductsStore, outcome: Remote<Product>)
    returns (notice: Notice)
    requires patch == ToggleTrending(product) || patch == ToggleFeatured(product) || patch == ToggleHeroShowcase(product)
    modifies store
    ensures store.loading == old(store.loading)
    ensures outcome.Succeeded? ==> notice == Success(!FlagOn(product, patch))
    ensures outcome.Succeeded? ==>
              && |store.products| == |old(store.products)|
              && (forall i :: 0 <= i < |store.products| ==>
                    store.products[i] == if old(store.products)[i].id == product.id then outcome.data else old(store.products)[i])
    ensures outcome.Failed? ==> notice == UpdateFailed && store.products == old(store.products)
  {
    var c := store.UpdateProduct(product.id, outcome);
    if c.Completed? {
      notice := Success(!FlagOn(product, patch));
    } else {
      notice := UpdateFailed;
    }
  }
}
