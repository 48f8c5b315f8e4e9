/**
 * The "Trending Now" section on the home page
 * (components/home/trending-section.tsx): the first four products of the
 * admin products store whose optional trending flag is `true`, each shown
 * on a card without its featured badge.
 */
module TrendingSection {
  import opened Wrappers
  import opened Seqs
  import opened Catalog
  import opened ProductCard

  /** At most this many cards are shown (`.slice(0, 4)`). */
  const MaxCards := 4

  /** The filter callback `p => p.is_trending === true`: an absent flag does not count. */
  function IsTrending(p: Product): bool { p.isTrending == Some(true) }

  /** The products the section keeps after the store's fetch. */
  function TrendingSelection(products: seq<Product>): (r: seq<Product>)
    ensures |r| <= MaxCards
    ensures forall i :: 0 <= i < |r| ==> r[i].isTrending == Some(true)
  {
    Take(Filter(products, IsTrending), MaxCards)
  }

  /**
   * The section holds the first trending products in store order: all of
   * them when there are at most four, the first four otherwise; a product
   * whose flag is false or absent is never among them.
   */
  lemma SelectionIsFirstTrending(products: seq<Product>)
    ensures TrendingSelection(products) <= Filter(products, IsTrending)
    ensures |Filter(products, IsTrending)| <= MaxCards ==> TrendingSelection(products) == Filter(products, IsTrending)
    ensures |Filter(products, IsTrending)| > MaxCards ==> |TrendingSelection(products)| == MaxCards
    ensures IsSubsequence(TrendingSelection(products), products)
  {
    PrefixIsSubsequence(TrendingSelection(products), Filter(products, IsTrending), products);
  }

  /** The section renders nothing exactly when no product is trending. */
  lemma HiddenIffNoneTrending(products: seq<Product>)
    ensures TrendingSelection(products) == [] <==> forall i :: 0 <= i < |products| ==> products[i].isTrending != Some(true)
  {
    FilterEmptyIff(products, IsTrending);
  }

  /** Every card is rendered with `hideFeaturedBadge`, so no trending card shows the featured badge. */
  lemma NoFeaturedBadge(products: seq<Product>)
    ensures forall i :: 0 <= i < |TrendingSelection(products)| ==> !ShowsFeaturedBadge(TrendingSelection(products)[i], true)
  {
  }
}
