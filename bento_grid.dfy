/**
 * The "Featured Collection" grid on the home page
 * (components/home/bento-grid.tsx): the first eight featured products of
 * the admin products store, and nothing at all when none is featured.
 */
module BentoGrid {
  import opened Seqs
  import opened Catalog

  /** At most this many cards are shown (`featured.slice(0, 8)`). */
  const MaxCards := 8

  /** The filter callback `p => p.featured === true`. */
  function IsFeatured(p: Product): bool { p.featured }

  /** The products the grid keeps after the store's fetch. */
  function FeaturedSelection(products: seq<Product>): (r: seq<Product>)
    ensures |r| <= MaxCards
    ensures forall i :: 0 <= i < |r| ==> r[i].featured
  {
    Take(Filter(products, IsFeatured), MaxCards)
  }

  /**
   * The grid holds the first featured products in store order: all of
   * them when there are at most eight, the first eight otherwise.
   */
  lemma SelectionIsFirstFeatured(products: seq<Product>)
    ensures FeaturedSelection(products) <= Filter(products, IsFeatured)
    ensures |Filter(products, IsFeatured)| <= MaxCards ==> FeaturedSelection(products) == Filter(products, IsFeatured)
    ensures |Filter(products, IsFeatured)| > MaxCards ==> |FeaturedSelection(products)| == MaxCards
    ensures IsSubsequence(FeaturedSelection(products), products)
  {
    PrefixIsSubsequence(FeaturedSelection(products), Filter(products, IsFeatured), products);
  }

  /** The section renders nothing exactly when no product is featured. */
  lemma HiddenIffNoneFeatured(products: seq<Product>)
    ensures FeaturedSelection(products) == [] <==> forall i :: 0 <= i < |products| ==> !products[i].featured
  {
    FilterEmptyIff(products, IsFeatured);
  }

  /** The "View All Products" link needs more than eight cards, which the selection never has. */
  lemma ViewAllNeverShown(products: seq<Product>)
    ensures !(|FeaturedSelection(products)| > MaxCards)
  {
  }
}
