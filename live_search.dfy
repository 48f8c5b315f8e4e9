/**
 * The live search box (components/shared/live-search.tsx): the query, the
 * dropdown's open flag and the results, recomputed from the admin products
 * store's list whenever the query changes.
 */
module LiveSearch {
  import opened Seqs
  import opened Text
  import opened Catalog

  /** At most this many results are listed (`filtered.slice(0, 5)`). */
  const MaxResults := 5

  /** The product's name, description or category id contains the query, both lowercased. */
  predicate Matches(p: Product, query: string)
  {
    var q := Lower(query);
    Contains(Lower(p.name), q) || Contains(Lower(p.description), q) || Contains(Lower(p.categoryId), q)
  }

  /** The filter callback of the search effect for one query. */
  function MatchesQuery(query: string): Product -> bool { (p: Product) => Matches(p, query) }

  /** The products matching the query, in catalogue order. */
  function Matching(products: seq<Product>, query: string): (r: seq<Product>)
    ensures |r| == Count(products, MatchesQuery(query))
    ensures forall i :: 0 <= i < |r| ==> Matches(r[i], query)
    ensures forall i :: 0 <= i < |products| && Matches(products[i], query) ==> products[i] in r
    ensures IsSubsequence(r, products)
  {
    Filter(products, MatchesQuery(query))
  }

  /** Matching ignores the case of the query's ASCII letters. */
  lemma QueryCaseInsensitive(p: Product, query: string)
    ensures Matches(p, Lower(query)) <==> Matches(p, query)
  {
    LowerIdempotent(query);
  }

  /** Whether a query counts as blank: nothing is left once it is trimmed. */
  predicate IsBlank(query: string) { Trim(query) == [] }

  /** A blank query is all whitespace. */
  lemma BlankIsAllSpace(query: string)
    ensures IsBlank(query) <==> forall i :: 0 <= i < |query| ==> IsSpace(query[i])
  {
    TrimByEmpty(query, IsSpace);
  }

  /** The search component's state. */
  class SearchBox {
    var query: string
    var isOpen: bool
    var results: seq<Product>

    /** The results are matches, at most five of them, and none are listed for a blank query. */
    ghost predicate Valid()
      reads this
    {
      && |results| <= MaxResults
      && AllMatch(results, query)
      && (IsBlank(query) ==> results == [] && !isOpen)
    }

    constructor()
      ensures query == "" && !isOpen && results == []
      ensures Valid()
    {
      query, isOpen, results := "", false, [];
    }

    /**
     * The search effect, run after the query changes: clear and close for a
     * blank query; otherwise list the first five matches of the untrimmed
     * query and open the dropdown when anything matched.
     */
    method SearchEffect(products: seq<Product>)
      modifies this
      ensures query == old(query)
      ensures IsBlank(query) ==> results == [] && !isOpen
      ensures !IsBlank(query) ==> results == Take(Matching(products, query), MaxResults)
      ensures !IsBlank(query) ==> (isOpen <==> SomeMatch(products, query))
      ensures Valid()
    {
      if Trim(query) == [] {
        results, isOpen := [], false;
        return;
      }
      var filtered := Matching(products, query);
      ListedMatch(products, query);
      OpenIffMatch(products, query);
      results := Take(filtered, MaxResults);
      isOpen := |filtered| > 0;
    }

    /** Typing in the box: store the text, then run the search effect over the store's products. */
    method SetQuery(text: string, products: seq<Product>)
      modifies this
      ensures query == text
      ensures IsBlank(text) ==> results == [] && !isOpen
      ensures !IsBlank(text) ==> results == Take(Matching(products, text), MaxResults)
      ensures !IsBlank(text) ==> (isOpen <==> SomeMatch(products, text))
      ensures Valid()
    {
      query := text;
      SearchEffect(products);
    }

    /** The clear button: empty query, no results, closed dropdown. */
    method Clear()
      modifies this
      ensures query == "" && results == [] && !isOpen
      ensures Valid()
    {
      query, results, isOpen := "", [], false;
    }

    /** `onFocus`: reopen the dropdown when there is a query and there are results. */
    method Focus()
      modifies this
      ensures query == old(query) && results == old(results)
      ensures isOpen == (old(isOpen) || (|query| > 0 && |results| > 0))
      ensures old(Valid()) ==> Valid()
    {
      if |query| > 0 && |results| > 0 {
        isOpen := true;
      }
    }

    /** A mouse-down outside the component closes the dropdown and keeps the results. */
    method ClickOutside()
      modifies this
      ensures query == old(query) && results == old(results) && !isOpen
      ensures old(Valid()) ==> Valid()
    {
      isOpen := false;
    }

    /**
     * `handleProductClick(slug)`: clear the query and close the dropdown,
     * then navigate to the product's page, whose path is returned. The
     * cleared query makes the search effect run, which empties the results.
     */
    method HandleProductClick(slug: string, products: seq<Product>) returns (path: string)
      modifies this
      ensures path == "/products/" + slug
      ensures query == "" && !isOpen
      ensures old(query) != "" ==> results == []
      ensures old(query) == "" ==> results == old(results)
    {
      var before := query;
      query, isOpen := "", false;
      if before != "" {
        SearchEffect(products);
      }
      path := "/products/" + slug;
    }

    /** `handleViewAll`: close the dropdown and navigate to the full results for the query. */
    method HandleViewAll() returns (search: string)
      modifies this
      ensures search == query && query == old(query) && results == old(results)
      ensures !isOpen
    {
      isOpen := false;
      search := query;
    }

    /**
     * The "View all" button: it sits inside the dropdown, which renders only
     * while open with some result, and shows when the list is full.
     */
    function ShowViewAll(): (b: bool)
      reads this
      ensures b <==> isOpen && |results| >= MaxResults
      ensures b ==> isOpen && |results| > 0
    {
      isOpen && |results| > 0 && |results| >= 5
    }
  }

  /**
   * Right after a search, "View all" shows exactly when the query is not
   * blank and at least five products match it.
   */
  lemma ViewAllAfterSearch(b: SearchBox, products: seq<Product>)
    requires !IsBlank(b.query) ==> b.results == Take(Matching(products, b.query), MaxResults)
    requires !IsBlank(b.query) ==> (b.isOpen <==> SomeMatch(products, b.query))
    requires IsBlank(b.query) ==> b.results == [] && !b.isOpen
    ensures b.ShowViewAll() <==> !IsBlank(b.query) && |Matching(products, b.query)| >= MaxResults
  {
    if !IsBlank(b.query) {
      OpenIffMatch(products, b.query);
    }
  }

  /** When "View all" shows for a fresh search, exactly five results are listed and at least five products matched. */
  lemma ViewAllMeansFull(products: seq<Product>, query: string)
    requires |Take(Matching(products, query), MaxResults)| >= MaxResults
    ensures |Take(Matching(products, query), MaxResults)| == MaxResults
    ensures |Matching(products, query)| >= MaxResults
  {
  }

  /** Every product of a list matches the query. */
  predicate AllMatch(ps: seq<Product>, query: string)
  {
    forall i :: 0 <= i < |ps| ==> Matches(ps[i], query)
  }

  /** The listed results all match. */
  lemma ListedMatch(products: seq<Product>, query: string)
    ensures AllMatch(Take(Matching(products, query), MaxResults), query)
  {
    var filtered := Matching(products, query);
    var listed := Take(filtered, MaxResults);
    forall i | 0 <= i < |listed| ensures Matches(listed[i], query) {
      assert listed[i] == filtered[i];
    }
  }

  /** Some product of the catalogue matches the query. */
  predicate SomeMatch(products: seq<Product>, query: string)
  {
    exists i :: 0 <= i < |products| && Matches(products[i], query)
  }

  /** Something matched exactly when some product of the catalogue matches. */
  lemma OpenIffMatch(products: seq<Product>, query: string)
    ensures |Matching(products, query)| > 0 <==> SomeMatch(products, query)
  {
    var filtered := Matching(products, query);
    if |filtered| > 0 {
      FilterFromSource(products, MatchesQuery(query));
      assert Matches(filtered[0], query);
      assert filtered[0] in products;
    }
  }
}
