/**
 * The product record of the catalogue (lib/types.ts) and the lookups by id
 * that the stores perform on lists of products.
 */
module Catalog {
  import opened Wrappers
  import opened Seqs

  /**
   * A product row. `isTrending` and `isHeroShowcase` are optional columns:
   * `None` is an absent (undefined) value. Timestamps are left out.
   */
  datatype Product = Product(
    id: string,
    name: string,
    slug: string,
    description: string,
    price: real,
    images: seq<string>,
    categoryId: string,
    specifications: map<string, string>,
    stock: int,
    featured: bool,
    isTrending: Option<bool>,
    isHeroShowcase: Option<bool>)

  /**
   * A call `addItem(product, quantity)` on the cart store, which is not
   * part of this model: components hand these over instead of calling it.
   */
  datatype CartRequest = CartRequest(product: Product, quantity: int)

  function IdOf(p: Product): string { p.id }

  /** The callback `item => item.id === id`. */
  function IdIs(id: string): Product -> bool { (p: Product) => p.id == id }

  /** The callback `item => item.id !== id`. */
  function IdIsNot(id: string): Product -> bool { (p: Product) => p.id != id }

  /** No two products of the list share an id. */
  predicate UniqueIds(items: seq<Product>) { DistinctBy(items, IdOf) }

  /** `items.some(item => item.id === id)` */
  function HasId(items: seq<Product>, id: string): (b: bool)
    ensures b <==> exists i :: 0 <= i < |items| && items[i].id == id
  {
    Any(items, IdIs(id))
  }

  /** `items.filter(item => item.id !== id)` */
  function WithoutId(items: seq<Product>, id: string): (r: seq<Product>)
    ensures !HasId(r, id)
    ensures |r| == Count(items, IdIsNot(id))
    ensures IsSubsequence(r, items)
    ensures forall i :: 0 <= i < |items| && items[i].id != id ==> items[i] in r
    ensures !HasId(items, id) ==> r == items
  {
    var r := Filter(items, IdIsNot(id));
    if HasId(items, id) then r else FilterAll(items, IdIsNot(id)); r
  }

  /** `items.map(item => item.id === id ? row : item)` */
  function ReplaceId(items: seq<Product>, id: string, row: Product): (r: seq<Product>)
    ensures |r| == |items|
    ensures forall i :: 0 <= i < |items| ==> r[i] == if items[i].id == id then row else items[i]
  {
    ReplaceWhere(items, IdIs(id), row)
  }

  /** `items.find(item => item.id === id)` */
  function FindById(items: seq<Product>, id: string): (r: Option<Product>)
    ensures r.None? <==> !HasId(items, id)
    ensures r.Some? ==> r.value.id == id && r.value in items
    ensures r.Some? ==> exists i :: 0 <= i < |items| && items[i] == r.value &&
                                    forall j :: 0 <= j < i ==> items[j].id != id
  {
    Find(items, IdIs(id))
  }

  /** Removing one id keeps every other id exactly as present as before. */
  lemma WithoutIdKeepsOthers(items: seq<Product>, id: string, other: string)
    requires other != id
    ensures HasId(WithoutId(items, id), other) <==> HasId(items, other)
  {
    var r := WithoutId(items, id);
    FilterFromSource(items, IdIsNot(id));
    if HasId(r, other) {
      var i :| 0 <= i < |r| && r[i].id == other;
      assert r[i] in items;
    }
  }

  /** Removing an id keeps the ids unique. */
  lemma WithoutIdKeepsUnique(items: seq<Product>, id: string)
    requires UniqueIds(items)
    ensures UniqueIds(WithoutId(items, id))
  {
    FilterDistinct(items, IdIsNot(id), IdOf);
  }

  /** The tail of a list with unique ids has unique ids. */
  lemma UniqueTail(items: seq<Product>)
    requires items != [] && UniqueIds(items)
    ensures UniqueIds(items[1..])
  {
    var rest := items[1..];
    forall i, j | 0 <= i < j < |rest| ensures rest[i].id != rest[j].id {
      assert rest[i] == items[i + 1] && rest[j] == items[j + 1];
    }
  }

  /** An id is in a non-empty list iff it is the head's or it is in the tail. */
  lemma HasIdCons(items: seq<Product>, id: string)
    requires items != []
    ensures HasId(items, id) <==> items[0].id == id || HasId(items[1..], id)
  {
    var rest := items[1..];
    if HasId(items, id) && items[0].id != id {
      var k :| 0 <= k < |items| && items[k].id == id;
      assert rest[k - 1] == items[k];
    }
    if HasId(rest, id) {
      var k :| 0 <= k < |rest| && rest[k].id == id;
      assert items[k + 1] == rest[k];
    }
  }

  /** In a list with unique ids, removing a present id removes exactly one product. */
  lemma {:induction false} WithoutIdCount(items: seq<Product>, id: string)
    requires UniqueIds(items)
    ensures |WithoutId(items, id)| == if HasId(items, id) then |items| - 1 else |items|
  {
    if items != [] {
      var rest := items[1..];
      UniqueTail(items);
      WithoutIdCount(rest, id);
      HasIdCons(items, id);
      if items[0].id == id {
        assert !HasId(rest, id) by {
          forall k | 0 <= k < |rest| ensures rest[k].id != id {
            assert rest[k] == items[k + 1];
          }
        }
      }
    }
  }
}
