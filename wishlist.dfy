/**
 * The wishlist store (store/use-wishlist.ts): an ordered list of products
 * in which every product id appears at most once. The list's persistence in
 * the browser's local storage is not part of this model.
 */
module Wishlist {
  import opened Seqs
  import opened Catalog

  /** `addItem`'s update: append the product unless its id is already listed. */
  function Added(items: seq<Product>, product: Product): (r: seq<Product>)
    ensures HasId(r, product.id)
    ensures HasId(items, product.id) ==> r == items
    ensures !HasId(items, product.id) ==> |r| == |items| + 1 && r[..|items|] == items && r[|items|] == product
  {
    if HasId(items, product.id) then items
    else
      var r := items + [product];
      assert r[|items|] == product;
      r
  }

  /** `removeItem`'s update. */
  function Removed(items: seq<Product>, id: string): (r: seq<Product>)
    ensures !HasId(r, id)
  {
    WithoutId(items, id)
  }

  /** `toggleItem`'s update: remove the product when listed, add it otherwise. */
  function Toggled(items: seq<Product>, product: Product): seq<Product>
  {
    if HasId(items, product.id) then Removed(items, product.id) else Added(items, product)
  }

  /** Adding keeps product ids unique. */
  lemma AddedKeepsUnique(items: seq<Product>, product: Product)
    requires UniqueIds(items)
    ensures UniqueIds(Added(items, product))
  {
    var r := Added(items, product);
    if !HasId(items, product.id) {
      forall i, j | 0 <= i < j < |r| ensures r[i].id != r[j].id {
        if j == |items| {
          assert r[i] == items[i];
        } else {
          assert r[i] == items[i] && r[j] == items[j];
        }
      }
    }
  }

  /** Removing keeps product ids unique. */
  lemma RemovedKeepsUnique(items: seq<Product>, id: string)
    requires UniqueIds(items)
    ensures UniqueIds(Removed(items, id))
  {
    WithoutIdKeepsUnique(items, id);
  }

  /** Toggling keeps product ids unique. */
  lemma ToggledKeepsUnique(items: seq<Product>, product: Product)
    requires UniqueIds(items)
    ensures UniqueIds(Toggled(items, product))
  {
    if HasId(items, product.id) {
      RemovedKeepsUnique(items, product.id);
    } else {
      AddedKeepsUnique(items, product);
    }
  }

  /** Toggling flips whether the product is in the wishlist. */
  lemma ToggleFlips(items: seq<Product>, product: Product)
    ensures HasId(Toggled(items, product), product.id) <==> !HasId(items, product.id)
  {
  }

  /** Toggling changes no other product's membership. */
  lemma ToggleKeepsOthers(items: seq<Product>, product: Product, other: string)
    requires other != product.id
    ensures HasId(Toggled(items, product), other) <==> HasId(items, other)
  {
    if HasId(items, product.id) {
      WithoutIdKeepsOthers(items, product.id, other);
    } else {
      var r := Added(items, product);
      if HasId(items, other) {
        var i :| 0 <= i < |items| && items[i].id == other;
        assert r[i] == items[i];
      }
      if HasId(r, other) {
        var i :| 0 <= i < |r| && r[i].id == other;
        assert i < |items| && r[i] == items[i];
      }
    }
  }

  /** Toggling an unlisted product twice restores the wishlist. */
  lemma ToggleTwiceAbsent(items: seq<Product>, product: Product)
    requires !HasId(items, product.id)
    ensures Toggled(Toggled(items, product), product) == items
  {
    var keep := IdIsNot(product.id);
    FilterConcat(items, [product], keep);
    FilterAll(items, keep);
    FilterNone([product], keep);
  }

  /** Toggling a listed product twice moves it to the end of the wishlist. */
  lemma ToggleTwicePresent(items: seq<Product>, product: Product)
    requires HasId(items, product.id)
    ensures Toggled(Toggled(items, product), product) == Removed(items, product.id) + [product]
  {
  }

  /** Size bookkeeping: adding grows a list by at most one and removing a listed id shrinks a unique list by one. */
  lemma CountAfterUpdates(items: seq<Product>, product: Product, id: string)
    requires UniqueIds(items)
    ensures |Added(items, product)| == if HasId(items, product.id) then |items| else |items| + 1
    ensures |Removed(items, id)| == if HasId(items, id) then |items| - 1 else |items|
  {
    WithoutIdCount(items, id);
  }

  /** The zustand store: one field, replaced by each action. */
  class WishlistStore {
    var items: seq<Product>

    /** The store's invariant: no product appears twice. */
    ghost predicate Valid()
      reads this
    {
      UniqueIds(items)
    }

    constructor()
      ensures items == []
      ensures Valid()
    {
      items := [];
    }

    method AddItem(product: Product)
      modifies this
      ensures items == Added(old(items), product)
      ensures old(Valid()) ==> Valid()
    {
      if Valid() {
        AddedKeepsUnique(items, product);
      }
      if !HasId(items, product.id) {
        items := items + [product];
      }
    }

    method RemoveItem(productId: string)
      modifies this
      ensures items == Removed(old(items), productId)
      ensures old(Valid()) ==> Valid()
    {
      if Valid() {
        RemovedKeepsUnique(items, productId);
      }
      items := WithoutId(items, productId);
    }

    method ToggleItem(product: Product)
      modifies this
      ensures items == Toggled(old(items), product)
      ensures old(Valid()) ==> Valid()
    {
      var isInList := IsInWishlist(product.id);
      if isInList {
        RemoveItem(product.id);
      } else {
        AddItem(product);
      }
    }

    method ClearWishlist()
      modifies this
      ensures items == []
      ensures Valid()
    {
      items := [];
    }

    /** `isInWishlist(productId)` */
    function IsInWishlist(productId: string): (b: bool)
      reads this
      ensures b <==> exists i :: 0 <= i < |items| && items[i].id == productId
    {
      HasId(items, productId)
    }

    /** `getTotalItems()`: the number of listed products, which is the number of distinct ids in a valid store. */
    function GetTotalItems(): (n: nat)
      reads this
      ensures n == |items|
    {
      |items|
    }
  }
}
