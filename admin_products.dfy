/**
 * The admin products store (store/use-admin-products.ts): an in-memory copy
 * of the `products` table and a loading flag. Each remote call is given by
 * its outcome; the list changes only after a call succeeds.
 */
module AdminProducts {
  import opened Wrappers
  import opened Seqs
  import opened Catalog

  /** A product added and then deleted by its id leaves a list without that id as it was. */
  lemma {:induction false} AddThenDelete(products: seq<Product>, row: Product)
    requires !HasId(products, row.id)
    ensures WithoutId([row] + products, row.id) == products
  {
    FilterConcat([row], products, IdIsNot(row.id));
    FilterNone([row], IdIsNot(row.id));
    FilterAll(products, IdIsNot(row.id));
  }

  /** Replacing the rows of an id by a row with that id keeps which ids are present. */
  lemma ReplaceKeepsIds(products: seq<Product>, id: string, row: Product, other: string)
    requires row.id == id
    ensures HasId(ReplaceId(products, id, row), other) <==> HasId(products, other)
  {
    var r := ReplaceId(products, id, row);
    if HasId(products, other) {
      var i :| 0 <= i < |products| && products[i].id == other;
      assert r[i].id == other;
    }
    if HasId(r, other) {
      var i :| 0 <= i < |r| && r[i].id == other;
      assert products[i].id == other;
    }
  }

  /** After a replacement by id, looking that id up finds the new row when the id was present. */
  lemma ReplaceThenFind(products: seq<Product>, id: string, row: Product)
    requires row.id == id && HasId(products, id)
    ensures FindById(ReplaceId(products, id, row), id) == Some(row)
  {
    var r := ReplaceId(products, id, row);
    ReplaceKeepsIds(products, id, row, id);
    var found := FindById(r, id);
    var i :| 0 <= i < |r| && r[i] == found.value;
    assert products[i].id == id;
  }

  /** The zustand store: the product list and the loading flag. */
  class AdminProductsStore {
    var products: seq<Product>
    var loading: bool

    constructor()
      ensures products == [] && !loading
    {
      products := [];
      loading := false;
    }

    /**
     * `fetchProducts`, with the outcome of the remote read given; a null
     * result counts as an empty table. A failure is logged, not rethrown.
     */
    method FetchProducts(outcome: Remote<Option<seq<Product>>>)
      modifies this
      ensures !loading
      ensures outcome.Succeeded? ==> products == (if outcome.data.Some? then outcome.data.value else [])
      ensures outcome.Failed? ==> products == old(products)
    {
      loading := true;
      match outcome
      case Succeeded(data) =>
        products, loading := if data.Some? then data.value else [], false;
      case Failed(_) =>
        loading := false;
    }

    /** `addProduct`, with the row the database returns (or the failure) given. */
    method AddProduct(outcome: Remote<Product>) returns (c: Completion)
      modifies this
      ensures loading == old(loading)
      ensures outcome.Succeeded? ==> products == [outcome.data] + old(products) && c == Completed
      ensures outcome.Failed? ==> products == old(products) && c == Rethrown(outcome.message)
    {
      match outcome
      case Succeeded(data) =>
        products := [data] + products;
        c := Completed;
      case Failed(message) =>
        c := Rethrown(message);
    }

    /** `updateProduct(id, ...)`, with the row the database returns (or the failure) given. */
    method UpdateProduct(id: string, outcome: Remote<Product>) returns (c: Completion)
      modifies this
      ensures loading == old(loading)
      ensures outcome.Succeeded? ==>
                && |products| == |old(products)|
                && (forall i :: 0 <= i < |products| ==>
                      products[i] == if old(products)[i].id == id then outcome.data else old(products)[i])
                && c == Completed
      ensures outcome.Failed? ==> products == old(products) && c == Rethrown(outcome.message)
    {
      match outcome
      case Succeeded(data) =>
        products := ReplaceId(products, id, data);
        c := Completed;
      case Failed(message) =>
        c := Rethrown(message);
    }

    /** `deleteProduct(id)`, with the outcome of the remote delete given. */
    method DeleteProduct(id: string, outcome: Remote<()>) returns (c: Completion)
      modifies this
      ensures loading == old(loading)
      ensures outcome.Succeeded? ==> products == WithoutId(old(products), id) && c == Completed
      ensures outcome.Failed? ==> products == old(products) && c == Rethrown(outcome.message)
    {
      match outcome
      case Succeeded(_) =>
        products := WithoutId(products, id);
        c := Completed;
      case Failed(message) =>
        c := Rethrown(message);
    }

    /** `getProductById(id)`: the first row with that id, if any. */
    function GetProductById(id: string): (r: Option<Product>)
      reads this
      ensures r.None? <==> !HasId(products, id)
      ensures r.Some? ==> r.value.id == id && exists i :: 0 <= i < |products| && products[i] == r.value &&
                                                         forall j :: 0 <= j < i ==> products[j].id != id
    {
      FindById(products, id)
    }

    /** `getAllProducts()` */
    function GetAllProducts(): (r: seq<Product>)
      reads this
      ensures r == products
    {
      products
    }
  }
}
