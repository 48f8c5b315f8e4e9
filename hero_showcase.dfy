/**
 * The hero showcase store (store/use-hero-showcase.ts): a settings record
 * naming one hero product and up to four support products, and the rules
 * that pick those products out of the catalogue.
 */
module HeroShowcase {
  import opened Wrappers
  import opened Seqs
  import opened Catalog

  /** A `hero_showcase_settings` row; a null id column is `None`. Timestamps are left out. */
  datatype ShowcaseSettings = ShowcaseSettings(
    id: string,
    title: string,
    subtitle: string,
    isActive: bool,
    heroProductId: Option<string>,
    support1: Option<string>,
    support2: Option<string>,
    support3: Option<string>,
    support4: Option<string>)

  /** The four support slots, in slot order. */
  function Slots(s: ShowcaseSettings): seq<Option<string>>
  {
    [s.support1, s.support2, s.support3, s.support4]
  }

  /** `slots.filter(Boolean)`: the ids of the set slots, in order. */
  function SetIds(slots: seq<Option<string>>): (r: seq<string>)
    ensures |r| <= |slots|
    ensures forall i :: 0 <= i < |r| ==> r[i] != "" && Some(r[i]) in slots
    ensures forall i :: 0 <= i < |slots| && IsSet(slots[i]) ==> slots[i].value in r
  {
    if slots == [] then []
    else (if IsSet(slots[0]) then [slots[0].value] else []) + SetIds(slots[1..])
  }

  /** The callback `id => id !== settings.hero_product_id`; a string never equals null. */
  function NotHero(hero: Option<string>): string -> bool { (id: string) => Some(id) != hero }

  /** The support ids after the empty slots, the repeats and the hero id are dropped. */
  function SupportIds(s: ShowcaseSettings): seq<string>
  {
    Filter(Dedupe(SetIds(Slots(s))), NotHero(s.heroProductId))
  }

  /** The ids of a list of products, in order. */
  function IdsOf(ps: seq<Product>): (r: seq<string>)
    ensures |r| == |ps|
    ensures forall k :: 0 <= k < |ps| ==> r[k] == ps[k].id
  {
    if ps == [] then [] else [ps[0].id] + IdsOf(ps[1..])
  }

  /** The callback deciding whether `find` turns up a product for an id. */
  function InCatalogue(products: seq<Product>): string -> bool
  {
    (id: string) => HasId(products, id)
  }

  /** `ids.map(id => products.find(p => p.id === id)).filter(Boolean)` */
  function FoundProducts(products: seq<Product>, ids: seq<string>): (r: seq<Product>)
    ensures IdsOf(r) == Filter(ids, InCatalogue(products))
    ensures forall k :: 0 <= k < |r| ==> FindById(products, r[k].id) == Some(r[k])
  {
    if ids == [] then []
    else
      var rest := FoundProducts(products, ids[1..]);
      match FindById(products, ids[0])
      case None => rest
      case Some(p) =>
        var r := [p] + rest;
        assert r[1..] == rest;
        r
  }

  /** `getHeroProduct(products)` for the store's current `settings`. */
  function GetHeroProduct(settings: Option<ShowcaseSettings>, products: seq<Product>): (r: Option<Product>)
    ensures r.None? <==> settings.None? || !IsSet(settings.value.heroProductId)
                         || !HasId(products, settings.value.heroProductId.value)
    ensures r.Some? ==> settings.value.heroProductId == Some(r.value.id) && r == FindById(products, r.value.id)
  {
    if settings.None? || !IsSet(settings.value.heroProductId) then None
    else FindById(products, settings.value.heroProductId.value)
  }

  /**
   * `getSupportProducts(products)` for the store's current `settings`: the
   * catalogue products named by the support ids, in support-id order.
   */
  function GetSupportProducts(settings: Option<ShowcaseSettings>, products: seq<Product>): (r: seq<Product>)
    ensures settings.None? ==> r == []
    ensures settings.Some? ==> IdsOf(r) == Filter(SupportIds(settings.value), InCatalogue(products))
    ensures forall k :: 0 <= k < |r| ==> FindById(products, r[k].id) == Some(r[k])
  {
    if settings.None? then [] else FoundProducts(products, SupportIds(settings.value))
  }

  /** At most four support products, none of them the hero product, no two with the same id. */
  lemma SupportProductsShape(settings: Option<ShowcaseSettings>, products: seq<Product>)
    ensures var r := GetSupportProducts(settings, products);
            && |r| <= 4
            && UniqueIds(r)
            && forall k :: 0 <= k < |r| ==> Some(r[k].id) != settings.value.heroProductId
  {
    var r := GetSupportProducts(settings, products);
    if settings.Some? {
      var s := settings.value;
      var d := Dedupe(SetIds(Slots(s)));
      var ids := SupportIds(s);
      var found := Filter(ids, InCatalogue(products));
      assert |r| <= 4 by {
        assert |IdsOf(r)| == |found| <= |ids| <= |d| <= 4;
      }
      assert UniqueIds(r) by {
        assert DistinctBy(d, (x: string) => x);
        FilterDistinct(d, NotHero(s.heroProductId), (x: string) => x);
        FilterDistinct(ids, InCatalogue(products), (x: string) => x);
        forall i, j | 0 <= i < j < |r| ensures r[i].id != r[j].id {
          assert IdsOf(r)[i] == r[i].id && IdsOf(r)[j] == r[j].id;
        }
      }
      FilterFromSource(ids, InCatalogue(products));
      forall k | 0 <= k < |r| ensures Some(r[k].id) != s.heroProductId {
        assert found[k] == r[k].id;
        assert found[k] in ids;
        var m :| 0 <= m < |ids| && ids[m] == found[k];
        assert NotHero(s.heroProductId)(ids[m]);
      }
    }
  }

  /** A set support slot's id survives into the support ids exactly when it is not the hero id. */
  lemma SupportIdsCover(settings: ShowcaseSettings, id: string)
    requires Some(id) in Slots(settings) && id != ""
    ensures id in SupportIds(settings) <==> Some(id) != settings.heroProductId
  {
    var setIds := SetIds(Slots(settings));
    var d := Dedupe(setIds);
    var i :| 0 <= i < 4 && Slots(settings)[i] == Some(id);
    assert id in setIds;
    var k :| 0 <= k < |setIds| && setIds[k] == id;
    assert id in d;
    var j :| 0 <= j < |d| && d[j] == id;
    FilterFromSource(d, NotHero(settings.heroProductId));
  }

  /** Looking ids up yields a product with a given id exactly when the id is asked for and catalogued. */
  lemma FoundProductsCover(products: seq<Product>, ids: seq<string>, id: string)
    ensures HasId(FoundProducts(products, ids), id) <==> id in ids && HasId(products, id)
  {
    var r := FoundProducts(products, ids);
    var found := Filter(ids, InCatalogue(products));
    if id in ids && HasId(products, id) {
      var m :| 0 <= m < |ids| && ids[m] == id;
      assert id in found;
      var n :| 0 <= n < |found| && found[n] == id;
      assert r[n].id == id;
    }
    if HasId(r, id) {
      var j :| 0 <= j < |r| && r[j].id == id;
      assert IdsOf(r)[j] == id;
      FilterFromSource(ids, InCatalogue(products));
    }
  }

  /**
   * A set support slot's id shows up in the result exactly when it is not
   * the hero id and names a product of the catalogue.
   */
  lemma SupportProductsCover(settings: ShowcaseSettings, products: seq<Product>, id: string)
    requires Some(id) in Slots(settings) && id != ""
    ensures HasId(GetSupportProducts(Some(settings), products), id) <==>
            Some(id) != settings.heroProductId && HasId(products, id)
  {
    SupportIdsCover(settings, id);
    FoundProductsCover(products, SupportIds(settings), id);
  }

  /** Support products follow slot order, a repeated id counting at its first slot. */
  lemma SupportProductsOrder(settings: ShowcaseSettings, products: seq<Product>)
    ensures Chain(IdsOf(GetSupportProducts(Some(settings), products)), FirstBefore(SetIds(Slots(settings))))
  {
    var setIds := SetIds(Slots(settings));
    var before := FirstBefore(setIds);
    DedupeFirstOccurrenceOrder(setIds);
    FilterChain(Dedupe(setIds), NotHero(settings.heroProductId), before);
    FilterChain(SupportIds(settings), InCatalogue(products), before);
  }

  /** The store: the settings row (null until fetched) and a loading flag. */
  class HeroShowcaseStore {
    var settings: Option<ShowcaseSettings>
    var loading: bool

    constructor()
      ensures settings.None? && !loading
    {
      settings := None;
      loading := false;
    }

    /** `fetchSettings`, with the outcome of the remote read given. Failures are logged, not rethrown. */
    method FetchSettings(outcome: Remote<ShowcaseSettings>)
      modifies this
      ensures !loading
      ensures outcome.Succeeded? ==> settings == Some(outcome.data)
      ensures outcome.Failed? ==> settings == old(settings)
    {
      loading := true;
      match outcome
      case Succeeded(data) =>
        settings := Some(data);
        loading := false;
      case Failed(_) =>
        loading := false;
    }

    /**
     * `updateSettings`, with the outcome of the remote update given. Returns
     * the id of the row the update was sent for, or `None` when no settings
     * are loaded and nothing is sent.
     */
    method UpdateSettings(outcome: Remote<ShowcaseSettings>) returns (sentFor: Option<string>, c: Completion)
      modifies this
      ensures old(settings).None? ==> sentFor.None? && c == Completed && settings == old(settings)
      ensures old(settings).Some? ==> sentFor == Some(old(settings).value.id)
      ensures old(settings).Some? && outcome.Succeeded? ==> settings == Some(outcome.data) && c == Completed
      ensures old(settings).Some? && outcome.Failed? ==> settings == old(settings) && c == Rethrown(outcome.message)
      ensures loading == old(loading)
    {
      if settings.None? {
        return None, Completed;
      }
      sentFor := Some(settings.value.id);
      match outcome
      case Succeeded(data) =>
        settings := Some(data);
        c := Completed;
      case Failed(message) =>
        c := Rethrown(message);
    }
  }
}
