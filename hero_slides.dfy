/**
 * The hero slides store (store/use-hero-slides.ts): an in-memory copy of
 * the `hero_slides` table together with `loading` and `error` fields. Each
 * remote call is given by its outcome; the list changes only after a call
 * succeeds.
 */
module HeroSlides {
  import opened Wrappers
  import opened Seqs

  /** A `hero_slides` row; nullable columns are `Option`s. Timestamps are left out. */
  datatype HeroSlide = HeroSlide(
    id: string,
    title: string,
    subtitle: Option<string>,
    description: Option<string>,
    imageUrl: string,
    ctaText: string,
    ctaLink: string,
    productId: Option<string>,
    displayOrder: int,
    isActive: bool)

  /** One `update({ display_order })` request of `reorderSlides`. */
  datatype OrderUpdate = OrderUpdate(id: string, displayOrder: int)

  function IsActive(s: HeroSlide): bool { s.isActive }

  /** The callback `slide => slide.id === id`. */
  function SlideIdIs(id: string): HeroSlide -> bool { (s: HeroSlide) => s.id == id }

  /** The callback `slide => slide.id !== id`. */
  function SlideIdIsNot(id: string): HeroSlide -> bool { (s: HeroSlide) => s.id != id }

  /** `slides.filter(slide => slide.is_active)`: the active slides, in store order. */
  function ActiveSlides(slides: seq<HeroSlide>): (r: seq<HeroSlide>)
    ensures |r| == Count(slides, IsActive)
    ensures forall i :: 0 <= i < |r| ==> r[i].isActive
    ensures forall i :: 0 <= i < |slides| && slides[i].isActive ==> slides[i] in r
    ensures IsSubsequence(r, slides)
  {
    Filter(slides, IsActive)
  }

  /** The requests sent for slides listed from position `start - 1` on: slide k gets order `start + k`. */
  function OrderUpdatesFrom(slides: seq<HeroSlide>, start: int): (r: seq<OrderUpdate>)
    ensures |r| == |slides|
    ensures forall k :: 0 <= k < |slides| ==> r[k] == OrderUpdate(slides[k].id, start + k)
  {
    if slides == [] then []
    else [OrderUpdate(slides[0].id, start)] + OrderUpdatesFrom(slides[1..], start + 1)
  }

  /** `reorderedSlides.map((slide, index) => update display_order to index + 1)` */
  function OrderUpdates(slides: seq<HeroSlide>): seq<OrderUpdate>
  {
    OrderUpdatesFrom(slides, 1)
  }

  /** The orders sent are 1, 2, ..., n in list order, one per slide, so no two slides share one. */
  lemma OrderUpdatesNumbering(slides: seq<HeroSlide>)
    ensures |OrderUpdates(slides)| == |slides|
    ensures forall k :: 0 <= k < |slides| ==> OrderUpdates(slides)[k].id == slides[k].id
    ensures forall k :: 0 <= k < |slides| ==> 1 <= OrderUpdates(slides)[k].displayOrder <= |slides|
    ensures forall i, j :: 0 <= i < j < |slides| ==>
              OrderUpdates(slides)[i].displayOrder < OrderUpdates(slides)[j].displayOrder
  {
  }

  /** Appending a slide adds it to the active slides exactly when it is active. */
  lemma {:induction false} ActiveAfterAdd(slides: seq<HeroSlide>, row: HeroSlide)
    ensures ActiveSlides(slides + [row]) == ActiveSlides(slides) + (if row.isActive then [row] else [])
  {
    FilterConcat(slides, [row], IsActive);
    assert Filter([row], IsActive) == (if row.isActive then [row] else []) by {
      assert [row][1..] == [];
    }
  }

  /** Removing the slides with one id keeps the others, in order, and leaves none with that id. */
  lemma DeleteRemovesOnly(slides: seq<HeroSlide>, id: string)
    ensures forall i :: 0 <= i < |Filter(slides, SlideIdIsNot(id))| ==> Filter(slides, SlideIdIsNot(id))[i].id != id
    ensures forall i :: 0 <= i < |slides| && slides[i].id != id ==> slides[i] in Filter(slides, SlideIdIsNot(id))
    ensures IsSubsequence(Filter(slides, SlideIdIsNot(id)), slides)
  {
    assert forall i :: 0 <= i < |Filter(slides, SlideIdIsNot(id))| ==> SlideIdIsNot(id)(Filter(slides, SlideIdIsNot(id))[i]);
  }

  /** The zustand store: the slide list, the loading flag and the last error message. */
  class HeroSlidesStore {
    var slides: seq<HeroSlide>
    var loading: bool
    var error: Option<string>

    constructor()
      ensures slides == [] && !loading && error.None?
    {
      slides := [];
      loading := false;
      error := None;
    }

    /**
     * `fetchSlides`, with the outcome of the remote read given; a null
     * result counts as an empty table. A failure is recorded, not rethrown.
     */
    method FetchSlides(outcome: Remote<Option<seq<HeroSlide>>>)
      modifies this
      ensures !loading
      ensures outcome.Succeeded? ==> error.None? && slides == (if outcome.data.Some? then outcome.data.value else [])
      ensures outcome.Failed? ==> error == Some(outcome.message) && slides == old(slides)
    {
      loading, error := true, None;
      match outcome
      case Succeeded(data) =>
        slides := if data.Some? then data.value else [];
        loading := false;
      case Failed(message) =>
        error, loading := Some(message), false;
    }

    /** `getActiveSlides()` */
    function GetActiveSlides(): (r: seq<HeroSlide>)
      reads this
      ensures forall i :: 0 <= i < |r| ==> r[i].isActive
      ensures forall i :: 0 <= i < |slides| && slides[i].isActive ==> slides[i] in r
      ensures IsSubsequence(r, slides)
    {
      ActiveSlides(slides)
    }

    /** `getAllSlides()` */
    function GetAllSlides(): (r: seq<HeroSlide>)
      reads this
      ensures r == slides
    {
      slides
    }

    /** `addSlide`, with the row the database returns (or the failure) given. */
    method AddSlide(outcome: Remote<HeroSlide>) returns (c: Completion)
      modifies this
      ensures !loading
      ensures outcome.Succeeded? ==> slides == old(slides) + [outcome.data] && error.None? && c == Completed
      ensures outcome.Failed? ==> slides == old(slides) && error == Some(outcome.message) && c == Rethrown(outcome.message)
    {
      loading, error := true, None;
      match outcome
      case Succeeded(data) =>
        slides, loading := slides + [data], false;
        c := Completed;
      case Failed(message) =>
        error, loading := Some(message), false;
        c := Rethrown(message);
    }

    /** `updateSlide(id, ...)`, with the row the database returns (or the failure) given. */
    method UpdateSlide(id: string, outcome: Remote<HeroSlide>) returns (c: Completion)
      modifies this
      ensures !loading
      ensures outcome.Succeeded? ==>
                && |slides| == |old(slides)|
                && (forall i :: 0 <= i < |slides| ==>
                      slides[i] == if old(slides)[i].id == id then outcome.data else old(slides)[i])
                && error.None? && c == Completed
      ensures outcome.Failed? ==> slides == old(slides) && error == Some(outcome.message) && c == Rethrown(outcome.message)
    {
      loading, error := true, None;
      match outcome
      case Succeeded(data) =>
        slides, loading := ReplaceWhere(slides, SlideIdIs(id), data), false;
        c := Completed;
      case Failed(message) =>
        error, loading := Some(message), false;
        c := Rethrown(message);
    }

    /** `deleteSlide(id)`, with the outcome of the remote delete given. */
    method DeleteSlide(id: string, outcome: Remote<()>) returns (c: Completion)
      modifies this
      ensures !loading
      ensures outcome.Succeeded? ==> slides == Filter(old(slides), SlideIdIsNot(id)) && error.None? && c == Completed
      ensures outcome.Failed? ==> slides == old(slides) && error == Some(outcome.message) && c == Rethrown(outcome.message)
    {
      loading, error := true, None;
      match outcome
      case Succeeded(_) =>
        slides, loading := Filter(slides, SlideIdIsNot(id)), false;
        c := Completed;
      case Failed(message) =>
        error, loading := Some(message), false;
        c := Rethrown(message);
    }

    /**
     * `reorderSlides(reordered)`. All the order updates are sent; `outcome`
     * is how waiting for them ends. On success the list becomes `reordered`
     * as given: its `displayOrder` fields are not rewritten locally.
     */
    method ReorderSlides(reordered: seq<HeroSlide>, outcome: Remote<()>) returns (sent: seq<OrderUpdate>, c: Completion)
      modifies this
      ensures sent == OrderUpdates(reordered)
      ensures !loading
      ensures outcome.Succeeded? ==> slides == reordered && error.None? && c == Completed
      ensures outcome.Failed? ==> slides == old(slides) && error == Some(outcome.message) && c == Rethrown(outcome.message)
    {
      loading, error := true, None;
      sent := OrderUpdates(reordered);
      match outcome
      case Succeeded(_) =>
        slides, loading := reordered, false;
        c := Completed;
      case Failed(message) =>
        error, loading := Some(message), false;
        c := Rethrown(message);
    }
  }
}
