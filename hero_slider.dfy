/**
 * The home page hero slider (components/home/hero-slider.tsx): the active
 * slides loaded from the hero slides store and the index of the slide on
 * show, moved by the arrows, the dots and the autoplay timer.
 */
module HeroSlider {
  import opened HeroSlides

  /** JavaScript's `a % n` for `n > 0`: the remainder takes the sign of `a`. */
  function JsRem(a: int, n: int): (r: int)
    requires n > 0
    ensures a >= 0 ==> 0 <= r < n && r == a % n
    ensures a < 0 ==> -n < r <= 0
  {
    if a >= 0 then a % n else -((-a) % n)
  }

  /** `(prev + 1) % slides.length` */
  function NextIndex(i: int, n: int): int
    requires n > 0
  {
    JsRem(i + 1, n)
  }

  /** `(prev - 1 + slides.length) % slides.length` */
  function PrevIndex(i: int, n: int): int
    requires n > 0
  {
    JsRem(i - 1 + n, n)
  }

  /** From an index on show, the next-arrow moves one place on, wrapping from the last slide to the first. */
  lemma NextStep(i: int, n: int)
    requires 0 <= i < n
    ensures NextIndex(i, n) == if i + 1 < n then i + 1 else 0
  {
    if i + 1 == n {
      assert (i + 1) % n == n % n == 0;
    }
  }

  /** From an index on show, the previous-arrow moves one place back, wrapping from the first slide to the last. */
  lemma PrevStep(i: int, n: int)
    requires 0 <= i < n
    ensures PrevIndex(i, n) == if i > 0 then i - 1 else n - 1
  {
    if i > 0 {
      assert (i - 1 + n) % n == i - 1;
    }
  }

  /** From an index on show, both arrows land on an index on show. */
  lemma StepsStayInRange(i: int, n: int)
    requires 0 <= i < n
    ensures 0 <= NextIndex(i, n) < n
    ensures 0 <= PrevIndex(i, n) < n
  {
    NextStep(i, n);
    PrevStep(i, n);
  }

  /** The previous-arrow undoes the next-arrow, and the other way round. */
  lemma PrevUndoesNext(i: int, n: int)
    requires 0 <= i < n
    ensures PrevIndex(NextIndex(i, n), n) == i
    ensures NextIndex(PrevIndex(i, n), n) == i
  {
    NextStep(i, n);
    PrevStep(i, n);
    PrevStep(NextIndex(i, n), n);
    NextStep(PrevIndex(i, n), n);
  }

  /** The index after `k` autoplay steps from `i`. */
  function Advance(i: int, n: int, k: nat): int
    requires n > 0
  {
    if k == 0 then i else NextIndex(Advance(i, n, k - 1), n)
  }

  /** Up to `n` steps from an index on show move it `k` places round the ring. */
  lemma {:induction false} AdvanceIsRotation(i: int, n: int, k: nat)
    requires 0 <= i < n && k <= n
    ensures Advance(i, n, k) == if i + k < n then i + k else i + k - n
  {
    if k > 0 {
      AdvanceIsRotation(i, n, k - 1);
      NextStep(Advance(i, n, k - 1), n);
    }
  }

  /** `n` autoplay steps bring the slider back to where it started. */
  lemma FullCycle(i: int, n: int)
    requires 0 <= i < n
    ensures Advance(i, n, n) == i
  {
    AdvanceIsRotation(i, n, n);
  }

  /** The arrows and the dots are rendered only when there is more than one slide. */
  predicate ShowsControls(n: nat) { n > 1 }

  /** The autoplay timer is started only when there is at least one slide. */
  predicate RunsAutoplay(n: nat) { n > 0 }

  /** The arrows change the slide on show exactly when they are rendered: with one slide they would do nothing. */
  lemma ArrowsMoveIffShown(i: int, n: nat)
    requires 0 <= i < n
    ensures NextIndex(i, n) != i <==> ShowsControls(n)
    ensures PrevIndex(i, n) != i <==> ShowsControls(n)
  {
    NextStep(i, n);
    PrevStep(i, n);
  }

  /** The component's state. */
  class Slider {
    var slides: seq<HeroSlide>
    var current: int
    var loading: bool

    /** The index on show is a slide's index whenever there are slides. */
    ghost predicate Valid()
      reads this
    {
      0 <= current && (|slides| > 0 ==> current < |slides|)
    }

    constructor()
      ensures slides == [] && current == 0 && loading
      ensures Valid()
    {
      slides, current, loading := [], 0, true;
    }

    /**
     * The mount effect, once the store's fetch has finished: show the store's
     * active slides and stop loading. The index starts at 0.
     */
    method Load(store: HeroSlidesStore)
      requires current == 0
      modifies this
      ensures slides == ActiveSlides(store.slides) && !loading && current == 0
      ensures Valid()
    {
      slides := store.GetActiveSlides();
      loading := false;
    }

    /** `nextSlide` */
    method Next()
      requires |slides| > 0
      modifies this
      ensures slides == old(slides) && loading == old(loading)
      ensures current == NextIndex(old(current), |slides|)
      ensures old(Valid()) ==> Valid()
    {
      current := JsRem(current + 1, |slides|);
    }

    /** `prevSlide` */
    method Prev()
      requires |slides| > 0
      modifies this
      ensures slides == old(slides) && loading == old(loading)
      ensures current == PrevIndex(old(current), |slides|)
      ensures old(Valid()) ==> Valid()
    {
      current := JsRem(current - 1 + |slides|, |slides|);
    }

    /** One tick of the autoplay interval, which runs only when there are slides. */
    method AutoplayTick()
      requires RunsAutoplay(|slides|)
      modifies this
      ensures slides == old(slides) && loading == old(loading)
      ensures current == NextIndex(old(current), |slides|)
      ensures old(Valid()) ==> Valid()
    {
      Next();
    }

    /** Clicking dot `k`; one dot is rendered per slide. */
    method SelectDot(k: int)
      requires 0 <= k < |slides|
      modifies this
      ensures current == k
      ensures slides == old(slides) && loading == old(loading)
      ensures Valid()
    {
      current := k;
    }
  }
}
