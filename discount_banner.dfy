/**
 * The discount banners store (store/use-discount-banners.ts) and the home
 * page banner (components/home/discount-banner.tsx): the first active
 * banner and its countdown, split into days, hours, minutes and seconds.
 * The time left is given as a whole number of milliseconds, the
 * difference between the banner's end date and the current time.
 */
module DiscountBanners {
  import opened Wrappers

  /** A `discount_banners` row; nullable columns are `Option`s. Timestamps are left out. */
  datatype DiscountBanner = DiscountBanner(
    id: string,
    title: string,
    subtitle: Option<string>,
    discountText: string,
    description: Option<string>,
    backgroundGradient: string,
    ctaText: string,
    ctaLink: string,
    countdownEndDate: Option<string>,
    isActive: bool,
    displayOrder: int)

  const MsPerSecond := 1000
  const MsPerMinute := 60 * MsPerSecond
  const MsPerHour := 60 * MsPerMinute
  const MsPerDay := 24 * MsPerHour

  /** The countdown's four numbers. */
  datatype TimeLeft = TimeLeft(days: int, hours: int, minutes: int, seconds: int)

  const NoTimeLeft := TimeLeft(0, 0, 0, 0)

  /** The milliseconds the four numbers stand for. */
  function Millis(t: TimeLeft): int
  {
    t.days * MsPerDay + t.hours * MsPerHour + t.minutes * MsPerMinute + t.seconds * MsPerSecond
  }

  /** Some number of the countdown is positive. */
  predicate AnyPositive(t: TimeLeft)
  {
    t.days > 0 || t.hours > 0 || t.minutes > 0 || t.seconds > 0
  }

  /**
   * `calculateTimeLeft`: all zero without an end date or once the end has
   * passed; otherwise whole days, then the hours, minutes and seconds left
   * over, each within its clock range.
   */
  function CalculateTimeLeft(endDate: Option<string>, difference: int): (t: TimeLeft)
    ensures !IsSet(endDate) || difference <= 0 ==> t == NoTimeLeft
    ensures t.days >= 0
    ensures 0 <= t.hours < 24 && 0 <= t.minutes < 60 && 0 <= t.seconds < 60
  {
    if !IsSet(endDate) || difference <= 0 then NoTimeLeft
    else TimeLeft(
      difference / MsPerDay,
      (difference / MsPerHour) % 24,
      (difference / MsPerMinute) % 60,
      (difference / MsPerSecond) % 60)
  }

  /**
   * While the end is ahead, the four numbers account for the time left
   * down to the whole second: what they stand for is the difference with
   * its milliseconds dropped.
   */
  lemma TimeLeftReconstructs(endDate: Option<string>, difference: int)
    requires IsSet(endDate) && difference > 0
    ensures Millis(CalculateTimeLeft(endDate, difference)) == difference - difference % MsPerSecond
    ensures Millis(CalculateTimeLeft(endDate, difference)) <= difference < Millis(CalculateTimeLeft(endDate, difference)) + MsPerSecond
  {
    var d := difference;
    var s := d / 1000;
    var m := s / 60;
    var h := m / 60;
    assert d == 1000 * s + d % 1000;
    assert s == 60 * m + s % 60;
    assert m == 60 * h + m % 60;
    assert h == 24 * (h / 24) + h % 24;
    assert d / 60000 == m;
    assert d / 3600000 == h;
    assert d / 86400000 == h / 24;
  }

  /** The countdown shows something exactly when an end date is set and at least a whole second is left. */
  lemma CountdownPositiveIff(endDate: Option<string>, difference: int)
    ensures AnyPositive(CalculateTimeLeft(endDate, difference)) <==> IsSet(endDate) && difference >= MsPerSecond
  {
    if IsSet(endDate) && difference > 0 {
      TimeLeftReconstructs(endDate, difference);
    }
  }

  /** The days box is shown exactly when an end date is set and at least a whole day is left. */
  lemma DaysShownIff(endDate: Option<string>, difference: int)
    ensures CalculateTimeLeft(endDate, difference).days > 0 <==> IsSet(endDate) && difference >= MsPerDay
  {
  }

  /** `banners.length > 0 ? banners[0] : null` */
  function FirstBanner(banners: seq<DiscountBanner>): (r: Option<DiscountBanner>)
    ensures r.None? <==> banners == []
    ensures r.Some? ==> r.value == banners[0]
  {
    if |banners| > 0 then Some(banners[0]) else None
  }

  /** The zustand store: the banner list and the loading flag. */
  class DiscountBannersStore {
    var banners: seq<DiscountBanner>
    var loading: bool

    constructor()
      ensures banners == [] && !loading
    {
      banners, loading := [], false;
    }

    /**
     * `fetchActiveBanners`, with the outcome of the remote read given; a
     * null result counts as no banners. A failure is logged, not rethrown.
     */
    method FetchActiveBanners(outcome: Remote<Option<seq<DiscountBanner>>>)
      modifies this
      ensures !loading
      ensures outcome.Succeeded? ==> banners == (if outcome.data.Some? then outcome.data.value else [])
      ensures outcome.Failed? ==> banners == old(banners)
    {
      loading := true;
      match outcome
      case Succeeded(data) =>
        banners, loading := if data.Some? then data.value else [], false;
      case Failed(_) =>
        loading := false;
    }

    /** `getActiveBanner()`: the first banner of the list, or null when there is none. */
    function GetActiveBanner(): (r: Option<DiscountBanner>)
      reads this
      ensures r.None? <==> banners == []
      ensures r.Some? ==> r.value == banners[0]
    {
      FirstBanner(banners)
    }
  }

  /** `hasCountdown`: the banner has an end date and some number of the countdown is positive. */
  predicate HasCountdown(banner: DiscountBanner, t: TimeLeft)
  {
    IsSet(banner.countdownEndDate) && AnyPositive(t)
  }

  /** The component renders nothing without a banner (`if (!banner) return null`). */
  function Renders(banners: seq<DiscountBanner>): (b: bool)
    ensures b <==> |banners| > 0
  {
    FirstBanner(banners).Some?
  }

  /** The banner component's own state: the countdown shown. */
  class BannerView {
    var timeLeft: TimeLeft

    /** The initial state is all zero. */
    constructor()
      ensures timeLeft == NoTimeLeft
    {
      timeLeft := NoTimeLeft;
    }

    /**
     * One run of the timer, which is started only for a banner with an end
     * date: recompute the countdown from the time left. Afterwards the
     * countdown is shown exactly when a whole second is left, and the days
     * box exactly when a whole day is.
     */
    method Refresh(banners: seq<DiscountBanner>, difference: int)
      requires |banners| > 0 && IsSet(banners[0].countdownEndDate)
      modifies this
      ensures timeLeft == CalculateTimeLeft(banners[0].countdownEndDate, difference)
      ensures HasCountdown(banners[0], timeLeft) <==> difference >= MsPerSecond
      ensures timeLeft.days > 0 <==> difference >= MsPerDay
    {
      var banner := FirstBanner(banners).value;
      CountdownPositiveIff(banner.countdownEndDate, difference);
      DaysShownIff(banner.countdownEndDate, difference);
      timeLeft := CalculateTimeLeft(banner.countdownEndDate, difference);
    }
  }
}
