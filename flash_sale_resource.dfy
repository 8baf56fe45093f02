/**
 * The admin panel's flash-sale table (`FlashSaleResource`): the status badge and its colour,
 * the duration column, and the upcoming/running/ended filters.
 */
module FlashSaleResource {
  import opened Wrappers
  import Php
  import opened Records

  /** The status badge: inactive first, then by position of `now` against the window. */
  function Status(s: FlashSale, now: int): (status: string)
    ensures !s.isActive ==> status == "Inactive"
    ensures s.isActive && now < s.startDate ==> status == "Upcoming"
    ensures s.isActive && now >= s.startDate && now > s.endDate ==> status == "Ended"
    ensures s.isActive && s.startDate <= now <= s.endDate ==> status == "Running"
  {
    if !s.isActive then "Inactive"
    else if now < s.startDate then "Upcoming"
    else if now > s.endDate then "Ended"
    else "Running"
  }

  /** The badge colour, decided by the same tests in the same order. */
  function Color(s: FlashSale, now: int): (color: string)
    ensures !s.isActive ==> color == "danger"
  {
    if !s.isActive then "danger"
    else if now < s.startDate then "info"
    else if now > s.endDate then "gray"
    else "success"
  }

  /** The colour each status is shown in. */
  function ColorOf(status: string): string {
    if status == "Inactive" then "danger"
    else if status == "Upcoming" then "info"
    else if status == "Ended" then "gray"
    else "success"
  }

  /** Status and colour always correspond. */
  lemma ColorMatchesStatus(s: FlashSale, now: int)
    ensures Color(s, now) == ColorOf(Status(s, now))
    ensures Status(s, now) in {"Inactive", "Upcoming", "Ended", "Running"}
  {
  }

  /**
   * The duration column: 'N/A' without both dates; whole hours below a day, whole days otherwise
   * (both as the absolute distance, rounded down, as Carbon 2's `diffInHours` and `diffInDays` give it).
   */
  function Duration(start: Option<int>, end: Option<int>): (text: string)
    ensures start.None? || end.None? ==> text == "N/A"
  {
    if start.None? || end.None? then "N/A"
    else
      var d := if end.value >= start.value then end.value - start.value else start.value - end.value;
      var hours := d / 3600;
      if hours < 24 then Php.NatToString(hours) + " hours"
      else Php.NatToString(d / 86400) + " days"
  }

  /** A window under 24 hours is shown in hours (0 to 23); a longer one in days, at least one. */
  lemma DurationUnits(start: int, end: int)
    requires start <= end
    ensures end - start < 86400 ==> Duration(Some(start), Some(end)) == Php.NatToString((end - start) / 3600) + " hours"
    ensures end - start < 86400 ==> (end - start) / 3600 <= 23
    ensures end - start >= 86400 ==> Duration(Some(start), Some(end)) == Php.NatToString((end - start) / 86400) + " days"
    ensures end - start >= 86400 ==> (end - start) / 86400 >= 1
  {
  }

  /** The table filters; unlike the badge they do not look at is_active. */
  predicate UpcomingFilter(s: FlashSale, now: int) {
    s.startDate > now
  }

  predicate RunningFilter(s: FlashSale, now: int) {
    s.startDate <= now <= s.endDate
  }

  predicate EndedFilter(s: FlashSale, now: int) {
    s.endDate < now
  }

  /** For a well-formed window, exactly one filter selects the sale. */
  lemma FiltersPartition(s: FlashSale, now: int)
    requires s.startDate <= s.endDate
    ensures UpcomingFilter(s, now) || RunningFilter(s, now) || EndedFilter(s, now)
    ensures !(UpcomingFilter(s, now) && RunningFilter(s, now))
    ensures !(UpcomingFilter(s, now) && EndedFilter(s, now))
    ensures !(RunningFilter(s, now) && EndedFilter(s, now))
  {
  }

  /** For an active sale with a well-formed window, the badge names the filter that selects it. */
  lemma StatusAgreesWithFilters(s: FlashSale, now: int)
    requires s.isActive && s.startDate <= s.endDate
    ensures Status(s, now) == "Upcoming" <==> UpcomingFilter(s, now)
    ensures Status(s, now) == "Running" <==> RunningFilter(s, now)
    ensures Status(s, now) == "Ended" <==> EndedFilter(s, now)
  {
  }
}
