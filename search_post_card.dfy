/** Text shown on a search result card (frontend/components/search/SearchPostCard.tsx). */
module SearchPostCard {
  import opened Wrappers
  import opened Text
  import opened Decimal

  const ExcerptLength: nat := 150

  /** `stripHtml(html)`: `''` for null or empty content, otherwise tags removed, then trimmed. */
  function StripHtml(html: Option<string>): (r: string)
    ensures html.None? || html.value == "" ==> r == ""
    ensures html.Some? && html.value != "" ==> r == Trim(StripTags(html.value))
    ensures !HasTag(r)
    ensures r != [] ==> !IsWhitespace(r[0]) && !IsWhitespace(r[|r| - 1])
  {
    if html.None? || html.value == "" then ""
    else
      var stripped := StripTags(html.value);
      StripTagsRemovesAllTags(html.value);
      TrimHasNoTag(stripped);
      Trim(stripped)
  }

  /** The card's excerpt: at most the first 150 characters of the stripped content. */
  function Excerpt(content: Option<string>): (r: string)
    ensures |r| == if |StripHtml(content)| < ExcerptLength then |StripHtml(content)| else ExcerptLength
    ensures StartsWith(StripHtml(content), r)
    ensures !HasTag(r)
  {
    var plain := StripHtml(content);
    InfixHasNoTag(plain, 0, |Take(plain, ExcerptLength)|);
    Take(plain, ExcerptLength)
  }

  /** The relative-time label `formatDate` picks. */
  datatype RelativeTime =
    | JustNow               // '방금 전'
    | MinutesAgo(minutes: nat)
    | HoursAgo(hours: nat)
    | DaysAgo(days: nat)
    | CalendarDate          // older than a week: the locale-formatted date

  const MsPerMinute := 60_000
  const MsPerHour := 3_600_000
  const MsPerDay := 86_400_000
  const MsPerWeek := 604_800_000

  /**
   * `formatDate` for a post created `elapsedMs` milliseconds ago (`now.getTime() - date.getTime()`;
   * the source divides by 1000 first, which changes none of the comparisons or floors). The five
   * buckets are disjoint, cover every input, and each count is the floor of the elapsed time in
   * its unit.
   */
  function FormatDate(elapsedMs: int): (r: RelativeTime)
    ensures r.JustNow? <==> elapsedMs < MsPerMinute
    ensures r.MinutesAgo? <==> MsPerMinute <= elapsedMs < MsPerHour
    ensures r.HoursAgo? <==> MsPerHour <= elapsedMs < MsPerDay
    ensures r.DaysAgo? <==> MsPerDay <= elapsedMs < MsPerWeek
    ensures r.CalendarDate? <==> MsPerWeek <= elapsedMs
    ensures r.MinutesAgo? ==> 1 <= r.minutes <= 59 && r.minutes * MsPerMinute <= elapsedMs < (r.minutes + 1) * MsPerMinute
    ensures r.HoursAgo? ==> 1 <= r.hours <= 23 && r.hours * MsPerHour <= elapsedMs < (r.hours + 1) * MsPerHour
    ensures r.DaysAgo? ==> 1 <= r.days <= 6 && r.days * MsPerDay <= elapsedMs < (r.days + 1) * MsPerDay
  {
    if elapsedMs < MsPerHour then
      var minutes := elapsedMs / MsPerMinute;
      if minutes <= 0 then JustNow else MinutesAgo(minutes)
    else if elapsedMs < MsPerDay then HoursAgo(elapsedMs / MsPerHour)
    else if elapsedMs < MsPerWeek then DaysAgo(elapsedMs / MsPerDay)
    else CalendarDate
  }

  /** An older post never gets a more recent-sounding label. */
  function Rank(t: RelativeTime): nat {
    match t
    case JustNow => 0
    case MinutesAgo(m) => 1
    case HoursAgo(h) => 2
    case DaysAgo(d) => 3
    case CalendarDate => 4
  }

  lemma FormatDateMonotonic(earlierMs: int, laterMs: int)
    requires earlierMs <= laterMs
    ensures Rank(FormatDate(earlierMs)) <= Rank(FormatDate(laterMs))
    ensures FormatDate(earlierMs).MinutesAgo? && FormatDate(laterMs).MinutesAgo? ==>
      FormatDate(earlierMs).minutes <= FormatDate(laterMs).minutes
    ensures FormatDate(earlierMs).HoursAgo? && FormatDate(laterMs).HoursAgo? ==>
      FormatDate(earlierMs).hours <= FormatDate(laterMs).hours
    ensures FormatDate(earlierMs).DaysAgo? && FormatDate(laterMs).DaysAgo? ==>
      FormatDate(earlierMs).days <= FormatDate(laterMs).days
  {
  }

  /** The label text; the calendar date is left to the locale and is None here. */
  function Label(t: RelativeTime): (r: Option<string>)
    ensures r.None? <==> t.CalendarDate?
    ensures r.Some? ==> r.value != []
  {
    match t
    case JustNow => Some("방금 전")
    case MinutesAgo(m) => Some(NatToString(m) + "분 전")
    case HoursAgo(h) => Some(NatToString(h) + "시간 전")
    case DaysAgo(d) => Some(NatToString(d) + "일 전")
    case CalendarDate => None
  }

  /**
   * The label `formatDate` prints for a post `elapsedMs` milliseconds old: the number it shows is
   * the floor of the age in the bucket's unit.
   */
  lemma LabelOfAge(elapsedMs: int)
    ensures elapsedMs < MsPerMinute ==> Label(FormatDate(elapsedMs)) == Some("방금 전")
    ensures MsPerMinute <= elapsedMs < MsPerHour ==>
      Label(FormatDate(elapsedMs)) == Some(NatToString(elapsedMs / MsPerMinute) + "분 전")
    ensures MsPerHour <= elapsedMs < MsPerDay ==>
      Label(FormatDate(elapsedMs)) == Some(NatToString(elapsedMs / MsPerHour) + "시간 전")
    ensures MsPerDay <= elapsedMs < MsPerWeek ==>
      Label(FormatDate(elapsedMs)) == Some(NatToString(elapsedMs / MsPerDay) + "일 전")
    ensures MsPerWeek <= elapsedMs ==> Label(FormatDate(elapsedMs)).None?
  {
  }
}
