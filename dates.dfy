/** Calendar arithmetic on instants.

    An instant is a number of milliseconds since the epoch, read in the
    browser's local time; daylight-saving shifts are not modelled, so every
    day is exactly `DayMs` long.  The date-library helpers the booking code
    relies on (start of day, end of day, calendar-day difference, every day
    of an interval) become small functions on these numbers. */
module Dates {

  type Instant = int

  const DayMs: int := 86_400_000

  /** The calendar day an instant falls on (floor division: Dafny's `/` is Euclidean). */
  function DayOf(t: Instant): int {
    t / DayMs
  }

  /** Milliseconds elapsed since midnight of `t`'s day. */
  function TimeOfDay(t: Instant): (r: int)
    ensures 0 <= r < DayMs
  {
    t % DayMs
  }

  /** `startOfDay`: midnight of the day `t` falls on. */
  function StartOfDay(t: Instant): (r: Instant)
    ensures r <= t < r + DayMs
    ensures DayOf(r) == DayOf(t) && TimeOfDay(r) == 0
  {
    DayOf(t) * DayMs
  }

  /** `endOfDay`: the last millisecond (23:59:59.999) of the day `t` falls on. */
  function EndOfDay(t: Instant): (r: Instant)
    ensures t <= r && r - DayMs < t
    ensures DayOf(r) == DayOf(t) && TimeOfDay(r) == DayMs - 1
  {
    StartOfDay(t) + DayMs - 1
  }

  /** `differenceInCalendarDays(later, earlier)`: number of midnights crossed,
      negative when `later` precedes `earlier`. */
  function CalendarDaysBetween(later: Instant, earlier: Instant): int {
    DayOf(later) - DayOf(earlier)
  }

  /** The effect of `d.setDate(d.getDate() + k)`, written with `n` the target
      day counted from the epoch: the instant on day `n` at the same time of
      day as `t`. */
  function SetDay(t: Instant, n: int): (r: Instant)
    ensures DayOf(r) == n && TimeOfDay(r) == TimeOfDay(t)
  {
    n * DayMs + TimeOfDay(t)
  }

  /** Comparing a day start (or a day end) with another day's start or end
      reduces to comparing their calendar days. */
  lemma DayBoundsOrder(a: Instant, b: Instant)
    ensures StartOfDay(a) <= StartOfDay(b) <==> DayOf(a) <= DayOf(b)
    ensures StartOfDay(a) <= EndOfDay(b) <==> DayOf(a) <= DayOf(b)
    ensures EndOfDay(a) <= EndOfDay(b) <==> DayOf(a) <= DayOf(b)
    ensures StartOfDay(a) < StartOfDay(b) <==> DayOf(a) < DayOf(b)
    ensures EndOfDay(a) < EndOfDay(b) <==> DayOf(a) < DayOf(b)
  {
  }

  /** Instants that are ordered fall on ordered days. */
  lemma DayOfMonotone(a: Instant, b: Instant)
    requires a <= b
    ensures DayOf(a) <= DayOf(b)
  {
  }
}
