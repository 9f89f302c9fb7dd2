/** Time as the components read it. An instant is a count of milliseconds on the local wall clock, which is
    what `new Date(iso)` denotes once the string is parsed; "now" (`new Date()`) is always a parameter.
    date-fns' `isToday`, `isPast` and `isFuture` compare against that same reading of the clock. */
module Clock {

  const MsPerHour: int := 3_600_000
  const MsPerDay: int := 24 * MsPerHour

  /** The local calendar day an instant falls on, counted from the epoch. */
  function DayOf(t: int): int {
    t / MsPerDay
  }

  /** The first instant of the day `t` falls on (`startOfDay`). */
  function StartOfDay(t: int): int {
    DayOf(t) * MsPerDay
  }

  predicate IsToday(t: int, now: int) {
    DayOf(t) == DayOf(now)
  }

  predicate IsPast(t: int, now: int) {
    t < now
  }

  predicate IsFuture(t: int, now: int) {
    now < t
  }

  /** Every instant lies inside the day that `DayOf` names. */
  lemma DayBounds(t: int)
    ensures StartOfDay(t) <= t < StartOfDay(t) + MsPerDay
  {
  }

  /** Later instants never fall on earlier days. */
  lemma DayOfMonotonic(a: int, b: int)
    requires a <= b
    ensures DayOf(a) <= DayOf(b)
  {
    DayBounds(a);
    DayBounds(b);
  }

  /** A calendar date as `Date.getFullYear`, `getMonth` (0 to 11) and `getDate` give it. */
  datatype CalendarDate = CalendarDate(year: int, month: int, day: int)
}
