/**
 * Instants and calendar days.  An instant is a whole number of seconds since
 * the reference date; a day key is the instant at which its day starts.
 * The calendar is a fixed one whose days are 86400 seconds long, so that
 * `StartOfDay` is a concrete, monotone truncation.
 */
module Time {

  type Instant = int

  const Day: int := 86400
  const Hour: int := 3600

  /** Start of the calendar day holding `t` (Calendar.startOfDay(for:)). */
  function StartOfDay(t: Instant): (d: Instant)
    ensures d <= t < d + Day
    ensures d % Day == 0
  {
    t - t % Day
  }

  /** A day key is its own start of day. */
  lemma StartOfDayIdempotent(t: Instant)
    ensures StartOfDay(StartOfDay(t)) == StartOfDay(t)
  {
    var d := StartOfDay(t);
    assert d % Day == 0;
  }
}
