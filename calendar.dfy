/**
 * Instants as the ledger needs them: abstract ordered values that know their
 * calendar year and month, so that a month's first instant and the rollover
 * to the next month can be computed as `time.Date` and `AddDate` do.
 */
module Calendar {

  /** A UTC instant: its year, its month (1..12 for a normalised instant) and how far into that month it lies. */
  datatype Instant = Instant(year: int, month: int, within: nat)

  ghost predicate Normalised(t: Instant) {
    1 <= t.month <= 12
  }

  /** Chronological order: by year, then month, then position within the month. */
  predicate Before(a: Instant, b: Instant) {
    a.year < b.year || (a.year == b.year && (a.month < b.month || (a.month == b.month && a.within < b.within)))
  }

  predicate NotAfter(a: Instant, b: Instant) {
    a == b || Before(a, b)
  }

  /** The number of whole months from the start of year 0 to the start of the month. */
  function MonthIndex(year: int, month: int): int {
    year * 12 + (month - 1)
  }

  /**
   * `time.Date(year, time.Month(month), 1, 0, 0, 0, 0, time.UTC)`: the first
   * instant of the month, where a month outside 1..12 carries into the year.
   */
  function MonthStart(year: int, month: int): (t: Instant)
    ensures Normalised(t) && t.within == 0
    ensures MonthIndex(t.year, t.month) == MonthIndex(year, month)
    ensures 1 <= month <= 12 ==> t.year == year && t.month == month
  {
    Instant(year + (month - 1) / 12, (month - 1) % 12 + 1, 0)
  }

  /** The bounds the month summary uses: [first of the month, first of the next month). */
  function MonthBounds(year: int, month: int): (b: (Instant, Instant))
    ensures b.0 == MonthStart(year, month)
    ensures MonthIndex(b.1.year, b.1.month) == MonthIndex(b.0.year, b.0.month) + 1
    ensures Before(b.0, b.1)
  {
    var begin := MonthStart(year, month);
    (begin, MonthStart(begin.year, begin.month + 1))
  }

  /** December rolls over to January of the following year; other months stay in the year. */
  lemma MonthBoundsRollover(year: int, month: int)
    requires 1 <= month <= 12
    ensures month == 12 ==> MonthBounds(year, month).1 == Instant(year + 1, 1, 0)
    ensures month < 12 ==> MonthBounds(year, month).1 == Instant(year, month + 1, 0)
  {
  }

  /** A normalised instant lies in [begin, end) exactly when it falls in that calendar month. */
  lemma InMonthBoundsIff(t: Instant, year: int, month: int)
    requires Normalised(t) && 1 <= month <= 12
    ensures var (begin, end) := MonthBounds(year, month);
      (NotAfter(begin, t) && Before(t, end)) <==> (t.year == year && t.month == month)
  {
  }
}
