/** The part of Go's `time` package the reader touches, kept abstract.

    An `Instant` is a point on the time line counted in ticks from Go's zero
    time (January 1, year 1, 00:00:00 UTC) together with the location it is
    displayed in. Which texts `time.Parse` accepts and where
    `time.LoadLocation` finds a zone are not modelled: they arrive as the
    functions of a `TimeLib` value supplied by the caller. */
module Time {
  import opened Util

  /** A `*time.Location`: UTC or a zone known by name. */
  datatype Zone = Utc | Named(name: string)

  datatype Instant = Instant(ticks: int, zone: Zone)

  /** The value of `time.Time{}`, which `time.Parse` also returns on failure. */
  const Zero: Instant := Instant(0, Utc)

  /** Ticks in one day: 24 hours of nanoseconds, the `time.Hour * 24` duration. */
  const Day: int := 24 * 60 * 60 * 1_000_000_000

  /** The three layouts of the reader (dateLayout, dateTimeLayoutUTC,
      dateTimeLayoutLocalized). */
  datatype Layout = DateLayout | DateTimeUtcLayout | DateTimeLocalLayout

  /** The library calls the reader makes: `time.ParseInLocation(layout, text, zone)`
      (`time.Parse` is the same call in UTC), and `time.LoadLocation(name)`. */
  datatype TimeLib = TimeLib(
    parseIn: (Layout, string, Zone) -> Option<Instant>,
    loadLocation: string -> Option<Zone>)

  /** `Time.IsZero`: the instant is the zero instant, whatever its location. */
  predicate IsZero(t: Instant)
  {
    t.ticks == 0
  }

  /** `t.Add(24 * time.Hour)`: one day later, displayed in the same location. */
  function AddDay(t: Instant): (r: Instant)
    ensures r.zone == t.zone
    ensures r.ticks - t.ticks == Day
    ensures !IsZero(t) || !IsZero(r)
  {
    Instant(t.ticks + Day, t.zone)
  }

  /** The time value a parse yields in Go, where a failure gives `time.Time{}`
      next to its error. */
  function ParseOrZero(lib: TimeLib, layout: Layout, text: string, zone: Zone): (r: (Instant, bool))
    ensures r.1 <==> lib.parseIn(layout, text, zone).Some?
    ensures !r.1 ==> r.0 == Zero && IsZero(r.0)
    ensures r.1 ==> r.0 == lib.parseIn(layout, text, zone).value
  {
    match lib.parseIn(layout, text, zone)
    case Some(t) => (t, true)
    case None => (Zero, false)
  }
}
