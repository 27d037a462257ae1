/**
 * Dates as the Go `time` package supplies them. Time values are opaque, and
 * parsing, formatting, month extraction and UTC conversion are taken as given
 * functions collected in a Calendar, so every property below holds for any
 * behaviour of the time library.
 */
module Dates {
  import opened Wrappers

  /** An instant as the time library represents it; its structure is never inspected. */
  datatype Time = Time(repr: int)

  /** The zero value `time.Time{}`, which a Conference carries when no date was given. */
  const ZeroTime: Time := Time(0)

  /** The two layouts the service parses: `time.RFC3339` and the short `2006-01-02`. */
  datatype Layout = RFC3339 | ShortDate

  /**
   * The time library: `time.Parse` (a failure carries the parser's error text
   * when the text does not match the layout), `Time.Format`, `Time.Month` (1 to 12 for a real library) and `Time.UTC`.
   */
  datatype Calendar = Calendar(
    parse: (Layout, string) -> Result<Time, string>,
    format: (Layout, Time) -> string,
    month: Time -> int,
    utc: Time -> Time)
}
