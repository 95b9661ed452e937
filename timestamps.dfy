/** Timestamps. The SDK writes a `datetime` with `isoformat()`, a `date` with
  * `isoformat()`, and reads timestamps with the `iso8601` library's
  * `parse_date`; those three library routines are not modelled and are
  * passed in as the `Iso8601` record. A timestamp itself is opaque apart
  * from whether it carries a UTC offset. */
module Timestamps {

  import opened Wrappers
  import opened Json

  /** A `datetime`: an opaque wall-clock reading and its UTC offset in
    * minutes, `None` for a naive datetime. */
  datatype DateTime = DateTime(wallClock: int, utcOffset: Option<int>)

  /** A `date`. */
  datatype Date = Date(year: int, month: int, day: int)

  /** The ISO-8601 routines the SDK calls: `datetime.isoformat`,
    * `date.isoformat`, and `iso8601.parse_date` (applied to whatever JSON
    * value the server sent, failing with the library's message). */
  datatype Iso8601 = Iso8601(
    formatDateTime: DateTime -> string,
    formatDate: Date -> string,
    parse: Json -> Result<DateTime, string>)

  /** Parsing a formatted aware timestamp gives it back: what the library pair
    * promises, assumed by the round-trip lemmas that need it. */
  ghost predicate FaithfulOn(iso: Iso8601, d: DateTime)
  {
    iso.parse(JString(iso.formatDateTime(d))) == Success(d)
  }
}
