/**
  The parsed recurrence value that `RecurrenceField.clean` receives from the
  deserialiser. Only the parts the field reads are given any structure:
  whether the anchors are present, the rule frequencies and the sizes of
  the four collections. Everything else is carried along untouched.
 */
module Recurrences {
  import opened Wrappers

  /** The seven rule frequencies of RFC 2445. */
  datatype Frequency = Yearly | Monthly | Weekly | Daily | Hourly | Minutely | Secondly

  /** A calendar instant; the field never looks inside it. */
  datatype Timestamp = Timestamp(ticks: int)

  /** One inclusion or exclusion rule. Only `freq` is read by the field. */
  datatype Rule = Rule(
    freq: Frequency,
    interval: int,
    count: Option<int>,
    until: Option<Timestamp>)

  /** A recurrence specification: two optional anchors and four collections. */
  datatype Recurrence = Recurrence(
    dtstart: Option<Timestamp>,
    dtend: Option<Timestamp>,
    rrules: seq<Rule>,
    exrules: seq<Rule>,
    rdates: seq<Timestamp>,
    exdates: seq<Timestamp>)
}
