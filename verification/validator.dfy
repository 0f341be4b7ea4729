/**
  `RecurrenceField.clean`: clear the anchors the field does not accept,
  enforce the four collection limits in a fixed order, then reject any
  rule whose frequency the field does not admit. The first failure ends
  validation.
 */
module Validator {
  import opened Wrappers
  import opened Recurrences
  import opened Field

  /** The four limited collections, named in the order `clean` checks them. */
  datatype Collection = RRules | ExRules | RDates | ExDates

  /**
    Why `clean` failed. `LimitExceeded` and `FrequencyRejected` are the
    validation errors the field means to raise; `MessageKeyMissing` is the
    lookup failure raised instead when the message key is not in the table.
   */
  datatype CleanError =
    | LimitExceeded(collection: Collection, limit: int)
    | FrequencyRejected
    | MessageKeyMissing(key: string)

  /** Position of a collection in the checking order. */
  function Rank(c: Collection): nat
  {
    match c
    case RRules => 0
    case ExRules => 1
    case RDates => 2
    case ExDates => 3
  }

  /** Number of elements in a collection of the recurrence. */
  function Size(rec: Recurrence, c: Collection): nat
  {
    match c
    case RRules => |rec.rrules|
    case ExRules => |rec.exrules|
    case RDates => |rec.rdates|
    case ExDates => |rec.exdates|
  }

  /** The field's configured limit for a collection. */
  function Limit(field: RecurrenceField, c: Collection): Option<int>
  {
    match c
    case RRules => field.maxRrules
    case ExRules => field.maxExrules
    case RDates => field.maxRdates
    case ExDates => field.maxExdates
  }

  /** The message key raised when a collection's limit is exceeded. */
  function LimitKey(c: Collection): string
  {
    match c
    case RRules => "max_rrules_exceeded"
    case ExRules => "max_exrules_exceeded"
    case RDates => "max_rdates_exceeded"
    case ExDates => "max_exdates_exceeded"
  }

  /** A collection is over its limit when a limit is set and the size is strictly greater. */
  predicate Over(field: RecurrenceField, rec: Recurrence, c: Collection)
  {
    Limit(field, c).Some? && Size(rec, c) > Limit(field, c).value
  }

  /**
    Raising a message looks its key up in the field's table first: a missing
    key fails the lookup instead.
   */
  function Raise(field: RecurrenceField, key: string, intended: CleanError): CleanError
  {
    if key in MessageTable(field) then intended else MessageKeyMissing(key)
  }

  /** The error for a collection over its limit, reporting the configured limit. */
  function LimitFailure(field: RecurrenceField, c: Collection): CleanError
    requires Limit(field, c).Some?
  {
    Raise(field, LimitKey(c), LimitExceeded(c, Limit(field, c).value))
  }

  /** Clears the anchors the field does not accept. */
  function ClearAnchors(field: RecurrenceField, rec: Recurrence): Recurrence
  {
    rec.(dtstart := if field.acceptDtstart then rec.dtstart else None,
         dtend := if field.acceptDtend then rec.dtend else None)
  }

  /** Whether every rule, scanned front to back, has an admitted frequency. */
  function AllAdmitted(rules: seq<Rule>, admitted: seq<Frequency>): (b: bool)
    ensures b <==> forall i :: 0 <= i < |rules| ==> rules[i].freq in admitted
  {
    if |rules| == 0 then true
    else rules[0].freq in admitted && AllAdmitted(rules[1..], admitted)
  }

  /**
    The validation steps of `clean`, with the frequency message looked up
    under `frequencyKey`.
   */
  function CleanWith(field: RecurrenceField, rec: Recurrence, frequencyKey: string): Result<Recurrence, CleanError>
  {
    var obj := ClearAnchors(field, rec);
    if Over(field, obj, RRules) then Failure(LimitFailure(field, RRules))
    else if Over(field, obj, ExRules) then Failure(LimitFailure(field, ExRules))
    else if Over(field, obj, RDates) then Failure(LimitFailure(field, RDates))
    else if Over(field, obj, ExDates) then Failure(LimitFailure(field, ExDates))
    else if !AllAdmitted(obj.rrules, field.frequencies) then Failure(Raise(field, frequencyKey, FrequencyRejected))
    else if !AllAdmitted(obj.exrules, field.frequencies) then Failure(Raise(field, frequencyKey, FrequencyRejected))
    else Success(obj)
  }

  /**
    `clean` as written: a rejected frequency looks up "invalid_frequency",
    a key the class defaults do not hold, so the lookup fails unless the
    caller's overrides supply it.
   */
  function Clean(field: RecurrenceField, rec: Recurrence): (r: Result<Recurrence, CleanError>)
    ensures r.Success? ==> r.value.rrules == rec.rrules && r.value.exrules == rec.exrules
    ensures r.Success? ==> r.value.rdates == rec.rdates && r.value.exdates == rec.exdates
    ensures r.Success? ==> r.value.dtstart == (if field.acceptDtstart then rec.dtstart else None)
    ensures r.Success? ==> r.value.dtend == (if field.acceptDtend then rec.dtend else None)
    ensures r.Failure? && r.error.LimitExceeded? ==>
              Limit(field, r.error.collection) == Some(r.error.limit)
              && Size(rec, r.error.collection) > r.error.limit
    ensures r.Failure? && FrequencyLookupKey !in field.messageOverrides ==>
              r.error.LimitExceeded? || r.error == MessageKeyMissing(FrequencyLookupKey)
    ensures r.Failure? && FrequencyLookupKey in field.messageOverrides ==>
              r.error.LimitExceeded? || r.error == FrequencyRejected
  {
    CleanWith(field, rec, FrequencyLookupKey)
  }

  /** `clean` with the frequency message looked up under the key the class defaults define. */
  function CleanCorrected(field: RecurrenceField, rec: Recurrence): (r: Result<Recurrence, CleanError>)
    ensures r.Failure? ==> r.error.LimitExceeded? || r.error.FrequencyRejected?
  {
    CleanWith(field, rec, FrequencyTableKey)
  }

  /**
    `clean` step by step as the field runs it: in-place anchor clearing,
    four limit tests, then one pass over the inclusion rules and one over
    the exclusion rules, stopping at the first rejected frequency.
   */
  method Validate(field: RecurrenceField, rec: Recurrence) returns (r: Result<Recurrence, CleanError>)
    ensures r == Clean(field, rec)
  {
    var obj := rec;
    if !field.acceptDtstart {
      obj := obj.(dtstart := None);
    }
    if !field.acceptDtend {
      obj := obj.(dtend := None);
    }

    if field.maxRrules.Some? && |obj.rrules| > field.maxRrules.value {
      return Failure(Raise(field, LimitKey(RRules), LimitExceeded(RRules, field.maxRrules.value)));
    }
    if field.maxExrules.Some? && |obj.exrules| > field.maxExrules.value {
      return Failure(Raise(field, LimitKey(ExRules), LimitExceeded(ExRules, field.maxExrules.value)));
    }
    if field.maxRdates.Some? && |obj.rdates| > field.maxRdates.value {
      return Failure(Raise(field, LimitKey(RDates), LimitExceeded(RDates, field.maxRdates.value)));
    }
    if field.maxExdates.Some? && |obj.exdates| > field.maxExdates.value {
      return Failure(Raise(field, LimitKey(ExDates), LimitExceeded(ExDates, field.maxExdates.value)));
    }

    var i := 0;
    while i < |obj.rrules|
      invariant 0 <= i <= |obj.rrules|
      invariant forall j :: 0 <= j < i ==> obj.rrules[j].freq in field.frequencies
    {
      if obj.rrules[i].freq !in field.frequencies {
        return Failure(Raise(field, FrequencyLookupKey, FrequencyRejected));
      }
      i := i + 1;
    }
    var k := 0;
    while k < |obj.exrules|
      invariant 0 <= k <= |obj.exrules|
      invariant forall j :: 0 <= j < k ==> obj.exrules[j].freq in field.frequencies
    {
      if obj.exrules[k].freq !in field.frequencies {
        return Failure(Raise(field, FrequencyLookupKey, FrequencyRejected));
      }
      k := k + 1;
    }
    return Success(obj);
  }
}
