/**
  The configuration of a recurrence form field: which frequencies it
  admits, whether it keeps the anchors, and the optional upper bound on
  each collection, together with the field's table of error messages.
 */
module Field {
  import opened Wrappers
  import opened Recurrences

  /** The frequencies a field admits when none are given, in the field's own order. */
  const AllFrequencies: seq<Frequency> :=
    [Yearly, Monthly, Weekly, Daily, Hourly, Minutely, Secondly]

  /** Every frequency is among the defaults. */
  lemma AllFrequenciesComplete()
    ensures forall q: Frequency :: q in AllFrequencies
  {
    forall q: Frequency
      ensures q in AllFrequencies
    {
      match q
      case Yearly => assert AllFrequencies[0] == q;
      case Monthly => assert AllFrequencies[1] == q;
      case Weekly => assert AllFrequencies[2] == q;
      case Daily => assert AllFrequencies[3] == q;
      case Hourly => assert AllFrequencies[4] == q;
      case Minutely => assert AllFrequencies[5] == q;
      case Secondly => assert AllFrequencies[6] == q;
    }
  }

  /**
    A configured field. A limit of `None` means unlimited; any integer is
    accepted as a limit, so a negative one rejects even an empty collection.
    `messageOverrides` is the caller's `error_messages` argument, which the
    form-field base class lays over the class's default messages.
   */
  datatype RecurrenceField = RecurrenceField(
    frequencies: seq<Frequency>,
    acceptDtstart: bool,
    acceptDtend: bool,
    maxRrules: Option<int>,
    maxExrules: Option<int>,
    maxRdates: Option<int>,
    maxExdates: Option<int>,
    messageOverrides: map<string, string>)

  /**
    Builds a field from the constructor's keyword arguments, with the
    constructor's defaults. Omitting `frequencies` admits every frequency;
    an explicit sequence, even an empty one, is kept as given.
   */
  function NewField(
    frequencies: Option<seq<Frequency>> := None,
    acceptDtstart: bool := true,
    acceptDtend: bool := true,
    maxRrules: Option<int> := None,
    maxExrules: Option<int> := None,
    maxRdates: Option<int> := None,
    maxExdates: Option<int> := None,
    errorMessages: map<string, string> := map[]): (f: RecurrenceField)
    ensures frequencies.None? ==> forall q: Frequency :: q in f.frequencies
    ensures frequencies.Some? ==> forall q: Frequency :: q in f.frequencies <==> q in frequencies.value
    ensures f.acceptDtstart == acceptDtstart && f.acceptDtend == acceptDtend
    ensures f.maxRrules == maxRrules && f.maxExrules == maxExrules
    ensures f.maxRdates == maxRdates && f.maxExdates == maxExdates
    ensures f.messageOverrides == errorMessages
  {
    AllFrequenciesComplete();
    var admitted := if frequencies.Some? then frequencies.value else AllFrequencies;
    RecurrenceField(admitted, acceptDtstart, acceptDtend,
                    maxRrules, maxExrules, maxRdates, maxExdates, errorMessages)
  }

  /**
    The error messages the field class declares, keyed as it declares them.
    The frequency entry is keyed "invalid_freqency" (sic). Message formatting
    and translation are not modelled; the templates are kept as text.
   */
  const DefaultErrorMessages: map<string, string> := map[
    "invalid_freqency" := "Invalid frequency.",
    "max_rrules_exceeded" := "Max rules exceeded. The limit is %(limit)s",
    "max_exrules_exceeded" := "Max exclusion rules exceeded. The limit is %(limit)s",
    "max_rdates_exceeded" := "Max dates exceeded. The limit is %(limit)s",
    "max_exdates_exceeded" := "Max exclusion dates exceeded. The limit is %(limit)s"
  ]

  /**
    The table a configured field looks messages up in: the class defaults,
    with the caller's overrides taking precedence. Overrides can add or
    replace entries but never remove one.
   */
  function MessageTable(field: RecurrenceField): (t: map<string, string>)
    ensures t.Keys == DefaultErrorMessages.Keys + field.messageOverrides.Keys
    ensures forall k :: k in field.messageOverrides ==> t[k] == field.messageOverrides[k]
  {
    DefaultErrorMessages + field.messageOverrides
  }

  /** The key the frequency checks look up in the table when a rule is rejected. */
  const FrequencyLookupKey: string := "invalid_frequency"

  /** The key under which the class defaults actually store the frequency message. */
  const FrequencyTableKey: string := "invalid_freqency"
}
