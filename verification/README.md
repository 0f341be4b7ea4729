# RecurrenceField validation model

A Dafny model of the validation that django-recurrence's form field
`RecurrenceField` runs on a recurrence its deserialiser has parsed.
The field is configured with a set of admitted frequencies, two flags
saying whether it keeps the `dtstart` and `dtend` anchors, and optional
upper bounds on the four collections: `rrules`, `exrules`, `rdates` and
`exdates`. `clean` then does three things in order:

1. It clears each anchor the field does not accept.
2. It checks the four limits in the order rrules, exrules, rdates,
   exdates. The first collection that is strictly larger than its limit
   fails, and the error reports that collection and the configured limit.
3. It rejects any rrule, and then any exrule, whose frequency is not
   admitted.

Files:

- `wrappers.dfy` holds `Option` and `Result`.
- `recurrences.dfy` holds the parsed value: `Frequency`, `Rule`, `Timestamp` and `Recurrence`.
- `field.dfy` holds the field's configuration, its constructor defaults (`NewField`) and its message tables. `DefaultErrorMessages` is the table the class declares. `MessageTable` is the table a configured field looks messages up in: the class defaults with the caller's `error_messages` argument laid over them.
- `validator.dfy` holds `clean`. `Clean` is the pure model. `Validate` follows the field's statements and loops, and is proved equal to `Clean`.
- `properties.dfy` holds the lemmas that relate calls or quantify over inputs.

Failures are values of `CleanError`:

- `LimitExceeded(collection, limit)` is the limit validation error.
- `FrequencyRejected` is the intended frequency validation error.
- `MessageKeyMissing(key)` is the failed lookup in the field's message table (a `KeyError` in the field).

Raising an error first looks up its message key in the field's table, as
the field does. Every limit key is in every field's table, because the
class defaults hold them and overrides cannot remove entries. The class
defaults do not hold the frequency key (see Findings). So `Clean` as
written ends a frequency rejection in `MessageKeyMissing`, unless the
caller's `error_messages` supplies "invalid_frequency". In that case it
ends in `FrequencyRejected`.

Limits are modelled as any integer, as the field accepts them, and not as
natural numbers. A negative limit therefore rejects even an empty
collection.

## Model

| member | source | states |
|---|---|---|
| `Field.NewField` | recurrence/forms.py:69-122 | constructor defaults: omitting `frequencies` admits all seven frequencies, an explicit sequence (even an empty one) is kept, anchors are accepted, every limit is unset and no messages are overridden unless given |
| `Field.MessageTable` | recurrence/forms.py:69-123 | the table a field looks messages up in holds every class default key and every key of the caller's `error_messages`, with the caller's message winning |
| `Field.AllFrequenciesComplete` | recurrence/forms.py:117-122 | the default frequency tuple contains every frequency constant |
| `Validator.AllAdmitted` | recurrence/forms.py:159-166 | the front-to-back scan of a rule list passes exactly when every rule's frequency is in the admitted set |
| `Validator.Clean` | recurrence/forms.py:131-168 | on success the four collections are returned unchanged, `dtstart`/`dtend` are kept when accepted and absent otherwise; a limit error names a collection whose configured limit it reports and whose size is strictly greater; any other failure is the missing-key lookup of "invalid_frequency" when the caller's overrides lack that key, and the frequency validation error when they supply it |
| `Validator.CleanCorrected` | recurrence/forms.py:159-166 | with the frequency message looked up under the class defaults' key, every failure is a limit error or the frequency validation error |
| `Validator.Validate` | recurrence/forms.py:125-168 | the statement-by-statement validation (in-place anchor clearing, four limit tests, two early-exit loops over the rules) computes exactly `Clean` |
| `CleanProperties.LimitKeysPresent` | recurrence/forms.py:56-67 | every key raised for a limit failure is in the class defaults and so in every field's message table |
| `CleanProperties.ClearAnchorsKeepsSizes` | recurrence/forms.py:133-136 | clearing anchors changes no collection size, so it cannot affect a limit test |
| `CleanProperties.LimitFailureIsFirstOver` | recurrence/forms.py:138-157 | `clean` fails on collection c's limit if and only if c is over its limit and no collection earlier in the order rrules, exrules, rdates, exdates is; the error carries c's configured limit |
| `CleanProperties.UnsetLimitNeverFails` | recurrence/forms.py:138-157 | a limit of `None` never causes a failure on its collection |
| `CleanProperties.LimitBoundary` | recurrence/forms.py:138-157 | a collection of exactly n elements passes a limit of n, a larger one makes `clean` fail with a limit error, and a limit of 0 rejects any non-empty collection |
| `CleanProperties.LimitsTakePrecedence` | recurrence/forms.py:138-166 | any collection over its limit makes `clean` fail with a limit error on that collection or an earlier one, whatever the rule frequencies |
| `CleanProperties.FrequencyFailureIff` | recurrence/forms.py:159-166 | `clean` fails on frequency if and only if no limit is exceeded and some rrule or exrule has a frequency the field does not admit; that failure is the missing-key lookup of "invalid_frequency" when the caller's overrides lack the key, and the frequency validation error when they supply it |
| `CleanProperties.RejectedRuleFails` | recurrence/forms.py:159-166 | within the limits, one rrule or exrule with a non-admitted frequency is enough to make `clean` fail on frequency |
| `CleanProperties.RejectedRuleWitness` | recurrence/forms.py:159-166 | a frequency failure implies a rule with a non-admitted frequency exists |
| `CleanProperties.CleanSucceedsIff` | recurrence/forms.py:131-168 | `clean` succeeds if and only if every collection is within its limit and every rule's frequency is admitted |
| `CleanProperties.AdmittedRulesPass` | recurrence/forms.py:159-168 | within the limits and with all frequencies admitted, `clean` returns the input with only the unaccepted anchors cleared |
| `CleanProperties.AllFrequenciesNeverReject` | recurrence/forms.py:114-122 | a field admitting every frequency, as the default does, never fails on frequency |
| `CleanProperties.DefaultFieldAcceptsEverything` | recurrence/forms.py:69-122 | a field built with every default returns any recurrence unchanged |
| `CleanProperties.CleanIdempotent` | recurrence/forms.py:131-168 | cleaning an accepted result again accepts it unchanged |
| `CleanProperties.FrequencyKeyMismatch` | recurrence/forms.py:56-67 | the class defaults hold "invalid_freqency" but not "invalid_frequency", so a field's table holds the looked-up key exactly when the caller's overrides supply it |
| `CleanProperties.CorrectedDiffersOnlyOnFrequency` | recurrence/forms.py:159-166 | the corrected lookup agrees with `clean` as written everywhere, except that the missing-key failure becomes the frequency validation error; with the key overridden the two agree everywhere |
| `CleanProperties.CorrectedFrequencyFailureIff` | recurrence/forms.py:159-166 | the corrected `clean` raises the frequency validation error if and only if no limit is exceeded and some rule's frequency is not admitted |
| `CleanProperties.MaxRrulesScenario` | recurrence/forms.py:138-142 | with `max_rrules=2`, three rrules fail with a limit error on rrules reporting limit 2 |
| `CleanProperties.WeeklyOnlyScenario` | recurrence/forms.py:159-162 | admitting only weekly rules, a monthly rrule ends in the missing-key lookup as written, and in the frequency validation error once corrected |
| `CleanProperties.OverriddenKeyScenario` | recurrence/forms.py:159-162 | with an `error_messages` entry for "invalid_frequency", the same monthly rrule ends in the frequency validation error |

## Left out

- `RecurrenceWidget` (HTML rendering, script injection, media paths) is user-interface plumbing with no logic to state.
- `recurrence.deserialize` and `recurrence.serialize` are calls into code that is not part of this model. The parsed recurrence is the validator's input.
- Timestamps, and rule fields other than `freq`, are carried but never inspected. `clean` only clears anchors and reads collection lengths and `freq`. Rule by-part filters are not represented.
- `rdates` and `exdates` are sequences, because only their lengths are read.
- The Django `CharField` base class is represented only by the message-table merge it performs: class defaults, overridden by the caller's `error_messages` keyword. Its own default messages (such as "required") are left out, because `clean` never looks them up. Its other keyword arguments are left out too.
- Message translation and `%(limit)s` formatting are localisation concerns. Messages are kept as template text.
- `frequencies` holds `Frequency` values, so a field configured with arbitrary Python objects is not modelled.
- Mutation of the deserialised object is modelled as returning a copy. The object is created inside `clean`, so no caller can observe the difference.
- Validator.CleanCorrected: carries no frequency in its error, because the field's message takes no parameters.

## Findings

| source | as written | input that shows it | evidently intended | confidence | as-written member | corrected member |
|---|---|---|---|---|---|---|
| recurrence/forms.py:57 | the class's message table defines the key "invalid_freqency", but lines 162 and 166 look up "invalid_frequency". For a field built without an `error_messages` entry for "invalid_frequency", a rejected frequency raises a lookup failure instead of a validation error | a field admitting only weekly rules, given one monthly rrule (`CleanProperties.WeeklyOnlyScenario`) | the lookup finds the "Invalid frequency." message and raises a form validation error | high, not executed | `Validator.Clean` | `Validator.CleanCorrected` |
