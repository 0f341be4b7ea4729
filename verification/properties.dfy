/** Properties of `RecurrenceField.clean` that relate several calls or quantify over inputs. */
module CleanProperties {
  import opened Wrappers
  import opened Recurrences
  import opened Field
  import opened Validator

  /** `r` is a failure that blames the limit of collection `c`. */
  predicate FailsOnLimit(r: Result<Recurrence, CleanError>, c: Collection)
  {
    r.Failure? && r.error.LimitExceeded? && r.error.collection == c
  }

  /** `c` is over its limit and no collection checked before it is. */
  predicate FirstOver(field: RecurrenceField, rec: Recurrence, c: Collection)
  {
    Over(field, rec, c) && forall d :: Rank(d) < Rank(c) ==> !Over(field, rec, d)
  }

  /** Some inclusion or exclusion rule has a frequency the field does not admit. */
  predicate SomeRuleRejected(field: RecurrenceField, rec: Recurrence)
  {
    exists r :: r in rec.rrules + rec.exrules && r.freq !in field.frequencies
  }

  /**
    The message a rejected frequency raises: the frequency validation error
    when the field's table holds "invalid_frequency", the failed lookup otherwise.
   */
  function FrequencyError(field: RecurrenceField): CleanError
  {
    Raise(field, FrequencyLookupKey, FrequencyRejected)
  }

  /** Every limit message key is present in every field's message table. */
  lemma LimitKeysPresent(field: RecurrenceField, c: Collection)
    ensures LimitKey(c) in DefaultErrorMessages
    ensures LimitKey(c) in MessageTable(field)
  {
  }

  /** Clearing anchors never changes a collection's size. */
  lemma ClearAnchorsKeepsSizes(field: RecurrenceField, rec: Recurrence, c: Collection)
    ensures Size(ClearAnchors(field, rec), c) == Size(rec, c)
    ensures Over(field, ClearAnchors(field, rec), c) == Over(field, rec, c)
  {
  }

  /**
    A limit failure names collection `c` exactly when `c` is the first
    collection, in the order rrules, exrules, rdates, exdates, that is over
    its limit; the failure then reports the configured limit.
   */
  lemma LimitFailureIsFirstOver(field: RecurrenceField, rec: Recurrence, c: Collection)
    ensures FailsOnLimit(Clean(field, rec), c) <==> FirstOver(field, rec, c)
    ensures FailsOnLimit(Clean(field, rec), c) ==>
              Clean(field, rec).error == LimitExceeded(c, Limit(field, c).value)
  {
    LimitKeysPresent(field, c);
    forall d ensures Over(field, ClearAnchors(field, rec), d) == Over(field, rec, d) {
      ClearAnchorsKeepsSizes(field, rec, d);
    }
  }

  /** A limit of `None` never causes a failure on its collection. */
  lemma UnsetLimitNeverFails(field: RecurrenceField, rec: Recurrence, c: Collection)
    requires Limit(field, c).None?
    ensures !FailsOnLimit(Clean(field, rec), c)
  {
  }

  /**
    A limit `n` admits a collection of exactly `n` elements and rejects one
    of more; a limit of zero rejects any non-empty collection.
   */
  lemma LimitBoundary(field: RecurrenceField, rec: Recurrence, c: Collection)
    requires Limit(field, c).Some?
    ensures Size(rec, c) == Limit(field, c).value ==> !FailsOnLimit(Clean(field, rec), c)
    ensures Limit(field, c).value == 0 && Size(rec, c) > 0 ==> Clean(field, rec).Failure?
    ensures Size(rec, c) > Limit(field, c).value ==> Clean(field, rec).Failure? && Clean(field, rec).error.LimitExceeded?
  {
  }

  /**
    Any collection over its limit makes `clean` fail with a limit error,
    whatever the rule frequencies: the frequency test is never reached.
   */
  lemma LimitsTakePrecedence(field: RecurrenceField, rec: Recurrence, c: Collection)
    requires Over(field, rec, c)
    ensures Clean(field, rec).Failure? && Clean(field, rec).error.LimitExceeded?
    ensures Rank(Clean(field, rec).error.collection) <= Rank(c)
  {
  }

  /**
    `clean` as written fails on frequency exactly when no limit is exceeded
    and some rrule or exrule has a frequency the field does not admit. The
    failure is the lookup of the missing key "invalid_frequency", unless the
    caller's `error_messages` supplies that key, in which case it is the
    frequency validation error.
   */
  lemma FrequencyFailureIff(field: RecurrenceField, rec: Recurrence)
    ensures FrequencyLookupKey !in field.messageOverrides ==>
              (Clean(field, rec) == Failure(MessageKeyMissing(FrequencyLookupKey)) <==>
                 (forall c :: !Over(field, rec, c)) && SomeRuleRejected(field, rec))
    ensures FrequencyLookupKey in field.messageOverrides ==>
              (Clean(field, rec) == Failure(FrequencyRejected) <==>
                 (forall c :: !Over(field, rec, c)) && SomeRuleRejected(field, rec))
  {
    FrequencyKeyMismatch(field);
    if Clean(field, rec) == Failure(FrequencyError(field)) {
      forall c ensures !Over(field, rec, c) {
        if Over(field, rec, c) {
          LimitsTakePrecedence(field, rec, c);
        }
      }
      RejectedRuleWitness(field, rec);
    }
    if (forall c :: !Over(field, rec, c)) && SomeRuleRejected(field, rec) {
      RejectedRuleFails(field, rec);
    }
  }

  /** Within the limits, one rejected rule is enough to fail on frequency. */
  lemma RejectedRuleFails(field: RecurrenceField, rec: Recurrence)
    requires forall c :: !Over(field, rec, c)
    requires SomeRuleRejected(field, rec)
    ensures Clean(field, rec) == Failure(FrequencyError(field))
  {
    var q :| q in rec.rrules + rec.exrules && q.freq !in field.frequencies;
    assert !Over(field, rec, RRules) && !Over(field, rec, ExRules);
    assert !Over(field, rec, RDates) && !Over(field, rec, ExDates);
    if q in rec.rrules {
      var i :| 0 <= i < |rec.rrules| && rec.rrules[i] == q;
    } else {
      var i :| 0 <= i < |rec.exrules| && rec.exrules[i] == q;
    }
  }

  /** A frequency failure exhibits a rejected rule. */
  lemma RejectedRuleWitness(field: RecurrenceField, rec: Recurrence)
    requires Clean(field, rec) == Failure(FrequencyError(field))
    ensures SomeRuleRejected(field, rec)
  {
  }

  /**
    `clean` succeeds exactly when every collection is within its limit and
    every rule's frequency is admitted.
   */
  lemma CleanSucceedsIff(field: RecurrenceField, rec: Recurrence)
    ensures Clean(field, rec).Success? <==>
              (forall c :: !Over(field, rec, c)) && !SomeRuleRejected(field, rec)
  {
    if Clean(field, rec).Success? {
      forall c ensures !Over(field, rec, c) {
        if Over(field, rec, c) {
          LimitsTakePrecedence(field, rec, c);
        }
      }
      if SomeRuleRejected(field, rec) {
        RejectedRuleFails(field, rec);
      }
    }
    if (forall c :: !Over(field, rec, c)) && !SomeRuleRejected(field, rec) {
      AdmittedRulesPass(field, rec);
    }
  }

  /** Within the limits and with every frequency admitted, `clean` returns the anchor-cleared value. */
  lemma AdmittedRulesPass(field: RecurrenceField, rec: Recurrence)
    requires forall c :: !Over(field, rec, c)
    requires !SomeRuleRejected(field, rec)
    ensures Clean(field, rec) == Success(ClearAnchors(field, rec))
  {
    assert !Over(field, rec, RRules) && !Over(field, rec, ExRules);
    assert !Over(field, rec, RDates) && !Over(field, rec, ExDates);
    forall i | 0 <= i < |rec.rrules| ensures rec.rrules[i].freq in field.frequencies {
      assert rec.rrules[i] in rec.rrules + rec.exrules;
    }
    forall i | 0 <= i < |rec.exrules| ensures rec.exrules[i].freq in field.frequencies {
      assert rec.exrules[i] in rec.rrules + rec.exrules;
    }
  }

  /**
    A field that admits every frequency (the default) never fails on
    frequency: every failure it reports is a limit failure.
   */
  lemma AllFrequenciesNeverReject(field: RecurrenceField, rec: Recurrence)
    requires forall q: Frequency :: q in field.frequencies
    ensures Clean(field, rec).Failure? ==> Clean(field, rec).error.LimitExceeded?
  {
  }

  /** A field built with every default returns its input unchanged. */
  lemma DefaultFieldAcceptsEverything(rec: Recurrence)
    ensures Clean(NewField(), rec) == Success(rec)
  {
  }

  /** Cleaning an already cleaned value returns it unchanged. */
  lemma CleanIdempotent(field: RecurrenceField, rec: Recurrence)
    requires Clean(field, rec).Success?
    ensures Clean(field, Clean(field, rec).value) == Clean(field, rec)
  {
  }

  /**
    The class defaults store the frequency message under "invalid_freqency"
    but the checks look up "invalid_frequency", which a field's table holds
    only when the caller's overrides supply it.
   */
  lemma FrequencyKeyMismatch(field: RecurrenceField)
    ensures FrequencyTableKey in DefaultErrorMessages
    ensures FrequencyLookupKey !in DefaultErrorMessages
    ensures FrequencyTableKey in MessageTable(field)
    ensures FrequencyLookupKey in MessageTable(field) <==> FrequencyLookupKey in field.messageOverrides
  {
  }

  /**
    The corrected lookup agrees with `clean` as written on every input,
    except that the missing-key lookup failure becomes the intended
    frequency validation error. A field whose overrides supply
    "invalid_frequency" behaves identically under both.
   */
  lemma CorrectedDiffersOnlyOnFrequency(field: RecurrenceField, rec: Recurrence)
    ensures Clean(field, rec) != Failure(MessageKeyMissing(FrequencyLookupKey)) ==>
              CleanCorrected(field, rec) == Clean(field, rec)
    ensures FrequencyLookupKey !in field.messageOverrides ==>
              (Clean(field, rec) == Failure(MessageKeyMissing(FrequencyLookupKey)) <==>
                 CleanCorrected(field, rec) == Failure(FrequencyRejected))
    ensures FrequencyLookupKey in field.messageOverrides ==>
              CleanCorrected(field, rec) == Clean(field, rec)
  {
  }

  /**
    The corrected `clean` rejects with the frequency validation error
    exactly when no limit is exceeded and some rule's frequency is not admitted.
   */
  lemma CorrectedFrequencyFailureIff(field: RecurrenceField, rec: Recurrence)
    ensures CleanCorrected(field, rec) == Failure(FrequencyRejected) <==>
              (forall c :: !Over(field, rec, c)) && SomeRuleRejected(field, rec)
  {
    CorrectedDiffersOnlyOnFrequency(field, rec);
    FrequencyFailureIff(field, rec);
  }

  /** A daily rule with no bound, used by the scenarios below. */
  const DailyRule: Rule := Rule(Daily, 1, None, None)

  /** With `max_rrules=2`, three rrules fail on the rrules limit of 2. */
  lemma MaxRrulesScenario()
    ensures Clean(NewField(maxRrules := Some(2)),
                  Recurrence(None, None, [DailyRule, DailyRule, DailyRule], [], [], []))
            == Failure(LimitExceeded(RRules, 2))
  {
  }

  /**
    A field admitting only weekly rules, given a monthly rrule, ends in the
    lookup failure for "invalid_frequency" rather than the frequency
    validation error, which only the corrected lookup produces.
   */
  lemma WeeklyOnlyScenario()
    ensures Clean(NewField(frequencies := Some([Weekly])),
                  Recurrence(None, None, [Rule(Monthly, 1, None, None)], [], [], []))
            == Failure(MessageKeyMissing("invalid_frequency"))
    ensures CleanCorrected(NewField(frequencies := Some([Weekly])),
                           Recurrence(None, None, [Rule(Monthly, 1, None, None)], [], [], []))
            == Failure(FrequencyRejected)
  {
  }

  /**
    A caller who passes an `error_messages` entry for "invalid_frequency"
    gets the frequency validation error for the same monthly rrule.
   */
  lemma OverriddenKeyScenario()
    ensures Clean(NewField(frequencies := Some([Weekly]),
                           errorMessages := map["invalid_frequency" := "Invalid frequency."]),
                  Recurrence(None, None, [Rule(Monthly, 1, None, None)], [], [], []))
            == Failure(FrequencyRejected)
  {
  }
}
