/**
 * Running one rule against one value and reporting the outcome: the rule code threw, the rule
 * passed (no messages), or it failed (some messages).
 */
module RuleExecution {
  import opened Wrappers
  import opened ValidationStates
  import ValidationContexts

  /** A thrown Java error, with the names of its class and of every supertype. */
  datatype Throwable = Throwable(types: set<string>)

  /** What a call into rule code does: it returns a value or throws. */
  type Outcome<T> = Result<T, Throwable>

  /** A rule whose two operations may throw. */
  datatype ExecutableRule<!V> = ExecutableRule(isAcceptableFor: V -> Outcome<bool>,
                                               check: V -> Outcome<seq<ErrorMessage>>)

  datatype RuleExecutionReport = RuleExecutionReport(acceptable: bool, thrownError: Option<Throwable>,
                                                     ruleResult: seq<ErrorMessage>)
  {
    predicate CompletedWithError() { thrownError.Some? }

    predicate CompletedWithoutError() { !CompletedWithError() }

    /** Whether the thrown error is an instance of `errorType`. */
    predicate CompletedWith(errorType: string) {
      match thrownError
      case Some(e) => errorType in e.types
      case None => false
    }

    predicate RuleIsPassed() { CompletedWithoutError() && ruleResult == [] }

    predicate RuleIsFailed() { CompletedWithoutError() && ruleResult != [] }

    /** `getErrorTexts`: the text of each reported message, in order. */
    function ErrorTexts(): (r: seq<string>)
      ensures |r| == |ruleResult|
      ensures forall i :: 0 <= i < |r| ==> r[i] == ruleResult[i].text
    {
      seq(|ruleResult|, i requires 0 <= i < |ruleResult| => ruleResult[i].text)
    }

    /** `contains(collection)`: every given message is among the reported ones. */
    predicate Contains(messages: seq<ErrorMessage>) {
      forall m :: m in messages ==> m in ruleResult
    }
  }

  /** The report built from a thrown error. */
  function ErrorReport(e: Throwable): RuleExecutionReport {
    RuleExecutionReport(false, Some(e), [])
  }

  /**
   * `execute`: obtain the rule from the provider, ask whether it accepts the value and, if it does,
   * check the value. Anything thrown on the way becomes an error report.
   */
  function Execute<V>(validatable: V, provided: Outcome<ExecutableRule<V>>): (r: RuleExecutionReport)
    ensures provided.Failure? ==> r == ErrorReport(provided.error)
    ensures provided.Success? && provided.value.isAcceptableFor(validatable).Failure? ==>
            r == ErrorReport(provided.value.isAcceptableFor(validatable).error)
    ensures provided.Success? && provided.value.isAcceptableFor(validatable) == Success(false) ==>
            r == RuleExecutionReport(false, None, [])
    ensures provided.Success? && provided.value.isAcceptableFor(validatable) == Success(true) ==>
            match provided.value.check(validatable)
            case Failure(e) => r == ErrorReport(e)
            case Success(messages) => r == RuleExecutionReport(true, None, messages)
  {
    match provided
    case Failure(e) => ErrorReport(e)
    case Success(rule) =>
      match rule.isAcceptableFor(validatable)
      case Failure(e) => ErrorReport(e)
      case Success(false) => RuleExecutionReport(false, None, [])
      case Success(true) =>
        match rule.check(validatable)
        case Failure(e) => ErrorReport(e)
        case Success(messages) => RuleExecutionReport(true, None, messages)
  }

  /** `RuleExecutor.of(value, rule)`: a provider that returns a rule that never throws. */
  function Of<V>(rule: ValidationContexts.Rule<V>): Outcome<ExecutableRule<V>> {
    Success(ExecutableRule(v => Success(rule.isAcceptableFor(v)), v => Success(rule.check(v))))
  }

  // ---------------------------------------------------------------------------------------------
  // Properties

  /** Every report is exactly one of: completed with error, passed, failed. */
  lemma ReportOutcomes(r: RuleExecutionReport)
    ensures r.CompletedWithError() || r.RuleIsPassed() || r.RuleIsFailed()
    ensures !(r.RuleIsPassed() && r.RuleIsFailed())
    ensures r.CompletedWithError() ==> !r.RuleIsPassed() && !r.RuleIsFailed()
    ensures forall t :: r.CompletedWith(t) ==> r.CompletedWithError()
    ensures r.Contains([])
  {
  }

  /** An error report carries no messages and is not acceptable. */
  lemma ExecutedErrorReport<V>(validatable: V, provided: Outcome<ExecutableRule<V>>)
    ensures Execute(validatable, provided).CompletedWithError() ==>
            !Execute(validatable, provided).acceptable && Execute(validatable, provided).ruleResult == []
  {
  }

  /**
   * A rule that cannot throw always completes; it fails exactly when it accepts the value and
   * reports something, which is exactly when adding it to a validation context changes the context.
   */
  lemma ExecuteAgreesWithContext<V>(c: ValidationContexts.ValidationContext, value: V, rule: ValidationContexts.Rule<V>)
    ensures Execute(value, Of(rule)).CompletedWithoutError()
    ensures Execute(value, Of(rule)).RuleIsFailed() <==> ValidationContexts.ContextWithRule(c, value, rule) != c
    ensures Execute(value, Of(rule)).ruleResult == (if rule.isAcceptableFor(value) then rule.check(value) else [])
  {
  }

  /** `contains(m)` of one message is membership, and `contains` of several is every membership. */
  lemma ContainsMeaning(r: RuleExecutionReport, m: ErrorMessage, ms: seq<ErrorMessage>)
    ensures r.Contains([m]) <==> m in r.ruleResult
    ensures r.Contains(ms + [m]) <==> r.Contains(ms) && m in r.ruleResult
  {
  }
}
