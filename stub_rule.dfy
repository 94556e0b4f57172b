/**
 * The stub rule of the validation test kit: a table from values to stubbed definitions, shared by a
 * rule and every rule obtained from it by `invert`, plus an inversion flag.
 *
 * A definition is an instance of an inner class, so it keeps a reference to the stub rule that
 * created it, and its `check` consults that rule's flag. The model records that flag in the
 * definition (`ownerInverted`). `CheckAsWritten` is what the Java `StubRule` does; `Check` is the
 * evident intent, which consults the flag of the rule `check` is called on.
 *
 * A value with no definition makes `definitionOf` return null, so asking about it throws a
 * NullPointerException; the queries return that as a failure, as the rule executor sees it.
 */
module StubRules {
  import opened Wrappers
  import opened ValidationStates
  import opened RuleExecution

  datatype RuleDefinition = RuleDefinition(acceptable: bool, errorMessages: seq<ErrorMessage>, inverted: bool,
                                           ownerInverted: bool)
  {
    /** The definition's own `check`: silenced by its own flag or by the flag of the rule that created it. */
    function Check(): seq<ErrorMessage> {
      if ownerInverted || inverted then [] else errorMessages
    }

    /** The definition's `invert`, as written: the new acceptable flag is the old inversion flag. */
    function Invert(): (d: RuleDefinition)
      ensures d.acceptable == inverted && d.inverted == !inverted
      ensures d.errorMessages == errorMessages && d.ownerInverted == ownerInverted
    {
      RuleDefinition(inverted, errorMessages, !inverted, ownerInverted)
    }
  }

  /** What dereferencing the missing definition of an unstubbed value throws. */
  const NULL_POINTER: Throwable := Throwable({"java.lang.NullPointerException", "java.lang.RuntimeException",
                                              "java.lang.Exception", "java.lang.Throwable", "java.lang.Object"})

  /** `definitionOf(value).isAcceptableFor(value)` over a table of definitions. */
  function AcceptanceIn<V>(definitions: map<V, RuleDefinition>, value: V): Outcome<bool> {
    if value in definitions then Success(definitions[value].acceptable) else Failure(NULL_POINTER)
  }

  /** `definitionOf(value).check(value)` over a table of definitions, as written. */
  function CheckIn<V>(definitions: map<V, RuleDefinition>, value: V): Outcome<seq<ErrorMessage>> {
    if value in definitions then Success(definitions[value].Check()) else Failure(NULL_POINTER)
  }

  /** The map shared by a stub rule and its inversions. */
  class DefinitionTable<V(==)> {
    var definitions: map<V, RuleDefinition>

    constructor()
      ensures definitions == map[]
    {
      definitions := map[];
    }
  }

  class StubRule<V(==)> {
    const validatableType: string
    const inverted: bool
    const table: DefinitionTable<V>

    /** `new StubRule(type)`: not inverted, with a table of its own that is empty. */
    constructor(validatableType: string)
      ensures this.validatableType == validatableType && !inverted
      ensures fresh(table) && table.definitions == map[]
    {
      this.validatableType := validatableType;
      this.inverted := false;
      this.table := new DefinitionTable();
    }

    /** The private all-arguments constructor, used by `invert`. */
    constructor Sharing(validatableType: string, inverted: bool, table: DefinitionTable<V>)
      ensures this.validatableType == validatableType && this.inverted == inverted && this.table == table
    {
      this.validatableType := validatableType;
      this.inverted := inverted;
      this.table := table;
    }

    /** `stubFor`: records the definition for `value` in the shared table and returns this rule. */
    method StubFor(value: V, acceptable: bool, errorMessages: seq<ErrorMessage>) returns (r: StubRule<V>)
      modifies table
      ensures r == this
      ensures table.definitions == old(table.definitions)[value := RuleDefinition(acceptable, errorMessages, false, inverted)]
    {
      table.definitions := table.definitions[value := RuleDefinition(acceptable, errorMessages, false, inverted)];
      r := this;
    }

    /** Only stubbed values can be asked about: any other lookup finds no definition. */
    predicate IsStubbed(value: V)
      reads table
    {
      value in table.definitions
    }

    /** `isAcceptableFor`: the stubbed acceptance, or a NullPointerException for an unstubbed value. */
    function IsAcceptableFor(value: V): (r: Outcome<bool>)
      reads table
      ensures IsStubbed(value) ==> r == Success(table.definitions[value].acceptable)
      ensures !IsStubbed(value) ==> r == Failure(NULL_POINTER)
    {
      AcceptanceIn(table.definitions, value)
    }

    /**
     * `check` as the Java `RuleDefinition` behaves: the flag consulted is the one of the rule that
     * stubbed `value`; an unstubbed value throws a NullPointerException.
     */
    function CheckAsWritten(value: V): (r: Outcome<seq<ErrorMessage>>)
      reads table
      ensures IsStubbed(value) ==> r == Success(table.definitions[value].Check())
      ensures !IsStubbed(value) ==> r == Failure(NULL_POINTER)
    {
      CheckIn(table.definitions, value)
    }

    /** `check` as intended: the stubbed messages, unless this rule or the definition is inverted. */
    function Check(value: V): (r: Outcome<seq<ErrorMessage>>)
      reads table
      ensures !IsStubbed(value) ==> r == Failure(NULL_POINTER)
      ensures IsStubbed(value) && (inverted || table.definitions[value].inverted) ==> r == Success([])
      ensures IsStubbed(value) && !inverted && !table.definitions[value].inverted ==>
                r == Success(table.definitions[value].errorMessages)
    {
      if value !in table.definitions then Failure(NULL_POINTER)
      else if inverted || table.definitions[value].inverted then Success([])
      else Success(table.definitions[value].errorMessages)
    }

    /** The rule as the executor calls it, over the current table. */
    function AsExecutable(): ExecutableRule<V>
      reads table
    {
      var definitions := table.definitions;
      ExecutableRule(v => AcceptanceIn(definitions, v), v => CheckIn(definitions, v))
    }

    /** `invert`: a new rule with the flag flipped, sharing this rule's table. */
    method Invert() returns (r: StubRule<V>)
      ensures fresh(r)
      ensures r.table == table && r.inverted == !inverted && r.validatableType == validatableType
    {
      r := new StubRule.Sharing(validatableType, !inverted, table);
    }
  }

  // ---------------------------------------------------------------------------------------------
  // Properties

  /** A definition stubbed through a rule that is not inverted reports its messages. */
  lemma StubbedDefinitionReports(acceptable: bool, errorMessages: seq<ErrorMessage>)
    ensures RuleDefinition(acceptable, errorMessages, false, false).Check() == errorMessages
    ensures RuleDefinition(acceptable, errorMessages, false, true).Check() == []
  {
  }

  /** Inverting a definition twice restores its messages and flags, but not its acceptable flag. */
  lemma DefinitionInvertTwice(d: RuleDefinition)
    ensures d.Invert().Invert().inverted == d.inverted
    ensures d.Invert().Invert().Check() == d.Check()
    ensures d.Invert().Invert().acceptable == !d.inverted
  {
  }

  /**
   * With `Check`, a rule and its inversion answer oppositely on definitions that are not inverted
   * themselves, and a second inversion restores the first rule's answers.
   */
  lemma InvertedRuleIsSilent<V>(r: StubRule<V>, inv: StubRule<V>, value: V)
    requires inv.table == r.table && inv.inverted == !r.inverted
    requires r.IsStubbed(value)
    ensures inv.inverted ==> inv.Check(value) == Success([])
    ensures !r.inverted && !r.table.definitions[value].inverted ==>
              r.Check(value) == Success(r.table.definitions[value].errorMessages)
    ensures inv.IsAcceptableFor(value) == r.IsAcceptableFor(value)
  {
  }

  /** Two inversions give a rule that answers every query as the original does. */
  lemma InvertTwiceRestores<V>(r: StubRule<V>, inv2: StubRule<V>, value: V)
    requires inv2.table == r.table && inv2.inverted == r.inverted
    ensures inv2.Check(value) == r.Check(value) && inv2.CheckAsWritten(value) == r.CheckAsWritten(value)
    ensures inv2.IsAcceptableFor(value) == r.IsAcceptableFor(value)
  {
  }

  /**
   * As written, `check` on an inverted copy ignores the copy's flag: for a definition stubbed
   * through the original rule, the copy answers exactly as the original does.
   */
  lemma InvertIgnoredAsWritten<V>(r: StubRule<V>, inv: StubRule<V>, value: V)
    requires inv.table == r.table && inv.inverted == !r.inverted
    requires r.IsStubbed(value) && r.table.definitions[value].ownerInverted == r.inverted
    ensures inv.CheckAsWritten(value) == r.CheckAsWritten(value)
  {
  }

  /**
   * The example: stub a value with one message on a fresh rule, invert the rule, and check the
   * value on the inverted copy. As written, the message comes back.
   */
  method InvertedStubAsWritten() returns (fromOriginal: Outcome<seq<ErrorMessage>>, fromInverted: Outcome<seq<ErrorMessage>>)
    ensures fromOriginal == Success([ErrorMessage("error")])
    ensures fromInverted == Success([ErrorMessage("error")])
  {
    var rule := new StubRule<int>("java.lang.Object");
    var same := rule.StubFor(1, true, [ErrorMessage("error")]);
    var inverted := rule.Invert();
    fromOriginal := rule.CheckAsWritten(1);
    fromInverted := inverted.CheckAsWritten(1);
  }

  /** The same example with the intended `check`: the inverted copy reports nothing. */
  method InvertedStubCorrected() returns (fromOriginal: Outcome<seq<ErrorMessage>>, fromInverted: Outcome<seq<ErrorMessage>>)
    ensures fromOriginal == Success([ErrorMessage("error")])
    ensures fromInverted == Success([])
  {
    var rule := new StubRule<int>("java.lang.Object");
    var same := rule.StubFor(1, true, [ErrorMessage("error")]);
    var inverted := rule.Invert();
    fromOriginal := rule.Check(1);
    fromInverted := inverted.Check(1);
  }

  /** Definitions stubbed through an inverted copy are visible to the original too, since the table is shared. */
  method SharedTable() returns (stubbedOnOriginal: bool, acceptable: Outcome<bool>)
    ensures stubbedOnOriginal && acceptable == Success(true)
  {
    var rule := new StubRule<int>("java.lang.Object");
    var inverted := rule.Invert();
    var same := inverted.StubFor(2, true, []);
    stubbedOnOriginal := rule.IsStubbed(2);
    acceptable := rule.IsAcceptableFor(2);
  }

  /**
   * Run through the rule executor, an unstubbed value gives an error report of a
   * NullPointerException; a stubbed one is rejected or checked as its definition says.
   */
  lemma ExecutedStub<V>(r: StubRule<V>, value: V)
    ensures r.AsExecutable().isAcceptableFor(value) == r.IsAcceptableFor(value)
    ensures r.AsExecutable().check(value) == r.CheckAsWritten(value)
    ensures !r.IsStubbed(value) ==>
              Execute(value, Success(r.AsExecutable())) == ErrorReport(NULL_POINTER) &&
              Execute(value, Success(r.AsExecutable())).CompletedWith("java.lang.NullPointerException")
    ensures r.IsStubbed(value) ==>
              Execute(value, Success(r.AsExecutable())).CompletedWithoutError() &&
              Execute(value, Success(r.AsExecutable())).acceptable == r.table.definitions[value].acceptable &&
              Execute(value, Success(r.AsExecutable())).ruleResult ==
                (if r.table.definitions[value].acceptable then r.table.definitions[value].Check() else [])
  {
  }

  /** The example: a fresh stub rule asked about a value it was never given reports a NullPointerException. */
  method UnstubbedValue() returns (report: RuleExecutionReport)
    ensures report.CompletedWith("java.lang.NullPointerException") && !report.acceptable && report.ruleResult == []
  {
    var rule := new StubRule<int>("java.lang.Object");
    var same := rule.StubFor(1, true, [ErrorMessage("error")]);
    report := Execute(2, Success(rule.AsExecutable()));
  }
}
