# bce / bangover: a verified model of the validation, interaction and test-kit core

This project models the core of the `bce` ("bangover") Java libraries in Dafny:

- **Validation.** A validation context is an immutable value that accumulates a
  validation state: ungrouped messages plus messages grouped by validation group.
  It applies rules, nests the validation of inner objects under derived groups,
  and validates collections element by element under indexed groups `name.[i]`.
  The model also covers the rule test kit: the rule executor, stub rules, the
  rules registry with its proxies, and the helper that extracts a group's errors.
- **Interactions.** Actor messages are immutable envelopes. The interactor actor
  forwards one request, waits for the correlated response, and settles its
  deferred exactly once. The publish/subscribe coordinator fans published
  messages out to subscribers. A direct stream pulls items from a source (plain
  or rechargeable) into a destination while it counts sizes and notifies
  observers. A batch poller iterates over polled batches and numbers the data.
- **Test kit and domain.** The stubbing queue and the mock history. Bounded
  context ids, event types, error descriptors, unexpected errors and error
  templates.

Pure code (messages, validation states, contexts, domain values) is modelled as
datatypes and functions, with lemmas about them. Objects that the Java code
updates in place are Dafny classes with `modifies` clauses:

- the interactor actor;
- the coordinator;
- stream sources and destinations;
- the direct stream;
- the polling iterators;
- the stubbing queue;
- the mock history;
- the stub rule and the rules registry.

Java loops are methods with loop invariants, proved against the functions that
specify them.

Several classes exist in more than one copy in the repository. The model
follows the copy cited in the table; the other copies behave the same, and the
model covers them too:

- `StubRule`: `bangover-validation` and `bangover-validation-testkit`;
- `GroupedErrors`: the test source and the test kit;
- `StubbingQueue`: `bangover-commons` and `bangover-commons-testkit`;
- `MockHistory`: `bangover-commons`, `bangover-commons-testkit` and `bangover-async`;
- `StubErrorDescriptor`: `bangover-commons` and `bangover-commons-testkit`;
- `ValidationContext`: `cloud.bangover.validation.context.ValidationContext` and `io.bce.validation.DefaultValidationContext`.

Java objects are modelled only as far as the code inspects them
(`objects.dfy`). An object carries the set of class names it is an instance of;
`java.lang.Object` is always one of them.

Interactions with the world are parameters:

- the UUID of an interactor's actor name;
- the timer, which is the message it delivers;
- the status observers, which are numeric ids.

## Model

| member | source | states |
|---|---|---|
| Decimal.DigitChar | bangover-validation/src/main/java/cloud/bangover/validation/context/ValidationContext.java:242-245 | the character of a digit is a decimal digit with that value |
| Decimal.NatText | bangover-validation/src/main/java/cloud/bangover/validation/context/ValidationContext.java:242-245 | the `%s` text of a collection index is a non-empty run of digits with no leading zero |
| Decimal.NatTextRoundTrip | bangover-validation/src/main/java/cloud/bangover/validation/context/ValidationContext.java:242-245 | reading the decimal text of an index back gives the index |
| Decimal.NatTextInjective | bangover-validation/src/main/java/cloud/bangover/validation/context/ValidationContext.java:242-245 | different indexes have different texts |
| Decimal.IntText | bangover-commons-tests/src/test/java/cloud/bangover/errors/ErrorCodeTest.java:14-21 | the decimal text of a long: a minus sign before the digits of a negative value (its properties are IntTextCharacters, NegativeText and IntTextInjective) |
| Decimal.IntTextInjective | bangover-commons-tests/src/test/java/cloud/bangover/errors/ErrorCodeTest.java:14-21 | different error code values have different texts |
| Decimal.NegativeTextInjective | bangover-commons-tests/src/test/java/cloud/bangover/errors/ErrorCodeTest.java:14-21 | different negative values have different texts |
| Decimal.PrefixCancels | bangover-commons-tests/src/test/java/cloud/bangover/errors/ErrorCodeTest.java:14-21 | texts that differ still differ after the same prefix |
| Decimal.SignsDiffer | bangover-commons-tests/src/test/java/cloud/bangover/errors/ErrorCodeTest.java:14-21 | a value that is not negative and a negative one never share a text |
| Decimal.NegativeText | bangover-commons-tests/src/test/java/cloud/bangover/errors/ErrorCodeTest.java:14-21 | a negative value's text is a minus sign followed by the digits of its absolute value |
| Decimal.IntTextCharacters | bangover-commons-tests/src/test/java/cloud/bangover/errors/ErrorCodeTest.java:14-21 | an error code's text is digits, optionally after a leading minus sign |
| ValidationStates.ValidationGroup.DeriveWith | bangover-validation-tests/src/test/java/cloud/bangover/validation/ValidationGroupTest.java:45-76 | UNGROUPED is the unit on both sides; two named groups derive `base.sub` |
| ValidationStates.DeriveEntries | bangover-validation-tests/src/test/java/cloud/bangover/validation/ValidationStateTest.java:119-131 | every grouped entry is kept with its messages, its group derived from the base |
| ValidationStates.Lookup | bangover-validation-tests/src/test/java/cloud/bangover/validation/ValidationStateTest.java:46-56 | a group's messages: the union of the message sets of its entries (its meaning is proved by LookupAppend and LookupMember) |
| ValidationStates.IsValid | bangover-validation-tests/src/test/java/cloud/bangover/validation/ValidationStateTest.java:71-83 | a state is valid iff it records no message, ungrouped or grouped (used by MergeEmpty and MergeValidity) |
| ValidationStates.WithUngrouped | bangover-validation-tests/src/test/java/cloud/bangover/validation/ValidationStateTest.java:58-69 | `withUngrouped`: the state with one more ungrouped message (its effect is WithUngroupedEffect) |
| ValidationStates.WithGrouped | bangover-validation-tests/src/test/java/cloud/bangover/validation/ValidationStateTest.java:46-56 | `withGrouped`: the state with one more message under a group (its effect is WithGroupedEffect) |
| ValidationStates.Merge | bangover-validation-tests/src/test/java/cloud/bangover/validation/ValidationStateTest.java:85-102 | `merge`: both states' messages together (its effect is MergeEffect, its unit MergeEmpty) |
| ValidationStates.AsDerivedFrom | bangover-validation-tests/src/test/java/cloud/bangover/validation/ValidationStateTest.java:119-131 | `asDerivedFrom`: grouped messages move under the base group, ungrouped ones stay (AsDerivedFromEffect) |
| ValidationStates.AsSubgroup | bangover-validation-tests/src/test/java/cloud/bangover/validation/ValidationStateTest.java:104-117 | `asSubgroup`: every message moves under the base group (AsSubgroupEffect, AsSubgroupBase, AsSubgroupMoves) |
| ValidationStates.LookupAppend | bangover-validation-tests/src/test/java/cloud/bangover/validation/ValidationStateTest.java:85-102 | a group's messages in concatenated entries are the union of both parts' messages |
| ValidationStates.LookupMember | bangover-validation-tests/src/test/java/cloud/bangover/validation/ValidationStateTest.java:46-56 | a message is recorded under a group iff some entry of that group holds it |
| ValidationStates.WithUngroupedEffect | bangover-validation-tests/src/test/java/cloud/bangover/validation/ValidationStateTest.java:58-69 | `withUngrouped` appends the message, leaves every group unchanged, and makes the state invalid |
| ValidationStates.WithGroupedEffect | bangover-validation-tests/src/test/java/cloud/bangover/validation/ValidationStateTest.java:46-56 | `withGrouped` adds the message to exactly that group, keeps the ungrouped messages, and makes the state invalid |
| ValidationStates.MergeEffect | bangover-validation-tests/src/test/java/cloud/bangover/validation/ValidationStateTest.java:85-102 | merge concatenates the ungrouped messages and unites each group's messages |
| ValidationStates.MergeEmpty | bangover-validation-tests/src/test/java/cloud/bangover/validation/ValidationStateTest.java:35-44 | the new state is valid and is the unit of merge |
| ValidationStates.MergeValidity | bangover-validation-tests/src/test/java/cloud/bangover/validation/ValidationStateTest.java:71-83 | a merged state is valid iff both parts are |
| ValidationStates.DeriveWithInjective | bangover-validation-tests/src/test/java/cloud/bangover/validation/ValidationGroupTest.java:45-76 | deriving from one base never maps two different groups to the same group |
| ValidationStates.DeriveWithAssociative | bangover-validation-tests/src/test/java/cloud/bangover/validation/ValidationGroupTest.java:45-76 | successive derivations can be grouped either way |
| ValidationStates.DeriveEntriesLookup | bangover-validation-tests/src/test/java/cloud/bangover/validation/ValidationStateTest.java:119-131 | the derived group `base.g` holds exactly what `g` held |
| ValidationStates.AsDerivedFromEffect | bangover-validation-tests/src/test/java/cloud/bangover/validation/ValidationStateTest.java:119-131 | `asDerivedFrom` keeps the ungrouped messages and moves each group under the base |
| ValidationStates.DerivedFromUngroupedIsIdentity | bangover-validation-tests/src/test/java/cloud/bangover/validation/ValidationStateTest.java:119-131 | deriving from UNGROUPED leaves the state as it is |
| ValidationStates.AsDerivedFromUngrouped | bangover-validation-tests/src/test/java/cloud/bangover/validation/ValidationStateTest.java:119-131 | deriving from UNGROUPED keeps every message where it was |
| ValidationStates.AsSubgroupEffect | bangover-validation-tests/src/test/java/cloud/bangover/validation/ValidationStateTest.java:104-117 | `asSubgroup` leaves nothing ungrouped, files the old ungrouped messages under the base, and moves each group under the base |
| ValidationStates.AsSubgroupBase | bangover-validation-tests/src/test/java/cloud/bangover/validation/ValidationStateTest.java:104-117 | after `asSubgroup` the base holds the old ungrouped messages and the messages of old ungrouped entries |
| ValidationStates.AsSubgroupMoves | bangover-validation-tests/src/test/java/cloud/bangover/validation/ValidationStateTest.java:104-117 | after `asSubgroup` each named group's messages are found under the base's derived group |
| ValidationContexts.Singletons | bangover-validation/src/main/java/cloud/bangover/validation/context/ValidationContext.java:224-235 | one entry per message, each holding that message alone under the group |
| ValidationContexts.ContextWithErrors | bangover-validation/src/main/java/cloud/bangover/validation/context/ValidationContext.java:213-235 | `withErrors` keeps the context's group and derivation policy |
| ValidationContexts.ContextWithGroupedErrors | bangover-validation/src/main/java/cloud/bangover/validation/context/ValidationContext.java:224-235 | the grouped `withErrors` keeps the context's group and derivation policy |
| ValidationContexts.ContextWithRule | bangover-validation/src/main/java/cloud/bangover/validation/context/ValidationContext.java:168-178 | a rule adds its messages ungrouped only when it accepts the value; the context is returned unchanged iff the rule does not accept the value or reports nothing |
| ValidationContexts.ContextWithGroupedRule | bangover-validation/src/main/java/cloud/bangover/validation/context/ValidationContext.java:189-192 | as `withRule`, with the messages filed under the named group |
| ValidationContexts.ValidateNested | bangover-validation/src/main/java/cloud/bangover/validation/context/ValidationContext.java:137-142 | nested validation keeps this context's group and policy |
| ValidationContexts.ContextWithCollection | bangover-validation/src/main/java/cloud/bangover/validation/context/ValidationContext.java:121-131 | collection validation keeps this context's group and policy |
| ValidationContexts.DerivationPolicy.Derive | bangover-validation/src/main/java/cloud/bangover/validation/context/ValidationContext.java:265-280 | DERIVE_GROUPES derives with `asDerivedFrom`, DERIVE_STATE with `asSubgroup`; the nesting lemmas state what each gives |
| ValidationContexts.ValidationContext.GetState | bangover-validation/src/main/java/cloud/bangover/validation/context/ValidationContext.java:60-62 | the reported state is the accumulated one derived by the context's policy from its group |
| ValidationContexts.IndexedGroup | bangover-validation/src/main/java/cloud/bangover/validation/context/ValidationContext.java:242-245 | element `i` of collection `name` gets the group `name` derived with `[i]` (named by IndexedGroupName, kept apart by IndexedGroupsDistinct) |
| ValidationContexts.Run | bangover-validation/src/main/java/cloud/bangover/validation/context/ValidationContext.java:137-142 | a validatable object's operations never change the group or policy of the context it is given |
| ValidationContexts.RunSteps | bangover-validation/src/main/java/cloud/bangover/validation/context/ValidationContext.java:137-142 | the same, for any suffix of the operations |
| ValidationContexts.RunStep | bangover-validation/src/main/java/cloud/bangover/validation/context/ValidationContext.java:137-142 | the same, for one operation |
| ValidationContexts.ServiceValidate | bangover-validation/src/main/java/cloud/bangover/validation/context/ValidationContext.java:39-53 | an object that is not validatable gets the empty, valid state |
| ValidationContexts.WithErrors | bangover-validation/src/main/java/cloud/bangover/validation/context/ValidationContext.java:229-235 | the loop appends every message ungrouped, in order, and touches no group |
| ValidationContexts.WithGroupedErrors | bangover-validation/src/main/java/cloud/bangover/validation/context/ValidationContext.java:224-235 | the loop adds every message to the named group, and to no other group |
| ValidationContexts.ValidateCollection | bangover-validation/src/main/java/cloud/bangover/validation/context/ValidationContext.java:121-131 | the indexed loop, skipping objects that are not validatable, gives the collection's context |
| ValidationContexts.MergeAssociative | bangover-validation/src/main/java/cloud/bangover/validation/context/ValidationContext.java:237-240 | successive merges of sub-contexts can be grouped either way |
| ValidationContexts.LookupSingletons | bangover-validation/src/main/java/cloud/bangover/validation/context/ValidationContext.java:224-235 | singleton entries record exactly the given messages under the group and nothing elsewhere |
| ValidationContexts.WithErrorsEffect | bangover-validation/src/main/java/cloud/bangover/validation/context/ValidationContext.java:213-215 | the messages are added ungrouped in order; no messages means the same context; any message makes the state invalid |
| ValidationContexts.WithGroupedErrorsEffect | bangover-validation/src/main/java/cloud/bangover/validation/context/ValidationContext.java:224-227 | the messages are added to the named group only; no messages means the same context |
| ValidationContexts.ValidateNestedEffect | bangover-validation/src/main/java/cloud/bangover/validation/context/ValidationContext.java:137-142 | nested validation merges the sub-context's derived state into this context's state |
| ValidationContexts.DeriveStateNesting | bangover-validation/src/main/java/cloud/bangover/validation/context/ValidationContext.java:275-280 | under DERIVE_STATE the nested object's ungrouped messages land in the nesting group and its groups move under it |
| ValidationContexts.DeriveGroupesNesting | bangover-validation/src/main/java/cloud/bangover/validation/context/ValidationContext.java:265-270 | under DERIVE_GROUPES the nested object's ungrouped messages stay ungrouped and its groups move under the nesting group |
| ValidationContexts.ValidateOverloads | bangover-validation/src/main/java/cloud/bangover/validation/context/ValidationContext.java:70-110 | the four `validate` overloads default to UNGROUPED and DERIVE_STATE |
| ValidationContexts.DefaultContextReportsAll | bangover-validation/src/main/java/cloud/bangover/validation/context/ValidationContext.java:30-32 | the default context reports its state unchanged |
| ValidationContexts.ServiceValidateReportsAll | bangover-validation/src/main/java/cloud/bangover/validation/context/ValidationContext.java:42-51 | the service reports exactly what a validatable object records on a default context |
| ValidationContexts.IndexedGroupName | bangover-validation/src/main/java/cloud/bangover/validation/context/ValidationContext.java:242-245 | element `i` of collection `name` is reported under `name.[i]`, the index in decimal |
| ValidationContexts.IndexedGroupsDistinct | bangover-validation/src/main/java/cloud/bangover/validation/context/ValidationContext.java:242-245 | different elements of one collection are reported under different groups |
| ValidationContexts.DeriveWithInjectiveLocal | bangover-validation/src/main/java/cloud/bangover/validation/context/ValidationContext.java:242-245 | different index groups derived from one base stay different |
| ValidationContexts.CollectionStateUngrouped | bangover-validation/src/main/java/cloud/bangover/validation/context/ValidationContext.java:121-135 | collection validation reports nothing ungrouped |
| ValidationContexts.CollectionElementReported | bangover-validation/src/main/java/cloud/bangover/validation/context/ValidationContext.java:121-135 | every ungrouped message of a validatable element is reported under that element's indexed group |
| ValidationContexts.CollectionLookupSplit | bangover-validation/src/main/java/cloud/bangover/validation/context/ValidationContext.java:121-135 | a collection's report for a group unites what its earlier elements and its last element report there |
| ValidationContexts.LastElementReported | bangover-validation/src/main/java/cloud/bangover/validation/context/ValidationContext.java:121-135 | the last element's ungrouped messages land in its own indexed group |
| ValidationScenario.NestedObjectsScenario | bangover-validation-tests/src/test/java/cloud/bangover/validation/context/ValidationContextTest.java:104-138 | the nested-objects test: every message appears under the group the test expects. It is proved through one lemma per nested entity (RootOfState, FirstState, SecondState and the rest of ValidationScenario): each fixes that entity's reported state, and none is a separate claim about the source |
| RuleExecution.RuleExecutionReport.CompletedWithError | bangover-validation-testkit/src/main/java/cloud/bangover/validation/RuleExecutor.java:101-103 | a report completed with an error iff it carries a thrown error |
| RuleExecution.RuleExecutionReport.CompletedWithoutError | bangover-validation-testkit/src/main/java/cloud/bangover/validation/RuleExecutor.java:105-107 | the negation of completing with an error |
| RuleExecution.RuleExecutionReport.CompletedWith | bangover-validation-testkit/src/main/java/cloud/bangover/validation/RuleExecutor.java:109-111 | the thrown error is an instance of the given type; false when nothing was thrown |
| RuleExecution.RuleExecutionReport.RuleIsPassed | bangover-validation-testkit/src/main/java/cloud/bangover/validation/RuleExecutor.java:113-115 | completed without error and with no messages (exclusive with failing: ReportOutcomes) |
| RuleExecution.RuleExecutionReport.RuleIsFailed | bangover-validation-testkit/src/main/java/cloud/bangover/validation/RuleExecutor.java:117-119 | completed without error and with some message (ReportOutcomes) |
| RuleExecution.RuleExecutionReport.Contains | bangover-validation-testkit/src/main/java/cloud/bangover/validation/RuleExecutor.java:125-131 | every given message is among the reported ones (ContainsMeaning) |
| RuleExecution.Of | bangover-validation-testkit/src/main/java/cloud/bangover/validation/RuleExecutor.java:32-39 | `of`: a provider that always gives the rule; executing it agrees with the context (ExecuteAgreesWithContext) |
| RuleExecution.RuleExecutionReport.ErrorTexts | bangover-validation-testkit/src/main/java/cloud/bangover/validation/RuleExecutor.java:121-123 | one text per reported message, in order |
| RuleExecution.Execute | bangover-validation-testkit/src/main/java/cloud/bangover/validation/RuleExecutor.java:46-57 | a throwing provider or a throwing acceptance test gives an error report; a rejecting rule gives an empty result; an accepting rule gives its check's messages |
| RuleExecution.ReportOutcomes | bangover-validation-testkit/src/main/java/cloud/bangover/validation/RuleExecutor.java:101-131 | every report is exactly one of errored, passed or failed; `contains` of nothing holds |
| RuleExecution.ExecutedErrorReport | bangover-validation-testkit/src/main/java/cloud/bangover/validation/RuleExecutor.java:96-99 | an errored report is not acceptable and carries no messages |
| RuleExecution.ExecuteAgreesWithContext | bangover-validation-testkit/src/main/java/cloud/bangover/validation/RuleExecutor.java:46-56 | executing a rule reports exactly the messages `withRule` adds to a context, and fails iff it changes the context |
| RuleExecution.ContainsMeaning | bangover-validation-testkit/src/main/java/cloud/bangover/validation/RuleExecutor.java:125-131 | `contains` is membership of every given message |
| GroupedErrorsExtraction.GetErrors | bangover-validation-testkit/src/main/java/cloud/bangover/validation/GroupedErrors.java:38-46 | the loop collects exactly the messages of the entries with that group name |
| GroupedErrorsExtraction.ErrorsOf | bangover-validation-testkit/src/main/java/cloud/bangover/validation/GroupedErrors.java:29-31 | `errorsOf` is `getErrors` of a new extractor |
| GroupedErrorsExtraction.ErrorsNamedMember | bangover-validation/src/test/java/cloud/bangover/validation/GroupedErrors.java:19-27 | a message is extracted iff some entry with that name holds it |
| GroupedErrorsExtraction.ErrorsNamedIsLookup | bangover-validation/src/test/java/cloud/bangover/validation/GroupedErrors.java:19-27 | for a real group name, extraction is the group's recorded messages |
| GroupedErrorsExtraction.NoMatchingGroup | bangover-validation-testkit/src/main/java/cloud/bangover/validation/GroupedErrors.java:38-46 | no entry with the name means nothing is extracted |
| StubRules.RuleDefinition.Invert | bangover-validation-testkit/src/main/java/cloud/bangover/validation/StubRule.java:94-97 | an inverted definition takes the old inversion flag as its acceptance and flips the flag |
| StubRules.DefinitionTable.constructor | bangover-validation-testkit/src/main/java/cloud/bangover/validation/StubRule.java:28-30 | a new stub rule starts with no definitions |
| StubRules.StubRule.constructor | bangover-validation-testkit/src/main/java/cloud/bangover/validation/StubRule.java:28-30 | a new rule is not inverted and owns a fresh empty table |
| StubRules.StubRule.Sharing | bangover-validation-testkit/src/main/java/cloud/bangover/validation/StubRule.java:17-21 | the private constructor shares a table |
| StubRules.StubRule.StubFor | bangover-validation-testkit/src/main/java/cloud/bangover/validation/StubRule.java:40-43 | the definition for the value is replaced and the rule returns itself |
| StubRules.StubRule.IsAcceptableFor | bangover-validation-testkit/src/main/java/cloud/bangover/validation/StubRule.java:45-48 | a stubbed value gives the stubbed acceptance; an unstubbed one fails with `NullPointerException` |
| StubRules.StubRule.CheckAsWritten | bangover-validation-testkit/src/main/java/cloud/bangover/validation/StubRule.java:50-53 | a stubbed value gives what its definition reports, which consults the creating rule's inversion flag; an unstubbed one fails with `NullPointerException` |
| StubRules.StubRule.Check | bangover-validation/src/main/java/cloud/bangover/validation/StubRule.java:70-76 | the corrected check: nothing when the asking rule or the definition is inverted, the stubbed messages otherwise; an unstubbed value fails with `NullPointerException` |
| StubRules.StubRule.Invert | bangover-validation-testkit/src/main/java/cloud/bangover/validation/StubRule.java:55-58 | inversion gives a new rule on the same table with the flag flipped |
| StubRules.StubbedDefinitionReports | bangover-validation/src/main/java/cloud/bangover/validation/StubRule.java:70-76 | a definition reports its messages unless its owner is inverted |
| StubRules.DefinitionInvertTwice | bangover-validation/src/main/java/cloud/bangover/validation/StubRule.java:78-81 | inverting a definition twice restores its check and flag |
| StubRules.InvertedRuleIsSilent | bangover-validation/src/main/java/cloud/bangover/validation/StubRule.java:39-42 | the corrected inverted rule reports nothing and keeps acceptance |
| StubRules.InvertTwiceRestores | bangover-validation/src/main/java/cloud/bangover/validation/StubRule.java:39-42 | inverting a rule twice restores its checks and acceptance |
| StubRules.InvertIgnoredAsWritten | bangover-validation/src/main/java/cloud/bangover/validation/StubRule.java:70-76 | as written, inverting a rule does not change what its definitions report |
| StubRules.InvertedStubAsWritten | bangover-validation-testkit/src/main/java/cloud/bangover/validation/StubRule.java:86-92 | as written, the inverted rule still reports the stubbed error |
| StubRules.InvertedStubCorrected | bangover-validation-testkit/src/main/java/cloud/bangover/validation/StubRule.java:86-92 | corrected, the inverted rule reports nothing |
| StubRules.SharedTable | bangover-validation-testkit/src/main/java/cloud/bangover/validation/StubRule.java:55-62 | a value stubbed through the inverted copy is stubbed, and accepted, when asked through the original rule: the copy shares the table |
| StubRules.ExecutedStub | bangover-validation-testkit/src/main/java/cloud/bangover/validation/RuleExecutor.java:46-57 | executing a stub rule on an unstubbed value gives an error report of `NullPointerException`; on a stubbed value it completes with the stubbed acceptance and, when acceptable, the definition's messages |
| StubRules.UnstubbedValue | bangover-validation-testkit/src/main/java/cloud/bangover/validation/StubRule.java:60-62 | asking a rule about a value it was not stubbed for is reported as a thrown `NullPointerException`, not acceptable and with no messages |
| RulesRegistries.AlreadyRegisteredMessage | src/main/java/io/bce/validation/RulesRegistry.java:52-54 | the message quotes the alias in brackets after `Rule with ` |
| RulesRegistries.AlreadyRegisteredMessageInjective | src/main/java/io/bce/validation/RulesRegistry.java:52-54 | different aliases are refused with different messages |
| RulesRegistries.ProxyIsAcceptableFor | src/main/java/io/bce/validation/RulesRegistry.java:65-68 | an unknown alias accepts nothing; a known one asks the registered rule |
| RulesRegistries.ProxyCheck | src/main/java/io/bce/validation/RulesRegistry.java:70-73 | checking through an unknown alias fails with no such element; a known one gives the rule's messages |
| RulesRegistries.ProxyInvert | src/main/java/io/bce/validation/RulesRegistry.java:75-78 | the inverted proxy holds the inverted rule, or nothing |
| RulesRegistries.RulesRegistry.constructor | src/main/java/io/bce/validation/RulesRegistry.java:12 | the registry starts empty |
| RulesRegistries.RulesRegistry.RegisterRule | src/main/java/io/bce/validation/RulesRegistry.java:22-26 | a new alias is registered; a taken alias fails and leaves the registry unchanged |
| RulesRegistries.RulesRegistry.GetRule | src/main/java/io/bce/validation/RulesRegistry.java:35-37 | the proxy holds the rule iff the alias is registered |
| RulesRegistries.RulesRegistry.Clear | src/main/java/io/bce/validation/RulesRegistry.java:39-41 | clearing forgets every alias |
| RulesRegistries.RegistryLifecycle | src/main/java/io/bce/validation/RulesRegistry.java:22-47 | a proxy taken before registration stays empty; a second registration fails; after clearing the alias can be registered again |
| RulesRegistries.RegisterAndLookUp | src/main/java/io/bce/validation/RulesRegistry.java:22-37 | on any registry: after registering a free alias an earlier proxy still fails and a new one behaves as the rule; a taken alias is refused and the proxy is unchanged; other aliases are untouched |
| RulesRegistries.UnknownAliasProxy | src/main/java/io/bce/validation/RulesRegistry.java:61-78 | an empty proxy accepts nothing, fails to check, and inverts to itself |
| RulesRegistries.KnownAliasProxy | src/main/java/io/bce/validation/RulesRegistry.java:61-78 | a filled proxy behaves as its rule, also after inversion |
| Messages.Message.WithSender | bangover-actors/src/test/java/cloud/bangover/actors/MessageTest.java:66-80 | only the sender changes |
| Messages.Message.WithDestination | bangover-actors/src/test/java/cloud/bangover/actors/MessageTest.java:82-96 | only the destination changes |
| Messages.Message.Map | bangover-actors/src/test/java/cloud/bangover/actors/MessageTest.java:98-116 | the body is converted and the envelope kept |
| Messages.Message.CorrelateBy | bangover-actors/src/test/java/cloud/bangover/actors/MessageTest.java:37-64 | an uncorrelated message takes the key; a correlated one keeps its key |
| Messages.Message.ReplyWith | bangover-actors/src/test/java/cloud/bangover/actors/MessageTest.java:118-129 | a reply swaps sender and destination and keeps the key |
| Messages.Message.ReplyTo | bangover-actors/src/test/java/cloud/bangover/actors/MessageTest.java:131-142 | a reply to an address comes from the destination and keeps the key |
| Messages.CreateFor | bangover-actors/src/test/java/cloud/bangover/actors/MessageTest.java:19-26 | a message from the unknown sender, uncorrelated |
| Messages.CreateFrom | bangover-actors/src/test/java/cloud/bangover/actors/MessageTest.java:28-35 | a message from the given sender, uncorrelated |
| Messages.CorrelationFirstWins | bangover-actors/src/test/java/cloud/bangover/actors/MessageTest.java:51-64 | a second correlation key changes nothing |
| Messages.ReplyOfReply | bangover-actors/src/test/java/cloud/bangover/actors/MessageTest.java:118-129 | replying to a reply restores the original envelope |
| Messages.ReplyIsReplyToSender | bangover-actors/src/test/java/cloud/bangover/actors/MessageTest.java:118-142 | a reply is a reply addressed to the sender |
| Messages.ReaddressedMessage | bangover-actors/src/test/java/cloud/bangover/actors/MessageTest.java:66-96 | re-addressing both ends gives the same message in either order |
| Messages.MapIdentity | bangover-actors/src/test/java/cloud/bangover/actors/MessageTest.java:98-116 | mapping by the identity changes nothing |
| Interactions.TimeoutError | bangover-actor-system-interactions-support/src/main/java/cloud/bangover/interactions/interactor/ActorSystemInteractor.java:92-93 | the timer's body is a Throwable and a TimeoutException |
| Interactions.Settlements | bangover-actor-system-interactions-support/src/main/java/cloud/bangover/interactions/interactor/ActorSystemInteractor.java:114-118 | the count of resolutions and rejections is zero iff nothing settles |
| Interactions.SettlementsAppend | bangover-actor-system-interactions-support/src/main/java/cloud/bangover/interactions/interactor/ActorSystemInteractor.java:152-158 | settlements of successive effects add up |
| Interactions.Fault | bangover-actor-system-interactions-support/src/main/java/cloud/bangover/interactions/interactor/ActorSystemInteractor.java:110-120 | a fault rejects the deferred once and then stops the actor |
| Interactions.Forward | bangover-actor-system-interactions-support/src/main/java/cloud/bangover/interactions/interactor/ActorSystemInteractor.java:145-150 | a request moves to the response stage, keeps its key, starts supervision and goes to the target from the interactor |
| Interactions.Complete | bangover-actor-system-interactions-support/src/main/java/cloud/bangover/interactions/interactor/ActorSystemInteractor.java:152-166 | a correlated response resolves once and stops; an uncorrelated one only stops |
| Interactions.Transition | bangover-actor-system-interactions-support/src/main/java/cloud/bangover/interactions/interactor/ActorSystemInteractor.java:100-108 | one delivery settles at most once, stops after settling, and resolves only with a correlated response of the response type |
| Interactions.Deliver | bangover-actor-system-interactions-support/src/main/java/cloud/bangover/interactions/interactor/ActorSystemInteractor.java:100-108 | deliveries only extend the effects |
| Interactions.SettledAtMostOnce | bangover-actor-system-interactions-support/src/main/java/cloud/bangover/interactions/interactor/ActorSystemInteractor.java:100-166 | over any deliveries the deferred is settled at most once |
| Interactions.FreshInteractorSettlesAtMostOnce | bangover-actor-system-interactions-support/src/main/java/cloud/bangover/interactions/interactor/ActorSystemInteractor.java:89-98 | the same, starting from a new interactor |
| Interactions.ThrowableRejects | bangover-actor-system-interactions-support/src/main/java/cloud/bangover/interactions/interactor/ActorSystemInteractor.java:122-126 | any Throwable body rejects with itself and stops, in either stage |
| Interactions.TimeoutRejects | bangover-actor-system-interactions-support/src/main/java/cloud/bangover/interactions/interactor/ActorSystemInteractor.java:92-93 | the timer's notice rejects with the timeout and stops |
| Interactions.RequestForwarded | bangover-actor-system-interactions-support/src/main/java/cloud/bangover/interactions/interactor/ActorSystemInteractor.java:128-131 | a request of the request type is forwarded |
| Interactions.WrongRequestRejects | bangover-actor-system-interactions-support/src/main/java/cloud/bangover/interactions/interactor/ActorSystemInteractor.java:131-133 | a request of another type is rejected as a wrong request, naming the response type as the code does |
| Interactions.ResponseCompletes | bangover-actor-system-interactions-support/src/main/java/cloud/bangover/interactions/interactor/ActorSystemInteractor.java:136-139 | a response of the response type completes the interaction |
| Interactions.WrongResponseRejects | bangover-actor-system-interactions-support/src/main/java/cloud/bangover/interactions/interactor/ActorSystemInteractor.java:140-142 | a response of another type is rejected as a wrong response |
| Interactions.ActorName | bangover-actor-system-interactions-support/src/main/java/cloud/bangover/interactions/interactor/ActorSystemInteractor.java:65-67 | the name is `INTERACTION--` followed by the UUID |
| Interactions.ActorNamesDistinct | bangover-actor-system-interactions-support/src/main/java/cloud/bangover/interactions/interactor/ActorSystemInteractor.java:65-67 | different UUIDs give different names |
| Interactions.InvocationRequest | bangover-actor-system-interactions-support/src/main/java/cloud/bangover/interactions/interactor/ActorSystemInteractor.java:57 | the request goes to the interactor from the unknown sender, uncorrelated |
| Interactions.InteractorActor.constructor | bangover-actor-system-interactions-support/src/main/java/cloud/bangover/interactions/interactor/ActorSystemInteractor.java:89-98 | a new actor waits for the request, uncorrelated, having done nothing |
| Interactions.InteractorActor.TimeoutNotice | bangover-actor-system-interactions-support/src/main/java/cloud/bangover/interactions/interactor/ActorSystemInteractor.java:92-93 | the notice goes from the actor to itself with a Throwable body |
| Interactions.InteractorActor.Receive | bangover-actor-system-interactions-support/src/main/java/cloud/bangover/interactions/interactor/ActorSystemInteractor.java:100-108 | the actor's new stage, key and effects are those of the transition |
| Interactions.InteractorActor.ResolveError | bangover-actor-system-interactions-support/src/main/java/cloud/bangover/interactions/interactor/ActorSystemInteractor.java:113-118 | the fault resolver rejects and stops |
| Interactions.InteractorActor.ProcessRequest | bangover-actor-system-interactions-support/src/main/java/cloud/bangover/interactions/interactor/ActorSystemInteractor.java:128-134 | the request stage as the transition describes it |
| Interactions.InteractorActor.ProcessResponse | bangover-actor-system-interactions-support/src/main/java/cloud/bangover/interactions/interactor/ActorSystemInteractor.java:136-143 | the response stage as the transition describes it |
| Interactions.InteractorActor.HandleRequest | bangover-actor-system-interactions-support/src/main/java/cloud/bangover/interactions/interactor/ActorSystemInteractor.java:145-150 | the stage, the stored key and the forwarded request |
| Interactions.InteractorActor.HandleResponse | bangover-actor-system-interactions-support/src/main/java/cloud/bangover/interactions/interactor/ActorSystemInteractor.java:152-158 | only a correlated response stops supervision and resolves |
| PubSub.SubscribersOf | bce-all/src/main/java/cloud/bangover/interactions/pubsub/MessagingCoordinatorActor.java:74-78 | an unknown topic has no subscribers |
| PubSub.Touched | bce-all/src/main/java/cloud/bangover/interactions/pubsub/MessagingCoordinatorActor.java:74-78 | looking up a topic records it and changes no subscriber set |
| PubSub.WithSubscriber | bce-all/src/main/java/cloud/bangover/interactions/pubsub/MessagingCoordinatorActor.java:59-61 | the address joins that topic only |
| PubSub.WithoutSubscriber | bce-all/src/main/java/cloud/bangover/interactions/pubsub/MessagingCoordinatorActor.java:63-66 | the address leaves that topic only |
| PubSub.SubscribeIdempotent | bce-all/src/main/java/cloud/bangover/interactions/pubsub/MessagingCoordinatorActor.java:59-61 | subscribing twice is subscribing once |
| PubSub.UnsubscribeUndoesSubscribe | bce-all/src/main/java/cloud/bangover/interactions/pubsub/MessagingCoordinatorActor.java:59-66 | unsubscribing a new subscriber restores the table, the topic recorded |
| PubSub.TouchedKeepsSubscribers | bce-all/src/main/java/cloud/bangover/interactions/pubsub/MessagingCoordinatorActor.java:74-78 | recording a topic changes nobody's subscriptions |
| PubSub.Delivery | bce-all/src/main/java/cloud/bangover/interactions/pubsub/Publish.java:21-23 | a delivery carries the published body to the subscriber and keeps sender and key |
| PubSub.FanOutToNobody | bce-all/src/main/java/cloud/bangover/interactions/pubsub/MessagingCoordinatorActor.java:48-54 | a topic without subscribers sends nothing |
| PubSub.FanOutOncePerSubscriber | bce-all/src/main/java/cloud/bangover/interactions/pubsub/MessagingCoordinatorActor.java:48-54 | each subscriber receives one delivery |
| PubSub.SubscribedIn | bce-all/src/main/java/cloud/bangover/interactions/pubsub/MessagingCoordinatorActor.java:68-72 | the addresses subscribed to any of the topics |
| PubSub.StoppedMeans | bce-all/src/main/java/cloud/bangover/interactions/pubsub/MessagingCoordinatorActor.java:63-72 | an address is among those stopped exactly when a stop for it was sent |
| PubSub.StoppedAppend | bce-all/src/main/java/cloud/bangover/interactions/pubsub/MessagingCoordinatorActor.java:63-72 | the addresses stopped by two runs of effects are those stopped by either |
| PubSub.StopsAllAppend | bce-all/src/main/java/cloud/bangover/interactions/pubsub/MessagingCoordinatorActor.java:68-72 | stopping one group and then another stops both groups and only them |
| PubSub.SubscribedInWith | bce-all/src/main/java/cloud/bangover/interactions/pubsub/MessagingCoordinatorActor.java:68-72 | one more topic adds exactly its subscribers |
| PubSub.EmptiedOneMore | bce-all/src/main/java/cloud/bangover/interactions/pubsub/MessagingCoordinatorActor.java:68-72 | emptying one more pending topic keeps every topic, empties exactly the handled ones and leaves the rest untouched |
| PubSub.FanOutOneMore | bce-all/src/main/java/cloud/bangover/interactions/pubsub/MessagingCoordinatorActor.java:48-54 | one more delivery reaches exactly one more subscriber, still once each |
| PubSub.StopOneMore | bce-all/src/main/java/cloud/bangover/interactions/pubsub/MessagingCoordinatorActor.java:69-71 | one more stop in a topic's loop stops exactly one more of its subscribers |
| PubSub.StopTopicMore | bce-all/src/main/java/cloud/bangover/interactions/pubsub/MessagingCoordinatorActor.java:68-72 | emptying one more topic stops exactly its subscribers too |
| PubSub.UnsubscribeReplaced | bce-all/src/main/java/cloud/bangover/interactions/pubsub/MessagingCoordinatorActor.java:63-66 | unsubscribing from a topic whose subscriber set was replaced removes the address from the new set |
| PubSub.MessagingCoordinator.constructor | bce-all/src/main/java/cloud/bangover/interactions/pubsub/MessagingCoordinatorActor.java:14-18 | a new coordinator has no subscriptions |
| PubSub.MessagingCoordinator.GetSubscribers | bce-all/src/main/java/cloud/bangover/interactions/pubsub/MessagingCoordinatorActor.java:74-78 | returns the topic's subscribers and records the topic |
| PubSub.MessagingCoordinator.SubscribeTo | bce-all/src/main/java/cloud/bangover/interactions/pubsub/MessagingCoordinatorActor.java:59-61 | adds the subscriber |
| PubSub.MessagingCoordinator.UnsubscribeFrom | bce-all/src/main/java/cloud/bangover/interactions/pubsub/MessagingCoordinatorActor.java:63-66 | removes the subscriber and stops it |
| PubSub.MessagingCoordinator.PublishTo | bce-all/src/main/java/cloud/bangover/interactions/pubsub/MessagingCoordinatorActor.java:48-54 | the loop sends one delivery to each subscriber of the topic |
| PubSub.MessagingCoordinator.UnsubscribeTopic | bce-all/src/main/java/cloud/bangover/interactions/pubsub/MessagingCoordinatorActor.java:69-71 | over a snapshot of the topic's subscribers, the loop empties the topic and stops each subscriber once (the intended iteration; see Left out) |
| PubSub.MessagingCoordinator.AfterStop | bce-all/src/main/java/cloud/bangover/interactions/pubsub/MessagingCoordinatorActor.java:43-46 | iterating snapshots, as intended, stopping leaves every topic empty and stops every subscriber (the Java iteration stops early; see Left out) |
| PubSub.MessagingCoordinator.Receive | bce-all/src/main/java/cloud/bangover/interactions/pubsub/MessagingCoordinatorActor.java:24-41 | each command has its effect; other bodies change nothing |
| Streaming.Broadcast | bangover-interactions/src/main/java/cloud/bangover/interactions/streaming/DirectStreamer.java:63-65 | one notification per observer, in registration order, with the current size |
| Streaming.MockSource.constructor | bangover-interactions/src/main/java/cloud/bangover/interactions/streaming/MockSource.java:8-10 | no iterations, not released |
| Streaming.MockSource.WithNextIteration | bangover-interactions/src/main/java/cloud/bangover/interactions/streaming/MockSource.java:12-14 | appends an iteration |
| Streaming.MockSource.Release | bangover-interactions/src/main/java/cloud/bangover/interactions/streaming/MockSource.java:26-29 | marks the source released |
| Streaming.MockSource.TakeNext | bangover-interactions/src/main/java/cloud/bangover/interactions/streaming/MockSource.java:18-20 | takes the first iteration |
| Streaming.MockSource.Read | bangover-interactions/src/main/java/cloud/bangover/interactions/streaming/MockSource.java:16-24 | reading runs the stream to its end |
| Streaming.MockSource.ReadNext | bangover-interactions/src/main/java/cloud/bangover/interactions/streaming/MockSource.java:16-21 | taking and submitting the next iteration runs the stream to its end |
| Streaming.MockDestination.constructor | bangover-interactions-testkit/src/main/java/cloud/bangover/interactions/streaming/MockDestination.java:8-9 | no history, not released |
| Streaming.MockDestination.Release | bangover-interactions-testkit/src/main/java/cloud/bangover/interactions/streaming/MockDestination.java:17-20 | marks the destination released |
| Streaming.MockDestination.Write | bangover-interactions-testkit/src/main/java/cloud/bangover/interactions/streaming/MockDestination.java:11-15 | records the item, then the stream runs to its end |
| Streaming.RechargeableSource.constructor | src/main/java/io/bce/interaction/streaming/RechargeableSource.java:12-16 | the first queued source becomes current |
| Streaming.RechargeableSource.Recharge | src/main/java/io/bce/interaction/streaming/RechargeableSource.java:27-29 | polls the next source, or none when the queue is empty |
| Streaming.RechargeableSource.Read | src/main/java/io/bce/interaction/streaming/RechargeableSource.java:18-21 | reading the current source runs the stream to its end |
| Streaming.RechargeableSource.Release | src/main/java/io/bce/interaction/streaming/RechargeableSource.java:23-25 | does nothing: the queued sources are left as they are |
| Streaming.RechargeableSource.ConnectionComplete | src/main/java/io/bce/interaction/streaming/RechargeableSource.java:44-51 | completion moves to the next source, or completes the stream |
| Streaming.RechargeableSource.ReadQueued | src/main/java/io/bce/interaction/streaming/RechargeableSource.java:53-56 | switching to the queue's head leaves the items still to come unchanged, and reading on runs the stream to its end |
| Streaming.FlattenFromStep | src/main/java/io/bce/interaction/streaming/RechargeableSource.java:44-56 | the queued items are the next source's items followed by the rest |
| Streaming.FinishedAfterSubmit | bangover-interactions/src/main/java/cloud/bangover/interactions/streaming/DirectStreamer.java:45-50 | finishing after one item counted and written is finishing with that item first |
| Streaming.FinishedAfterTake | bangover-interactions/src/main/java/cloud/bangover/interactions/streaming/MockSource.java:16-21 | finishing after the first remaining item was taken and submitted is finishing from before the take |
| Streaming.Stat.constructor | bangover-interactions/src/main/java/cloud/bangover/interactions/streaming/DirectStreamer.java:67-74 | the statistic reads the stream's counter when asked, so it shows the size at that time |
| Streaming.DirectStream.constructor | bangover-interactions/src/main/java/cloud/bangover/interactions/streaming/DirectStreamer.java:23-29 | no observers, nothing transferred |
| Streaming.DirectStream.ReaderRemaining | src/main/java/io/bce/interaction/streaming/RechargeableSource.java:18-21 | the source read through a connection holds the current items |
| Streaming.DirectStream.ObserveStatus | bangover-interactions/src/main/java/cloud/bangover/interactions/streaming/DirectStreamer.java:31-35 | appends the observer and returns the stream |
| Streaming.DirectStream.Start | bangover-interactions/src/main/java/cloud/bangover/interactions/streaming/DirectStreamer.java:37-43 | the run finishes and the statistic is the total size transferred |
| Streaming.DirectStream.Submit | bangover-interactions/src/main/java/cloud/bangover/interactions/streaming/DirectStreamer.java:45-50 | the item is counted, announced, written, and the run finishes |
| Streaming.DirectStream.Receive | bangover-interactions/src/main/java/cloud/bangover/interactions/streaming/DirectStreamer.java:52-55 | receiving runs the stream to its end |
| Streaming.DirectStream.Complete | bangover-interactions/src/main/java/cloud/bangover/interactions/streaming/DirectStreamer.java:57-61 | releases the source and the destination |
| Streaming.DirectStream.NotifyObservers | bangover-interactions/src/main/java/cloud/bangover/interactions/streaming/DirectStreamer.java:63-65 | the loop notifies every observer once |
| Streaming.SubmitOn | src/main/java/io/bce/interaction/streaming/RechargeableSource.java:39-42 | a submit through a wrapped connection is a submit on the stream |
| Streaming.CompleteOn | src/main/java/io/bce/interaction/streaming/RechargeableSource.java:44-51 | a completion through a connection finishes the run |
| Streaming.SumSizesAppend | bangover-interactions/src/main/java/cloud/bangover/interactions/streaming/DirectStreamer.java:45-50 | transferred sizes add up over successive items |
| Streaming.NoticesShape | bangover-interactions/src/main/java/cloud/bangover/interactions/streaming/DirectStreamer.java:45-65 | each item notifies every observer; the last notice shows the final total |
| Streaming.TransferTwoChunks | bangover-interactions-tests/src/test/java/cloud/bangover/interactions/streaming/binary/BinaryStreamingTest.java:39-46 | two chunks arrive in order, size 6, both ends released |
| Streaming.ChainOfTwo | bangover-interactions/src/test/java/cloud/bangover/interactions/streaming/RechargeableSourceTest.java:19-29 | two queued sources, the first current |
| Streaming.ChainedStream | bangover-interactions/src/test/java/cloud/bangover/interactions/streaming/RechargeableSourceTest.java:19-30 | the stream over them still has both items to transfer |
| Streaming.TransferFromEverySource | bangover-interactions/src/test/java/cloud/bangover/interactions/streaming/RechargeableSourceTest.java:31-38 | both sources' items arrive in order, size 2, destination released |
| Polling.EmptyBatchEndsIteration | bangover-interactions/src/main/java/cloud/bangover/interactions/polling/DataPoller.java:30-34 | batches behind the first empty batch are never reached |
| Polling.Indexed | bangover-interactions/src/main/java/cloud/bangover/interactions/polling/DataPoller.java:37-40 | one numbered element per datum |
| Polling.IndexedAt | bangover-interactions/src/main/java/cloud/bangover/interactions/polling/DataPoller.java:37-40 | element `i` carries index `start + i` and the `i`-th datum |
| Polling.UntilEmptyCons | bangover-interactions/src/main/java/cloud/bangover/interactions/polling/DataPoller.java:42-59 | a non-empty batch is followed by the rest |
| Polling.BatchScript.constructor | bangover-interactions-testkit/src/main/java/cloud/bangover/interactions/polling/StubBatchPoller.java:9-10 | no configured batches |
| Polling.BatchScript.WithNextBatch | bangover-interactions-testkit/src/main/java/cloud/bangover/interactions/polling/StubBatchPoller.java:12-14 | appends a batch |
| Polling.BatchScript.Poll | bangover-interactions-testkit/src/main/java/cloud/bangover/interactions/polling/StubBatchPoller.java:16-19 | the next batch, or the empty default |
| Polling.PollIterator.constructor | bangover-interactions/src/main/java/cloud/bangover/interactions/polling/DataPoller.java:26-28 | no batch, index 0 |
| Polling.PollIterator.Step | bangover-interactions/src/main/java/cloud/bangover/interactions/polling/DataPoller.java:42-59 | polls only when the batch is used up; data is left iff something is remaining |
| Polling.PollIterator.HasNext | bangover-interactions/src/main/java/cloud/bangover/interactions/polling/DataPoller.java:30-34 | true iff data remains before the next empty batch, and then nothing is consumed |
| Polling.PollIterator.Next | bangover-interactions/src/main/java/cloud/bangover/interactions/polling/DataPoller.java:36-40 | the next datum with the next index; the index advances even when nothing is left |
| Polling.DataPoller.constructor | bangover-interactions/src/main/java/cloud/bangover/interactions/polling/DataPoller.java:17-19 | wraps the poller |
| Polling.DataPoller.Iterator | bangover-interactions/src/main/java/cloud/bangover/interactions/polling/DataPoller.java:21-24 | a fresh cursor over the poller's data |
| Polling.DataIterator.constructor | bangover-interactions/src/main/java/cloud/bangover/interactions/polling/Polling.java:27 | wraps the indexed cursor |
| Polling.DataIterator.HasNext | bangover-interactions/src/main/java/cloud/bangover/interactions/polling/Polling.java:28-31 | the indexed cursor's answer |
| Polling.DataIterator.Next | bangover-interactions/src/main/java/cloud/bangover/interactions/polling/Polling.java:33-36 | the data of the indexed cursor's next element |
| Polling.Poller.constructor | bangover-interactions/src/main/java/cloud/bangover/interactions/polling/Polling.java:24 | wraps the shared cursor |
| Polling.Poller.Iterator | bangover-interactions/src/main/java/cloud/bangover/interactions/polling/Polling.java:25-27 | every iterator shares the one indexed cursor |
| Polling.CreateIndexedPoller | bangover-interactions/src/main/java/cloud/bangover/interactions/polling/Polling.java:55-57 | an indexed poller over the batch poller |
| Polling.CreatePoller | bangover-interactions/src/main/java/cloud/bangover/interactions/polling/Polling.java:22-23 | the indexed cursor is created once, at index 0 |
| Polling.ForEach | bangover-interactions-tests/src/test/java/cloud/bangover/interactions/polling/DataPollerTest.java:25-28 | a for-each loop yields the remaining data numbered from the current index |
| Polling.ForEachData | bangover-interactions-tests/src/test/java/cloud/bangover/interactions/polling/PollingTest.java:20-22 | a for-each loop over the plain poller yields the remaining data |
| Polling.IndexesOf | bangover-interactions-tests/src/test/java/cloud/bangover/interactions/polling/DataPollerTest.java:26 | the indexes of the elements, in order |
| Polling.DataOf | bangover-interactions-tests/src/test/java/cloud/bangover/interactions/polling/DataPollerTest.java:27 | the data of the elements, in order |
| Polling.IndexedProjections | bangover-interactions-tests/src/test/java/cloud/bangover/interactions/polling/DataPollerTest.java:25-32 | numbered data gives back the data and consecutive indexes |
| Polling.NumberedFromZero | bangover-interactions-tests/src/test/java/cloud/bangover/interactions/polling/DataPollerTest.java:25-32 | data numbered from 0 give back the data, and each index is its position |
| Polling.ThreeBatches | bangover-interactions-tests/src/test/java/cloud/bangover/interactions/polling/DataPollerTest.java:16-21 | three configured batches hold 1 to 9 |
| Polling.PollNineInThreeBatches | bangover-interactions-tests/src/test/java/cloud/bangover/interactions/polling/DataPollerTest.java:14-33 | indexes 0 to 8 and data 1 to 9 |
| Polling.FirstNine | bangover-interactions-tests/src/test/java/cloud/bangover/interactions/polling/DataPollerTest.java:25-28 | nine positions each holding their own index are the indexes 0 to 8 |
| Polling.PollWithIndexing | bangover-interactions-tests/src/test/java/cloud/bangover/interactions/polling/PollingTest.java:28-42 | indexes 0 to 2, data 1, 1, 1 |
| Polling.PollWithoutIndexing | bangover-interactions-tests/src/test/java/cloud/bangover/interactions/polling/PollingTest.java:14-25 | data 1, 1, 1 |
| Polling.SharedCursor | bangover-interactions/src/main/java/cloud/bangover/interactions/polling/Polling.java:22-30 | two iterators of one plain poller continue each other |
| StubbingQueues.StubbingQueue.constructor | bangover-commons-testkit/src/main/java/cloud/bangover/StubbingQueue.java:22-24 | empty, with a null default |
| StubbingQueues.StubbingQueue.WithDefaultValue | bangover-commons-testkit/src/main/java/cloud/bangover/StubbingQueue.java:32-34 | empty, with the given default |
| StubbingQueues.StubbingQueue.Configure | bangover-commons-testkit/src/main/java/cloud/bangover/StubbingQueue.java:47-61 | a configurer of this queue |
| StubbingQueues.StubbingQueue.IsEmpty | bangover-commons-testkit/src/main/java/cloud/bangover/StubbingQueue.java:68-70 | empty iff no entry is queued |
| StubbingQueues.StubbingQueue.Peek | bangover-commons-testkit/src/main/java/cloud/bangover/StubbingQueue.java:77-82 | the first entry is removed and returned; when empty, the default and no change |
| StubbingQueues.Configurer.constructor | bangover-commons-testkit/src/main/java/cloud/bangover/StubbingQueue.java:47-48 | configures the given queue |
| StubbingQueues.Configurer.WithNextEntry | bangover-commons-testkit/src/main/java/cloud/bangover/StubbingQueue.java:50-53 | appends the entry and returns itself |
| StubbingQueues.Configurer.WithDefault | bangover-commons-testkit/src/main/java/cloud/bangover/StubbingQueue.java:56-59 | sets the default and returns itself |
| StubbingQueues.FirstInFirstOut | bangover-commons/src/main/java/cloud/bangover/StubbingQueue.java:23-48 | entries come out in order, then the default forever |
| StubbingQueues.NullDefault | bangover-commons/src/main/java/cloud/bangover/StubbingQueue.java:9-11 | an unconfigured queue answers with null |
| MockHistories.MockHistory.constructor | bangover-commons-testkit/src/main/java/cloud/bangover/MockHistory.java:15 | empty history |
| MockHistories.MockHistory.AllHistoryEntries | bangover-commons-testkit/src/main/java/cloud/bangover/MockHistory.java:22-24 | every entry in order |
| MockHistories.MockHistory.HasEntries | bangover-commons-testkit/src/main/java/cloud/bangover/MockHistory.java:31-33 | true iff some position holds an entry |
| MockHistories.MockHistory.GetLength | bangover-commons-testkit/src/main/java/cloud/bangover/MockHistory.java:40-42 | the number of entries (HasEntries is true iff it is not zero) |
| MockHistories.MockHistory.GetEntry | bangover-commons-testkit/src/main/java/cloud/bangover/MockHistory.java:65-67 | the entry at a position; HasEntry and Put state what it holds |
| MockHistories.MockHistory.HasEntry | bangover-commons-testkit/src/main/java/cloud/bangover/MockHistory.java:52-57 | true iff the position exists and holds the value |
| MockHistories.MockHistory.Put | bangover-commons-testkit/src/main/java/cloud/bangover/MockHistory.java:74-76 | appends; the new position holds the value |
| MockHistories.MockHistory.Clear | bangover-commons-testkit/src/main/java/cloud/bangover/MockHistory.java:81-83 | forgets every entry |
| MockHistories.RecordTwo | bangover-async/src/main/java/cloud/bangover/async/promises/MockHistory.java:17-30 | two entries are found at positions 0 and 1, nothing beyond, nothing after clearing |
| Domain.BoundedContextId.ToString | src/main/java/io/bce/domain/BoundedContextId.java:30-33 | the text is the id, so the id is rebuilt from it |
| Domain.ContextIdError.Message | src/main/java/io/bce/domain/BoundedContextId.java:57-59 | the error message quotes the rejected name after `Context name ` |
| Domain.ContextIdMessageInjective | src/main/java/io/bce/domain/BoundedContextId.java:57-59 | different rejected names give different messages |
| Domain.CreateContextId | src/main/java/io/bce/domain/BoundedContextId.java:35-52 | succeeds iff the name matches the pattern and is not PLATFORM; the id renders as the name; the failure carries the name |
| Domain.ContextIdRoundTrip | src/main/java/io/bce/domain/BoundedContextId.java:35-40 | an id is created from a name iff it renders as that name and the name is allowed |
| Domain.IsValidContextId | src/main/java/io/bce/domain/BoundedContextId.java:24-25 | the id's name matches the context name pattern (CreatedIdsAreValid, ContextIdRoundTrip) |
| Domain.CreatedIdsAreValid | src/main/java/io/bce/domain/BoundedContextId.java:24-25 | created ids and PLATFORM are well-formed |
| Domain.DottedNameRejected | bangover-commons-tests/src/test/java/cloud/bangover/BoundedContextIdTest.java:15-39 | a name with a dot is rejected |
| Domain.PlatformIsReserved | src/main/java/io/bce/domain/BoundedContextId.java:48-52 | PLATFORM is well-formed but reserved |
| Domain.EventType.Extract | src/main/java/io/bce/domain/EventType.java:32-34 | the type name |
| Domain.EventType.ToString | src/main/java/io/bce/domain/EventType.java:44-47 | the name with the class name in brackets |
| Domain.EventType.Equals | src/main/java/io/bce/domain/EventType.java:11-20 | equal iff the type names are, whatever the classes (EventTypeEqualityIgnoresClass) |
| Domain.EventType.IsAccepts | src/main/java/io/bce/domain/EventType.java:40-42 | an event is accepted iff it is an instance of the event class (CreateEventType: `Object` accepts every event) |
| Domain.CreateEventTypeOf | src/main/java/io/bce/domain/EventType.java:26-30 | succeeds iff the name matches the pattern; keeps name and class; the failure carries the name |
| Domain.CreateEventType | src/main/java/io/bce/domain/EventType.java:22-24 | for `java.lang.Object`, which accepts every event |
| Domain.EventTypeEqualityIgnoresClass | src/main/java/io/bce/domain/EventType.java:11-20 | event types are equal by name, whatever their classes |
| Domain.EventTypeNameFromText | src/main/java/io/bce/domain/EventType.java:44-47 | the name is the text up to the first bracket |
| Domain.EventTypeRendering | bangover-commons-tests/src/test/java/cloud/bangover/domain/EventTypeTest.java:14-35 | `EVENT_TYPE[java.lang.Object]` |
| Domain.BadEventTypeNameRejected | bangover-commons-tests/src/test/java/cloud/bangover/domain/EventTypeTest.java:14-35 | a name with spaces and `!` is rejected |
| ErrorDescriptors.ErrorCode.ToString | bangover-commons-tests/src/test/java/cloud/bangover/errors/ErrorCodeTest.java:14-21 | the decimal text of the code |
| ErrorDescriptors.ErrorDescriptor.WithDetailsParameter | bangover-commons-testkit/src/main/java/cloud/bangover/errors/StubErrorDescriptor.java:42-48 | sets one detail and keeps every other detail and field |
| ErrorDescriptors.StubErrorDescriptor | bangover-commons-testkit/src/main/java/cloud/bangover/errors/StubErrorDescriptor.java:30-33 | the given fields and no details |
| ErrorDescriptors.DetailsParameterOverwrites | bangover-commons/src/main/java/cloud/bangover/errors/StubErrorDescriptor.java:28-34 | the second value for a key wins |
| ErrorDescriptors.DetailsParametersCommute | bangover-commons/src/main/java/cloud/bangover/errors/StubErrorDescriptor.java:28-34 | details under different keys can be set in either order |
| ErrorDescriptors.RecognizeContext | bangover-commons/src/main/java/cloud/bangover/errors/UnexpectedErrorException.java:37-42 | a described error's own context, the platform otherwise |
| ErrorDescriptors.UnexpectedErrorIn | bangover-commons/src/main/java/cloud/bangover/errors/UnexpectedErrorException.java:31-35 | the given context, the unrecognized code, incident severity, and the cause |
| ErrorDescriptors.UnexpectedErrorOf | bangover-commons/src/main/java/cloud/bangover/errors/UnexpectedErrorException.java:20-22 | the same, in the recognized context |
| ErrorDescriptors.UnexpectedErrorContexts | bangover-commons-tests/src/test/java/cloud/bangover/errors/UnexpectedErrorExceptionTest.java:31-46 | an explicit context always wins; otherwise the descriptor's context or the platform |
| ErrorDescriptors.TemplateId | bangover-text-processing/src/main/java/cloud/bangover/text/ErrorDescriptorTemplate.java:44-47 | `ERROR.`, the context, `.`, the code |
| ErrorDescriptors.CreateTemplateFor | bangover-text-processing/src/main/java/cloud/bangover/text/ErrorDescriptorTemplate.java:23-51 | the template's text is the identifier and its parameters the details; transforming transforms that template |
| ErrorDescriptors.ErrorDescriptorTemplate.GetTemplateText | bangover-text-processing/src/main/java/cloud/bangover/text/ErrorDescriptorTemplate.java:29-32 | the inner template's text, which CreateTemplateFor states is the template id |
| ErrorDescriptors.ErrorDescriptorTemplate.GetParameters | bangover-text-processing/src/main/java/cloud/bangover/text/ErrorDescriptorTemplate.java:34-37 | the inner template's parameters, which CreateTemplateFor states are the error details |
| ErrorDescriptors.ErrorDescriptorTemplate.TransformBy | bangover-text-processing/src/main/java/cloud/bangover/text/ErrorDescriptorTemplate.java:39-42 | the transformer applied to the inner template (CreateTemplateFor) |
| ErrorDescriptors.BeforeDot | bangover-text-processing/src/main/java/cloud/bangover/text/ErrorDescriptorTemplate.java:19 | a context name ends at the first dot |
| ErrorDescriptors.TemplateIdIdentifiesError | bangover-text-processing/src/main/java/cloud/bangover/text/ErrorDescriptorTemplate.java:44-47 | two descriptors with well-formed contexts have the same identifier iff they have the same context and code |
| ErrorDescriptors.PlatformErrorTemplate | bangover-text-processing/src/main/java/cloud/bangover/text/ErrorDescriptorTemplate.java:19 | `ERROR.PLATFORM.100` |

## Left out

- The actor runtime (scheduling, mailboxes, the actor system), promises, the timer and all concurrency are not modelled. An actor's `tell`, `stop` and the deferred's `resolve`/`reject` are recorded as effects.
- Interactions.Deliver: assumes that a stopped actor receives nothing more; deliveries after the actor has stopped itself are dropped.
- I/O, UUID generation and `String.format` in general are not modelled. The UUID is a parameter, and the formats the code uses are written out.
- `ValidationState` and `ValidationGroup` are not part of this model's sources. They are modelled from their tests: grouped messages are entries of a group and a message set, and a group's messages are the union of its entries.
- ValidationStates.ValidationGroup.DeriveWith: the group-name format check of `ValidationGroup.createFor` is not shown, so no group name is rejected.
- Java's `instanceof` and `Class.isInstance` are modelled by a set of class names carried by each object.
- Integer widths are not modelled: `Long` and `Integer` sizes, `AtomicLong` indexes and `int` lengths are unbounded, so overflow is left out.
- Streaming.RechargeableSource.Read: reading with no current source is a precondition; Java throws `NoSuchElementException` there.
- Streaming.RechargeableSource.Release: it does nothing, and the test overrides it, so the sources inside a rechargeable source are not released by the stream.
- Streaming: the queued sources of a rechargeable source are assumed distinct; the queue itself is not shared.
- Streaming: the mock source and destination use sequence fields instead of a stubbing queue and a mock history, which are modelled on their own.
- Streaming: binary chunks are modelled as integers and status observers as numeric ids.
- PubSub.MessagingCoordinator.UnsubscribeTopic: the loop runs over a snapshot of the topic's subscribers, as evidently intended. The Java `unsubscribeAll` calls `unsubscribe` inside `forEach` over the very set it removes from (MessagingCoordinatorActor.java:63-72). `HashSet` inherits `Iterable.forEach`, which walks the set's fail-fast iterator. A topic with one subscriber is emptied and that actor stopped without an error. With two or more subscribers, only the first in iteration order is removed and stopped. The next step of the iterator then throws `ConcurrentModificationException`, and the others keep their subscription and are not stopped. That exception is not modelled.
- PubSub.MessagingCoordinator.AfterStop: it empties every topic and stops every subscriber. Java goes through the topics in the map's order, and the `put` inside `getSubscribers` replaces an existing key, so the outer iteration is not disturbed. The `ConcurrentModificationException` above ends `afterStop` at the first topic with two or more subscribers. Later topics are left as they are, and their subscribers are not stopped by the coordinator.
- ValidationContexts.Run: a validatable object is modelled as a fixed script of context operations applied to the context it is given. A Java `validate` is arbitrary code. It may branch on the context or return an unrelated context, such as `new ValidationContext()`. So Run, RunSteps and RunStep keeping the group and policy, and the nesting lemmas, hold for scripted validatables only.
- Polling: the batch poller is the scripted stub poller; an arbitrary polling function is not modelled.
- Polling.DataIterator.Next: `remove()` is not modelled; it throws in the underlying iterator.
- Polling.PollIterator.Next: Java's `NoSuchElementException` is modelled as `None`.
- MockHistories.MockHistory.GetEntry: a position outside the history is a precondition; Java throws `IndexOutOfBoundsException`.
- MockHistories.MockHistory.HasEntry: a negative position is a precondition; Java throws there. Null values are not modelled.
- The async copy of the mock history has no `clear` and no `getAllHistoryEntries`; its `isNotEmpty` is `HasEntries`.
- StubbingQueues.StubbingQueue: a null default is `None`.
- Domain.CreateContextId: the pattern is matched against the whole string, as `Matcher.matches` does. Null arguments are not modelled.
- ErrorDescriptors.UnexpectedErrorIn: the value of `UNRECOGNIZED_ERROR_CODE` is not part of this model's sources; it is an unspecified constant. The details of `ApplicationException` (message, stack trace) are not modelled.
- ErrorDescriptors.CreateTemplateFor: `TextTemplates.createBy` and the `Transformer` type are not part of this model's sources. The template is a plain record of text and parameters, and the transformer a function.
- Interactions.WrongRequestRejects: the wrong-request exception is built with the response type, as written. Only the exception's type is observable to the model, so this is not a finding.
- Reflection-based helpers, thin stubs kept for other tests, and foreign libraries (Lombok-generated members besides equality) are not modelled.

## Findings

| source | as written | input that shows it | evidently intended | confidence | as-written member | corrected member |
|---|---|---|---|---|---|---|
| bangover-validation-testkit/src/main/java/cloud/bangover/validation/StubRule.java:86-92 (and bangover-validation/src/main/java/cloud/bangover/validation/StubRule.java:70-76) | `RuleDefinition.check` reads the inversion flag of the rule that created the definition (`StubRule.this`), not of the rule that is asked | `new StubRule(..).stubFor(1, true, [error])`, then `invert().check(1)` returns `[error]` | the inverted rule reports nothing | not executed | StubRules.InvertedStubAsWritten | StubRules.InvertedStubCorrected |
