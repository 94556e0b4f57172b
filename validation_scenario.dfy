/**
 * The nested-entity example from the validation context's test suite, written as scripts: a root
 * object validates two children under `gr-first`, one of which validates a collection two levels
 * further down. The lemma states where each message ends up.
 */
module ValidationScenario {
  import opened Wrappers
  import opened Decimal
  import opened ValidationStates
  import opened ValidationContexts

  function Msg(n: nat): ErrorMessage {
    ErrorMessage(if n == 1 then "Message text 1" else if n == 2 then "Message text 2" else if n == 3 then "Message text 3" else if n == 4 then "Message text 4"
                 else if n == 5 then "Message text 5" else if n == 6 then "Message text 6" else if n == 7 then "Message text 7" else if n == 8 then "Message text 8"
                 else if n == 9 then "Message text 9" else "Message text 10")
  }

  function Sixth(): Validatable<int> {
    Validatable([WithErrorsStep([Msg(9)]), WithGroupedErrorsStep("gr-fourth", [Msg(10)])])
  }

  /** The fifth entity, validating a collection whose second element is `sixth`. */
  function FifthOf(sixth: Validatable<int>): Validatable<int> {
    Validatable([WithErrorsStep([Msg(8)]), WithGroupedErrorsStep("gr-third", [Msg(6), Msg(7)]),
                 ValidateCollectionStep("collection", [OtherObject, ValidatableObject(sixth)])])
  }

  function Fifth(): Validatable<int> { FifthOf(Sixth()) }

  function FourthOf(fifth: Validatable<int>): Validatable<int> {
    Validatable([ValidateStep(Some("gr-second"), fifth, Some(DeriveGroupes))])
  }

  function Fourth(): Validatable<int> { FourthOf(Fifth()) }

  function SecondOf(fourth: Validatable<int>): Validatable<int> {
    Validatable([WithErrorsStep([Msg(1)]), ValidateStep(None, fourth, Some(DeriveGroupes))])
  }

  function Second(): Validatable<int> { SecondOf(Fourth()) }

  function Third(): Validatable<int> {
    Validatable([WithErrorsStep([Msg(3)]), WithGroupedErrorsStep("gr-second", [Msg(4), Msg(5)])])
  }

  function FirstOf(third: Validatable<int>): Validatable<int> {
    Validatable([WithErrorsStep([Msg(2)]), ValidateStep(None, third, None)])
  }

  function First(): Validatable<int> { FirstOf(Third()) }

  function RootOf(first: Validatable<int>, second: Validatable<int>): Validatable<int> {
    Validatable([ValidateStep(Some("gr-first"), first, None),
                 ValidateStep(Some("gr-first"), second, Some(DeriveGroupes))])
  }

  function Root(): Validatable<int> { RootOf(First(), Second()) }

  lemma RunOne<V>(c: ValidationContext, a: Step<V>)
    ensures Run(c, Validatable([a])) == RunStep(c, a)
  {
    var s := [a];
    var c1 := RunStep(c, s[0]);
    assert RunSteps(c1, s, 1) == c1;
    assert RunSteps(c, s, 0) == c1;
  }

  lemma RunTwo<V>(c: ValidationContext, a: Step<V>, b: Step<V>)
    ensures Run(c, Validatable([a, b])) == RunStep(RunStep(c, a), b)
  {
    var s := [a, b];
    var c1 := RunStep(c, s[0]);
    var c2 := RunStep(c1, s[1]);
    assert RunSteps(c2, s, 2) == c2;
    assert RunSteps(c1, s, 1) == c2;
    assert RunSteps(c, s, 0) == c2;
  }

  lemma RunThree<V>(c: ValidationContext, a: Step<V>, b: Step<V>, d: Step<V>)
    ensures Run(c, Validatable([a, b, d])) == RunStep(RunStep(RunStep(c, a), b), d)
  {
    var s := [a, b, d];
    var c1 := RunStep(c, s[0]);
    var c2 := RunStep(c1, s[1]);
    var c3 := RunStep(c2, s[2]);
    assert RunSteps(c3, s, 3) == c3;
    assert RunSteps(c2, s, 2) == c3;
    assert RunSteps(c1, s, 1) == c3;
    assert RunSteps(c, s, 0) == c3;
  }

  function G(name: string): ValidationGroup { Group(name) }

  /** The name of a group derived from `base`. */
  function Dot(base: string, name: string): string { base + "." + name }

  /** Every entry of four moved under `G(b)`. */
  lemma DeriveFour(b: string, n1: string, n2: string, n3: string, n4: string, m1: nat, m2: nat, m3: nat, m4: nat)
    ensures DeriveEntries([E(n1, m1), E(n2, m2), E(n3, m3), E(n4, m4)], G(b)) ==
            [E(Dot(b, n1), m1), E(Dot(b, n2), m2), E(Dot(b, n3), m3), E(Dot(b, n4), m4)]
  {
    var r := DeriveEntries([E(n1, m1), E(n2, m2), E(n3, m3), E(n4, m4)], G(b));
    assert r[0] == E(Dot(b, n1), m1);
    assert r[1] == E(Dot(b, n2), m2);
    assert r[2] == E(Dot(b, n3), m3);
    assert r[3] == E(Dot(b, n4), m4);
  }

  /** What the innermost entity records on a fresh context, before derivation. */
  lemma SixthRecords(g: ValidationGroup)
    ensures Run(FreshContext(g, DeriveState), Sixth()).state == ValidationState([Msg(9)], [E("gr-fourth", 10)])
  {
    var c := FreshContext(g, DeriveState);
    RunTwo<int>(c, WithErrorsStep([Msg(9)]), WithGroupedErrorsStep("gr-fourth", [Msg(10)]));
    var c1 := ContextWithErrors(c, [Msg(9)]);
    assert c1.state == ValidationState([Msg(9)], []);
    var c2 := ContextWithGroupedErrors(c1, "gr-fourth", [Msg(10)]);
    assert Singletons(Group("gr-fourth"), [Msg(10)]) == [E("gr-fourth", 10)];
    assert c2.state == ValidationState([Msg(9)], [E("gr-fourth", 10)]);
  }

  /** The innermost entity, validated under a named group with DERIVE_STATE. */
  lemma SixthIn(base: string)
    ensures Run(FreshContext(G(base), DeriveState), Sixth()).GetState() ==
            ValidationState([], [E(base, 9), E(Dot(base, "gr-fourth"), 10)])
  {
    SixthRecords(G(base));
    var s := ValidationState([Msg(9)], [E("gr-fourth", 10)]);
    assert (set e | e in [Msg(9)]) == {Msg(9)};
    var d := DeriveEntries([E("gr-fourth", 10)], G(base));
    assert d == [E(Dot(base, "gr-fourth"), 10)] by {
      assert d[0] == E(Dot(base, "gr-fourth"), 10);
    }
    assert AsSubgroup(s, G(base)) == ValidationState([], [E(base, 9)] + d);
  }

  lemma SixthState()
    ensures Run(FreshContext(IndexedGroup("collection", 1), DeriveState), Sixth()).GetState() ==
            ValidationState([], [E(Dot("collection", "[1]"), 9), E(Dot(Dot("collection", "[1]"), "gr-fourth"), 10)])
  {
    IndexedGroupName("collection", 1);
    assert NatText(1) == "1";
    assert IndexedGroup("collection", 1) == G(Dot("collection", "[1]"));
    SixthIn(Dot("collection", "[1]"));
  }

  /** A collection of a plain object and a validatable one reports the latter's state, under index 1. */
  lemma CollectionOf(t: Validatable<int>, s: ValidationState)
    requires Run(FreshContext(IndexedGroup("collection", 1), DeriveState), t).GetState() == s
    ensures CollectionState("collection", [OtherObject, ValidatableObject(t)]) == s
  {
    var es: seq<Element<int>> := [OtherObject, ValidatableObject(t)];
    assert es[..1] == [OtherObject];
    assert es[..1][..0] == [];
    assert CollectionState("collection", es[..1]) == EMPTY_STATE;
    MergeEmpty(s);
  }

  lemma CollectionOfSixth()
    ensures CollectionState("collection", [OtherObject, ValidatableObject(Sixth())]) ==
            ValidationState([], [E(Dot("collection", "[1]"), 9), E(Dot(Dot("collection", "[1]"), "gr-fourth"), 10)])
  {
    SixthState();
    CollectionOf(Sixth(), Run(FreshContext(IndexedGroup("collection", 1), DeriveState), Sixth()).GetState());
  }

  function E(name: string, m: nat): GroupedError { GroupedError(G(name), {Msg(m)}) }

  /** Two messages added under one group become two single-message entries of that group. */
  lemma GroupedPair(c: ValidationContext, name: string, m1: nat, m2: nat)
    ensures ContextWithGroupedErrors(c, name, [Msg(m1), Msg(m2)]).state ==
            c.state.(grouped := c.state.grouped + [E(name, m1), E(name, m2)])
  {
    var singles := Singletons(Group(name), [Msg(m1), Msg(m2)]);
    assert singles[0] == E(name, m1) && singles[1] == E(name, m2);
    assert singles == [E(name, m1), E(name, m2)];
  }

  /** What the fifth entity records on a fresh context, before derivation. */
  lemma FifthRecords(c: ValidationContext, sixth: Validatable<int>, g: seq<GroupedError>)
    requires c.state == EMPTY_STATE
    requires CollectionState("collection", [OtherObject, ValidatableObject(sixth)]) == ValidationState([], g)
    ensures Run(c, FifthOf(sixth)).state == ValidationState([Msg(8)], [E("gr-third", 6), E("gr-third", 7)] + g)
  {
    var es: seq<Element<int>> := [OtherObject, ValidatableObject(sixth)];
    RunThree<int>(c, WithErrorsStep([Msg(8)]), WithGroupedErrorsStep("gr-third", [Msg(6), Msg(7)]),
                  ValidateCollectionStep("collection", es));
    var c1 := ContextWithErrors(c, [Msg(8)]);
    assert c1.state == ValidationState([Msg(8)], []);
    GroupedPair(c1, "gr-third", 6, 7);
  }

  /** The fifth entity under DERIVE_GROUPES: its own message stays ungrouped, every group moves under `b`. */
  lemma FifthOfState(b: string, sixth: Validatable<int>, g: seq<GroupedError>)
    requires CollectionState("collection", [OtherObject, ValidatableObject(sixth)]) == ValidationState([], g)
    ensures Run(FreshContext(G(b), DeriveGroupes), FifthOf(sixth)).GetState() ==
            ValidationState([Msg(8)], DeriveEntries([E("gr-third", 6), E("gr-third", 7)] + g, G(b)))
  {
    FifthRecords(FreshContext(G(b), DeriveGroupes), sixth, g);
  }

  lemma FifthState()
    ensures Run(FreshContext(G("gr-second"), DeriveGroupes), Fifth()).GetState() ==
            ValidationState([Msg(8)], [E(Dot("gr-second", "gr-third"), 6), E(Dot("gr-second", "gr-third"), 7),
                                       E(Dot("gr-second", Dot("collection", "[1]")), 9), E(Dot("gr-second", Dot(Dot("collection", "[1]"), "gr-fourth")), 10)])
  {
    CollectionOfSixth();
    FifthOfState("gr-second", Sixth(), [E(Dot("collection", "[1]"), 9), E(Dot(Dot("collection", "[1]"), "gr-fourth"), 10)]);
    DeriveFour("gr-second", "gr-third", "gr-third", Dot("collection", "[1]"), Dot(Dot("collection", "[1]"), "gr-fourth"), 6, 7, 9, 10);
  }

  lemma Prefixed(base: string, name: string)
    ensures G(base).DeriveWith(G(name)) == G(Dot(base, name))
  {
  }

  /** The fourth entity passes on, unchanged, the state of the entity it validates under `gr-second`. */
  lemma FourthOfState(fifth: Validatable<int>, s: ValidationState)
    requires Run(FreshContext(G("gr-second"), DeriveGroupes), fifth).GetState() == s
    ensures Run(FreshContext(Ungrouped, DeriveGroupes), FourthOf(fifth)).GetState() == s
  {
    var c := FreshContext(Ungrouped, DeriveGroupes);
    RunOne<int>(c, ValidateStep(Some("gr-second"), fifth, Some(DeriveGroupes)));
    MergeEmpty(s);
    DerivedFromUngroupedIsIdentity(s);
  }

  lemma FourthState()
    ensures Run(FreshContext(Ungrouped, DeriveGroupes), Fourth()).GetState() ==
            ValidationState([Msg(8)], [E(Dot("gr-second", "gr-third"), 6), E(Dot("gr-second", "gr-third"), 7),
                                       E(Dot("gr-second", Dot("collection", "[1]")), 9), E(Dot("gr-second", Dot(Dot("collection", "[1]"), "gr-fourth")), 10)])
  {
    FifthState();
    FourthOfState(Fifth(), Run(FreshContext(G("gr-second"), DeriveGroupes), Fifth()).GetState());
  }

  /** The second entity: its own message first, then the fourth's; the fourth's groups move under `b`. */
  lemma SecondOfState(b: string, fourth: Validatable<int>, u: seq<ErrorMessage>, g: seq<GroupedError>)
    requires Run(FreshContext(Ungrouped, DeriveGroupes), fourth).GetState() == ValidationState(u, g)
    ensures Run(FreshContext(G(b), DeriveGroupes), SecondOf(fourth)).GetState() ==
            ValidationState([Msg(1)] + u, DeriveEntries(g, G(b)))
  {
    var c := FreshContext(G(b), DeriveGroupes);
    RunTwo<int>(c, WithErrorsStep([Msg(1)]), ValidateStep(None, fourth, Some(DeriveGroupes)));
    var c1 := ContextWithErrors(c, [Msg(1)]);
    assert c1.state == ValidationState([Msg(1)], []);
    var c2 := ValidateNested(c1, Ungrouped, fourth, DeriveGroupes);
    assert c2.state == ValidationState([Msg(1)] + u, g) by {
      assert c2.state == Merge(c1.state, ValidationState(u, g));
      assert [] + g == g;
    }
    assert Run(c, SecondOf(fourth)) == c2;
  }

  lemma SecondState()
    ensures Run(FreshContext(G("gr-first"), DeriveGroupes), Second()).GetState() ==
            ValidationState([Msg(1), Msg(8)],
                            [E(Dot("gr-first", Dot("gr-second", "gr-third")), 6), E(Dot("gr-first", Dot("gr-second", "gr-third")), 7),
                             E(Dot("gr-first", Dot("gr-second", Dot("collection", "[1]"))), 9),
                             E(Dot("gr-first", Dot("gr-second", Dot(Dot("collection", "[1]"), "gr-fourth"))), 10)])
  {
    FourthState();
    SecondOfState("gr-first", Fourth(), [Msg(8)],
                  [E(Dot("gr-second", "gr-third"), 6), E(Dot("gr-second", "gr-third"), 7),
                   E(Dot("gr-second", Dot("collection", "[1]")), 9), E(Dot("gr-second", Dot(Dot("collection", "[1]"), "gr-fourth")), 10)]);
    DeriveFour("gr-first", Dot("gr-second", "gr-third"), Dot("gr-second", "gr-third"),
               Dot("gr-second", Dot("collection", "[1]")), Dot("gr-second", Dot(Dot("collection", "[1]"), "gr-fourth")), 6, 7, 9, 10);
  }

  lemma ThirdState()
    ensures Run(FreshContext(Ungrouped, DeriveState), Third()).GetState() ==
            ValidationState([], [GroupedError(Ungrouped, {Msg(3)}), E("gr-second", 4), E("gr-second", 5)])
  {
    var c := FreshContext(Ungrouped, DeriveState);
    RunTwo<int>(c, WithErrorsStep([Msg(3)]), WithGroupedErrorsStep("gr-second", [Msg(4), Msg(5)]));
    var r := Run(c, Third());
    assert r.state == ValidationState([Msg(3)], [E("gr-second", 4), E("gr-second", 5)]);
    assert (set e | e in [Msg(3)]) == {Msg(3)};
  }

  /** The first entity under DERIVE_STATE: its own message and the third's ungrouped one become messages of `b`. */
  lemma FirstOfState(b: string, third: Validatable<int>, g: seq<GroupedError>)
    requires Run(FreshContext(Ungrouped, DeriveState), third).GetState() == ValidationState([], g)
    ensures Run(FreshContext(G(b), DeriveState), FirstOf(third)).GetState() ==
            ValidationState([], [E(b, 2)] + DeriveEntries(g, G(b)))
  {
    var c := FreshContext(G(b), DeriveState);
    RunTwo<int>(c, WithErrorsStep([Msg(2)]), ValidateStep(None, third, None));
    var c1 := ContextWithErrors(c, [Msg(2)]);
    assert c1.state == ValidationState([Msg(2)], []);
    var c2 := ValidateNested(c1, Ungrouped, third, DeriveState);
    assert c2.state == ValidationState([Msg(2)], g) by {
      assert c2.state == Merge(c1.state, ValidationState([], g));
      assert [] + g == g;
    }
    assert Run(c, FirstOf(third)) == c2;
    assert (set e | e in [Msg(2)]) == {Msg(2)};
  }

  lemma FirstState()
    ensures Run(FreshContext(G("gr-first"), DeriveState), First()).GetState() ==
            ValidationState([], [E("gr-first", 2), E("gr-first", 3),
                                 E(Dot("gr-first", "gr-second"), 4), E(Dot("gr-first", "gr-second"), 5)])
  {
    ThirdState();
    FirstOfState("gr-first", Third(), [GroupedError(Ungrouped, {Msg(3)}), E("gr-second", 4), E("gr-second", 5)]);
    DeriveUngroupedAndTwo("gr-first", "gr-second", 3, 4, 5);
  }

  /** An ungrouped entry becomes an entry of `G(b)`; the two others move under it. */
  lemma DeriveUngroupedAndTwo(b: string, n: string, m1: nat, m2: nat, m3: nat)
    ensures DeriveEntries([GroupedError(Ungrouped, {Msg(m1)}), E(n, m2), E(n, m3)], G(b)) ==
            [E(b, m1), E(Dot(b, n), m2), E(Dot(b, n), m3)]
  {
    var d := DeriveEntries([GroupedError(Ungrouped, {Msg(m1)}), E(n, m2), E(n, m3)], G(b));
    assert d[0] == E(b, m1);
    assert d[1] == E(Dot(b, n), m2);
    assert d[2] == E(Dot(b, n), m3);
  }

  /** The root entity: the first entity's state and then the second's, unchanged. */
  lemma RootOfState(first: Validatable<int>, second: Validatable<int>, s: ValidationState, t: ValidationState)
    requires Run(FreshContext(G("gr-first"), DeriveState), first).GetState() == s
    requires Run(FreshContext(G("gr-first"), DeriveGroupes), second).GetState() == t
    ensures Run(DEFAULT_CONTEXT, RootOf(first, second)).GetState() == Merge(s, t)
  {
    RunTwo<int>(DEFAULT_CONTEXT, ValidateStep(Some("gr-first"), first, None),
                ValidateStep(Some("gr-first"), second, Some(DeriveGroupes)));
    MergeEmpty(s);
    var r := Run(DEFAULT_CONTEXT, RootOf(first, second));
    assert r.state == Merge(s, t);
    assert r == DEFAULT_CONTEXT.(state := r.state);
    DerivedFromUngroupedIsIdentity(r.state);
  }

  /** Where each message of the nested example is reported. */
  lemma NestedObjectsScenario()
    ensures Run(DEFAULT_CONTEXT, Root()).GetState() ==
            ValidationState([Msg(1), Msg(8)],
                            [E("gr-first", 2), E("gr-first", 3), E(Dot("gr-first", "gr-second"), 4), E(Dot("gr-first", "gr-second"), 5),
                             E(Dot("gr-first", Dot("gr-second", "gr-third")), 6), E(Dot("gr-first", Dot("gr-second", "gr-third")), 7),
                             E(Dot("gr-first", Dot("gr-second", Dot("collection", "[1]"))), 9),
                             E(Dot("gr-first", Dot("gr-second", Dot(Dot("collection", "[1]"), "gr-fourth"))), 10)])
  {
    FirstState();
    SecondState();
    RootOfState(First(), Second(), Run(FreshContext(G("gr-first"), DeriveState), First()).GetState(),
                Run(FreshContext(G("gr-first"), DeriveGroupes), Second()).GetState());
    FourAndFour(E("gr-first", 2), E("gr-first", 3), E(Dot("gr-first", "gr-second"), 4), E(Dot("gr-first", "gr-second"), 5),
                E(Dot("gr-first", Dot("gr-second", "gr-third")), 6), E(Dot("gr-first", Dot("gr-second", "gr-third")), 7),
                E(Dot("gr-first", Dot("gr-second", Dot("collection", "[1]"))), 9),
                E(Dot("gr-first", Dot("gr-second", Dot(Dot("collection", "[1]"), "gr-fourth"))), 10));
  }

  lemma FourAndFour(a: GroupedError, b: GroupedError, c: GroupedError, d: GroupedError,
                    e: GroupedError, f: GroupedError, g: GroupedError, h: GroupedError)
    ensures Merge(ValidationState([], [a, b, c, d]), ValidationState([Msg(1), Msg(8)], [e, f, g, h])) ==
            ValidationState([Msg(1), Msg(8)], [a, b, c, d, e, f, g, h])
  {
    assert [a, b, c, d] + [e, f, g, h] == [a, b, c, d, e, f, g, h];
  }
}
