/**
 * The immutable validation context: a group, a derivation policy and the state accumulated so far.
 * Every operation returns a new context with the same group and policy. A `Validatable` object is
 * represented by the script of context operations its `validate` method performs, so that nested
 * and collection validation can run it on a fresh sub-context.
 */
module ValidationContexts {
  import opened Wrappers
  import opened Decimal
  import opened ValidationStates

  /** How a context turns its own state into the state it reports. */
  datatype DerivationPolicy = DeriveGroupes | DeriveState {
    function Derive(group: ValidationGroup, s: ValidationState): ValidationState {
      match this
      case DeriveGroupes => AsDerivedFrom(s, group)
      case DeriveState => AsSubgroup(s, group)
    }
  }

  /** A validation rule: whether it applies to a value, and the messages it reports for it. */
  datatype Rule<!V> = Rule(isAcceptableFor: V -> bool, check: V -> seq<ErrorMessage>)

  /** The operations a validatable object performs on the context it is given, in order. */
  datatype Validatable<!V> = Validatable(steps: seq<Step<V>>)

  datatype Step<!V> =
    | WithErrorsStep(errors: seq<ErrorMessage>)
    | WithGroupedErrorsStep(groupName: string, errors: seq<ErrorMessage>)
    | WithRuleStep(value: V, rule: Rule<V>)
    | WithGroupedRuleStep(groupName: string, value: V, rule: Rule<V>)
      /** One of the four `validate(..., validatable, ...)` overloads; absent arguments are `None`. */
    | ValidateStep(subgroupName: Option<string>, target: Validatable<V>, policy: Option<DerivationPolicy>)
    | ValidateCollectionStep(groupName: string, elements: seq<Element<V>>)

  /** An element of a validated collection: an object that is not `Validatable`, or one that is. */
  datatype Element<!V> = OtherObject | ValidatableObject(target: Validatable<V>)

  datatype ValidationContext = ValidationContext(group: ValidationGroup, derivation: DerivationPolicy,
                                                 state: ValidationState)
  {
    /** `getState`: the accumulated state, derived by the policy from the context's group. */
    function GetState(): ValidationState {
      derivation.Derive(group, state)
    }
  }

  /** `new ValidationContext()`. */
  const DEFAULT_CONTEXT := ValidationContext(Ungrouped, DeriveGroupes, EMPTY_STATE)

  function FreshContext(group: ValidationGroup, policy: DerivationPolicy): ValidationContext {
    ValidationContext(group, policy, EMPTY_STATE)
  }

  /** `ValidationGroup.createFor` applied to an optional group name; no name means UNGROUPED. */
  function GroupOf(groupName: Option<string>): ValidationGroup {
    match groupName
    case None => Ungrouped
    case Some(n) => Group(n)
  }

  /** `createIndexedGroup`: the group `name.[index]`. */
  function IndexedGroup(groupName: string, index: nat): ValidationGroup {
    Group(groupName).DeriveWith(Group("[" + NatText(index) + "]"))
  }

  /** One entry per message, each holding that message alone under `g`. */
  function Singletons(g: ValidationGroup, errors: seq<ErrorMessage>): (r: seq<GroupedError>)
    ensures |r| == |errors|
    ensures forall i :: 0 <= i < |r| ==> r[i] == GroupedError(g, {errors[i]})
  {
    seq(|errors|, i requires 0 <= i < |errors| => GroupedError(g, {errors[i]}))
  }

  // ---------------------------------------------------------------------------------------------
  // Context operations as values: what each operation returns

  /** The context `withErrors(errors)` returns: every message added ungrouped, in order. */
  function ContextWithErrors(c: ValidationContext, errors: seq<ErrorMessage>): (r: ValidationContext)
    ensures r.group == c.group && r.derivation == c.derivation
  {
    c.(state := c.state.(ungrouped := c.state.ungrouped + errors))
  }

  /** The context `withErrors(groupName, errors)` returns: every message added under the group. */
  function ContextWithGroupedErrors(c: ValidationContext, groupName: string, errors: seq<ErrorMessage>): (r: ValidationContext)
    ensures r.group == c.group && r.derivation == c.derivation
  {
    c.(state := c.state.(grouped := c.state.grouped + Singletons(Group(groupName), errors)))
  }

  /**
   * `withRule(value, rule)`: the rule's messages are added ungrouped when it accepts the value;
   * the very same context comes back when it does not accept it or reports nothing.
   */
  function ContextWithRule<V>(c: ValidationContext, value: V, rule: Rule<V>): (r: ValidationContext)
    ensures r.group == c.group && r.derivation == c.derivation && r.state.grouped == c.state.grouped
    ensures r.state.ungrouped == c.state.ungrouped + (if rule.isAcceptableFor(value) then rule.check(value) else [])
    ensures r == c <==> !rule.isAcceptableFor(value) || rule.check(value) == []
  {
    if rule.isAcceptableFor(value) && rule.check(value) != [] then ContextWithErrors(c, rule.check(value))
    else c
  }

  /** `withRule(groupName, value, rule)`: as `withRule`, with the messages added under the group. */
  function ContextWithGroupedRule<V>(c: ValidationContext, groupName: string, value: V, rule: Rule<V>): (r: ValidationContext)
    ensures r.group == c.group && r.derivation == c.derivation && r.state.ungrouped == c.state.ungrouped
    ensures r.state.grouped ==
            c.state.grouped + Singletons(Group(groupName), if rule.isAcceptableFor(value) then rule.check(value) else [])
    ensures r == c <==> !rule.isAcceptableFor(value) || rule.check(value) == []
  {
    if rule.isAcceptableFor(value) && rule.check(value) != [] then ContextWithGroupedErrors(c, groupName, rule.check(value))
    else
      assert Singletons(Group(groupName), []) == [];
      c
  }

  /**
   * The private `validate(group, validatable, policy)`: the validatable runs on a fresh context of that
   * group and policy, and the sub-context's derived state is merged into this context's state.
   */
  function ValidateNested<V>(c: ValidationContext, group: ValidationGroup, target: Validatable<V>,
                             policy: DerivationPolicy): (r: ValidationContext)
    ensures r.group == c.group && r.derivation == c.derivation
    decreases target, 3
  {
    c.(state := Merge(c.state, Run(FreshContext(group, policy), target).GetState()))
  }

  /** The state collection validation merges in: each validatable element's derived state, in order. */
  function CollectionState<V>(groupName: string, elements: seq<Element<V>>): ValidationState
    decreases elements, 1
  {
    if elements == [] then EMPTY_STATE
    else
      var n := |elements| - 1;
      Merge(CollectionState(groupName, elements[..n]), ElementState(groupName, n, elements[n], elements))
  }

  /** What element `index` of a collection contributes: nothing when it is not validatable. */
  function ElementState<V>(groupName: string, index: nat, e: Element<V>, elements: seq<Element<V>>): ValidationState
    requires e in elements
    decreases elements, 0
  {
    match e
    case OtherObject => EMPTY_STATE
    case ValidatableObject(t) =>
      assert t < e;
      Run(FreshContext(IndexedGroup(groupName, index), DeriveState), t).GetState()
  }

  /** The context `validate(groupName, collection)` returns. */
  function ContextWithCollection<V>(c: ValidationContext, groupName: string, elements: seq<Element<V>>): (r: ValidationContext)
    ensures r.group == c.group && r.derivation == c.derivation
    decreases elements, 2
  {
    c.(state := Merge(c.state, CollectionState(groupName, elements)))
  }

  /** `validatable.validate(c)`: the validatable's operations applied to `c` in order. */
  function Run<V>(c: ValidationContext, v: Validatable<V>): (r: ValidationContext)
    ensures r.group == c.group && r.derivation == c.derivation
    decreases v, 2
  {
    RunSteps(c, v.steps, 0)
  }

  function RunSteps<V>(c: ValidationContext, steps: seq<Step<V>>, k: nat): (r: ValidationContext)
    ensures r.group == c.group && r.derivation == c.derivation
    decreases steps, |steps| - k
  {
    if k >= |steps| then c else RunSteps(RunStep(c, steps[k]), steps, k + 1)
  }

  function RunStep<V>(c: ValidationContext, s: Step<V>): (r: ValidationContext)
    ensures r.group == c.group && r.derivation == c.derivation
    decreases s
  {
    match s
    case WithErrorsStep(es) => ContextWithErrors(c, es)
    case WithGroupedErrorsStep(n, es) => ContextWithGroupedErrors(c, n, es)
    case WithRuleStep(x, rule) => ContextWithRule(c, x, rule)
    case WithGroupedRuleStep(n, x, rule) => ContextWithGroupedRule(c, n, x, rule)
    case ValidateStep(n, t, p) => ValidateNested(c, GroupOf(n), t, p.GetOr(DeriveState))
    case ValidateCollectionStep(n, es) => ContextWithCollection(c, n, es)
  }

  /**
   * The validation service: a `Validatable` object runs on a default context and its derived state
   * is returned; any other object yields an empty state.
   */
  function ServiceValidate<V>(x: Element<V>): (r: ValidationState)
    ensures x.OtherObject? ==> r == EMPTY_STATE && IsValid(r)
  {
    match x
    case OtherObject => EMPTY_STATE
    case ValidatableObject(t) => Run(DEFAULT_CONTEXT, t).GetState()
  }

  // ---------------------------------------------------------------------------------------------
  // The two loops of `ValidationContext`, proved against the functions above

  /** `withErrors(errors)`: the loop folding `withUngrouped` over the messages. */
  method WithErrors(c: ValidationContext, errors: seq<ErrorMessage>) returns (r: ValidationContext)
    ensures r == ContextWithErrors(c, errors)
    ensures r.state.ungrouped == c.state.ungrouped + errors && r.state.grouped == c.state.grouped
  {
    var resultState := c.state;
    var i := 0;
    while i < |errors|
      invariant 0 <= i <= |errors|
      invariant resultState == ValidationState(c.state.ungrouped + errors[..i], c.state.grouped)
    {
      assert errors[..i + 1] == errors[..i] + [errors[i]];
      resultState := WithUngrouped(resultState, errors[i]);
      i := i + 1;
    }
    assert errors[..i] == errors;
    r := ValidationContext(c.group, c.derivation, resultState);
  }

  /** `withErrors(groupName, errors)`: the loop folding `withGrouped` over the messages. */
  method WithGroupedErrors(c: ValidationContext, groupName: string, errors: seq<ErrorMessage>)
    returns (r: ValidationContext)
    ensures r == ContextWithGroupedErrors(c, groupName, errors)
    ensures r.state.ungrouped == c.state.ungrouped
    ensures forall g :: Lookup(r.state.grouped, g) ==
                        Lookup(c.state.grouped, g) + (if g == Group(groupName) then set e | e in errors else {})
  {
    var group := Group(groupName);
    var resultState := c.state;
    var i := 0;
    while i < |errors|
      invariant 0 <= i <= |errors|
      invariant resultState == ValidationState(c.state.ungrouped, c.state.grouped + Singletons(group, errors[..i]))
    {
      assert Singletons(group, errors[..i + 1]) == Singletons(group, errors[..i]) + [GroupedError(group, {errors[i]})];
      resultState := WithGrouped(resultState, group, errors[i]);
      i := i + 1;
    }
    assert errors[..i] == errors;
    r := ValidationContext(c.group, c.derivation, resultState);
    forall g ensures Lookup(r.state.grouped, g) ==
                     Lookup(c.state.grouped, g) + (if g == group then set e | e in errors else {}) {
      LookupAppend(c.state.grouped, Singletons(group, errors), g);
      LookupSingletons(group, errors, g);
    }
  }

  /** `validate(groupName, collection)`: the loop over the elements with a running index. */
  method ValidateCollection<V>(c: ValidationContext, groupName: string, elements: seq<Element<V>>)
    returns (r: ValidationContext)
    ensures r == ContextWithCollection(c, groupName, elements)
  {
    var index := 0;
    var context := c;
    while index < |elements|
      invariant 0 <= index <= |elements|
      invariant context == c.(state := Merge(c.state, CollectionState(groupName, elements[..index])))
    {
      var value := elements[index];
      assert elements[..index + 1][..index] == elements[..index];
      assert elements[..index + 1][index] == value;
      ghost var contribution := ElementState(groupName, index, value, elements[..index + 1]);
      assert CollectionState(groupName, elements[..index + 1]) ==
             Merge(CollectionState(groupName, elements[..index]), contribution);
      if value.ValidatableObject? {
        context := ValidateNested(context, IndexedGroup(groupName, index), value.target, DeriveState);
      } else {
        assert contribution == EMPTY_STATE;
        MergeEmpty(context.state);
      }
      MergeAssociative(c.state, CollectionState(groupName, elements[..index]), contribution);
      index := index + 1;
    }
    assert elements[..index] == elements;
    r := context;
  }

  // ---------------------------------------------------------------------------------------------
  // Properties

  /** Merging is associative, so successive merges can be grouped either way. */
  lemma MergeAssociative(a: ValidationState, b: ValidationState, c: ValidationState)
    ensures Merge(Merge(a, b), c) == Merge(a, Merge(b, c))
  {
    assert a.ungrouped + b.ungrouped + c.ungrouped == a.ungrouped + (b.ungrouped + c.ungrouped);
    assert a.grouped + b.grouped + c.grouped == a.grouped + (b.grouped + c.grouped);
  }

  /** The singleton entries of `g` record exactly the given messages under `g` and nothing elsewhere. */
  lemma {:induction false} LookupSingletons(g: ValidationGroup, errors: seq<ErrorMessage>, h: ValidationGroup)
    ensures Lookup(Singletons(g, errors), h) == (if h == g then set e | e in errors else {})
  {
    if errors != [] {
      var init := errors[..|errors| - 1];
      assert Singletons(g, errors)[..|errors| - 1] == Singletons(g, init);
      LookupSingletons(g, init, h);
      assert errors == init + [errors[|errors| - 1]];
    }
  }

  /** `withErrors(errors)` adds the messages ungrouped, in order, and touches no group. */
  lemma WithErrorsEffect(c: ValidationContext, errors: seq<ErrorMessage>, g: ValidationGroup)
    ensures ContextWithErrors(c, errors).state.ungrouped == c.state.ungrouped + errors
    ensures Lookup(ContextWithErrors(c, errors).state.grouped, g) == Lookup(c.state.grouped, g)
    ensures errors == [] ==> ContextWithErrors(c, errors) == c
    ensures errors != [] ==> !IsValid(ContextWithErrors(c, errors).state)
  {
    assert c.state.ungrouped + [] == c.state.ungrouped;
  }

  /**
   * `withErrors(groupName, errors)` leaves the ungrouped messages alone, adds the messages to the group
   * and to no other one, and with no messages returns an equal context.
   */
  lemma WithGroupedErrorsEffect(c: ValidationContext, groupName: string, errors: seq<ErrorMessage>, g: ValidationGroup)
    ensures ContextWithGroupedErrors(c, groupName, errors).state.ungrouped == c.state.ungrouped
    ensures Lookup(ContextWithGroupedErrors(c, groupName, errors).state.grouped, g) ==
            Lookup(c.state.grouped, g) + (if g == Group(groupName) then set e | e in errors else {})
    ensures errors == [] ==> ContextWithGroupedErrors(c, groupName, errors) == c
  {
    LookupAppend(c.state.grouped, Singletons(Group(groupName), errors), g);
    LookupSingletons(Group(groupName), errors, g);
    if errors == [] {
      assert Singletons(Group(groupName), errors) == [];
      assert c.state.grouped + [] == c.state.grouped;
    }
  }

  /** Nested validation adds the sub-context's derived state to this context's state. */
  lemma ValidateNestedEffect<V>(c: ValidationContext, group: ValidationGroup, target: Validatable<V>,
                                policy: DerivationPolicy, g: ValidationGroup)
    ensures ValidateNested(c, group, target, policy).state.ungrouped ==
            c.state.ungrouped + Run(FreshContext(group, policy), target).GetState().ungrouped
    ensures Lookup(ValidateNested(c, group, target, policy).state.grouped, g) ==
            Lookup(c.state.grouped, g) + Lookup(Run(FreshContext(group, policy), target).GetState().grouped, g)
  {
    MergeEffect(c.state, Run(FreshContext(group, policy), target).GetState(), g);
  }

  /**
   * Under the default policy of the overloads (DERIVE_STATE) a nested object reports nothing
   * ungrouped: its ungrouped messages land in its group, and its groups move below that group.
   */
  lemma DeriveStateNesting<V>(c: ValidationContext, group: ValidationGroup, target: Validatable<V>, g: ValidationGroup)
    ensures ValidateNested(c, group, target, DeriveState).state.ungrouped == c.state.ungrouped
    ensures Lookup(ValidateNested(c, group, target, DeriveState).state.grouped, group) ==
            Lookup(c.state.grouped, group)
            + (set e | e in Run(FreshContext(group, DeriveState), target).state.ungrouped)
            + Lookup(Run(FreshContext(group, DeriveState), target).state.grouped, Ungrouped)
    ensures g != Ungrouped ==>
            Lookup(ValidateNested(c, group, target, DeriveState).state.grouped, group.DeriveWith(g)) ==
            Lookup(c.state.grouped, group.DeriveWith(g))
            + Lookup(Run(FreshContext(group, DeriveState), target).state.grouped, g)
  {
    var sub := Run(FreshContext(group, DeriveState), target);
    ValidateNestedEffect(c, group, target, DeriveState, group);
    ValidateNestedEffect(c, group, target, DeriveState, group.DeriveWith(g));
    AsSubgroupEffect(sub.state, group, g);
    assert c.state.ungrouped + [] == c.state.ungrouped;
  }

  /** Under DERIVE_GROUPES the nested object's ungrouped messages stay ungrouped, after this context's. */
  lemma DeriveGroupesNesting<V>(c: ValidationContext, group: ValidationGroup, target: Validatable<V>, g: ValidationGroup)
    ensures ValidateNested(c, group, target, DeriveGroupes).state.ungrouped ==
            c.state.ungrouped + Run(FreshContext(group, DeriveGroupes), target).state.ungrouped
    ensures Lookup(ValidateNested(c, group, target, DeriveGroupes).state.grouped, group.DeriveWith(g)) ==
            Lookup(c.state.grouped, group.DeriveWith(g))
            + Lookup(Run(FreshContext(group, DeriveGroupes), target).state.grouped, g)
  {
    var sub := Run(FreshContext(group, DeriveGroupes), target);
    ValidateNestedEffect(c, group, target, DeriveGroupes, group.DeriveWith(g));
    AsDerivedFromEffect(sub.state, group, g);
  }

  /**
   * The overloads: without a group name the group is UNGROUPED, with one it is `createFor(name)`;
   * without a policy it is DERIVE_STATE.
   */
  lemma ValidateOverloads<V>(c: ValidationContext, name: string, target: Validatable<V>, policy: DerivationPolicy)
    ensures RunStep(c, ValidateStep(None, target, None)) == ValidateNested(c, Ungrouped, target, DeriveState)
    ensures RunStep(c, ValidateStep(None, target, Some(policy))) == ValidateNested(c, Ungrouped, target, policy)
    ensures RunStep(c, ValidateStep(Some(name), target, None)) == ValidateNested(c, Group(name), target, DeriveState)
    ensures RunStep(c, ValidateStep(Some(name), target, Some(policy))) == ValidateNested(c, Group(name), target, policy)
  {
  }

  /** The default context reports its state unchanged: deriving from UNGROUPED moves nothing. */
  lemma DefaultContextReportsAll(s: ValidationState, g: ValidationGroup)
    ensures DEFAULT_CONTEXT.(state := s).GetState().ungrouped == s.ungrouped
    ensures Lookup(DEFAULT_CONTEXT.(state := s).GetState().grouped, g) == Lookup(s.grouped, g)
  {
    AsDerivedFromUngrouped(s, g);
  }

  /** The service reports exactly what a validatable object records on a default context. */
  lemma ServiceValidateReportsAll<V>(t: Validatable<V>, g: ValidationGroup)
    ensures ServiceValidate(ValidatableObject(t)).ungrouped == Run(DEFAULT_CONTEXT, t).state.ungrouped
    ensures Lookup(ServiceValidate(ValidatableObject(t)).grouped, g) == Lookup(Run(DEFAULT_CONTEXT, t).state.grouped, g)
  {
    var r := Run(DEFAULT_CONTEXT, t);
    DefaultContextReportsAll(r.state, g);
    assert r == DEFAULT_CONTEXT.(state := r.state);
  }

  /** Collection indices are rendered in decimal: element `i` of `name` is reported as `name.[i]`. */
  lemma IndexedGroupName(groupName: string, index: nat)
    ensures IndexedGroup(groupName, index) == Group(groupName + ".[" + NatText(index) + "]")
    ensures IndexedGroup("collection", 1).Name() == "collection.[1]"
  {
  }

  /** Different elements of one collection are reported under different groups. */
  lemma IndexedGroupsDistinct(groupName: string, i: nat, j: nat)
    requires i != j
    ensures IndexedGroup(groupName, i) != IndexedGroup(groupName, j)
  {
    NatTextInjective(i, j);
    var a := "[" + NatText(i) + "]";
    var b := "[" + NatText(j) + "]";
    assert a[1..|a| - 1] == NatText(i);
    assert b[1..|b| - 1] == NatText(j);
    DeriveWithInjectiveLocal(groupName, a, b);
  }

  lemma DeriveWithInjectiveLocal(base: string, a: string, b: string)
    requires a != b
    ensures Group(base).DeriveWith(Group(a)) != Group(base).DeriveWith(Group(b))
  {
    if Group(base).DeriveWith(Group(a)) == Group(base).DeriveWith(Group(b)) {
      DeriveWithInjective(Group(base), Group(a), Group(b));
    }
  }

  /** Collection validation reports nothing ungrouped: every element is validated under DERIVE_STATE. */
  lemma {:induction false} CollectionStateUngrouped<V>(groupName: string, elements: seq<Element<V>>)
    ensures CollectionState(groupName, elements).ungrouped == []
  {
    if elements != [] {
      var n := |elements| - 1;
      CollectionStateUngrouped(groupName, elements[..n]);
    }
  }

  /**
   * Every message a validatable element records ungrouped is reported under that element's indexed
   * group `name.[i]`.
   */
  lemma {:induction false} CollectionElementReported<V>(groupName: string, elements: seq<Element<V>>, i: nat, e: ErrorMessage)
    requires i < |elements| && elements[i].ValidatableObject?
    requires e in Run(FreshContext(IndexedGroup(groupName, i), DeriveState), elements[i].target).state.ungrouped
    ensures e in Lookup(CollectionState(groupName, elements).grouped, IndexedGroup(groupName, i))
  {
    var n := |elements| - 1;
    var g := IndexedGroup(groupName, i);
    CollectionLookupSplit(groupName, elements, g);
    if i < n {
      assert elements[..n][i] == elements[i];
      CollectionElementReported(groupName, elements[..n], i, e);
      assert e in Lookup(CollectionState(groupName, elements[..n]).grouped, g);
    } else {
      LastElementReported(groupName, elements, i, e);
      assert e in Lookup(ElementState(groupName, n, elements[n], elements).grouped, g);
    }
  }

  /** A lookup in a collection's state unites the lookups in its first elements' state and in its last element's. */
  lemma CollectionLookupSplit<V>(groupName: string, elements: seq<Element<V>>, g: ValidationGroup)
    requires elements != []
    ensures Lookup(CollectionState(groupName, elements).grouped, g) ==
            Lookup(CollectionState(groupName, elements[..|elements| - 1]).grouped, g) +
            Lookup(ElementState(groupName, |elements| - 1, elements[|elements| - 1], elements).grouped, g)
  {
    var n := |elements| - 1;
    var prefix := CollectionState(groupName, elements[..n]);
    var contribution := ElementState(groupName, n, elements[n], elements);
    assert CollectionState(groupName, elements).grouped == prefix.grouped + contribution.grouped;
    LookupAppend(prefix.grouped, contribution.grouped, g);
  }

  /** The last element's ungrouped messages are reported under its indexed group. */
  lemma LastElementReported<V>(groupName: string, elements: seq<Element<V>>, i: nat, e: ErrorMessage)
    requires i == |elements| - 1 && elements[i].ValidatableObject?
    requires e in Run(FreshContext(IndexedGroup(groupName, i), DeriveState), elements[i].target).state.ungrouped
    ensures e in Lookup(ElementState(groupName, i, elements[i], elements).grouped, IndexedGroup(groupName, i))
  {
    var g := IndexedGroup(groupName, i);
    var sub := Run(FreshContext(g, DeriveState), elements[i].target);
    assert ElementState(groupName, i, elements[i], elements) == AsSubgroup(sub.state, g);
    AsSubgroupBase(sub.state, g);
  }
}
