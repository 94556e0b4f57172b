/**
 * Error messages, validation groups and the validation state that a validation context
 * accumulates. ValidationState and ValidationGroup are modelled from what their tests state:
 * a state holds ungrouped messages in order and a collection of grouped errors, each a group
 * with its messages; the messages of one group are the union over its entries.
 */
module ValidationStates {

  datatype ErrorMessage = ErrorMessage(text: string)

  /** The text of the reserved group of ungrouped messages. */
  const UNGROUPED_NAME: string := "$$__UNGROUPED_MESSAGES__$$"

  datatype ValidationGroup = Ungrouped | Group(name: string) {

    /** `toString`: the group's name, or the reserved text for the ungrouped group. */
    function Name(): string {
      match this
      case Ungrouped => UNGROUPED_NAME
      case Group(n) => n
    }

    /** `deriveWith`: the dot-joined child group; the ungrouped group is the identity on both sides. */
    function DeriveWith(sub: ValidationGroup): (r: ValidationGroup)
      ensures this == Ungrouped ==> r == sub
      ensures sub == Ungrouped ==> r == this
      ensures this.Group? && sub.Group? ==> r == Group(this.name + "." + sub.name)
    {
      if this == Ungrouped then sub
      else if sub == Ungrouped then this
      else Group(name + "." + sub.name)
    }
  }

  /** One entry of the grouped part of a state. */
  datatype GroupedError = GroupedError(group: ValidationGroup, messages: set<ErrorMessage>)

  datatype ValidationState = ValidationState(ungrouped: seq<ErrorMessage>, grouped: seq<GroupedError>)

  /** `new ValidationState()`. */
  const EMPTY_STATE := ValidationState([], [])

  /** The messages recorded under group `g`: the union over every entry of that group. */
  function Lookup(grouped: seq<GroupedError>, g: ValidationGroup): set<ErrorMessage> {
    if grouped == [] then {}
    else Lookup(grouped[..|grouped| - 1], g)
         + (if grouped[|grouped| - 1].group == g then grouped[|grouped| - 1].messages else {})
  }

  /** `isValid`: no message is recorded anywhere. */
  predicate IsValid(s: ValidationState) {
    s.ungrouped == [] && forall i :: 0 <= i < |s.grouped| ==> s.grouped[i].messages == {}
  }

  function WithUngrouped(s: ValidationState, e: ErrorMessage): ValidationState {
    s.(ungrouped := s.ungrouped + [e])
  }

  function WithGrouped(s: ValidationState, g: ValidationGroup, e: ErrorMessage): ValidationState {
    s.(grouped := s.grouped + [GroupedError(g, {e})])
  }

  /** `merge`: the messages of both states, the receiver's first. */
  function Merge(s: ValidationState, t: ValidationState): ValidationState {
    ValidationState(s.ungrouped + t.ungrouped, s.grouped + t.grouped)
  }

  /** Every entry moved under `base`, its group becoming `base.deriveWith(group)`. */
  function DeriveEntries(grouped: seq<GroupedError>, base: ValidationGroup): (r: seq<GroupedError>)
    ensures |r| == |grouped|
    ensures forall i :: 0 <= i < |r| ==>
      r[i] == GroupedError(base.DeriveWith(grouped[i].group), grouped[i].messages)
  {
    if grouped == [] then []
    else DeriveEntries(grouped[..|grouped| - 1], base)
         + [GroupedError(base.DeriveWith(grouped[|grouped| - 1].group), grouped[|grouped| - 1].messages)]
  }

  /** `asDerivedFrom`: grouped messages move under `base`; ungrouped ones stay ungrouped. */
  function AsDerivedFrom(s: ValidationState, base: ValidationGroup): ValidationState {
    ValidationState(s.ungrouped, DeriveEntries(s.grouped, base))
  }

  /** `asSubgroup`: grouped messages move under `base`, and ungrouped ones become messages of `base`. */
  function AsSubgroup(s: ValidationState, base: ValidationGroup): ValidationState {
    ValidationState([], (if s.ungrouped == [] then [] else [GroupedError(base, set e | e in s.ungrouped)])
                        + DeriveEntries(s.grouped, base))
  }

  // ---------------------------------------------------------------------------------------------
  // Properties

  /** Looking a group up in two collections placed one after the other unites the two lookups. */
  lemma {:induction false} LookupAppend(a: seq<GroupedError>, b: seq<GroupedError>, g: ValidationGroup)
    ensures Lookup(a + b, g) == Lookup(a, g) + Lookup(b, g)
  {
    if b != [] {
      var b' := b[..|b| - 1];
      assert (a + b)[..|a + b| - 1] == a + b';
      LookupAppend(a, b', g);
    } else {
      assert a + b == a;
    }
  }

  /** A message is recorded under `g` exactly when some entry of group `g` holds it. */
  lemma {:induction false} LookupMember(grouped: seq<GroupedError>, g: ValidationGroup, e: ErrorMessage)
    ensures e in Lookup(grouped, g) <==>
      exists i :: 0 <= i < |grouped| && grouped[i].group == g && e in grouped[i].messages
  {
    if grouped != [] {
      var init := grouped[..|grouped| - 1];
      LookupMember(init, g, e);
      if e in Lookup(init, g) {
        var i :| 0 <= i < |init| && init[i].group == g && e in init[i].messages;
        assert grouped[i] == init[i];
      }
      if exists i :: 0 <= i < |grouped| && grouped[i].group == g && e in grouped[i].messages {
        var i :| 0 <= i < |grouped| && grouped[i].group == g && e in grouped[i].messages;
        if i < |init| {
          assert init[i] == grouped[i];
        }
      }
    }
  }

  /** `withUngrouped` appends at the end of the ungrouped messages and touches no group. */
  lemma WithUngroupedEffect(s: ValidationState, e: ErrorMessage, g: ValidationGroup)
    ensures WithUngrouped(s, e).ungrouped == s.ungrouped + [e]
    ensures Lookup(WithUngrouped(s, e).grouped, g) == Lookup(s.grouped, g)
    ensures !IsValid(WithUngrouped(s, e))
  {
  }

  /** `withGrouped` adds the message to one group, leaves the others and the ungrouped part alone. */
  lemma WithGroupedEffect(s: ValidationState, g: ValidationGroup, e: ErrorMessage, h: ValidationGroup)
    ensures WithGrouped(s, g, e).ungrouped == s.ungrouped
    ensures Lookup(WithGrouped(s, g, e).grouped, h) == Lookup(s.grouped, h) + (if h == g then {e} else {})
    ensures !IsValid(WithGrouped(s, g, e))
  {
    var t := WithGrouped(s, g, e);
    assert t.grouped[..|t.grouped| - 1] == s.grouped;
    assert t.grouped[|t.grouped| - 1].messages == {e};
  }

  /** `merge` keeps the order of ungrouped messages and unites every group's messages. */
  lemma MergeEffect(s: ValidationState, t: ValidationState, g: ValidationGroup)
    ensures Merge(s, t).ungrouped == s.ungrouped + t.ungrouped
    ensures Lookup(Merge(s, t).grouped, g) == Lookup(s.grouped, g) + Lookup(t.grouped, g)
  {
    LookupAppend(s.grouped, t.grouped, g);
  }

  /** The empty state is valid, and merging it on either side changes nothing. */
  lemma MergeEmpty(s: ValidationState)
    ensures IsValid(EMPTY_STATE)
    ensures Merge(s, EMPTY_STATE) == s && Merge(EMPTY_STATE, s) == s
  {
    assert s.ungrouped + [] == s.ungrouped;
    assert s.grouped + [] == s.grouped;
  }

  /** Two valid states merge into a valid state, and merging anything invalid is invalid. */
  lemma MergeValidity(s: ValidationState, t: ValidationState)
    ensures IsValid(Merge(s, t)) <==> IsValid(s) && IsValid(t)
  {
    var m := Merge(s, t);
    if IsValid(s) && IsValid(t) {
      forall i | 0 <= i < |m.grouped| ensures m.grouped[i].messages == {} {
        if i >= |s.grouped| {
          assert m.grouped[i] == t.grouped[i - |s.grouped|];
        }
      }
    }
    if IsValid(m) {
      assert s.ungrouped == [] && t.ungrouped == [];
      forall i | 0 <= i < |s.grouped| ensures s.grouped[i].messages == {} {
        assert m.grouped[i] == s.grouped[i];
      }
      forall i | 0 <= i < |t.grouped| ensures t.grouped[i].messages == {} {
        assert m.grouped[|s.grouped| + i] == t.grouped[i];
      }
    }
  }

  /** For a fixed base, different groups derive to different groups. */
  lemma DeriveWithInjective(base: ValidationGroup, g: ValidationGroup, h: ValidationGroup)
    requires base.DeriveWith(g) == base.DeriveWith(h)
    ensures g == h
  {
    if base.Group? {
      if g.Group? {
        assert |base.DeriveWith(g).name| == |base.name| + 1 + |g.name|;
      }
      if h.Group? {
        assert |base.DeriveWith(h).name| == |base.name| + 1 + |h.name|;
      }
      if g.Group? && h.Group? {
        var a := base.name + ".";
        assert base.name + "." + g.name == a + g.name;
        assert base.name + "." + h.name == a + h.name;
        assert g.name == (a + g.name)[|a|..];
      }
    }
  }

  /** Deriving is associative: deriving twice is deriving once with the joined subgroup. */
  lemma DeriveWithAssociative(a: ValidationGroup, b: ValidationGroup, c: ValidationGroup)
    ensures a.DeriveWith(b).DeriveWith(c) == a.DeriveWith(b.DeriveWith(c))
  {
    if a.Group? && b.Group? && c.Group? {
      assert a.name + "." + b.name + "." + c.name == a.name + "." + (b.name + "." + c.name);
    }
  }

  /** After moving entries under `base`, the group `base.deriveWith(g)` holds exactly what `g` held. */
  lemma {:induction false} DeriveEntriesLookup(grouped: seq<GroupedError>, base: ValidationGroup, g: ValidationGroup)
    ensures Lookup(DeriveEntries(grouped, base), base.DeriveWith(g)) == Lookup(grouped, g)
  {
    if grouped != [] {
      var init := grouped[..|grouped| - 1];
      var d := DeriveEntries(grouped, base);
      assert d[..|d| - 1] == DeriveEntries(init, base);
      DeriveEntriesLookup(init, base, g);
      var last := grouped[|grouped| - 1];
      if base.DeriveWith(last.group) == base.DeriveWith(g) {
        DeriveWithInjective(base, last.group, g);
      }
    }
  }

  /** `asDerivedFrom` keeps the ungrouped messages and moves every group `g` to `base.deriveWith(g)`. */
  lemma AsDerivedFromEffect(s: ValidationState, base: ValidationGroup, g: ValidationGroup)
    ensures AsDerivedFrom(s, base).ungrouped == s.ungrouped
    ensures Lookup(AsDerivedFrom(s, base).grouped, base.DeriveWith(g)) == Lookup(s.grouped, g)
  {
    DeriveEntriesLookup(s.grouped, base, g);
  }

  /** Deriving from the ungrouped group changes nothing at all. */
  lemma DerivedFromUngroupedIsIdentity(s: ValidationState)
    ensures AsDerivedFrom(s, Ungrouped) == s
  {
    assert DeriveEntries(s.grouped, Ungrouped) == s.grouped;
  }

  /** Deriving from the ungrouped group changes nothing that can be observed. */
  lemma AsDerivedFromUngrouped(s: ValidationState, g: ValidationGroup)
    ensures AsDerivedFrom(s, Ungrouped).ungrouped == s.ungrouped
    ensures Lookup(AsDerivedFrom(s, Ungrouped).grouped, g) == Lookup(s.grouped, g)
  {
    DeriveEntriesLookup(s.grouped, Ungrouped, g);
  }

  /**
   * `asSubgroup` leaves nothing ungrouped: the ungrouped messages join the group `base`, and every
   * group `g` other than the ungrouped one moves to `base.deriveWith(g)`.
   */
  lemma AsSubgroupEffect(s: ValidationState, base: ValidationGroup, g: ValidationGroup)
    ensures AsSubgroup(s, base).ungrouped == []
    ensures Lookup(AsSubgroup(s, base).grouped, base) ==
            (set e | e in s.ungrouped) + Lookup(s.grouped, Ungrouped)
    ensures g != Ungrouped ==>
            Lookup(AsSubgroup(s, base).grouped, base.DeriveWith(g)) == Lookup(s.grouped, g)
  {
    AsSubgroupBase(s, base);
    if g != Ungrouped {
      AsSubgroupMoves(s, base, g);
    }
  }

  /** After `asSubgroup` the base group holds the old ungrouped messages and those of the old ungrouped entries. */
  lemma AsSubgroupBase(s: ValidationState, base: ValidationGroup)
    ensures Lookup(AsSubgroup(s, base).grouped, base) ==
            (set e | e in s.ungrouped) + Lookup(s.grouped, Ungrouped)
  {
    var head: seq<GroupedError> := if s.ungrouped == [] then [] else [GroupedError(base, set e | e in s.ungrouped)];
    var d := DeriveEntries(s.grouped, base);
    assert AsSubgroup(s, base).grouped == head + d;
    LookupAppend(head, d, base);
    DeriveEntriesLookup(s.grouped, base, Ungrouped);
    assert Lookup(head, base) == set e | e in s.ungrouped by {
      if s.ungrouped != [] {
        SingleLookup(GroupedError(base, set e | e in s.ungrouped), base);
      }
    }
  }

  /** A one-entry collection records that entry's messages under its own group and nothing else. */
  lemma SingleLookup(x: GroupedError, g: ValidationGroup)
    ensures Lookup([x], g) == if x.group == g then x.messages else {}
  {
    assert [x][..0] == [];
  }

  /** After `asSubgroup` a named group's messages are found under the base's derived group. */
  lemma AsSubgroupMoves(s: ValidationState, base: ValidationGroup, g: ValidationGroup)
    requires g != Ungrouped
    ensures Lookup(AsSubgroup(s, base).grouped, base.DeriveWith(g)) == Lookup(s.grouped, g)
  {
    var head: seq<GroupedError> := if s.ungrouped == [] then [] else [GroupedError(base, set e | e in s.ungrouped)];
    var d := DeriveEntries(s.grouped, base);
    assert AsSubgroup(s, base).grouped == head + d;
    LookupAppend(head, d, base.DeriveWith(g));
    DeriveEntriesLookup(s.grouped, base, g);
    HeadMisses(head, base, g);
  }

  /** The entry that `asSubgroup` places first belongs to `base`, so no derived named group finds anything in it. */
  lemma HeadMisses(head: seq<GroupedError>, base: ValidationGroup, g: ValidationGroup)
    requires g != Ungrouped
    requires head == [] || (|head| == 1 && head[0].group == base)
    ensures Lookup(head, base.DeriveWith(g)) == {}
  {
    if head != [] {
      if base.DeriveWith(g) == base {
        DeriveWithInjective(base, g, Ungrouped);
      }
      assert head == [head[0]];
      SingleLookup(head[0], base.DeriveWith(g));
    }
  }
}
