/**
 * The test helper that extracts the messages of one group, by name, from the grouped part of a
 * validation state.
 */
module GroupedErrorsExtraction {
  import opened ValidationStates

  /** The messages of every entry whose group is named `groupName`. */
  function ErrorsNamed(grouped: seq<GroupedError>, groupName: string): set<ErrorMessage> {
    if grouped == [] then {}
    else ErrorsNamed(grouped[..|grouped| - 1], groupName)
         + (if grouped[|grouped| - 1].group.Name() == groupName then grouped[|grouped| - 1].messages else {})
  }

  /** `getErrors`: the loop collecting into a set the messages of the matching entries. */
  method GetErrors(groupName: string, grouped: seq<GroupedError>) returns (errorMessages: set<ErrorMessage>)
    ensures errorMessages == ErrorsNamed(grouped, groupName)
    ensures forall e :: e in errorMessages <==>
      exists i :: 0 <= i < |grouped| && grouped[i].group.Name() == groupName && e in grouped[i].messages
  {
    errorMessages := {};
    var i := 0;
    while i < |grouped|
      invariant 0 <= i <= |grouped|
      invariant errorMessages == ErrorsNamed(grouped[..i], groupName)
    {
      assert grouped[..i + 1][..i] == grouped[..i];
      if groupName == grouped[i].group.Name() {
        errorMessages := errorMessages + grouped[i].messages;
      }
      i := i + 1;
    }
    assert grouped[..i] == grouped;
    forall e ensures e in errorMessages <==>
      exists i :: 0 <= i < |grouped| && grouped[i].group.Name() == groupName && e in grouped[i].messages {
      ErrorsNamedMember(grouped, groupName, e);
    }
  }

  /** `errorsOf(groupName, state)`: the same extraction, leaving the state as it was. */
  method ErrorsOf(groupName: string, grouped: seq<GroupedError>) returns (r: set<ErrorMessage>)
    ensures r == ErrorsNamed(grouped, groupName)
  {
    r := GetErrors(groupName, grouped);
  }

  lemma {:induction false} ErrorsNamedMember(grouped: seq<GroupedError>, groupName: string, e: ErrorMessage)
    ensures e in ErrorsNamed(grouped, groupName) <==>
      exists i :: 0 <= i < |grouped| && grouped[i].group.Name() == groupName && e in grouped[i].messages
  {
    if grouped != [] {
      var init := grouped[..|grouped| - 1];
      ErrorsNamedMember(init, groupName, e);
      if e in ErrorsNamed(init, groupName) {
        var i :| 0 <= i < |init| && init[i].group.Name() == groupName && e in init[i].messages;
        assert grouped[i] == init[i];
      }
      if exists i :: 0 <= i < |grouped| && grouped[i].group.Name() == groupName && e in grouped[i].messages {
        var i :| 0 <= i < |grouped| && grouped[i].group.Name() == groupName && e in grouped[i].messages;
        if i < |init| {
          assert init[i] == grouped[i];
        }
      }
    }
  }

  /**
   * For any name other than the reserved one, extracting by name gives exactly the messages
   * recorded under the group of that name.
   */
  lemma {:induction false} ErrorsNamedIsLookup(grouped: seq<GroupedError>, groupName: string)
    requires groupName != UNGROUPED_NAME
    ensures ErrorsNamed(grouped, groupName) == Lookup(grouped, Group(groupName))
  {
    if grouped != [] {
      ErrorsNamedIsLookup(grouped[..|grouped| - 1], groupName);
    }
  }

  /** No entry of that name gives an empty result. */
  lemma NoMatchingGroup(grouped: seq<GroupedError>, groupName: string)
    requires forall i :: 0 <= i < |grouped| ==> grouped[i].group.Name() != groupName
    ensures ErrorsNamed(grouped, groupName) == {}
  {
    if ErrorsNamed(grouped, groupName) != {} {
      var e :| e in ErrorsNamed(grouped, groupName);
      ErrorsNamedMember(grouped, groupName, e);
    }
  }
}
