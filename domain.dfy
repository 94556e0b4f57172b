// Validated domain identifiers: bounded context ids and event types.

module Domain {
  import opened Wrappers
  import opened JavaObjects

  predicate IsAsciiLetterOrDigit(c: char) {
    'a' <= c <= 'z' || 'A' <= c <= 'Z' || '0' <= c <= '9'
  }

  /** One character of the context name pattern [a-zA-Z0-9-_]. */
  predicate IsContextNameChar(c: char) {
    IsAsciiLetterOrDigit(c) || c == '-' || c == '_'
  }

  /** The whole name matches [a-zA-Z0-9-_]+. */
  predicate IsWellFormedContextName(s: string) {
    |s| > 0 && forall i :: 0 <= i < |s| ==> IsContextNameChar(s[i])
  }

  const PLATFORM_CONTEXT_NAME := "PLATFORM"

  /** A bounded context identifier; two ids are equal when their strings are. */
  datatype BoundedContextId = BoundedContextId(contextId: string) {
    function ToString(): (r: string)
      ensures BoundedContextId(r) == this
    {
      contextId
    }
  }

  /** The reserved platform context. */
  const PLATFORM_CONTEXT := BoundedContextId(PLATFORM_CONTEXT_NAME)

  datatype ContextIdError = WrongBoundedContextIdFormat(contextIdName: string) {
    /** The exception's message: the rejected name, quoted. */
    function Message(): (r: string)
      ensures |r| == |contextIdName| + 47
      ensures r[..14] == "Context name \"" && r[14..14 + |contextIdName|] == contextIdName
    {
      "Context name \"" + contextIdName + "\" has wrong format or is reserved"
    }
  }

  /** Different rejected names are reported with different messages. */
  lemma ContextIdMessageInjective(a: string, b: string)
    requires a != b
    ensures WrongBoundedContextIdFormat(a).Message() != WrongBoundedContextIdFormat(b).Message()
  {
  }

  /**
   * The id of a well-formed, unreserved name.  The format is checked first;
   * a well-formed "PLATFORM" is refused as reserved.
   */
  function CreateContextId(contextName: string): (r: Result<BoundedContextId, ContextIdError>)
    ensures r.Success? <==> IsWellFormedContextName(contextName) && contextName != PLATFORM_CONTEXT_NAME
    ensures r.Success? ==> r.value.ToString() == contextName
    ensures r.Failure? ==> r.error == WrongBoundedContextIdFormat(contextName)
  {
    if !IsWellFormedContextName(contextName) then Failure(WrongBoundedContextIdFormat(contextName))
    else
      var id := BoundedContextId(contextName);
      if id == PLATFORM_CONTEXT then Failure(WrongBoundedContextIdFormat(PLATFORM_CONTEXT.ToString()))
      else Success(id)
  }

  /** An id that `CreateContextId` can give, or the platform context. */
  predicate IsValidContextId(id: BoundedContextId) {
    IsWellFormedContextName(id.contextId)
  }

  /** Creating and rendering are inverse: every created id renders as its name and nothing else does. */
  lemma ContextIdRoundTrip(contextName: string, id: BoundedContextId)
    ensures CreateContextId(contextName) == Success(id) <==>
            id.ToString() == contextName && IsValidContextId(id) && id != PLATFORM_CONTEXT
  {
  }

  /** Every created id, and the platform id, satisfies the format. */
  lemma CreatedIdsAreValid(contextName: string)
    ensures CreateContextId(contextName).Success? ==> IsValidContextId(CreateContextId(contextName).value)
    ensures IsValidContextId(PLATFORM_CONTEXT)
  {
    assert IsContextNameChar(PLATFORM_CONTEXT_NAME[0]);
  }

  /** A dot is outside the pattern, so a dotted name is refused. */
  lemma DottedNameRejected(prefix: string, suffix: string)
    ensures CreateContextId(prefix + "." + suffix) == Failure(WrongBoundedContextIdFormat(prefix + "." + suffix))
  {
    assert (prefix + "." + suffix)[|prefix|] == '.';
  }

  /** "PLATFORM" is well formed but reserved; the platform id renders as "PLATFORM". */
  lemma PlatformIsReserved()
    ensures IsWellFormedContextName(PLATFORM_CONTEXT_NAME)
    ensures CreateContextId(PLATFORM_CONTEXT_NAME) == Failure(WrongBoundedContextIdFormat("PLATFORM"))
    ensures PLATFORM_CONTEXT.ToString() == "PLATFORM"
  {
    assert forall i :: 0 <= i < |PLATFORM_CONTEXT_NAME| ==> 'A' <= PLATFORM_CONTEXT_NAME[i] <= 'Z';
  }

  /** One character of the event type pattern [a-zA-Z0-9-_.]. */
  predicate IsEventTypeNameChar(c: char) {
    IsAsciiLetterOrDigit(c) || c == '-' || c == '_' || c == '.'
  }

  predicate IsWellFormedEventTypeName(s: string) {
    |s| > 0 && forall i :: 0 <= i < |s| ==> IsEventTypeNameChar(s[i])
  }

  /** An event type: a name and the event class; equality looks at the name only. */
  datatype EventType = EventType(typeName: string, eventClass: string) {
    function Extract(): (r: string)
      ensures r == typeName
    {
      typeName
    }

    /** The equality of event types: the names agree, whatever the classes. */
    predicate Equals(other: EventType) {
      typeName == other.typeName
    }

    /** Whether an object is an instance of the event class. */
    predicate IsAccepts(event: Obj) {
      IsInstance(event, eventClass)
    }

    /** The name followed by the class name in brackets. */
    function ToString(): (r: string)
      ensures r == typeName + "[" + eventClass + "]"
    {
      typeName + "[" + eventClass + "]"
    }
  }

  datatype EventTypeError = WrongEventTypeFormat(value: string)

  /** The event type of a well-formed name and an event class. */
  function CreateEventTypeOf(typeName: string, eventClass: string): (r: Result<EventType, EventTypeError>)
    ensures r.Success? <==> IsWellFormedEventTypeName(typeName)
    ensures r.Success? ==> r.value.Extract() == typeName && r.value.eventClass == eventClass
    ensures r.Failure? ==> r.error == WrongEventTypeFormat(typeName)
  {
    if IsWellFormedEventTypeName(typeName) then Success(EventType(typeName, eventClass))
    else Failure(WrongEventTypeFormat(typeName))
  }

  /** The event type of a well-formed name, for events of any class. */
  function CreateEventType(typeName: string): (r: Result<EventType, EventTypeError>)
    ensures r == CreateEventTypeOf(typeName, OBJECT_CLASS)
    ensures r.Success? ==> forall e :: r.value.IsAccepts(e)
  {
    CreateEventTypeOf(typeName, OBJECT_CLASS)
  }

  /** Two event types made from the same name are equal, whatever their classes. */
  lemma EventTypeEqualityIgnoresClass(typeName: string, a: string, b: string)
    requires IsWellFormedEventTypeName(typeName)
    ensures CreateEventTypeOf(typeName, a).value.Equals(CreateEventTypeOf(typeName, b).value)
    ensures a != b ==> CreateEventTypeOf(typeName, a) != CreateEventTypeOf(typeName, b)
  {
  }

  /** The name can be read back from the rendering: it is everything before the first bracket. */
  lemma {:induction false} EventTypeNameFromText(t: EventType, i: nat)
    requires IsWellFormedEventTypeName(t.typeName)
    requires i <= |t.ToString()| && (forall j :: 0 <= j < i ==> t.ToString()[j] != '[')
    requires i < |t.ToString()| && t.ToString()[i] == '['
    ensures i == |t.typeName| && t.ToString()[..i] == t.Extract()
  {
    var r := t.ToString();
    assert forall j :: 0 <= j < |t.typeName| ==> r[j] == t.typeName[j] && IsEventTypeNameChar(r[j]);
    assert r[|t.typeName|] == '[';
    assert r[..|t.typeName|] == t.typeName;
  }

  /** The default event type of "EVENT_TYPE" renders with java.lang.Object. */
  lemma EventTypeRendering()
    ensures CreateEventType("EVENT_TYPE").Success?
    ensures CreateEventType("EVENT_TYPE").value.Extract() == "EVENT_TYPE"
    ensures CreateEventType("EVENT_TYPE").value.ToString() == "EVENT_TYPE[java.lang.Object]"
  {
    assert IsWellFormedEventTypeName("EVENT_TYPE") by {
      assert forall i :: 0 <= i < |"EVENT_TYPE"| ==> IsEventTypeNameChar("EVENT_TYPE"[i]);
    }
  }

  /** Spaces and exclamation marks are outside the pattern. */
  lemma BadEventTypeNameRejected()
    ensures CreateEventType("Bad formatted event type!!!!!!!!").Failure?
  {
    assert !IsEventTypeNameChar("Bad formatted event type!!!!!!!!"[3]);
  }
}
