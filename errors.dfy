// Error descriptors: a bounded context, a numeric code, a severity and a
// details map.  The stub descriptor adds details copy-on-write, the
// unexpected-error wrapper picks its context by a type test, and the error
// template names a message text after the context and the code.

module ErrorDescriptors {
  import opened Decimal
  import opened Domain
  import opened JavaObjects

  /** An error code; it renders as its decimal number. */
  datatype ErrorCode = ErrorCode(value: int) {
    function ToString(): (r: string)
      ensures r == IntText(value)
    {
      IntText(value)
    }
  }

  /** The code of every unexpected error; its number is not part of this model. */
  const UNRECOGNIZED_ERROR_CODE: ErrorCode

  datatype ErrorSeverity = Incident | Business

  datatype ErrorDescriptor = ErrorDescriptor(contextId: BoundedContextId, errorCode: ErrorCode,
                                             errorSeverity: ErrorSeverity, errorDetails: map<string, Obj>)
  {
    /** A new descriptor whose details map `key` to `value`; the receiver keeps its own details. */
    function WithDetailsParameter(key: string, value: Obj): (r: ErrorDescriptor)
      ensures key in r.errorDetails && r.errorDetails[key] == value
      ensures forall k :: k != key ==> (k in r.errorDetails <==> k in errorDetails)
      ensures forall k :: k != key && k in errorDetails ==> r.errorDetails[k] == errorDetails[k]
      ensures r.contextId == contextId && r.errorCode == errorCode && r.errorSeverity == errorSeverity
    {
      ErrorDescriptor(contextId, errorCode, errorSeverity, errorDetails[key := value])
    }
  }

  /** The stub descriptor of a context, code and severity, without details. */
  function StubErrorDescriptor(contextId: BoundedContextId, errorCode: ErrorCode,
                               errorSeverity: ErrorSeverity): (r: ErrorDescriptor)
    ensures r.contextId == contextId && r.errorCode == errorCode && r.errorSeverity == errorSeverity
    ensures |r.errorDetails| == 0
  {
    ErrorDescriptor(contextId, errorCode, errorSeverity, map[])
  }

  /** A later parameter under the same key overwrites the earlier one. */
  lemma DetailsParameterOverwrites(d: ErrorDescriptor, key: string, first: Obj, second: Obj)
    ensures d.WithDetailsParameter(key, first).WithDetailsParameter(key, second) ==
            d.WithDetailsParameter(key, second)
  {
  }

  /** Parameters under different keys can be added in either order. */
  lemma DetailsParametersCommute(d: ErrorDescriptor, k1: string, v1: Obj, k2: string, v2: Obj)
    requires k1 != k2
    ensures d.WithDetailsParameter(k1, v1).WithDetailsParameter(k2, v2) ==
            d.WithDetailsParameter(k2, v2).WithDetailsParameter(k1, v1)
  {
  }

  /** A Java throwable: a plain error, or an application error that describes itself. */
  datatype Throwable = PlainError(message: string) | DescribedError(descriptor: ErrorDescriptor)

  /** An unexpected error: an incident with the unrecognized code, wrapping its cause. */
  datatype UnexpectedError = UnexpectedError(contextId: BoundedContextId, errorCode: ErrorCode,
                                             errorSeverity: ErrorSeverity, cause: Throwable)

  /** The context of an error that describes itself, otherwise the platform context. */
  function RecognizeContext(error: Throwable): (r: BoundedContextId)
    ensures error.DescribedError? ==> r == error.descriptor.contextId
    ensures error.PlainError? ==> r == PLATFORM_CONTEXT
  {
    match error
    case DescribedError(d) => d.contextId
    case PlainError(_) => PLATFORM_CONTEXT
  }

  /** An unexpected error in a given context. */
  function UnexpectedErrorIn(contextId: BoundedContextId, error: Throwable): (r: UnexpectedError)
    ensures r.contextId == contextId && r.cause == error
    ensures r.errorCode == UNRECOGNIZED_ERROR_CODE && r.errorSeverity == Incident
  {
    UnexpectedError(contextId, UNRECOGNIZED_ERROR_CODE, Incident, error)
  }

  /** An unexpected error in the context recognized from the error itself. */
  function UnexpectedErrorOf(error: Throwable): (r: UnexpectedError)
    ensures r == UnexpectedErrorIn(RecognizeContext(error), error)
  {
    UnexpectedErrorIn(RecognizeContext(error), error)
  }

  /**
   * The four wrappings: an explicit context always wins; otherwise an
   * application error gives its own context and any other error the platform's.
   */
  lemma UnexpectedErrorContexts(context: BoundedContextId, another: BoundedContextId, code: ErrorCode, message: string)
    ensures UnexpectedErrorIn(another, DescribedError(StubErrorDescriptor(context, code, Business))).contextId == another
    ensures UnexpectedErrorIn(another, PlainError(message)).contextId == another
    ensures UnexpectedErrorOf(DescribedError(StubErrorDescriptor(context, code, Business))).contextId == context
    ensures UnexpectedErrorOf(PlainError(message)).contextId == PLATFORM_CONTEXT
  {
  }

  /** A message text template with its parameters. */
  datatype TextTemplate = TextTemplate(templateText: string, parameters: map<string, Obj>)

  /** The text template id of a descriptor: ERROR.<context>.<code>. */
  function TemplateId(d: ErrorDescriptor): (r: string)
    ensures |r| == 7 + |d.contextId.ToString()| + |d.errorCode.ToString()|
    ensures r[..6] == "ERROR." && r[6..6 + |d.contextId.ToString()|] == d.contextId.ToString()
    ensures r[6 + |d.contextId.ToString()|] == '.'
    ensures r[7 + |d.contextId.ToString()|..] == d.errorCode.ToString()
  {
    "ERROR." + d.contextId.ToString() + "." + d.errorCode.ToString()
  }

  /** A template over an error descriptor: every query goes to the inner template. */
  datatype ErrorDescriptorTemplate = ErrorDescriptorTemplate(errorTemplate: TextTemplate) {
    function GetTemplateText(): string {
      errorTemplate.templateText
    }

    function GetParameters(): map<string, Obj> {
      errorTemplate.parameters
    }

    function TransformBy(transformer: TextTemplate -> TextTemplate): TextTemplate {
      transformer(errorTemplate)
    }
  }

  /** The template of a descriptor: its id as the text and its details as the parameters. */
  function CreateTemplateFor(d: ErrorDescriptor): (r: ErrorDescriptorTemplate)
    ensures r.GetTemplateText() == TemplateId(d)
    ensures r.GetParameters() == d.errorDetails
    ensures forall f :: r.TransformBy(f) == f(TextTemplate(TemplateId(d), d.errorDetails))
  {
    ErrorDescriptorTemplate(TextTemplate(TemplateId(d), d.errorDetails))
  }

  /** The text up to the first dot. */
  function UpToDot(s: string): string {
    if s == [] || s[0] == '.' then [] else [s[0]] + UpToDot(s[1..])
  }

  /** A well-formed context name contains no dot, so a dot after it ends it. */
  lemma {:induction false} BeforeDot(name: string, rest: string)
    requires forall i :: 0 <= i < |name| ==> IsContextNameChar(name[i])
    ensures UpToDot(name + "." + rest) == name
    decreases |name|
  {
    var s := name + "." + rest;
    if name == [] {
      assert s[0] == '.';
    } else {
      assert s[0] == name[0] && IsContextNameChar(name[0]);
      assert s[1..] == name[1..] + "." + rest;
      BeforeDot(name[1..], rest);
    }
  }

  /**
   * Template ids tell descriptors apart: with well-formed context ids, two
   * descriptors share an id exactly when they share context and code.
   */
  lemma TemplateIdIdentifiesError(d1: ErrorDescriptor, d2: ErrorDescriptor)
    requires IsValidContextId(d1.contextId) && IsValidContextId(d2.contextId)
    ensures TemplateId(d1) == TemplateId(d2) <==>
            d1.contextId == d2.contextId && d1.errorCode == d2.errorCode
  {
    var c1, c2 := d1.contextId.ToString(), d2.contextId.ToString();
    var s1, s2 := TemplateId(d1), TemplateId(d2);
    if s1 == s2 {
      assert s1[6..] == c1 + "." + d1.errorCode.ToString();
      assert s2[6..] == c2 + "." + d2.errorCode.ToString();
      BeforeDot(c1, d1.errorCode.ToString());
      BeforeDot(c2, d2.errorCode.ToString());
      assert d1.contextId == d2.contextId;
      if d1.errorCode.value != d2.errorCode.value {
        IntTextInjective(d1.errorCode.value, d2.errorCode.value);
      }
    }
  }

  /** The template of the platform context's error 100. */
  lemma PlatformErrorTemplate(details: map<string, Obj>)
    ensures CreateTemplateFor(ErrorDescriptor(PLATFORM_CONTEXT, ErrorCode(100), Incident, details)).GetTemplateText()
            == "ERROR.PLATFORM.100"
  {
    assert NatText(100) == NatText(10) + [DigitChar(0)];
    assert NatText(10) == NatText(1) + [DigitChar(0)];
  }
}
