/**
 * The values an error response is built from and the error-response record itself:
 * the format flags, the service exception, and the `ErrorResponse` record whose
 * fields are filled one setter call at a time.
 */
module ErrorResponses {
  import opened Wrappers

  /** Which parts of an error are revealed to the client. */
  datatype ErrorResponseFormat = ErrorResponseFormat(
    showStatusCodeInBody: bool,
    showMessage: bool,
    showServiceErrorCode: bool,
    showDetails: bool,
    showStacktrace: bool,
    showExceptionClass: bool,
    showHeaders: bool)

  /** The default format: every part of the error is shown (rest.li's FULL format). */
  function DefaultFormat(): (f: ErrorResponseFormat)
    ensures f.showStatusCodeInBody && f.showMessage && f.showServiceErrorCode && f.showDetails
    ensures f.showStacktrace && f.showExceptionClass && f.showHeaders
  {
    ErrorResponseFormat(true, true, true, true, true, true, true)
  }

  /** The free-form error details a service attaches to an exception. */
  type DataMap = map<string, string>

  /**
   * A service exception. `None` stands for a null message, a missing service error
   * code, missing details and no overriding format. `className` is the exception's
   * runtime class name and `stackTrace` the text its stack trace prints as.
   */
  datatype ServiceException = ServiceException(
    status: int,
    message: Option<string>,
    serviceErrorCode: Option<int>,
    errorDetails: Option<DataMap>,
    overridingFormat: Option<ErrorResponseFormat>,
    className: string,
    stackTrace: string)

  /** The details record of an error response, wrapping the exception's data map. */
  datatype ErrorDetails = ErrorDetails(data: DataMap)

  /** The error-response record; an unset field is `None`. */
  datatype ErrorResponse = ErrorResponse(
    status: Option<int>,
    message: Option<string>,
    serviceErrorCode: Option<int>,
    errorDetails: Option<ErrorDetails>,
    stackTrace: Option<string>,
    exceptionClass: Option<string>)

  /** A freshly created error response: no field is set. */
  const EmptyErrorResponse := ErrorResponse(None, None, None, None, None, None)

  /** One call of a setter of `ErrorResponse`. */
  datatype SetterCall =
    | SetStatus(code: int)
    | SetMessage(text: string)
    | SetServiceErrorCode(serviceCode: int)
    | SetErrorDetails(details: ErrorDetails)
    | SetStackTrace(trace: string)
    | SetExceptionClass(name: string)

  /** The effect of one setter call: it overwrites its own field and no other. */
  function Apply(er: ErrorResponse, call: SetterCall): ErrorResponse
  {
    match call
    case SetStatus(code) => er.(status := Some(code))
    case SetMessage(text) => er.(message := Some(text))
    case SetServiceErrorCode(serviceCode) => er.(serviceErrorCode := Some(serviceCode))
    case SetErrorDetails(details) => er.(errorDetails := Some(details))
    case SetStackTrace(trace) => er.(stackTrace := Some(trace))
    case SetExceptionClass(name) => er.(exceptionClass := Some(name))
  }

  /** The effect of a sequence of setter calls made in order. */
  function ApplyAll(er: ErrorResponse, calls: seq<SetterCall>): ErrorResponse
    decreases |calls|
  {
    if calls == [] then er else ApplyAll(Apply(er, calls[0]), calls[1..])
  }

  /** Making the calls of `a` and then those of `b` is making the calls of `a + b`. */
  lemma {:induction false} ApplyAllConcat(er: ErrorResponse, a: seq<SetterCall>, b: seq<SetterCall>)
    ensures ApplyAll(er, a + b) == ApplyAll(ApplyAll(er, a), b)
    decreases |a|
  {
    if a == [] {
      assert a + b == b;
    } else {
      assert (a + b)[0] == a[0];
      assert (a + b)[1..] == a[1..] + b;
      ApplyAllConcat(Apply(er, a[0]), a[1..], b);
    }
  }

  // The guarded setter calls of buildErrorResponse, block by block.

  function StatusCalls(ex: ServiceException, fmt: ErrorResponseFormat): seq<SetterCall>
  {
    if fmt.showStatusCodeInBody then [SetStatus(ex.status)] else []
  }

  function MessageCalls(ex: ServiceException, fmt: ErrorResponseFormat): seq<SetterCall>
  {
    if fmt.showMessage && ex.message.Some? then [SetMessage(ex.message.value)] else []
  }

  function ServiceErrorCodeCalls(ex: ServiceException, fmt: ErrorResponseFormat): seq<SetterCall>
  {
    if fmt.showServiceErrorCode && ex.serviceErrorCode.Some?
    then [SetServiceErrorCode(ex.serviceErrorCode.value)] else []
  }

  function DetailsCalls(ex: ServiceException, fmt: ErrorResponseFormat): seq<SetterCall>
  {
    if fmt.showDetails && ex.errorDetails.Some?
    then [SetErrorDetails(ErrorDetails(ex.errorDetails.value))] else []
  }

  /** The stack-trace block sets the trace and, as well, the exception class. */
  function StacktraceCalls(ex: ServiceException, fmt: ErrorResponseFormat): seq<SetterCall>
  {
    if fmt.showStacktrace then [SetStackTrace(ex.stackTrace), SetExceptionClass(ex.className)] else []
  }

  function ExceptionClassCalls(ex: ServiceException, fmt: ErrorResponseFormat): seq<SetterCall>
  {
    if fmt.showExceptionClass then [SetExceptionClass(ex.className)] else []
  }

  /** Every setter call buildErrorResponse makes, in the order it makes them. */
  function SetterCalls(ex: ServiceException, fmt: ErrorResponseFormat): seq<SetterCall>
  {
    StatusCalls(ex, fmt) + MessageCalls(ex, fmt) + ServiceErrorCodeCalls(ex, fmt)
    + DetailsCalls(ex, fmt) + StacktraceCalls(ex, fmt) + ExceptionClassCalls(ex, fmt)
  }

  /**
   * The reference definition of an error response built under `fmt`: field by
   * field, what it holds and when it is set at all.
   */
  ghost predicate ObeysFormat(er: ErrorResponse, ex: ServiceException, fmt: ErrorResponseFormat)
  {
    && er.status == (if fmt.showStatusCodeInBody then Some(ex.status) else None)
    && er.message == (if fmt.showMessage then ex.message else None)
    && er.serviceErrorCode == (if fmt.showServiceErrorCode then ex.serviceErrorCode else None)
    && er.errorDetails == (if fmt.showDetails && ex.errorDetails.Some?
                           then Some(ErrorDetails(ex.errorDetails.value)) else None)
    && er.stackTrace == (if fmt.showStacktrace then Some(ex.stackTrace) else None)
    && er.exceptionClass == (if fmt.showStacktrace || fmt.showExceptionClass
                             then Some(ex.className) else None)
  }

  /** What each block of setter calls does to any response. */
  lemma BlockEffects(er: ErrorResponse, ex: ServiceException, fmt: ErrorResponseFormat)
    ensures ApplyAll(er, StatusCalls(ex, fmt))
            == if fmt.showStatusCodeInBody then er.(status := Some(ex.status)) else er
    ensures ApplyAll(er, MessageCalls(ex, fmt))
            == if fmt.showMessage && ex.message.Some? then er.(message := ex.message) else er
    ensures ApplyAll(er, ServiceErrorCodeCalls(ex, fmt))
            == if fmt.showServiceErrorCode && ex.serviceErrorCode.Some?
               then er.(serviceErrorCode := ex.serviceErrorCode) else er
    ensures ApplyAll(er, DetailsCalls(ex, fmt))
            == if fmt.showDetails && ex.errorDetails.Some?
               then er.(errorDetails := Some(ErrorDetails(ex.errorDetails.value))) else er
    ensures ApplyAll(er, StacktraceCalls(ex, fmt))
            == if fmt.showStacktrace
               then er.(stackTrace := Some(ex.stackTrace), exceptionClass := Some(ex.className)) else er
    ensures ApplyAll(er, ExceptionClassCalls(ex, fmt))
            == if fmt.showExceptionClass then er.(exceptionClass := Some(ex.className)) else er
  {
    if fmt.showStacktrace {
      var a, b := [SetStackTrace(ex.stackTrace)], [SetExceptionClass(ex.className)];
      assert a + b == StacktraceCalls(ex, fmt);
      ApplyAllConcat(er, a, b);
    }
  }

  /** The setter calls, made on a fresh response, produce the response the format calls for. */
  lemma {:induction false} SetterCallsObeyFormat(ex: ServiceException, fmt: ErrorResponseFormat)
    ensures ObeysFormat(ApplyAll(EmptyErrorResponse, SetterCalls(ex, fmt)), ex, fmt)
  {
    var s1, s2, s3 := StatusCalls(ex, fmt), MessageCalls(ex, fmt), ServiceErrorCodeCalls(ex, fmt);
    var s4, s5, s6 := DetailsCalls(ex, fmt), StacktraceCalls(ex, fmt), ExceptionClassCalls(ex, fmt);
    var e0 := EmptyErrorResponse;
    ApplyAllConcat(e0, s1 + s2 + s3 + s4 + s5, s6);
    ApplyAllConcat(e0, s1 + s2 + s3 + s4, s5);
    ApplyAllConcat(e0, s1 + s2 + s3, s4);
    ApplyAllConcat(e0, s1 + s2, s3);
    ApplyAllConcat(e0, s1, s2);
    var e1 := ApplyAll(e0, s1);
    var e2 := ApplyAll(e1, s2);
    var e3 := ApplyAll(e2, s3);
    var e4 := ApplyAll(e3, s4);
    var e5 := ApplyAll(e4, s5);
    BlockEffects(e0, ex, fmt);
    BlockEffects(e1, ex, fmt);
    BlockEffects(e2, ex, fmt);
    BlockEffects(e3, ex, fmt);
    BlockEffects(e4, ex, fmt);
    BlockEffects(e5, ex, fmt);
  }

  /**
   * buildErrorResponse with an explicit format: make the guarded setter calls on a
   * fresh error response.
   */
  function BuildErrorResponseWith(ex: ServiceException, fmt: ErrorResponseFormat): (er: ErrorResponse)
    ensures ObeysFormat(er, ex, fmt)
  {
    SetterCallsObeyFormat(ex, fmt);
    ApplyAll(EmptyErrorResponse, SetterCalls(ex, fmt))
  }

  /** The reference definition leaves no freedom: at most one response obeys a format. */
  lemma ObeysFormatIsUnique(er1: ErrorResponse, er2: ErrorResponse, ex: ServiceException, fmt: ErrorResponseFormat)
    requires ObeysFormat(er1, ex, fmt) && ObeysFormat(er2, ex, fmt)
    ensures er1 == er2
  {
  }

  /**
   * The stack-trace block and the exception-class block may run in either order:
   * both set the exception class to the same name.
   */
  lemma {:induction false} BranchOrderIrrelevant(ex: ServiceException, fmt: ErrorResponseFormat)
    ensures ApplyAll(EmptyErrorResponse,
                     StatusCalls(ex, fmt) + MessageCalls(ex, fmt) + ServiceErrorCodeCalls(ex, fmt)
                     + DetailsCalls(ex, fmt) + ExceptionClassCalls(ex, fmt) + StacktraceCalls(ex, fmt))
            == BuildErrorResponseWith(ex, fmt)
  {
    var prefix := StatusCalls(ex, fmt) + MessageCalls(ex, fmt) + ServiceErrorCodeCalls(ex, fmt)
                  + DetailsCalls(ex, fmt);
    var s5, s6 := StacktraceCalls(ex, fmt), ExceptionClassCalls(ex, fmt);
    var e := ApplyAll(EmptyErrorResponse, prefix);
    ApplyAllConcat(EmptyErrorResponse, prefix + s6, s5);
    ApplyAllConcat(EmptyErrorResponse, prefix, s6);
    ApplyAllConcat(EmptyErrorResponse, prefix + s5, s6);
    ApplyAllConcat(EmptyErrorResponse, prefix, s5);
    BlockEffects(e, ex, fmt);
    BlockEffects(ApplyAll(e, s5), ex, fmt);
    BlockEffects(ApplyAll(e, s6), ex, fmt);
  }

  /** With every body flag off the response stays empty; `showHeaders` plays no part. */
  lemma NoBodyFlagsGiveEmptyResponse(ex: ServiceException, fmt: ErrorResponseFormat)
    requires !fmt.showStatusCodeInBody && !fmt.showMessage && !fmt.showServiceErrorCode
    requires !fmt.showDetails && !fmt.showStacktrace && !fmt.showExceptionClass
    ensures BuildErrorResponseWith(ex, fmt) == EmptyErrorResponse
  {
  }

  /** The body of the response does not depend on `showHeaders`. */
  lemma HeadersFlagDoesNotShapeBody(ex: ServiceException, fmt: ErrorResponseFormat)
    ensures BuildErrorResponseWith(ex, fmt) == BuildErrorResponseWith(ex, fmt.(showHeaders := !fmt.showHeaders))
  {
  }
}
