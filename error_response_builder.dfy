/**
 * The error-response builder of the Rest.li server: it turns a service exception
 * into an error-response record, flags error responses in the response headers,
 * and wraps the exception into response data.
 */
module ErrorResponseBuilders {
  import opened Wrappers
  import opened ErrorResponses

  /** The message a builder carries when none is given. */
  const DefaultInternalErrorMessage := "INTERNAL SERVER ERROR"

  /** The value of the header that marks a response as an error response. */
  const HeaderValueError := "true"

  /** An HTTP cookie sent back with the response. */
  datatype HttpCookie = HttpCookie(name: string, value: string)

  /** The kind of resource method a request was routed to. */
  datatype ResourceMethod = ResourceMethod(name: string)

  /** The resource method a request was routed to. */
  datatype ResourceMethodDescriptor = ResourceMethodDescriptor(methodType: ResourceMethod)

  /** The outcome of routing a request; `resourceMethod` is `None` when no method was found. */
  datatype RoutingResult = RoutingResult(resourceMethod: Option<ResourceMethodDescriptor>)

  /** The blank response envelope for a resource method of the given kind. */
  datatype ResponseEnvelope = BlankResponseEnvelope(methodType: ResourceMethod)

  /** The response part handed on to the REST layer: headers, cookies, status and entity. */
  datatype PartialRestResponse = PartialRestResponse(
    headers: map<string, string>,
    cookies: seq<HttpCookie>,
    status: int,
    entity: ErrorResponse)

  /** A mutable header map, shared by reference between the caller and the response data. */
  class HeaderMap {
    var entries: map<string, string>

    constructor (entries: map<string, string>)
      ensures this.entries == entries
    {
      this.entries := entries;
    }

    /** Adds or replaces one header. */
    method Put(name: string, value: string)
      modifies this
      ensures entries == old(entries)[name := value]
    {
      entries := entries[name := value];
    }
  }

  /** The response data of a request that failed with a service exception. */
  class RestLiResponseData {
    const serviceException: ServiceException
    const headers: HeaderMap
    const cookies: seq<HttpCookie>
    const status: int
    var responseEnvelope: Option<ResponseEnvelope>

    /** Wraps the exception; the status is the exception's and there is no envelope yet. */
    constructor (serviceException: ServiceException, headers: HeaderMap, cookies: seq<HttpCookie>)
      ensures this.serviceException == serviceException && this.headers == headers
      ensures this.cookies == cookies && status == serviceException.status
      ensures responseEnvelope == None
    {
      this.serviceException := serviceException;
      this.headers := headers;
      this.cookies := cookies;
      this.status := serviceException.status;
      this.responseEnvelope := None;
    }

    method SetResponseEnvelope(envelope: ResponseEnvelope)
      modifies this
      ensures responseEnvelope == Some(envelope)
    {
      responseEnvelope := Some(envelope);
    }
  }

  /** The builder's state never changes after construction. */
  datatype ErrorResponseBuilder = ErrorResponseBuilder(
    errorResponseFormat: ErrorResponseFormat,
    internalErrorMessage: string)
  {
    function GetInternalErrorMessage(): string
    {
      internalErrorMessage
    }

    function GetErrorResponseFormat(): ErrorResponseFormat
    {
      errorResponseFormat
    }

    /** The format a response for `ex` is built with: the exception's own, if it has one. */
    function EffectiveFormat(ex: ServiceException): (fmt: ErrorResponseFormat)
      ensures ex.overridingFormat.Some? ==> fmt == ex.overridingFormat.value
      ensures ex.overridingFormat.None? ==> fmt == GetErrorResponseFormat()
    {
      if ex.overridingFormat.Some? then ex.overridingFormat.value else errorResponseFormat
    }

    /** The error response for `ex`, built with the effective format. */
    function BuildErrorResponse(ex: ServiceException): (er: ErrorResponse)
      ensures ex.overridingFormat.Some? ==> ObeysFormat(er, ex, ex.overridingFormat.value)
      ensures ex.overridingFormat.None? ==> ObeysFormat(er, ex, GetErrorResponseFormat())
    {
      BuildErrorResponseWith(ex, EffectiveFormat(ex))
    }

    /**
     * The response part for the given response data: its headers, cookies and status,
     * with the error response built from its exception as the entity.
     */
    function BuildResponse(routingResult: Option<RoutingResult>, responseData: RestLiResponseData): (r: PartialRestResponse)
      reads responseData, responseData.headers
      ensures r.headers == responseData.headers.entries
      ensures r.cookies == responseData.cookies && r.status == responseData.status
      ensures ObeysFormat(r.entity, responseData.serviceException, EffectiveFormat(responseData.serviceException))
    {
      PartialRestResponse(responseData.headers.entries, responseData.cookies, responseData.status,
                          BuildErrorResponse(responseData.serviceException))
    }

    /**
     * Wraps `exception` into fresh response data sharing the caller's `headers`.
     * When the builder's own format shows headers, the error header, whose name
     * `errorHeaderName` derives from the headers, is added first. A blank envelope
     * is attached exactly when routing found a resource method.
     */
    method BuildRestLiResponseData(routingResult: Option<RoutingResult>, exception: ServiceException,
                                   headers: HeaderMap, cookies: seq<HttpCookie>,
                                   errorHeaderName: map<string, string> -> string)
      returns (responseData: RestLiResponseData)
      modifies headers
      ensures fresh(responseData)
      ensures responseData.serviceException == exception && responseData.headers == headers
      ensures responseData.cookies == cookies && responseData.status == exception.status
      ensures headers.entries == if errorResponseFormat.showHeaders
                                 then old(headers.entries)[errorHeaderName(old(headers.entries)) := HeaderValueError]
                                 else old(headers.entries)
      ensures responseData.responseEnvelope
              == if routingResult.Some? && routingResult.value.resourceMethod.Some?
                 then Some(BlankResponseEnvelope(routingResult.value.resourceMethod.value.methodType))
                 else None
    {
      if errorResponseFormat.showHeaders {
        headers.Put(errorHeaderName(headers.entries), HeaderValueError);
      }
      if routingResult.None? || routingResult.value.resourceMethod.None? {
        responseData := new RestLiResponseData(exception, headers, cookies);
        return;
      }
      var methodType := routingResult.value.resourceMethod.value.methodType;
      responseData := new RestLiResponseData(exception, headers, cookies);
      responseData.SetResponseEnvelope(BlankResponseEnvelope(methodType));
    }
  }

  /** `new ErrorResponseBuilder()`: the default format and the default message. */
  function NewErrorResponseBuilder(): (b: ErrorResponseBuilder)
    ensures b.GetErrorResponseFormat() == DefaultFormat()
    ensures b.GetInternalErrorMessage() == DefaultInternalErrorMessage
  {
    NewErrorResponseBuilderWithFormat(DefaultFormat())
  }

  /** `new ErrorResponseBuilder(format)`: the given format and the default message. */
  function NewErrorResponseBuilderWithFormat(errorResponseFormat: ErrorResponseFormat): (b: ErrorResponseBuilder)
    ensures b.GetErrorResponseFormat() == errorResponseFormat
    ensures b.GetInternalErrorMessage() == DefaultInternalErrorMessage
  {
    NewErrorResponseBuilderWithMessage(errorResponseFormat, DefaultInternalErrorMessage)
  }

  /** `new ErrorResponseBuilder(format, message)`: the getters return exactly the arguments. */
  function NewErrorResponseBuilderWithMessage(errorResponseFormat: ErrorResponseFormat, internalErrorMessage: string)
    : (b: ErrorResponseBuilder)
    ensures b.GetErrorResponseFormat() == errorResponseFormat
    ensures b.GetInternalErrorMessage() == internalErrorMessage
  {
    ErrorResponseBuilder(errorResponseFormat, internalErrorMessage)
  }

  /** An exception's overriding format makes the builder's own format irrelevant to the body. */
  lemma OverridingFormatWins(b1: ErrorResponseBuilder, b2: ErrorResponseBuilder, ex: ServiceException)
    requires ex.overridingFormat.Some?
    ensures b1.BuildErrorResponse(ex) == b2.BuildErrorResponse(ex)
  {
  }

  /**
   * Whether the error header is added depends on the builder's format only: for any
   * header map, routing result and cookies, building with the exception as it is and
   * with its overriding format removed leaves equal header maps, and both gain the
   * error header exactly when the builder's own format shows headers.
   */
  method ErrorHeaderIgnoresOverridingFormat(b: ErrorResponseBuilder, routingResult: Option<RoutingResult>,
                                            ex: ServiceException, h1: HeaderMap, h2: HeaderMap,
                                            cookies: seq<HttpCookie>,
                                            errorHeaderName: map<string, string> -> string)
    requires h1 != h2 && h1.entries == h2.entries
    modifies h1, h2
    ensures h1.entries == h2.entries
    ensures h1.entries == if b.GetErrorResponseFormat().showHeaders
                          then old(h1.entries)[errorHeaderName(old(h1.entries)) := HeaderValueError]
                          else old(h1.entries)
  {
    var withOverride := b.BuildRestLiResponseData(routingResult, ex, h1, cookies, errorHeaderName);
    var withoutOverride := b.BuildRestLiResponseData(routingResult, ex.(overridingFormat := None), h2, cookies,
                                                     errorHeaderName);
  }
}
