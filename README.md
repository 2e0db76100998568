# Rest.li error-response builder, modelled in Dafny

This project models `ErrorResponseBuilder`, the part of the Rest.li server that
turns a `RestLiServiceException` into the error response a client sees. It has
three parts:

- **`buildErrorResponse`** fills a fresh `ErrorResponse` record. It makes one
  setter call per field, and each call is guarded by a flag of the
  `ErrorResponseFormat`. The format used is the exception's overriding format
  when it has one, and the builder's own format otherwise.
- **`buildRestLiResponseData`** adds the error header to the caller's header
  map, but only when the builder's own format shows headers. It then wraps the
  exception, headers and cookies into response data. A blank response envelope
  is attached only when routing found a resource method.
- **`buildResponse`** copies status, headers and cookies from the response
  data and uses the error response as the entity.

Files:

- `wrappers.dfy`: `Option`. In the exception, `None` stands for a Java `null`
  field; in the error response, it stands for an unset field.
- `error_response.dfy` (module `ErrorResponses`): the format flags, the
  exception and the `ErrorResponse` record.
  - The body of `buildErrorResponse` is modelled as the list of setter calls it
    makes, in source order (`SetterCalls`), applied to an empty record
    (`ApplyAll`).
  - `ObeysFormat` is the field-by-field reference definition. The lemmas prove
    that the setter calls meet it and that it fixes the response uniquely.
  - Because the list keeps the call order, the model can show that the
    stack-trace block and the exception-class block may run in either order.
- `error_response_builder.dfy` (module `ErrorResponseBuilders`):
  - The builder is an immutable datatype. It has three constructor functions
    and two getters.
  - The public `buildErrorResponse` and `buildResponse` are functions.
  - `buildRestLiResponseData` is a method that changes a `HeaderMap` object.
    The caller and the response data share that object.

## Model

| member | source | states |
|---|---|---|
| ErrorResponses.ApplyAllConcat | restli-server/src/main/java/com/linkedin/restli/internal/server/response/ErrorResponseBuilder.java:88-122 | making one run of setter calls and then another gives the same record as making them as one run |
| ErrorResponses.BlockEffects | restli-server/src/main/java/com/linkedin/restli/internal/server/response/ErrorResponseBuilder.java:89-120 | each guarded block sets only its own field, and only when its flag and the exception's value allow it. The stack-trace block sets the trace and the exception class |
| ErrorResponses.SetterCallsObeyFormat | restli-server/src/main/java/com/linkedin/restli/internal/server/response/ErrorResponseBuilder.java:86-123 | the setter calls, applied in order to a fresh record, give exactly the field-by-field response the format describes |
| ErrorResponses.BuildErrorResponseWith | restli-server/src/main/java/com/linkedin/restli/internal/server/response/ErrorResponseBuilder.java:86-123 | status is set iff showStatusCodeInBody, to the status code. Message is set iff showMessage and the message is non-null. Service error code is set iff showServiceErrorCode and one exists. Details are set iff showDetails and details exist. Stack trace is set iff showStacktrace. Exception class is set iff showStacktrace or showExceptionClass, to the class name |
| ErrorResponses.ObeysFormatIsUnique | restli-server/src/main/java/com/linkedin/restli/internal/server/response/ErrorResponseBuilder.java:86-123 | the field rules leave no freedom: two responses that obey the same format for the same exception are equal |
| ErrorResponses.BranchOrderIrrelevant | restli-server/src/main/java/com/linkedin/restli/internal/server/response/ErrorResponseBuilder.java:107-120 | running the exception-class block before the stack-trace block gives the same response |
| ErrorResponses.NoBodyFlagsGiveEmptyResponse | restli-server/src/main/java/com/linkedin/restli/internal/server/response/ErrorResponseBuilder.java:88-122 | with every body flag off, the response is the empty record it started as |
| ErrorResponses.HeadersFlagDoesNotShapeBody | restli-server/src/main/java/com/linkedin/restli/internal/server/response/ErrorResponseBuilder.java:86-123 | showHeaders has no effect on the body of the error response |
| ErrorResponseBuilders.HeaderMap.Put | restli-server/src/main/java/com/linkedin/restli/internal/server/response/ErrorResponseBuilder.java:144 | putting a header maps that name to the value and leaves every other entry as it was |
| ErrorResponseBuilders.RestLiResponseData.constructor | restli-server/src/main/java/com/linkedin/restli/internal/server/response/ErrorResponseBuilder.java:153 | the response data holds the exception, the caller's own header map and the cookies. It takes its status from the exception and has no envelope |
| ErrorResponseBuilders.RestLiResponseData.SetResponseEnvelope | restli-server/src/main/java/com/linkedin/restli/internal/server/response/ErrorResponseBuilder.java:158 | the envelope is set to the given one |
| ErrorResponseBuilders.ErrorResponseBuilder.BuildErrorResponse | restli-server/src/main/java/com/linkedin/restli/internal/server/response/ErrorResponseBuilder.java:81-84 | the response obeys the overriding format when there is one, and the builder's format otherwise |
| ErrorResponseBuilders.ErrorResponseBuilder.BuildResponse | restli-server/src/main/java/com/linkedin/restli/internal/server/response/ErrorResponseBuilder.java:126-131 | headers, cookies and status are copied from the response data. The entity is the error response of its exception under the effective format |
| ErrorResponseBuilders.ErrorResponseBuilder.BuildRestLiResponseData | restli-server/src/main/java/com/linkedin/restli/internal/server/response/ErrorResponseBuilder.java:133-161 | the error header is added iff the builder's own format has showHeaders, and every other header is unchanged. The fresh response data shares the caller's header map. It carries a blank envelope for the method type iff the routing result exists and has a resource method |
| ErrorResponseBuilders.NewErrorResponseBuilder | restli-server/src/main/java/com/linkedin/restli/internal/server/response/ErrorResponseBuilder.java:55-58 | the no-argument builder has the default format and the message "INTERNAL SERVER ERROR" |
| ErrorResponseBuilders.NewErrorResponseBuilderWithFormat | restli-server/src/main/java/com/linkedin/restli/internal/server/response/ErrorResponseBuilder.java:60-63 | the getters return the given format and the message "INTERNAL SERVER ERROR" |
| ErrorResponseBuilders.NewErrorResponseBuilderWithMessage | restli-server/src/main/java/com/linkedin/restli/internal/server/response/ErrorResponseBuilder.java:65-79 | the getters return exactly the constructor's arguments |
| ErrorResponseBuilders.OverridingFormatWins | restli-server/src/main/java/com/linkedin/restli/internal/server/response/ErrorResponseBuilder.java:81-84 | when the exception has an overriding format, two builders with different formats build the same response |
| ErrorResponseBuilders.ErrorHeaderIgnoresOverridingFormat | restli-server/src/main/java/com/linkedin/restli/internal/server/response/ErrorResponseBuilder.java:141-145 | for any header map, building with the exception and with its overriding format removed leaves equal header maps; both gain the error header exactly when the builder's own format shows headers |

## Left out

- D2Monitor.java is not modelled. It is an immutable record whose constructors copy their arguments unchecked. The sampling and cadence policy its comment describes is not implemented in this class.
- The stack-trace text (written with `printStackTrace`) and the exception's runtime class name are opaque strings carried by the exception.
- The error-header name comes from `ProtocolVersionUtil` and `HeaderUtil`. It is the parameter `errorHeaderName`, an arbitrary function of the header map.
- RestConstants is not part of this model. The header value is taken as "true", its value in Rest.li.
- ErrorResponseFormat is not part of this model. It is reduced to its seven flags. The default format is taken to be the one that shows every part, which is Rest.li's default.
- RestLiResponseDataImpl is not part of this model. Its status is taken to be the exception's status, and it is taken to keep the caller's header map itself, not a copy.
- Java `null` arguments are not modelled; the model's types exclude them. A `null` format is accepted by the builder's constructor and later throws NullPointerException when a response is built (lines 89 and 141). A `null` internal message is stored and returned by its getter. A `null` header map throws NullPointerException when `showHeaders` is on (lines 143-144).
- `EnvelopeBuilderUtil.buildBlankResponseEnvelope` is not part of this model. Its result is the opaque value `BlankResponseEnvelope(methodType)`. Its dependence on the response data argument is not modelled.
- The `PartialRestResponse.Builder` internals are not modelled. `BuildResponse` takes the header map's current entries as a value.
- The request argument of `buildRestLiResponseData` is never read, so it is dropped. The cast of the result object to `RestLiServiceException` is a Java runtime type check, so the model takes the exception directly.
- Status codes and service error codes are unbounded integers. Java's 32-bit `int` is not modelled, because the builder only copies these values.
- The error details data map is a flat map from strings to strings. Nested values are not modelled.
