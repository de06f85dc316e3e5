/**
 * The `responseMeta` hook of the root component (src/pages/_app.tsx): when a
 * page is rendered on the server, it decides which HTTP status the response
 * carries, from the status set on the request context and the errors the
 * page's RPC calls reported.
 */
module SsrResponse {
  import opened Wrappers

  /** The per-request server-rendering context; only its status is read. */
  datatype SsrContext = SsrContext(status: Option<int>)

  /** The `data` part of an RPC client error, with the HTTP status the server declared. */
  datatype ErrorData = ErrorData(httpStatus: Option<int>)

  /** One error collected from an RPC call made during the render. */
  datatype ClientError = ClientError(data: Option<ErrorData>)

  /** The response metadata: either `{}` or `{ status: code }`. */
  datatype Meta = Empty | Status(code: int)

  /** The status used when the first error declares none. */
  const DefaultErrorStatus := 500

  /** JavaScript truthiness of an optional number: `undefined` and `0` are falsy. */
  predicate IsTruthy(status: Option<int>)
  {
    status.Some? && status.value != 0
  }

  /** `error.data?.httpStatus`: the status an error declares, if any. */
  function DeclaredStatus(e: ClientError): Option<int>
  {
    match e.data
    case None => None
    case Some(d) => d.httpStatus
  }

  /** `error.data?.httpStatus ?? 500`: only a missing status is replaced, a 0 is kept. */
  function ErrorStatus(e: ClientError): int
  {
    match DeclaredStatus(e)
    case Some(s) => s
    case None => DefaultErrorStatus
  }

  /** The `responseMeta` callback: explicit status, else the first error's status, else `{}`. */
  function ResponseMeta(ctx: SsrContext, clientErrors: seq<ClientError>): Meta
  {
    if IsTruthy(ctx.status) then
      Status(ctx.status.value)
    else if |clientErrors| > 0 then
      Status(ErrorStatus(clientErrors[0]))
    else
      Empty
  }

  // ---------------------------------------------------------------------------
  // Properties of the priority table

  /** An explicit status is returned verbatim, whatever errors were collected. */
  lemma ExplicitStatusWins(ctx: SsrContext, clientErrors: seq<ClientError>)
    requires IsTruthy(ctx.status)
    ensures ResponseMeta(ctx, clientErrors) == Status(ctx.status.value)
    ensures forall others: seq<ClientError> :: ResponseMeta(ctx, others) == ResponseMeta(ctx, clientErrors)
  {
  }

  /** A status of 0 is falsy, so it behaves exactly like an unset status. */
  lemma ZeroStatusIsUnset(clientErrors: seq<ClientError>)
    ensures ResponseMeta(SsrContext(Some(0)), clientErrors) == ResponseMeta(SsrContext(None), clientErrors)
  {
  }

  /**
   * Without an explicit status, only the first collected error decides:
   * anything after it is ignored.
   */
  lemma FirstErrorWins(ctx: SsrContext, first: ClientError, rest: seq<ClientError>)
    requires !IsTruthy(ctx.status)
    ensures ResponseMeta(ctx, [first] + rest) == Status(ErrorStatus(first))
    ensures ResponseMeta(ctx, [first] + rest) == ResponseMeta(ctx, [first])
  {
  }

  /**
   * A status the first error declares is propagated as it is, including a 0,
   * because `??` replaces only a missing value.
   */
  lemma DeclaredStatusPropagates(ctx: SsrContext, first: ClientError, rest: seq<ClientError>, s: int)
    requires !IsTruthy(ctx.status)
    requires first.data == Some(ErrorData(Some(s)))
    ensures ResponseMeta(ctx, [first] + rest) == Status(s)
  {
  }

  /** An error without `data`, or whose `httpStatus` is missing, yields 500. */
  lemma MissingStatusDefaultsTo500(ctx: SsrContext, first: ClientError, rest: seq<ClientError>)
    requires !IsTruthy(ctx.status)
    requires first.data.None? || first.data.value.httpStatus.None?
    ensures ResponseMeta(ctx, [first] + rest) == Status(500)
  {
  }

  /**
   * The metadata is empty exactly when there is neither an explicit status
   * nor any collected error; otherwise it carries a status.
   */
  lemma EmptyExactlyWhenNothingToReport(ctx: SsrContext, clientErrors: seq<ClientError>)
    ensures ResponseMeta(ctx, clientErrors) == Empty <==> (!IsTruthy(ctx.status) && |clientErrors| == 0)
    ensures ResponseMeta(ctx, clientErrors).Status? <==> (IsTruthy(ctx.status) || |clientErrors| > 0)
  {
  }

  /**
   * Every status that is returned comes from one of three places: the
   * explicit status, the first error's declared status, or the default 500.
   * A returned 0 can only come from an error that declared it.
   */
  lemma StatusOrigin(ctx: SsrContext, clientErrors: seq<ClientError>)
    requires ResponseMeta(ctx, clientErrors).Status?
    ensures var code := ResponseMeta(ctx, clientErrors).code;
      (IsTruthy(ctx.status) && code == ctx.status.value)
      || (|clientErrors| > 0 && DeclaredStatus(clientErrors[0]) == Some(code))
      || (|clientErrors| > 0 && DeclaredStatus(clientErrors[0]) == None && code == DefaultErrorStatus)
    ensures ResponseMeta(ctx, clientErrors).code == 0 ==>
      !IsTruthy(ctx.status) && DeclaredStatus(clientErrors[0]) == Some(0)
  {
  }

  // ---------------------------------------------------------------------------
  // Concrete scenarios

  /** Explicit 200 beats an error that declares 404. */
  lemma ExampleExplicitBeatsError()
    ensures ResponseMeta(SsrContext(Some(200)), [ClientError(Some(ErrorData(Some(404))))]) == Status(200)
  {
  }

  /** Errors [404, 500] without an explicit status give 404: order, not severity. */
  lemma ExampleFirstOf404And500()
    ensures ResponseMeta(SsrContext(None),
      [ClientError(Some(ErrorData(Some(404)))), ClientError(Some(ErrorData(Some(500))))]) == Status(404)
  {
  }

  /** A single error whose status is undefined gives 500; no errors give `{}`. */
  lemma ExampleDefaultAndEmpty()
    ensures ResponseMeta(SsrContext(None), [ClientError(Some(ErrorData(None)))]) == Status(500)
    ensures ResponseMeta(SsrContext(None), []) == Empty
  {
  }
}
