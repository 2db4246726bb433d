/** The non-streaming proxy call (`call_completion` in
    src/llm_wrapper/server/api.py): look up the route, build the body, post
    it, and turn whatever goes wrong after the lookup into a 500. The HTTP
    exchange is a parameter: `Upstream` is what the upstream did, and
    `decodeBody` stands for `response.json()` followed by validation into a
    `ChatResponse`. */
module Completion {
  import opened Base
  import opened Strings
  import opened Json
  import opened Errors
  import opened Requests
  import opened Routing
  import opened Payload

  /** The outcome of one POST to the upstream: it failed before an answer
      (connection, timeout), or it answered with a status and a body, read
      as the lines the body is delivered in; `failure` is the error that cut
      the reading short, if any. */
  datatype Upstream =
    | PostFailed(message: string)
    | Answered(status: int, lines: seq<string>, failure: Option<string>)

  /** Where a request goes and what is sent. */
  datatype Prepared = Prepared(url: string, payload: Payload)

  /** The lookup and the body builder, whose errors escape both handlers'
      `try` blocks unchanged. */
  function Prepare(table: Table, req: ChatRequest, injected: Option<string>): (r: Result<Prepared, HttpError>)
    ensures GetConfigOrRaise(table, req.model).Err? ==> r == Err(NotFound(table, req.model))
    ensures r.Err? ==> r.error == NotFound(table, req.model) || r.error == NoUserMessage
    ensures r.Ok? ==>
      && GetConfigOrRaise(table, req.model).Ok?
      && GetConfigOrRaise(table, req.model).value.url == r.value.url
      && BuildUpstreamPayload(req, GetConfigOrRaise(table, req.model).value, injected) == Ok(r.value.payload)
  {
    match GetConfigOrRaise(table, req.model)
    case Err(e) => Err(e)
    case Ok(cfg) =>
      match BuildUpstreamPayload(req, cfg, injected)
      case Err(e) => Err(e)
      case Ok(p) => Ok(Prepared(cfg.url, p))
  }

  /** `HTTPException(500, {"message": m})`. */
  function Internal(m: string): HttpError {
    HttpError(500, MessageDetail(m))
  }

  /** The exception a non-200 answer raises inside the `try`. */
  function UpstreamRejected(status: int, text: string): HttpError {
    HttpError(status, MessageDetail(text))
  }

  function CallCompletion(table: Table, req: ChatRequest, systemPrompt: string, up: Upstream,
                          decodeBody: string -> Result<ChatResponse, string>): (r: Result<ChatResponse, HttpError>)
    ensures Prepare(table, req, Some(systemPrompt)).Err? ==> r == Err(Prepare(table, req, Some(systemPrompt)).error)
    ensures Prepare(table, req, Some(systemPrompt)).Ok? && r.Err? ==>
      r.error.status == 500 && r.error.detail.DictDetail? && |r.error.detail.fields| == 1
      && r.error.detail.fields[0].0 == "message"
    ensures r.Ok? <==>
      && Prepare(table, req, Some(systemPrompt)).Ok?
      && up.Answered? && up.status == 200 && up.failure.None?
      && decodeBody(Concat(up.lines)).Ok?
    ensures r.Ok? ==> r == Ok(decodeBody(Concat(up.lines)).value)
    ensures Prepare(table, req, Some(systemPrompt)).Ok? && up.PostFailed? ==> r == Err(Internal(up.message))
    ensures Prepare(table, req, Some(systemPrompt)).Ok? && up.Answered? && up.failure.Some? ==>
      r == Err(Internal(up.failure.value))
    ensures Prepare(table, req, Some(systemPrompt)).Ok? && up.Answered? && up.failure.None? && up.status != 200 ==>
      r == Err(Internal(ExcText(UpstreamRejected(up.status, Concat(up.lines)))))
    ensures Prepare(table, req, Some(systemPrompt)).Ok? && up.Answered? && up.status == 200 && up.failure.None? && decodeBody(Concat(up.lines)).Err? ==>
      r == Err(Internal(decodeBody(Concat(up.lines)).error))
  {
    match Prepare(table, req, Some(systemPrompt))
    case Err(e) => Err(e)
    case Ok(_) =>
      match up
      case PostFailed(m) => Err(Internal(m))
      case Answered(status, lines, failure) =>
        if failure.Some? then Err(Internal(failure.value))
        else if status != 200 then Err(Internal(ExcText(UpstreamRejected(status, Concat(lines)))))
        else
          match decodeBody(Concat(lines))
          case Ok(resp) => Ok(resp)
          case Err(m) => Err(Internal(m))
  }

  /** An upstream error answer becomes a 500 whose message still carries the
      upstream's status and, for plain text, its body verbatim. */
  lemma UpstreamErrorReported(table: Table, req: ChatRequest, systemPrompt: string, status: int, lines: seq<string>,
                              decodeBody: string -> Result<ChatResponse, string>)
    requires Prepare(table, req, Some(systemPrompt)).Ok?
    requires status != 200 && Plain(Concat(lines))
    ensures CallCompletion(table, req, systemPrompt, Answered(status, lines, None), decodeBody)
      == Err(Internal(Decimal(status) + ": {'message': '" + Concat(lines) + "'}"))
    ensures Contains(CallCompletion(table, req, systemPrompt, Answered(status, lines, None), decodeBody).error.detail.fields[0].1.s,
                     Concat(lines))
  {
    MessageExcTextKeepsText(status, Concat(lines));
  }
}
