/** The upstream request body (`build_upstream_payload` in
    src/llm_wrapper/server/api.py): the last user message, the system prompt
    chosen by precedence, and sampling parameters that fall back from the
    request to the route to fixed defaults. */
module Payload {
  import opened Base
  import opened Json
  import opened Errors
  import opened Requests
  import opened Routing

  /** A message of the upstream body; only its role and content survive. */
  datatype UpMessage = UpMessage(role: string, content: Option<string>)

  datatype Payload = Payload(
    model: string,
    messages: seq<UpMessage>,
    temperature: Float,
    topP: Float,
    topK: int,
    stream: Option<bool>)

  const FallbackTemperature: Float := Float("0.7")
  const FallbackTopP: Float := Float("1.0")
  const FallbackTopK: int := 40

  const NoUserMessageText := "No user message provided."

  /** The 400 raised when the conversation has no user message. */
  const NoUserMessage: HttpError := HttpError(400, ValueDetail(JStr(NoUserMessageText)))

  /** Message `i` has role `role` and no later message does. */
  predicate LastOfRole(ms: seq<Message>, role: string, i: int) {
    0 <= i < |ms| && ms[i].role == role && forall j :: i < j < |ms| ==> ms[j].role != role
  }

  /** `[m for m in ms if m.role == role]`. */
  function WithRole(ms: seq<Message>, role: string): (r: seq<Message>)
    ensures forall k :: 0 <= k < |r| ==> r[k].role == role
    ensures |r| == 0 <==> forall i :: 0 <= i < |ms| ==> ms[i].role != role
  {
    if |ms| == 0 then []
    else
      var init := ms[..|ms| - 1];
      assert forall i :: 0 <= i < |init| ==> init[i] == ms[i];
      if ms[|ms| - 1].role == role then WithRole(init, role) + [ms[|ms| - 1]]
      else WithRole(init, role)
  }

  /** The last element of the filtered list is the last message of that role. */
  lemma {:induction false} WithRoleLast(ms: seq<Message>, role: string, i: int)
    requires LastOfRole(ms, role, i)
    ensures |WithRole(ms, role)| > 0
    ensures WithRole(ms, role)[|WithRole(ms, role)| - 1] == ms[i]
  {
    var init := ms[..|ms| - 1];
    if i < |ms| - 1 {
      assert LastOfRole(init, role, i);
      WithRoleLast(init, role, i);
    }
  }

  /** Python's `x or fallback` on an optional float. */
  function FloatOr(x: Option<Float>, fallback: Float): (r: Float)
    ensures x.Some? && FloatTruthy(x.value) ==> r == x.value
    ensures !(x.Some? && FloatTruthy(x.value)) ==> r == fallback
  {
    if x.Some? && FloatTruthy(x.value) then x.value else fallback
  }

  /** Python's `x or fallback` on an optional int. */
  function IntOr(x: Option<int>, fallback: int): (r: int)
    ensures x.Some? && x.value != 0 ==> r == x.value
    ensures !(x.Some? && x.value != 0) ==> r == fallback
  {
    if x.Some? && x.value != 0 then x.value else fallback
  }

  /** The system prompt sent upstream: the last system message of the
      conversation if there is one, else the injected prompt if one was
      passed, else the route's own prompt, else empty. */
  function ChooseSystemPrompt(ms: seq<Message>, injected: Option<string>, cfg: RouteConfig): Option<string> {
    var system := WithRole(ms, "system");
    if |system| > 0 then system[|system| - 1].content
    else if injected.Some? then injected
    else Some(cfg.systemPrompt.GetOr(""))
  }

  /** The upstream body for `req` routed to `cfg`, or a 400 when the
      conversation holds no user message. */
  function BuildUpstreamPayload(req: ChatRequest, cfg: RouteConfig, injected: Option<string>): (r: Result<Payload, HttpError>)
    ensures r.Err? <==> forall i :: 0 <= i < |req.messages| ==> req.messages[i].role != "user"
    ensures r.Err? ==> r.error == NoUserMessage
    ensures r.Ok? ==>
      && r.value.model == cfg.modelPath
      && |r.value.messages| == 2
      && r.value.messages[0] == UpMessage("system", ChooseSystemPrompt(req.messages, injected, cfg))
      && r.value.messages[1].role == "user"
      && r.value.stream == req.stream
    ensures r.Ok? ==>
      && r.value.temperature == FloatOr(req.temperature, cfg.params.temperature.GetOr(FallbackTemperature))
      && r.value.topP == FloatOr(req.topP, cfg.params.topP.GetOr(FallbackTopP))
      && r.value.topK == IntOr(req.topK, cfg.params.topK.GetOr(FallbackTopK))
  {
    var users := WithRole(req.messages, "user");
    if |users| == 0 then Err(NoUserMessage)
    else
      Ok(Payload(
        cfg.modelPath,
        [UpMessage("system", ChooseSystemPrompt(req.messages, injected, cfg)),
         UpMessage("user", users[|users| - 1].content)],
        FloatOr(req.temperature, cfg.params.temperature.GetOr(FallbackTemperature)),
        FloatOr(req.topP, cfg.params.topP.GetOr(FallbackTopP)),
        IntOr(req.topK, cfg.params.topK.GetOr(FallbackTopK)),
        req.stream))
  }

  /** The user turn sent upstream is the conversation's last user message,
      whatever follows it. */
  lemma BuildUpstreamPayloadUserTurn(req: ChatRequest, cfg: RouteConfig, injected: Option<string>, i: int)
    requires LastOfRole(req.messages, "user", i)
    ensures BuildUpstreamPayload(req, cfg, injected).Ok?
    ensures BuildUpstreamPayload(req, cfg, injected).value.messages[1] == UpMessage("user", req.messages[i].content)
  {
    WithRoleLast(req.messages, "user", i);
  }

  /** The system-prompt precedence by message index: a system message in the
      conversation always wins, and only without one do the injected and
      route prompts apply, in that order. */
  lemma {:induction false} SystemPromptPrecedence(ms: seq<Message>, injected: Option<string>, cfg: RouteConfig)
    ensures forall i :: LastOfRole(ms, "system", i) ==> ChooseSystemPrompt(ms, injected, cfg) == ms[i].content
    ensures (forall i :: 0 <= i < |ms| ==> ms[i].role != "system") ==>
      ChooseSystemPrompt(ms, injected, cfg) == (if injected.Some? then injected else Some(cfg.systemPrompt.GetOr("")))
  {
    forall i | LastOfRole(ms, "system", i)
      ensures ChooseSystemPrompt(ms, injected, cfg) == ms[i].content
    {
      WithRoleLast(ms, "system", i);
    }
  }

  /** The Python `or` falls back on the route for any falsy request value, so
      a request left at its declared defaults (temperature 1.0, top_p 1.0)
      overrides the route's temperature and top_p, while a zero value does
      not; only top_k, whose default is null, reaches the route. */
  lemma DefaultRequestSampling(model: string, ms: seq<Message>, cfg: RouteConfig, injected: Option<string>)
    requires exists i :: 0 <= i < |ms| && ms[i].role == "user"
    ensures var r := BuildUpstreamPayload(NewRequest(model, ms), cfg, injected);
      && r.Ok?
      && r.value.temperature == DefaultTemperature
      && r.value.topP == DefaultTopP
      && r.value.topK == cfg.params.topK.GetOr(FallbackTopK)
  {
  }

  /** A zero temperature in the request is falsy and is replaced. */
  lemma ZeroTemperatureFallsBack(req: ChatRequest, cfg: RouteConfig, injected: Option<string>)
    requires req.temperature == Some(Float("0.0"))
    requires BuildUpstreamPayload(req, cfg, injected).Ok?
    ensures BuildUpstreamPayload(req, cfg, injected).value.temperature
      == cfg.params.temperature.GetOr(FallbackTemperature)
  {
  }
}
