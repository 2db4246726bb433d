/** The request and response schemas of the OpenAI-compatible API
    (src/llm_wrapper/server/models.py): messages, the chat request with its
    field defaults, the before-validator that refuses `functions` together
    with `tools`, and the completion response. Function/tool declarations
    are opaque pass-through data and are not represented. */
module Requests {
  import opened Base
  import opened Dicts
  import opened Json

  /** A chat message; `content` is optional and may be null. */
  datatype Message = Message(role: string, content: Option<string>)

  datatype ChatRequest = ChatRequest(
    model: string,
    messages: seq<Message>,
    temperature: Option<Float>,
    topP: Option<Float>,
    topK: Option<int>,
    n: Option<int>,
    stream: Option<bool>)

  const DefaultTemperature: Float := Float("1.0")
  const DefaultTopP: Float := Float("1.0")
  const DefaultN: int := 1

  /** A request in which the client set only `model` and `messages`: every
      optional field takes its declared default (temperature 1.0, top_p 1.0,
      top_k null, n 1, stream false). */
  function NewRequest(model: string, messages: seq<Message>): ChatRequest {
    ChatRequest(model, messages, Some(DefaultTemperature), Some(DefaultTopP), None, Some(DefaultN), Some(false))
  }

  /** Python truthiness of the optional `stream` field. */
  predicate Streams(r: ChatRequest) {
    r.stream == Some(true)
  }

  const BothFunctionsAndTools := "Cannot provide both 'functions' and 'tools'"

  /** `data.get(key)` is truthy; a missing key reads as `None`. */
  predicate KeyTruthy(fields: Dict<Json>, key: string) {
    match Find(fields, key)
    case Some(v) => Truthy(v)
    case None => false
  }

  /** The "before" validator of the request model, run on the raw body. */
  function ValidateFunctionsAndTools(data: Json): (r: Result<Json, string>)
    ensures r.Err? <==> data.JObj? && KeyTruthy(data.fields, "functions") && KeyTruthy(data.fields, "tools")
    ensures r.Err? ==> r.error == BothFunctionsAndTools
    ensures r.Ok? ==> r.value == data
  {
    if data.JObj? && KeyTruthy(data.fields, "functions") && KeyTruthy(data.fields, "tools")
    then Err(BothFunctionsAndTools)
    else Ok(data)
  }

  /** An index-level reading of the validator on a well-formed dict: the body
      is refused exactly when it has a truthy `functions` entry and a truthy
      `tools` entry; an empty list in either one lets the body through. */
  lemma {:induction false} ValidatorRefusesExactlyBothTruthy(fields: Dict<Json>)
    requires UniqueKeys(fields)
    ensures ValidateFunctionsAndTools(JObj(fields)).Err? <==>
      (exists i :: 0 <= i < |fields| && fields[i].0 == "functions" && Truthy(fields[i].1))
      && (exists j :: 0 <= j < |fields| && fields[j].0 == "tools" && Truthy(fields[j].1))
  {
    forall key | key == "functions" || key == "tools"
      ensures KeyTruthy(fields, key) <==> exists i :: 0 <= i < |fields| && fields[i].0 == key && Truthy(fields[i].1)
    {
      if i :| 0 <= i < |fields| && fields[i].0 == key && Truthy(fields[i].1) {
        FindAt(fields, i);
      }
      if KeyTruthy(fields, key) {
        var k :| 0 <= k < |fields| && Keys(fields)[k] == key;
        FindAt(fields, k);
      }
    }
  }

  datatype Usage = Usage(promptTokens: int, completionTokens: int, totalTokens: int)

  datatype Choice = Choice(index: int, message: Message, finishReason: Option<string>)

  /** A non-streaming completion as validated from the upstream's JSON;
      `object` is "chat.completion" unless the upstream says otherwise. */
  datatype ChatResponse = ChatResponse(
    id: string,
    object: string,
    created: int,
    model: string,
    choices: seq<Choice>,
    usage: Usage)

  const CompletionObject := "chat.completion"
  const ChunkObject := "chat.completion.chunk"
}
