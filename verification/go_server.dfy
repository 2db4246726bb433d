/** The chat-completions handlers of golang/main.go and
    golang/cmd/server/main.go, which forward the decoded request to the
    model's url without the Python gateway's payload rewriting, and the two
    environment lookups of golang/main.go. The HTTP exchange with the
    upstream is a parameter. */
module GoServer {
  import opened Base
  import opened Strings
  import opened Json
  import opened GoText
  import opened GoYaml

  /** A written response: the status, the Content-Type the handler sets
      (None when it sets none and Go sniffs one), and the body in the pieces
      it is written in. */
  datatype Reply = Reply(status: int, contentType: Option<string>, chunks: seq<string>)

  const PlainText := "text/plain; charset=utf-8"
  const JsonType := "application/json"
  const EventStream := "text/event-stream"
  const ModelNotFound := "model not found"

  /** Go's `http.Error`: the message and a newline, as plain text. */
  function HttpError(msg: string, status: int): (r: Reply)
    ensures Concat(r.chunks) == msg + "\n"
  {
    Reply(status, Some(PlainText), [msg + "\n"])
  }

  /** The request as `json.Decoder.Decode` leaves it in a
      `map[string]interface{}`; a JSON `null` leaves a nil map, which reads
      like the empty map. */
  type Request = map<string, Json>

  /** What the upstream exchange came to: building or sending the request
      failed, or the upstream answered with a status and a body. */
  datatype Exchange = Failed(message: string) | Received(status: int, body: string)

  /** `req["model"].(string)`, "" when absent or not a string. */
  function ModelId(req: Request): string {
    if "model" in req && req["model"].JStr? then req["model"].s else ""
  }

  /** `req["stream"].(bool)`. */
  predicate StreamRequested(req: Request) {
    "stream" in req && req["stream"] == JBool(true)
  }

  /** The pieces `bufio.Reader.ReadBytes('\n')` returns until the end of the
      body, empty pieces dropped as the copy loop drops them: each piece is
      one line with its newline, the last one possibly without. */
  function ReadChunks(body: string): seq<string>
    decreases |body|
  {
    if |body| == 0 then []
    else
      var i := NewlineAt(body);
      if i == |body| then [body] else [body[..i + 1]] + ReadChunks(body[i + 1..])
  }

  /** Pieces as `ReadBytes('\n')` returns them: each non-empty, with no
      newline but possibly its last character, and all but the last ending
      in one. */
  predicate Chunked(r: seq<string>) {
    && (forall i :: 0 <= i < |r| ==> |r[i]| > 0)
    && (forall i :: 0 <= i < |r| - 1 ==> r[i][|r[i]| - 1] == '\n')
    && (forall i, j :: 0 <= i < |r| && 0 <= j < |r[i]| - 1 ==> r[i][j] != '\n')
  }

  /** The pieces put together are the body. */
  lemma {:induction false} ReadChunksConcat(body: string)
    ensures Concat(ReadChunks(body)) == body
    decreases |body|
  {
    if |body| > 0 {
      var i := NewlineAt(body);
      if i == |body| {
        assert ReadChunks(body) == [body];
        ConcatOne(body);
      } else {
        var head, tail := body[..i + 1], body[i + 1..];
        ReadChunksConcat(tail);
        ReadChunksFirst(body, i);
        ConcatCons(head, ReadChunks(tail));
        SplitAt(body, i + 1);
      }
    }
  }

  lemma ReadChunksFirst(body: string, i: nat)
    requires i == NewlineAt(body) < |body|
    ensures ReadChunks(body) == [body[..i + 1]] + ReadChunks(body[i + 1..])
  {
  }

  lemma SplitAt(s: string, k: nat)
    requires k <= |s|
    ensures s[..k] + s[k..] == s
  {
  }

  /** Each piece is one line of the body with its newline. */
  lemma {:induction false} ReadChunksShape(body: string)
    ensures Chunked(ReadChunks(body))
    decreases |body|
  {
    if |body| > 0 {
      var i := NewlineAt(body);
      if i < |body| {
        ReadChunksShape(body[i + 1..]);
        ChunkedCons(body[..i + 1], ReadChunks(body[i + 1..]));
      }
    }
  }

  lemma ChunkedCons(head: string, rest: seq<string>)
    requires |head| > 0 && head[|head| - 1] == '\n'
    requires forall j :: 0 <= j < |head| - 1 ==> head[j] != '\n'
    requires Chunked(rest)
    ensures Chunked([head] + rest)
  {
    assert forall k :: 0 < k < |[head] + rest| ==> ([head] + rest)[k] == rest[k - 1];
  }

  /** `chatCompletionHandler` of golang/main.go. */
  function HandleMain(decoded: Result<Request, string>, configs: map<string, GoConfig>,
                      post: (string, Request) -> Exchange): (r: Reply)
    ensures decoded.Err? ==> r == HttpError(decoded.error, 400)
    ensures decoded.Ok? && ModelId(decoded.value) !in configs ==> r == HttpError(ModelNotFound, 404)
    ensures decoded.Ok? && ModelId(decoded.value) in configs ==>
      var x := post(configs[ModelId(decoded.value)].url, decoded.value);
      && (x.Failed? ==> r == HttpError(x.message, 502))
      && (x.Received? ==> r.status == x.status && Concat(r.chunks) == x.body && r.contentType == Some(JsonType))
  {
    match decoded
    case Err(m) => HttpError(m, 400)
    case Ok(req) =>
      var id := ModelId(req);
      if id !in configs then HttpError(ModelNotFound, 404)
      else
        match post(configs[id].url, req)
        case Failed(m) => HttpError(m, 502)
        case Received(status, body) =>
          ConcatOne(body);
          Reply(status, Some(JsonType), [body])
  }

  /** `chatCompletionHandler` of golang/cmd/server/main.go: as above, but a
      request with `"stream": true` is answered 200 as an event stream and
      the upstream body relayed line by line, whatever the upstream's
      status. */
  function HandleServer(decoded: Result<Request, string>, configs: map<string, ServerConfig>,
                        post: (string, Request) -> Exchange): (r: Reply)
    ensures decoded.Err? ==> r == HttpError(decoded.error, 400)
    ensures decoded.Ok? && ModelId(decoded.value) !in configs ==> r == HttpError(ModelNotFound, 404)
    ensures decoded.Ok? && ModelId(decoded.value) in configs ==>
      var x := post(configs[ModelId(decoded.value)].config.url, decoded.value);
      && (x.Failed? ==> r == HttpError(x.message, 502))
      && (x.Received? ==> Concat(r.chunks) == x.body)
      && (x.Received? && StreamRequested(decoded.value) ==> r.status == 200 && r.contentType == Some(EventStream))
      && (x.Received? && !StreamRequested(decoded.value) ==> r.status == x.status && r.contentType.None?)
  {
    match decoded
    case Err(m) => HttpError(m, 400)
    case Ok(req) =>
      var id := ModelId(req);
      if id !in configs then HttpError(ModelNotFound, 404)
      else
        match post(configs[id].config.url, req)
        case Failed(m) => HttpError(m, 502)
        case Received(status, body) =>
          if StreamRequested(req) then
            ReadChunksConcat(body);
            Reply(200, Some(EventStream), ReadChunks(body))
          else
            ConcatOne(body);
            Reply(status, None, [body])
  }

  /** Two handlers over tables with the same models and urls answer a
      non-streaming request with the same status and the same body. */
  lemma HandlersAgreeUnlessStreaming(decoded: Result<Request, string>, mc: map<string, GoConfig>,
                                     sc: map<string, ServerConfig>, post: (string, Request) -> Exchange)
    requires forall id :: id in mc <==> id in sc
    requires forall id :: id in mc && id in sc ==> mc[id].url == sc[id].config.url
    requires decoded.Ok? ==> !StreamRequested(decoded.value)
    ensures HandleMain(decoded, mc, post).status == HandleServer(decoded, sc, post).status
    ensures Concat(HandleMain(decoded, mc, post).chunks) == Concat(HandleServer(decoded, sc, post).chunks)
  {
  }

  /** A streaming request to the server answers 200 even when the upstream
      refused it: the upstream's error body is relayed as the stream. */
  lemma StreamMasksUpstreamStatus(req: Request, configs: map<string, ServerConfig>,
                                  post: (string, Request) -> Exchange, status: int, body: string)
    requires StreamRequested(req) && ModelId(req) in configs
    requires post(configs[ModelId(req)].config.url, req) == Received(status, body)
    ensures HandleServer(Ok(req), configs, post).status == 200
    ensures HandleServer(Ok(req), configs, post).chunks == ReadChunks(body)
  {
  }

  /** `getConfigDir` of golang/main.go. */
  const DefaultConfigDir := "../src/llm_wrapper/configs"

  function ConfigDir(env: string): (dir: string)
    ensures env != "" ==> dir == env
    ensures dir != ""
  {
    if env != "" then env else DefaultConfigDir
  }

  /** The listen address of golang/main.go from `PORT`: ":8000" when unset,
      otherwise the value with a leading ':' supplied when missing. */
  function ListenAddr(port: string): (addr: string)
    ensures HasPrefix(addr, ":")
    ensures port == "" ==> addr == ":8000"
    ensures port != "" ==> TrimPrefix(addr, ":") == TrimPrefix(port, ":")
  {
    if port == "" then ":8000"
    else if HasPrefix(port, ":") then port
    else ":" + port
  }

  /** An address is its own `PORT`. */
  lemma ListenAddrIdempotent(port: string)
    ensures ListenAddr(ListenAddr(port)) == ListenAddr(port)
  {
  }
}
