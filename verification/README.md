# llm-proxy in Dafny

This project models the request path of llm-proxy, an OpenAI-compatible chat
gateway. It covers the Python FastAPI server and the five Go variants next to
it, and proves properties of that model.

The Python server has four parts:

- a routing table loaded from a directory of YAML files, one model per file;
- a lookup that answers 404 for an unknown model;
- a builder that reduces a chat request to the upstream body: the last user
  turn, a system prompt chosen by precedence, and sampling parameters that
  fall back from the request to the route to fixed defaults;
- two ways of calling the upstream. The blocking call maps every failure to
  a 500. The streaming relay re-frames the upstream's server-sent events and
  always closes with one `data: [DONE]` sentinel.

Around them sit the request validator, the system-prompt dependency, and the
handler that dispatches on `stream`. An exception handler wraps every error in
the `{"error": {..., "type": "api_error"}}` envelope.

The Go variants each have a line-oriented mini-YAML parser, a directory
loader, and (in two of them) a proxy handler. The model gives all five
parsers one shared fold over trimmed lines and one acceptance rule per variant.

The modules follow the source:

| module | models |
|---|---|
| `Base`, `Strings`, `Dicts`, `Json` | `Option`/`Result`; string primitives (Go's `TrimSpace`, Python's `strip`, `repr`); Python dicts as ordered association lists; JSON values with Python truthiness |
| `Requests`, `Errors` | src/llm_wrapper/server/models.py; FastAPI's `HTTPException` and its `str()` |
| `Routing`, `Payload`, `Completion`, `Relay` | src/llm_wrapper/server/api.py |
| `Front` | src/llm_wrapper/server/main.py and deps.py |
| `Files`, `ConfigLoader` | the shared "later file wins" directory loop; src/llm_wrapper/server/config_loader.py |
| `GoText` | `bufio.ScanLines`, `filepath.Ext`, `strconv.Atoi` |
| `GoYaml` | the five `parseSimpleYAML` functions |
| `GoLoaders` | the five directory loops |
| `GoServer` | the two Go proxy handlers, `getConfigDir` and the `PORT` address |

Everything outside the gateway is a parameter:

- the upstream exchange;
- `json.loads` and `json.dumps`;
- `yaml.safe_load`;
- pydantic's validation of the body and of the upstream answer;
- Go's `strconv.ParseFloat`;
- the clock and the chat id.

Floats are abstract. A Python float is its `repr` text, falsy when that text is
`0.0` or `-0.0`; a Go float is a `real` delivered by the `parseFloat`
parameter. A directory is a sequence of entries, each with a name, a
directory flag, and its content (None when the file cannot be read).

## Model

| member | source | states |
|---|---|---|
| Routing.GetConfigOrRaise | src/llm_wrapper/server/api.py:21-32 | every failure is the 404 naming the model, and a key missing from the table always fails |
| Routing.GetConfigOrRaiseByIndex | src/llm_wrapper/server/api.py:24-32 | on a table with unique keys, lookup succeeds exactly when the key is stored with a non-empty (truthy) entry, and then returns that entry; an empty entry counts as missing |
| Routing.NotFoundNamesEverything | src/llm_wrapper/server/api.py:26-31 | the 404 message quotes the requested model and contains the Python `repr` of every routed key |
| Payload.WithRole | src/llm_wrapper/server/api.py:44-45 | the filter keeps only messages of the role, and is empty exactly when no message has it |
| Payload.WithRoleLast | src/llm_wrapper/server/api.py:48 | the last filtered message is the conversation's last message of that role |
| Payload.BuildUpstreamPayload | src/llm_wrapper/server/api.py:35-75 | fails with 400 "No user message provided." exactly when no message has role user; otherwise the body has the route's model path, exactly two messages (system, then user), the request's `stream`, and each sampling value taken from the request when truthy, else the route, else 0.7 / 1.0 / 40 |
| Payload.BuildUpstreamPayloadUserTurn | src/llm_wrapper/server/api.py:44-48 | the user turn sent is the last user message of the conversation; earlier user messages are dropped |
| Payload.SystemPromptPrecedence | src/llm_wrapper/server/api.py:51-59 | the last system message wins; without one, the injected prompt (even an empty one) is used, then the route's prompt, then "" |
| Payload.DefaultRequestSampling | src/llm_wrapper/server/api.py:68-70 | a request that leaves temperature and top_p at their declared default 1.0 sends 1.0 for both whatever the route says, while top_k (default null) falls back to the route |
| Payload.ZeroTemperatureFallsBack | src/llm_wrapper/server/api.py:68 | a request temperature of 0.0 is falsy and is replaced by the route's value or 0.7 |
| Completion.Prepare | src/llm_wrapper/server/api.py:82-87 | lookup and body-building fail only with the 404 or the 400, and succeed with the route's url and the built body |
| Completion.CallCompletion | src/llm_wrapper/server/api.py:78-114 | lookup and builder errors propagate unchanged; it succeeds exactly when the upstream answers 200 in full and the body validates; every other failure is a 500 whose single `message` is `str(e)`: the transport error's text, the read error's text, `str()` of the upstream's own `HTTPException` for a non-200, or the decoding error's text |
| Completion.UpstreamErrorReported | src/llm_wrapper/server/api.py:103-114 | a non-200 answer becomes a 500 whose message is `"<status>: {'message': '<body>'}"`, so it still contains the upstream body verbatim |
| Errors.MessageExcTextKeepsText | src/llm_wrapper/server/api.py:114 | `str()` of an `HTTPException` with a `{"message": text}` detail is the status, ": ", and the dict's repr, and contains the text |
| Relay.RelayLine | src/llm_wrapper/server/api.py:156-163 | a line yields at most one chunk and never a sentinel; it yields one exactly when, stripped, it is a `data: ` line other than `data: [DONE]` whose remainder parses, and that chunk is what the remainder parses to |
| Relay.RelayLines | src/llm_wrapper/server/api.py:156-163 | relaying a body yields only chunks, never a sentinel, and exactly one per relayable line |
| Relay.RelayLinesAt | src/llm_wrapper/server/api.py:156-161 | each relayable line's chunk is emitted at the position given by the number of relayable lines before it, so the chunks are the relayable payloads in arrival order |
| Relay.RelayLinesAppend | src/llm_wrapper/server/api.py:156-163 | relaying is line by line: the frames of a concatenated body are the frames of its parts, in arrival order |
| Relay.UpstreamDoneIgnored | src/llm_wrapper/server/api.py:158 | an upstream `[DONE]` line produces nothing and does not stop the relay; the lines after it are still relayed |
| Relay.MalformedLineDropped | src/llm_wrapper/server/api.py:159-163 | a line that is not `data: ` or whose payload does not parse is dropped silently, and the relay goes on |
| Relay.Tail | src/llm_wrapper/server/api.py:136-172 | after the role frame, every path that reached the upstream ends with exactly one sentinel, preceded only by chunks; a failed connection gives one error frame with its text; a non-200 gives one error frame with the body, or with the read error's text when reading the body failed; a 200 gives the relayed chunks, then the error frame if reading broke off, then the sentinel |
| Relay.ChatId | src/llm_wrapper/server/api.py:130 | the stream's id is `chatcmpl-` followed by the uuid's hex |
| Relay.StreamCompletion | src/llm_wrapper/server/api.py:117-172 | as written: it completes exactly when lookup and body-building succeed, and then sends the body with `stream` forced to true, emits the role frame first and the sentinel last; otherwise it emits nothing |
| Relay.StreamRelaysInOrder | src/llm_wrapper/server/api.py:156-165 | a healthy upstream gives the role frame, one frame per parsable upstream `data:` line in order, and then the sentinel |
| Relay.StreamReportsUpstreamError | src/llm_wrapper/server/api.py:149-154 | a non-200 upstream gives the role frame, one `{"error": body}` frame, and the sentinel |
| Relay.StreamFailureKeepsRelayed | src/llm_wrapper/server/api.py:168-172 | a failure mid-stream keeps the frames already relayed, then adds one error frame and the sentinel |
| Relay.OneSentinel | src/llm_wrapper/server/api.py:153-172 | a frame list that ends in the sentinel and has only chunks before it holds exactly one sentinel |
| Relay.StreamEndsOnce | src/llm_wrapper/server/api.py:136-172 | a stream that runs emits the sentinel exactly once |
| Relay.WireDataNotDone | src/llm_wrapper/server/api.py:161 | a chunk's wire text is the sentinel's only if the chunk serialises to the bare text `[DONE]` |
| Relay.SentinelOnlyAtEnd | src/llm_wrapper/server/api.py:134-172 | on the wire, `data: [DONE]` is the last string and appears nowhere earlier, given that no JSON value serialises to `[DONE]` |
| Relay.StreamCompletionCorrected | src/llm_wrapper/server/api.py:121-127 | with lookup and body-building inside the error handling, every stream completes with the role frame first and exactly one sentinel last; a failure to prepare is reported in-band; otherwise it behaves as written |
| Relay.NoUserMessageStream | src/llm_wrapper/server/api.py:121-127 | as written, a routed streaming request with no user message emits no frame and no sentinel; the corrected relay reports the 400 and closes with one sentinel |
| Requests.ValidateFunctionsAndTools | src/llm_wrapper/server/models.py:72-77 | the validator refuses exactly a dict whose `functions` and `tools` are both truthy, with the fixed message, and otherwise returns its input unchanged |
| Requests.ValidatorRefusesExactlyBothTruthy | src/llm_wrapper/server/models.py:74-76 | on a dict with unique keys, refusal happens exactly when a truthy `functions` entry and a truthy `tools` entry both exist; an empty list lets the body through |
| Front.ListModels | src/llm_wrapper/server/main.py:101-107 | one entry per routed key, in table order, all with the same timestamp |
| Front.GetSystemPrompt | src/llm_wrapper/server/deps.py:14-22 | an unknown model fails with the lookup's 404; otherwise the result is the route's `system_prompt`, or "" when it has none |
| Front.ChatCompletionAsWritten | src/llm_wrapper/server/main.py:110-158 | as written: it crashes exactly when the last message's content is null; otherwise a streaming request gets the relay, and a blocking one gets the completion or, on any failure, the 500 "Internal server error" |
| Front.ChatCompletion | src/llm_wrapper/server/main.py:128-158 | corrected: it never crashes, every stream completes with a final sentinel, and it agrees with the handler as written wherever that one neither crashes nor fails to prepare a stream |
| Front.NullContentCrashes | src/llm_wrapper/server/main.py:128-131 | a conversation ending in an assistant message with null content crashes the handler as written and is served by the corrected one |
| Front.ErrorObjectShape | src/llm_wrapper/server/main.py:164-170 | the error object always has `"type": "api_error"`; a dict detail keeps every other key, value and key order (adding `type` last when absent); any other detail becomes `{"message": str(detail), "type": "api_error"}` |
| Front.OpenaiStyleError | src/llm_wrapper/server/main.py:160-174 | the envelope's status is the exception's status, and its body is exactly `{"error": <error object>}` |
| Front.Admit | src/llm_wrapper/server/models.py:72-77 | the before-validator runs first, and its refusal is the validation error; otherwise the schema decides |
| Front.Prelude | src/llm_wrapper/server/main.py:110-114 | before the handler runs, a body that fails validation is decided as the 422 and a failing dependency as its error envelope; otherwise the handler gets the validated request and the system prompt |
| Front.ServeAsWritten | src/llm_wrapper/server/main.py:110-174 | as written: a body that fails validation gets the 422, an unknown model the 404 envelope; the server's bare 500 comes exactly when a request past the dependencies ends in a message with null content; a stream request completes exactly when it can be prepared, and otherwise gets a stream with no frame at all |
| Front.Serve | src/llm_wrapper/server/main.py:110-174 | the corrected composition (corrected handler and relay): the same 422 and 404, and it never crashes |
| Front.ServeAgreesAsWritten | src/llm_wrapper/server/main.py:110-174 | the corrected composition answers every request exactly as the code as written does, unless the last content is null or a stream cannot be prepared |
| Front.ServeRefusesFunctionsAndTools | src/llm_wrapper/server/models.py:72-76 | a body with truthy `functions` and `tools` is refused before any routing or upstream call |
| Front.ServeUnknownModel | src/llm_wrapper/server/deps.py:21 | an unknown model gets a 404 whose envelope is exactly the not-found message plus `"type": "api_error"` |
| Front.ServeBlockingFailureIs500 | src/llm_wrapper/server/main.py:152-158 | in the corrected composition, every failure of a blocking request after the dependencies reaches the client as the same 500 "Internal server error" envelope, a 400 for a missing user message included |
| Front.ServeStreamAlwaysTerminates | src/llm_wrapper/server/main.py:137-138 | in the corrected composition, a streaming request that passes the dependencies gets the role frame first and exactly one sentinel, last |
| ConfigLoader.ValidateParameters | src/llm_wrapper/server/config_loader.py:19-23 | parameters validate exactly when no field has a value of the wrong type; each given field is kept, and each missing one becomes its default: temperature 0.7, top_p 1.0, top_k 40, stream false |
| ConfigLoader.Validate | src/llm_wrapper/server/config_loader.py:25-30 | a document validates exactly when it is a mapping with `api.url` and `model.path` and no invalid optional field; the url and path are kept, `system_prompt` is kept or defaults to "", the parameters are the validated section or all defaults when it is missing, and `model_id` is the given stem whatever the file says |
| ConfigLoader.ValidateDocOf | src/llm_wrapper/server/config_loader.py:19-30 | a document that states every field validates to exactly those values |
| ConfigLoader.ValidateFillsDefaults | src/llm_wrapper/server/config_loader.py:19-29 | a document with only the two required fields gets system_prompt "", temperature 0.7, top_p 1.0, top_k 40 and stream false |
| ConfigLoader.Stem | src/llm_wrapper/server/config_loader.py:51 | `Path.stem`: the name is cut at its last dot when that dot is neither the first nor the last character, and otherwise kept whole |
| ConfigLoader.Admit | src/llm_wrapper/server/config_loader.py:48-62 | an entry is admitted exactly when it is a readable `.yaml`/`.yml` file whose document (a falsy one read as `{}`) validates, and then under its stem with the validated configuration, whose `model_id` is that key |
| ConfigLoader.AdmitDocOf | src/llm_wrapper/server/config_loader.py:48-57 | a YAML file whose document states a whole configuration is loaded as exactly that configuration, under its stem |
| ConfigLoader.LoadAllConfigsLastWins | src/llm_wrapper/server/config_loader.py:42-65 | the loaded dict never repeats a key, maps each key to the last valid file with that stem, and stores every configuration under its own `model_id` |
| ConfigLoader.RoutingTable | src/llm_wrapper/server/config_loader.py:57 | the routing table has the loaded keys in order, each entry holding the dumped configuration |
| ConfigLoader.LoadedRouteResolves | src/llm_wrapper/server/config_loader.py:44-68 | at request time a model resolves exactly when some valid file has it as stem, and to the last such file's configuration |
| Files.LastAdmittedSome | src/llm_wrapper/server/config_loader.py:48-57 | a key has a configuration exactly when some entry is admitted under it |
| Files.LoadMapIsLastAdmitted | golang/main.go:53-66 | the Go map holds exactly the keys some entry was admitted under, each with the last such entry's configuration |
| Files.LoadMapAgree | golang/config/loader.go:35-52 | two admission rules that agree on every entry load the same map |
| Files.LoadDictIsLastAdmitted | src/llm_wrapper/server/config_loader.py:57 | the Python dict agrees with the last admitted entry at every key and never repeats a key |
| Files.LoadDictEntriesAdmitted | src/llm_wrapper/server/config_loader.py:51-57 | every stored value came from an entry admitted under the key it is stored at |
| Dicts.PutFind | src/llm_wrapper/server/config_loader.py:57 | after `d[k] = v`, `k` finds `v` and every other key finds what it found before |
| GoText.ScanLines | golang/main.go:81-85 | the scanner's tokens contain no newline, and an empty file has none |
| GoText.ScanLinesUnlines | golang/main.go:84-85 | scanning a file written line by line (lines without newline or trailing CR) gives back the lines |
| GoText.UnlinesScanLines | golang/main.go:84-85 | writing the scanned lines of a CR-free file back gives the file, plus a final newline if it lacked one |
| GoText.TrimAll | golang/main.go:85 | every line is trimmed with Go's `TrimSpace`, and none is added or lost |
| GoText.Ext | golang/main.go:54 | `filepath.Ext` is a suffix of the name that starts at its only dot, and is empty exactly when the name has no dot |
| GoText.GoId | golang/main.go:59 | the id is the name with its extension cut off: name = id + Ext(name) |
| GoText.YamlExtIsSuffix | golang/config/config.go:33 | the extension test and the suffix test for `.yaml`/`.yml` agree |
| GoText.Atoi | golang/cmd/server/main.go:101 | `Atoi` accepts only an optional sign followed by digits whose value fits in 64 bits |
| GoText.AtoiDecimal | golang/cmd/server/main.go:101 | `Atoi` reads back every 64-bit integer's decimal text |
| GoYaml.StepEffect | golang/main.go:84-97 | one loop step: a header line sets the section to the line without its colon; an assigning line sets only its own key, to the trimmed value; `recognized` and `stray` record assignments and other lines |
| GoYaml.AssignedSpec | golang/main.go:90-95 | a line assigns a key only in a section where that key counts and only when it starts with the key's text; it assigns none exactly when no key that counts in the section starts it |
| GoYaml.ScanSection | golang/main.go:86-88 | the section in force at line n is the name of the last header above it, or "" |
| GoYaml.ScanTakesLastAssignment | golang/main.go:90-96 | each field holds the trimmed value of the last line that assigns it (`url:` only in `api`, `path:` only in `model`, `system_prompt:` anywhere), or "" when no line does |
| GoYaml.ScanFlags | golang/config/loader.go:77-86 | `recognized` is set exactly when some line assigns a key; `stray` exactly when some non-header line assigns none |
| GoYaml.RecognizedIffNonEmpty | golang/config/loader.go:91-93 | on trimmed lines, some key is recognised exactly when the configuration is not all-empty |
| GoYaml.Filter | golang/config/loader.go:70-72 | the kept lines are the ones not skipped |
| GoYaml.FilterInert | golang/config/config.go:64-66 | skipping lines that are neither headers nor assignments changes nothing in the parse but the stray flag |
| GoYaml.LinesTrimmed | golang/main.go:84-85 | every line the loop sees is trimmed: it neither starts nor ends with Go whitespace |
| GoYaml.ParseRoot | golang/config.go:44-72 | golang/config.go refuses an unopenable or all-empty file, and otherwise returns what golang/main.go's parser reads |
| GoYaml.ParseLoader | golang/config/loader.go:57-95 | the open error is returned exactly when the file cannot be opened |
| GoYaml.ParseStrict | golang/config/config.go:52-87 | the open error is returned exactly when the file cannot be opened |
| GoYaml.LoaderMatchesRoot | golang/config/loader.go:57-95 | unless a comment line ends in ':', golang/config/loader.go accepts exactly the files golang/config.go accepts, with the same configuration; its only other refusal is `io.ErrUnexpectedEOF` |
| GoYaml.HeadersOnlyRefused | golang/config/loader.go:91-93 | a file of headers and comments alone is refused with `io.ErrUnexpectedEOF` |
| GoYaml.ColonsRefused | golang/config/loader.go:91-93 | the file "::::" is refused with `io.ErrUnexpectedEOF` |
| GoYaml.CommentHeaderDiverges | golang/config/loader.go:70-76 | in the lines `api:`, `#:`, `url: u`, golang/main.go takes `#:` as a header and loses the url, while golang/config/loader.go skips the comment and keeps it |
| GoYaml.StrictMatchesMain | golang/config/config.go:62-86 | golang/config/config.go refuses a file with `os.ErrInvalid` exactly when a non-blank line is neither header nor assignment, and otherwise reads what golang/main.go reads |
| GoYaml.ParamKeyOfSpec | golang/cmd/server/main.go:92-104 | a parameter key is reported only when the line starts with its text, and none is reported when the line starts with no key |
| GoYaml.ParseParamKind | golang/cmd/server/main.go:92-106 | temperature and top_p parse as floats, top_k as an integer, and stream as a boolean |
| GoYaml.ParamStepGet | golang/cmd/server/main.go:91-107 | a parameter line changes only its own key, and only when the value parses |
| GoYaml.StreamLineSets | golang/cmd/server/main.go:104-106 | a `stream:` line always sets the flag, true exactly when the trimmed value is the text `true`, and changes no other parameter |
| GoYaml.ScanParamsTakesLast | golang/cmd/server/main.go:91-107 | each parameter holds the last value set by a parsable line under `parameters`, or Go's zero value; a line whose value does not parse keeps the previous value |
| GoYaml.ParseServer | golang/cmd/server/main.go:69-110 | the server's parser reads the same url, path and prompt as golang/main.go, and an unopenable file gives zero parameters |
| GoLoaders.MainWithinRoot | golang/config.go:21-41 | whatever golang/main.go loads, golang/config.go loads identically; it also loads files that set only a system prompt |
| GoLoaders.LoaderMatchesRootEntry | golang/config/loader.go:35-50 | unless a comment line ends in ':', golang/config/loader.go admits each entry exactly as golang/config.go does, under the same id |
| GoLoaders.LoaderLoadsAsRoot | golang/config/loader.go:27-53 | under the same condition the two loaders build the same map |
| GoLoaders.StrictWithinRoot | golang/config/config.go:26-49 | whatever golang/config/config.go loads, golang/config.go loads identically under the same id |
| GoLoaders.ServerKeepsEveryYamlFile | golang/cmd/server/main.go:46-63 | the server admits every `.yaml`/`.yml` file that is not a directory, even an empty or unopenable one, under the same id as golang/main.go, with the configuration golang/main.go reads |
| GoLoaders.GoIdVersusStem | golang/main.go:59 | for a YAML file name the Go id and the Python stem agree exactly when the last dot is not the first character |
| GoLoaders.DotYamlIds | golang/main.go:59 | a file named `.yaml` is model "" in Go and model ".yaml" in Python |
| GoServer.HttpError | golang/main.go:122 | `http.Error` writes the message followed by a newline |
| GoServer.ReadChunksConcat | golang/cmd/server/main.go:156-168 | the pieces written, put together, are the upstream body verbatim and in order |
| GoServer.ReadChunksShape | golang/cmd/server/main.go:156-168 | each piece is one non-empty line with its newline, only the final piece may lack one, and no piece holds a newline before its end |
| GoServer.HandleMain | golang/main.go:118-144 | in order: an undecodable body gives 400 with the decode error, an unknown model 404 "model not found", a failed post 502; otherwise the upstream status and body pass through as JSON |
| GoServer.HandleServer | golang/cmd/server/main.go:124-174 | the same 400/404/502 ordering; then a request with `"stream": true` is answered 200 as an event stream relaying the upstream body, and any other request passes through the upstream status and body |
| GoServer.HandlersAgreeUnlessStreaming | golang/cmd/server/main.go:170-173 | over tables with the same models and urls, the two handlers give a non-streaming request the same status and body |
| GoServer.StreamMasksUpstreamStatus | golang/cmd/server/main.go:150-155 | a streaming request answers 200 even when the upstream refused it, and relays the upstream's error body as the stream |
| GoServer.ConfigDir | golang/main.go:39-44 | `CONFIG_DIR` is used when set, and the directory is never empty |
| GoServer.ListenAddr | golang/main.go:151-158 | the address always starts with ':'; an unset `PORT` gives ":8000"; otherwise the port text is kept, with ':' prepended when missing |
| GoServer.ListenAddrIdempotent | golang/main.go:151-158 | an address is its own `PORT` |

## Left out

- Telemetry, tracing, metrics and logging. They observe the request path and change no result. One exception is the trace attribute taken before the `try` in `chat_completion`, which is modelled (see Findings).
- The health endpoint is the constant `Front.HealthBody`, `{"status": "ok"}`. `get_chat_request` returns its argument, so it is the identity and has no member.
- aiohttp sessions, timeouts and `async with` scoping are not modelled; the upstream is the datatype `Completion.Upstream`. The `TypeError` fallback for old test stubs is also left out, because the real builder never raises `TypeError`.
- JSON parsing and serialisation, `yaml.safe_load`, and pydantic validation are function parameters. Go's `json.Marshal` re-encoding of the request is not modelled, because the Go handlers forward the decoded map unchanged.
- Float values are abstract: Python floats as their `repr` text, Go floats as the result of a `parseFloat` parameter. There is no float arithmetic.
- Time and `time.Now()` are parameters, and so is the hex text of the `uuid4` in the stream id; the `chatcmpl-` prefix is modelled.
- Environment and timeout settings (config.py), uvicorn, `run`, `ListenAndServe`, and the two Go `/health` and `/v1/models` handlers are process plumbing. The Go model list is the key set of the loaded map.
- The CLI clients (client/cli.py, golang/cmd/cli/main.go) are consumers of the API, not part of it.
- Filesystem enumeration: a directory is an ordered list of entries. `None` is a directory that does not exist (config_loader.py) or that `os.ReadDir` cannot read (Go). In Python, listing an existing path that is not a readable directory raises at import; that failure is not modelled.
- GoText.ScanLines: `bufio.Scanner`'s 64 KiB token limit and read errors are not modelled. A longer line would stop the Go loop early; the model scans the whole file.
- GoText.Atoi: it takes a 64-bit `int` and does not model 32-bit platforms.
- Python's `repr` of strings is modelled for ASCII escapes only. The text the error-message lemmas keep verbatim (`Json.Plain`) is printable ASCII without backslash or quote, where this simplification does not matter.
- The Go stream relay writes and flushes each piece. Flushing and the extra headers (`Cache-Control`, `Connection`, `X-Accel-Buffering`) are not modelled; only the status, the Content-Type and the body pieces are.
- The handler attaches an `X-Error` header to its 500, but `openai_style_error` builds a fresh `JSONResponse` without `exc.headers`, so the client never sees it; the model's envelope has no headers. The format of FastAPI's 422 body is not modelled; the 422 is a reply carrying the validator's message.
- golang/main_test.go calls `run`, `listenAndServe` and `runFn`, which golang/main.go does not define, so that test file does not describe the code as written. The model follows golang/main.go.
- golang/main.go and golang/config.go are both in `package main` and both declare `ModelConfig` and `parseSimpleYAML`. The Go toolchain would not build them together. Each file is modelled on its own.

Where the code and its description disagree, the model follows the code:

- A body with both `functions` and `tools` fails inside pydantic's body validation, so the client gets FastAPI's 422 rather than a 400.
- On the blocking path, a conversation without a user message raises the 400 inside the handler's `try`, so the client sees the generic 500.
- An upstream error status survives only in the text of the 500's message, not as the response status.

## Findings

| source | as written | input that shows it | evidently intended | confidence | as-written member | corrected member |
|---|---|---|---|---|---|---|
| src/llm_wrapper/server/main.py:128-131 | the trace attribute slices `messages[-1].content[:100]` before the `try`, and content is optional | a conversation whose last message is `{"role": "assistant", "content": null}` | a request the schema accepts is served, or at least answered through the error envelope | not executed | Front.ChatCompletionAsWritten (shown by Front.NullContentCrashes) | Front.ChatCompletion |
| src/llm_wrapper/server/api.py:121-127 | `stream_completion` looks up the route and builds the body before its first `yield` and outside its `try` | `{"model": <a routed model>, "stream": true, "messages": [{"role": "system", "content": "x"}]}` | every stream ends with the `data: [DONE]` sentinel and reports failures in-band, as the relay does for every other error | not executed | Relay.StreamCompletion (shown by Relay.NoUserMessageStream) | Relay.StreamCompletionCorrected |
