/** The streaming relay (`stream_completion` in
    src/llm_wrapper/server/api.py): a synthetic role-announcement frame,
    then every upstream `data:` line that parses as JSON re-emitted in the
    gateway's own framing, then exactly one `[DONE]` sentinel. `parse`
    stands for `json.loads` (None when it raises) and `dump` for
    `json.dumps`. */
module Relay {
  import opened Base
  import opened Strings
  import opened Json
  import opened Errors
  import opened Requests
  import opened Routing
  import opened Payload
  import opened Completion

  /** One event of the gateway's stream: a JSON chunk or the sentinel. */
  datatype Frame = Data(chunk: Json) | Done

  /** What one streaming request produced: the request sent upstream (if
      one was), the frames emitted, and whether the generator ran to its
      end rather than dying with an exception. */
  datatype StreamRun = StreamRun(sent: Option<Prepared>, frames: seq<Frame>, complete: bool)

  const DataPrefix := "data: "
  const DoneLine := "data: [DONE]"

  /** The stream's id: a fixed prefix and the hex form of a fresh uuid4. */
  function ChatId(uuidHex: string): (id: string)
    ensures HasPrefix(id, "chatcmpl-") && id[9..] == uuidHex
  {
    "chatcmpl-" + uuidHex
  }

  /** The synthetic first frame announcing the assistant's turn. */
  function RoleChunk(uuidHex: string, created: int, model: string): Json {
    JObj([
      ("id", JStr(ChatId(uuidHex))),
      ("object", JStr(ChunkObject)),
      ("created", JInt(created)),
      ("model", JStr(model)),
      ("choices", JArr([JObj([("index", JInt(0)), ("delta", JObj([("role", JStr("assistant"))]))])]))])
  }

  /** The in-band error frame `{"error": text}`. */
  function ErrorChunk(text: string): Json {
    JObj([("error", JStr(text))])
  }

  /** An error frame followed by the sentinel. */
  function ErrorEnd(text: string): seq<Frame> {
    [Data(ErrorChunk(text)), Done]
  }

  /** An upstream line that is relayed: stripped, it is a `data: ` line
      other than the upstream's own sentinel, and its payload parses. */
  predicate Relayable(line: string, parse: string -> Option<Json>) {
    var d := Strip(line);
    HasPrefix(d, DataPrefix) && d != DoneLine && parse(d[|DataPrefix|..]).Some?
  }

  /** The frames one upstream line turns into: at most one chunk, never a
      sentinel; a relayable line yields exactly the chunk its payload parses
      to, and any other line nothing. */
  function RelayLine(line: string, parse: string -> Option<Json>): (r: seq<Frame>)
    ensures |r| <= 1 && forall k :: 0 <= k < |r| ==> r[k].Data?
    ensures |r| == 1 <==> Relayable(line, parse)
    ensures |r| == 1 ==> HasPrefix(Strip(line), DataPrefix) && Some(r[0].chunk) == parse(Strip(line)[|DataPrefix|..])
    ensures Strip(line) == DoneLine ==> r == []
  {
    var d := Strip(line);
    if HasPrefix(d, DataPrefix) && d != DoneLine then
      match parse(d[|DataPrefix|..])
      case Some(j) => [Data(j)]
      case None => []
    else []
  }

  /** How many of `lines` are relayed. */
  function CountRelayable(lines: seq<string>, parse: string -> Option<Json>): nat {
    if |lines| == 0 then 0 else (if Relayable(lines[0], parse) then 1 else 0) + CountRelayable(lines[1..], parse)
  }

  /** The frames an upstream body turns into, in arrival order: one chunk
      per relayable line. */
  function RelayLines(lines: seq<string>, parse: string -> Option<Json>): (r: seq<Frame>)
    ensures |r| == CountRelayable(lines, parse)
    ensures forall k :: 0 <= k < |r| ==> r[k].Data?
  {
    if |lines| == 0 then [] else RelayLine(lines[0], parse) + RelayLines(lines[1..], parse)
  }

  /** Relaying is line by line: the frames of a body are those of its parts,
      in order. */
  lemma {:induction false} RelayLinesAppend(a: seq<string>, b: seq<string>, parse: string -> Option<Json>)
    ensures RelayLines(a + b, parse) == RelayLines(a, parse) + RelayLines(b, parse)
  {
    if |a| == 0 {
      assert a + b == b;
    } else {
      var head := RelayLine(a[0], parse);
      assert (a + b)[0] == a[0];
      assert (a + b)[1..] == a[1..] + b;
      RelayLinesAppend(a[1..], b, parse);
      assert RelayLines(a + b, parse) == head + RelayLines(a[1..] + b, parse);
      FramesAssoc(head, RelayLines(a[1..], parse), RelayLines(b, parse));
    }
  }

  lemma FramesAssoc(x: seq<Frame>, y: seq<Frame>, z: seq<Frame>)
    ensures x + (y + z) == (x + y) + z
  {
  }

  /** Every relayable line appears as its own chunk, after exactly as many
      chunks as there are relayable lines before it: with the count above,
      the chunks are the relayable lines' payloads, in order, and nothing
      else. */
  lemma RelayLinesAt(lines: seq<string>, parse: string -> Option<Json>, i: nat)
    requires i < |lines| && Relayable(lines[i], parse)
    ensures var k := CountRelayable(lines[..i], parse);
      && k < |RelayLines(lines, parse)|
      && RelayLines(lines, parse)[k] == Data(parse(Strip(lines[i])[|DataPrefix|..]).value)
  {
    var a, b := lines[..i], lines[i + 1..];
    assert lines == a + [lines[i]] + b;
    RelayLinesAppend(a + [lines[i]], b, parse);
    RelayLinesAppend(a, [lines[i]], parse);
    RelayLinesSingle(lines[i], parse);
  }

  /** An upstream `[DONE]` line (with any surrounding whitespace) produces
      nothing and does not end the relay: what follows it is relayed too. */
  lemma UpstreamDoneIgnored(a: seq<string>, done: string, b: seq<string>, parse: string -> Option<Json>)
    requires Strip(done) == DoneLine
    ensures RelayLines(a + [done] + b, parse) == RelayLines(a, parse) + RelayLines(b, parse)
  {
    RelayLinesAppend(a + [done], b, parse);
    RelayLinesAppend(a, [done], parse);
    RelayLinesSingle(done, parse);
  }

  lemma RelayLinesSingle(line: string, parse: string -> Option<Json>)
    ensures RelayLines([line], parse) == RelayLine(line, parse)
  {
    assert [line][1..] == [];
  }

  /** A line whose payload does not parse is dropped without ending the
      relay. */
  lemma MalformedLineDropped(a: seq<string>, bad: string, b: seq<string>, parse: string -> Option<Json>)
    requires !HasPrefix(Strip(bad), DataPrefix) || parse(Strip(bad)[|DataPrefix|..]) == None
    ensures RelayLines(a + [bad] + b, parse) == RelayLines(a, parse) + RelayLines(b, parse)
  {
    RelayLinesAppend(a + [bad], b, parse);
    RelayLinesAppend(a, [bad], parse);
    RelayLinesSingle(bad, parse);
  }

  /** The frames after the role announcement, for a request that reached the
      upstream. */
  function Tail(up: Upstream, parse: string -> Option<Json>): (r: seq<Frame>)
    ensures |r| >= 1 && r[|r| - 1] == Done
    ensures forall k :: 0 <= k < |r| - 1 ==> r[k].Data?
    ensures up.PostFailed? ==> r == ErrorEnd(up.message)
    ensures up.Answered? && up.status != 200 && up.failure.Some? ==> r == ErrorEnd(up.failure.value)
    ensures up.Answered? && up.status != 200 && up.failure.None? ==> r == ErrorEnd(Concat(up.lines))
    ensures up.Answered? && up.status == 200 ==>
      var relayed := RelayLines(up.lines, parse);
      && |r| == |relayed| + (if up.failure.Some? then 2 else 1)
      && (forall k :: 0 <= k < |relayed| ==> r[k] == relayed[k])
      && (up.failure.Some? ==> r[|r| - 2] == Data(ErrorChunk(up.failure.value)))
  {
    match up
    case PostFailed(m) => ErrorEnd(m)
    case Answered(status, lines, failure) =>
      if status != 200 then
        if failure.Some? then ErrorEnd(failure.value) else ErrorEnd(Concat(lines))
      else
        RelayLines(lines, parse) + (if failure.Some? then ErrorEnd(failure.value) else [Done])
  }

  /** `stream_completion` as written: the lookup and the body builder run
      before the first frame and outside the `try`, so their errors end the
      generator with no frame at all. */
  function StreamCompletion(table: Table, req: ChatRequest, systemPrompt: string, up: Upstream,
                            parse: string -> Option<Json>, uuidHex: string, created: int): (r: StreamRun)
    ensures r.complete <==> Prepare(table, req, Some(systemPrompt)).Ok?
    ensures !r.complete ==> r.frames == [] && r.sent.None?
    ensures r.complete ==>
      var p := Prepare(table, req, Some(systemPrompt)).value;
      && r.sent == Some(Prepared(p.url, p.payload.(stream := Some(true))))
      && |r.frames| >= 2
      && r.frames[0] == Data(RoleChunk(uuidHex, created, req.model))
      && r.frames[|r.frames| - 1] == Done
      && forall k :: 0 <= k < |r.frames| - 1 ==> r.frames[k].Data?
  {
    match Prepare(table, req, Some(systemPrompt))
    case Err(_) => StreamRun(None, [], false)
    case Ok(p) =>
      StreamRun(Some(Prepared(p.url, p.payload.(stream := Some(true)))),
                [Data(RoleChunk(uuidHex, created, req.model))] + Tail(up, parse), true)
  }

  /** A healthy upstream stream: the role frame, one frame per parsable
      upstream `data:` line in order, and the sentinel. */
  lemma StreamRelaysInOrder(table: Table, req: ChatRequest, systemPrompt: string, lines: seq<string>,
                            parse: string -> Option<Json>, uuidHex: string, created: int)
    requires Prepare(table, req, Some(systemPrompt)).Ok?
    ensures StreamCompletion(table, req, systemPrompt, Answered(200, lines, None), parse, uuidHex, created).frames
      == [Data(RoleChunk(uuidHex, created, req.model))] + RelayLines(lines, parse) + [Done]
  {
  }

  /** An upstream error status yields one error frame carrying the upstream
      body verbatim, then the sentinel. */
  lemma StreamReportsUpstreamError(table: Table, req: ChatRequest, systemPrompt: string, status: int, lines: seq<string>,
                                   parse: string -> Option<Json>, uuidHex: string, created: int)
    requires Prepare(table, req, Some(systemPrompt)).Ok? && status != 200
    ensures StreamCompletion(table, req, systemPrompt, Answered(status, lines, None), parse, uuidHex, created).frames
      == [Data(RoleChunk(uuidHex, created, req.model)), Data(ErrorChunk(Concat(lines))), Done]
  {
  }

  /** A transport failure mid-stream keeps what was already relayed, then
      reports the failure and closes with the sentinel. */
  lemma StreamFailureKeepsRelayed(table: Table, req: ChatRequest, systemPrompt: string, lines: seq<string>, failure: string,
                                  parse: string -> Option<Json>, uuidHex: string, created: int)
    requires Prepare(table, req, Some(systemPrompt)).Ok?
    ensures StreamCompletion(table, req, systemPrompt, Answered(200, lines, Some(failure)), parse, uuidHex, created).frames
      == [Data(RoleChunk(uuidHex, created, req.model))] + RelayLines(lines, parse) + ErrorEnd(failure)
  {
  }

  function CountDone(fs: seq<Frame>): nat {
    if |fs| == 0 then 0 else (if fs[0].Done? then 1 else 0) + CountDone(fs[1..])
  }

  /** Exactly one sentinel: every frame but the last is a chunk. */
  lemma {:induction false} OneSentinel(fs: seq<Frame>)
    requires |fs| >= 1 && fs[|fs| - 1] == Done
    requires forall k :: 0 <= k < |fs| - 1 ==> fs[k].Data?
    ensures CountDone(fs) == 1
  {
    if |fs| > 1 {
      OneSentinel(fs[1..]);
    }
  }

  /** Whenever the relay runs to its end, the sentinel is emitted exactly
      once, and it is the last frame. */
  lemma StreamEndsOnce(table: Table, req: ChatRequest, systemPrompt: string, up: Upstream,
                       parse: string -> Option<Json>, uuidHex: string, created: int)
    requires Prepare(table, req, Some(systemPrompt)).Ok?
    ensures CountDone(StreamCompletion(table, req, systemPrompt, up, parse, uuidHex, created).frames) == 1
  {
    OneSentinel(StreamCompletion(table, req, systemPrompt, up, parse, uuidHex, created).frames);
  }

  /** The wire text of a frame. */
  function Wire(f: Frame, dump: Json -> string): string {
    match f
    case Data(j) => DataPrefix + dump(j) + "\n\n"
    case Done => DoneLine + "\n\n"
  }

  function WireAll(fs: seq<Frame>, dump: Json -> string): (r: seq<string>)
    ensures |r| == |fs| && forall k :: 0 <= k < |fs| ==> r[k] == Wire(fs[k], dump)
  {
    if |fs| == 0 then [] else [Wire(fs[0], dump)] + WireAll(fs[1..], dump)
  }

  /** A chunk's wire text is the sentinel's only if the chunk dumps to "[DONE]". */
  lemma WireDataNotDone(j: Json, dump: Json -> string)
    requires dump(j) != "[DONE]"
    ensures Wire(Data(j), dump) != DoneLine + "\n\n"
  {
    var w := Wire(Data(j), dump);
    var d := DoneLine + "\n\n";
    if |dump(j)| == 6 {
      assert w[6..12] == dump(j);
      assert d[6..12] == "[DONE]";
    } else {
      assert |w| != |d|;
    }
  }

  /** On the wire, a client sees `data: [DONE]` exactly as the last line of
      a completed stream and nowhere earlier, since no JSON value dumps to
      the bare text `[DONE]`. */
  lemma SentinelOnlyAtEnd(table: Table, req: ChatRequest, systemPrompt: string, up: Upstream,
                          parse: string -> Option<Json>, dump: Json -> string, uuidHex: string, created: int)
    requires Prepare(table, req, Some(systemPrompt)).Ok?
    requires forall j :: dump(j) != "[DONE]"
    ensures var w := WireAll(StreamCompletion(table, req, systemPrompt, up, parse, uuidHex, created).frames, dump);
      && w[|w| - 1] == DoneLine + "\n\n"
      && forall k :: 0 <= k < |w| - 1 ==> w[k] != DoneLine + "\n\n"
  {
    var fs := StreamCompletion(table, req, systemPrompt, up, parse, uuidHex, created).frames;
    forall k | 0 <= k < |fs| - 1
      ensures WireAll(fs, dump)[k] != DoneLine + "\n\n"
    {
      WireDataNotDone(fs[k].chunk, dump);
    }
  }

  /** The relay with the lookup and the body builder inside its error
      handling: a request that cannot be prepared is reported in-band like
      any other failure, so every stream ends with the sentinel. */
  function StreamCompletionCorrected(table: Table, req: ChatRequest, systemPrompt: string, up: Upstream,
                                     parse: string -> Option<Json>, uuidHex: string, created: int): (r: StreamRun)
    ensures r.complete
    ensures |r.frames| >= 2 && r.frames[0] == Data(RoleChunk(uuidHex, created, req.model))
    ensures r.frames[|r.frames| - 1] == Done && forall k :: 0 <= k < |r.frames| - 1 ==> r.frames[k].Data?
    ensures Prepare(table, req, Some(systemPrompt)).Ok? ==>
      r == StreamCompletion(table, req, systemPrompt, up, parse, uuidHex, created)
    ensures Prepare(table, req, Some(systemPrompt)).Err? ==>
      r.sent.None? && r.frames[1] == Data(ErrorChunk(ExcText(Prepare(table, req, Some(systemPrompt)).error)))
  {
    match Prepare(table, req, Some(systemPrompt))
    case Err(e) => StreamRun(None, [Data(RoleChunk(uuidHex, created, req.model))] + ErrorEnd(ExcText(e)), true)
    case Ok(_) => StreamCompletion(table, req, systemPrompt, up, parse, uuidHex, created)
  }

  /** As written, a streaming request that routes but holds no user message
      produces no frame at all, so the client never sees the sentinel; the
      corrected relay reports the 400 in-band and closes with exactly one
      sentinel. */
  lemma NoUserMessageStream(table: Table, req: ChatRequest, systemPrompt: string, up: Upstream,
                            parse: string -> Option<Json>, uuidHex: string, created: int)
    requires GetConfigOrRaise(table, req.model).Ok?
    requires forall i :: 0 <= i < |req.messages| ==> req.messages[i].role != "user"
    ensures var r := StreamCompletion(table, req, systemPrompt, up, parse, uuidHex, created);
      !r.complete && CountDone(r.frames) == 0
    ensures var c := StreamCompletionCorrected(table, req, systemPrompt, up, parse, uuidHex, created);
      CountDone(c.frames) == 1 && c.frames[1] == Data(ErrorChunk(ExcText(NoUserMessage)))
  {
    var c := StreamCompletionCorrected(table, req, systemPrompt, up, parse, uuidHex, created);
    OneSentinel(c.frames);
  }
}
