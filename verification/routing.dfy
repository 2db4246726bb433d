/** The routing table of the Python gateway (the `CONFIGS` dict) and the
    lookup every request goes through (`get_config_or_raise` in
    src/llm_wrapper/server/api.py). */
module Routing {
  import opened Base
  import opened Strings
  import opened Dicts
  import opened Json
  import opened Errors

  /** The optional sampling parameters of a route; a missing one falls back
      to the gateway's built-in default when the payload is built. */
  datatype Params = Params(temperature: Option<Float>, topP: Option<Float>, topK: Option<int>)

  /** What the gateway reads from one route: `api.url`, `model.path`, the
      optional `system_prompt` and `parameters`. */
  datatype RouteConfig = RouteConfig(url: string, modelPath: string, systemPrompt: Option<string>, params: Params)

  /** A table entry; `Falsy` stands for an entry that is present but empty
      (`{}`), which the lookup treats like a missing one. */
  datatype ConfigEntry = Falsy | Entry(config: RouteConfig)

  type Table = Dict<ConfigEntry>

  function StrReprs(ks: seq<string>): (r: seq<string>)
    ensures |r| == |ks| && forall i :: 0 <= i < |ks| ==> r[i] == StrRepr(ks[i])
  {
    if |ks| == 0 then [] else [StrRepr(ks[0])] + StrReprs(ks[1..])
  }

  /** Python's `repr` of a list of strings. */
  function ListRepr(ks: seq<string>): string {
    "[" + Join(", ", StrReprs(ks)) + "]"
  }

  const ModelWord := "Model "
  const NotFoundWords := " not found. Available: "

  /** "Model '<id>' not found. Available: <repr of the key list>". */
  function NotFoundMessage(id: string, available: seq<string>): string {
    ModelWord + ("'" + id + "'") + NotFoundWords + ListRepr(available)
  }

  /** The 404 raised for an unknown model, listing the table's keys. */
  function NotFound(table: Table, id: string): HttpError {
    HttpError(404, MessageDetail(NotFoundMessage(id, Keys(table))))
  }

  /** The configuration routed under `id`, or a 404 when the key is missing
      or its entry is falsy. */
  function GetConfigOrRaise(table: Table, id: string): (r: Result<RouteConfig, HttpError>)
    ensures r.Err? ==> r.error == NotFound(table, id)
    ensures id !in Keys(table) ==> r.Err?
  {
    var found: Option<ConfigEntry> := Find(table, id);
    if found.Some? && found.value.Entry? then Ok(found.value.config) else Err(NotFound(table, id))
  }

  /** On a well-formed table the lookup succeeds exactly when the key is
      present with a non-empty entry, and then returns that entry. */
  lemma {:induction false} GetConfigOrRaiseByIndex(table: Table, id: string)
    requires UniqueKeys(table)
    ensures GetConfigOrRaise(table, id).Ok? <==>
      exists i :: 0 <= i < |table| && table[i].0 == id && table[i].1.Entry?
    ensures forall i :: 0 <= i < |table| && table[i].0 == id && table[i].1.Entry? ==>
      GetConfigOrRaise(table, id) == Ok(table[i].1.config)
  {
    forall i | 0 <= i < |table| && table[i].0 == id {
      FindAt(table, i);
    }
    if Find(table, id).Some? {
      var k :| 0 <= k < |table| && Keys(table)[k] == id;
      FindAt(table, k);
    }
  }

  /** The 404 message names the requested model and quotes every routed key
      the way Python's `repr` prints it. */
  lemma NotFoundNamesEverything(table: Table, id: string)
    ensures Contains(NotFoundMessage(id, Keys(table)), "'" + id + "'")
    ensures forall k :: k in Keys(table) ==> Contains(NotFoundMessage(id, Keys(table)), StrRepr(k))
  {
    var ks := Keys(table);
    NotFoundMessageSplits(id, ks);
    ContainsInfix(ModelWord, "'" + id + "'", NotFoundWords + ListRepr(ks));
    forall k | k in ks
      ensures Contains(NotFoundMessage(id, ks), StrRepr(k))
    {
      var i :| 0 <= i < |ks| && ks[i] == k;
      JoinContainsEach(", ", StrReprs(ks), i);
      ContainsExtend(ModelWord + ("'" + id + "'") + NotFoundWords + "[", Join(", ", StrReprs(ks)), "]", StrRepr(k));
    }
  }

  lemma NotFoundMessageSplits(id: string, ks: seq<string>)
    ensures NotFoundMessage(id, ks) == ModelWord + ("'" + id + "'") + (NotFoundWords + ListRepr(ks))
    ensures NotFoundMessage(id, ks) == (ModelWord + ("'" + id + "'") + NotFoundWords + "[") + Join(", ", StrReprs(ks)) + "]"
  {
  }
}
