/** The Python routing-table loader (src/llm_wrapper/server/config_loader.py):
    every `*.yaml`/`*.yml` file of the configuration directory, named by its
    stem, validated against the model schema with its defaults; files that
    fail to read, parse or validate are skipped. `yaml.safe_load` is a
    parameter that delivers a `YamlDoc`. */
module ConfigLoader {
  import opened Base
  import opened Strings
  import opened Dicts
  import opened Json
  import opened Routing
  import opened Files

  /** One schema field of a loaded document: missing, present with a value
      the schema refuses, or present and valid. */
  datatype Field<T> = Absent | Invalid | Present(value: T)

  datatype RawParameters = RawParameters(temperature: Field<Float>, topP: Field<Float>, topK: Field<int>, stream: Field<bool>)

  /** What `yaml.safe_load` makes of a file. `url` and `path` stand for
      `api.url` and `model.path`: Absent when the field or its section is
      missing, Invalid when either is of the wrong type. */
  datatype YamlDoc =
    | Unparsable(message: string)
      /** An empty document or any falsy value, which the loader reads as `{}`. */
    | Falsy
      /** A truthy value that is not a mapping; assigning `model_id` to it fails. */
    | NotMapping
    | Mapping(url: Field<string>, path: Field<string>, systemPrompt: Field<string>, parameters: Field<RawParameters>)

  datatype Parameters = Parameters(temperature: Float, topP: Float, topK: int, stream: bool)

  datatype ModelConfig = ModelConfig(url: string, path: string, systemPrompt: string, parameters: Parameters, modelId: string)

  const DefaultParameters := Parameters(Float("0.7"), Float("1.0"), 40, false)

  /** A field with a default: absent takes the default, invalid fails. */
  function WithDefault<T>(f: Field<T>, default: T): Option<T> {
    match f
    case Absent => Some(default)
    case Invalid => None
    case Present(v) => Some(v)
  }

  /** The `Parameters` schema: a field given is kept, a field left out
      takes its default (temperature 0.7, top_p 1.0, top_k 40, stream
      false), and a field of the wrong type fails the whole section. */
  function ValidateParameters(p: RawParameters): (r: Option<Parameters>)
    ensures r.Some? <==> !p.temperature.Invalid? && !p.topP.Invalid? && !p.topK.Invalid? && !p.stream.Invalid?
    ensures r.Some? ==> r.value.temperature == (if p.temperature.Present? then p.temperature.value else Float("0.7"))
    ensures r.Some? ==> r.value.topP == (if p.topP.Present? then p.topP.value else Float("1.0"))
    ensures r.Some? ==> r.value.topK == (if p.topK.Present? then p.topK.value else 40)
    ensures r.Some? ==> r.value.stream == (p.stream.Present? && p.stream.value)
  {
    var t := WithDefault(p.temperature, DefaultParameters.temperature);
    var tp := WithDefault(p.topP, DefaultParameters.topP);
    var tk := WithDefault(p.topK, DefaultParameters.topK);
    var s := WithDefault(p.stream, DefaultParameters.stream);
    if t.Some? && tp.Some? && tk.Some? && s.Some? then Some(Parameters(t.value, tp.value, tk.value, s.value)) else None
  }

  /** `ModelConfig(**data)` after `data["model_id"] = modelId`. */
  function Validate(doc: YamlDoc, modelId: string): (r: Option<ModelConfig>)
    ensures r.Some? ==> r.value.modelId == modelId
    ensures r.Some? <==> (
      && doc.Mapping? && doc.url.Present? && doc.path.Present?
      && !doc.systemPrompt.Invalid? && !doc.parameters.Invalid?
      && (doc.parameters.Present? ==> ValidateParameters(doc.parameters.value).Some?))
    ensures r.Some? ==> r.value.url == doc.url.value && r.value.path == doc.path.value
    ensures r.Some? ==> r.value.systemPrompt == (if doc.systemPrompt.Present? then doc.systemPrompt.value else "")
    ensures r.Some? && doc.parameters.Present? ==> Some(r.value.parameters) == ValidateParameters(doc.parameters.value)
    ensures r.Some? && doc.parameters.Absent? ==> r.value.parameters == Parameters(Float("0.7"), Float("1.0"), 40, false)
  {
    match doc
    case Mapping(url, path, systemPrompt, parameters) =>
      if !url.Present? || !path.Present? then None
      else
        var prompt := WithDefault(systemPrompt, "");
        var params := match parameters
          case Absent => Some(DefaultParameters)
          case Invalid => None
          case Present(p) => ValidateParameters(p);
        if prompt.Some? && params.Some? then Some(ModelConfig(url.value, path.value, prompt.value, params.value, modelId))
        else None
    case _ => None
  }

  /** Python's `Path(name).stem`: the name without its last suffix, where a
      suffix needs a dot that is neither the first nor the last character. */
  function Stem(name: string): (r: string)
    ensures HasPrefix(name, r)
    ensures r == name || (0 < |r| < |name| - 1 && name[|r|] == '.' && forall j :: |r| < j < |name| ==> name[j] != '.')
    ensures r == name <==> (|name| > 0 && name[|name| - 1] == '.') || forall j :: 0 < j < |name| ==> name[j] != '.'
  {
    var i := LastDot(name);
    if 0 < i < |name| - 1 then name[..i] else name
  }

  predicate YamlName(name: string) {
    HasSuffix(name, ".yaml") || HasSuffix(name, ".yml")
  }

  /** `yaml.safe_load(...) or {}`: a falsy document reads as the empty
      mapping. */
  function OrEmpty(d: YamlDoc): (r: YamlDoc)
    ensures d.Falsy? ==> r == Mapping(Absent, Absent, Absent, Absent)
    ensures !d.Falsy? ==> r == d
  {
    match d
    case Falsy => Mapping(Absent, Absent, Absent, Absent)
    case _ => d
  }

  /** What one directory entry contributes: its stem and validated
      configuration, or nothing. A directory is skipped because reading it
      fails. An entry is admitted exactly when it is a readable YAML file
      whose document validates, and then with the validated configuration. */
  function Admit(yamlLoad: string -> YamlDoc, e: DirEntry): (r: Option<(string, ModelConfig)>)
    ensures r.Some? <==>
      && YamlName(e.name) && !e.isDir && e.content.Some?
      && Validate(OrEmpty(yamlLoad(e.content.value)), Stem(e.name)).Some?
    ensures r.Some? ==> r.value == (Stem(e.name), Validate(OrEmpty(yamlLoad(e.content.value)), Stem(e.name)).value)
    ensures r.Some? ==> r.value.1.modelId == r.value.0
  {
    if !YamlName(e.name) || e.isDir || e.content.None? then None
    else
      match Validate(OrEmpty(yamlLoad(e.content.value)), Stem(e.name))
      case Some(cfg) => Some((Stem(e.name), cfg))
      case None => None
  }

  /** `load_all_configs`: nothing when the directory is missing. */
  function LoadAllConfigs(dir: Option<seq<DirEntry>>, yamlLoad: string -> YamlDoc): Dict<ModelConfig> {
    match dir
    case None => []
    case Some(es) => LoadDict(es, e => Admit(yamlLoad, e))
  }

  /** Every loaded configuration sits under its own `model_id`, the stem of
      the last valid file with that stem; keys are never repeated. */
  lemma LoadAllConfigsLastWins(es: seq<DirEntry>, yamlLoad: string -> YamlDoc, k: string)
    ensures UniqueKeys(LoadAllConfigs(Some(es), yamlLoad))
    ensures Find(LoadAllConfigs(Some(es), yamlLoad), k) == LastAdmitted(es, e => Admit(yamlLoad, e), k)
    ensures forall j :: 0 <= j < |LoadAllConfigs(Some(es), yamlLoad)| ==>
      LoadAllConfigs(Some(es), yamlLoad)[j].1.modelId == LoadAllConfigs(Some(es), yamlLoad)[j].0
  {
    var admit := e => Admit(yamlLoad, e);
    LoadDictIsLastAdmitted(es, admit, k);
    forall j | 0 <= j < |LoadDict(es, admit)|
      ensures LoadDict(es, admit)[j].1.modelId == LoadDict(es, admit)[j].0
    {
      LoadDictEntriesAdmitted(es, admit, j);
    }
  }

  /** A document with only the two required fields gets every default: an
      empty system prompt, temperature 0.7, top_p 1.0, top_k 40, no stream. */
  lemma ValidateFillsDefaults(url: string, path: string, modelId: string)
    ensures Validate(Mapping(Present(url), Present(path), Absent, Absent), modelId)
      == Some(ModelConfig(url, path, "", Parameters(Float("0.7"), Float("1.0"), 40, false), modelId))
  {
  }

  /** The document that writes out every field of a configuration. */
  function DocOf(c: ModelConfig): YamlDoc {
    var p := c.parameters;
    Mapping(Present(c.url), Present(c.path), Present(c.systemPrompt),
            Present(RawParameters(Present(p.temperature), Present(p.topP), Present(p.topK), Present(p.stream))))
  }

  /** Validation keeps every field a document states: a file that spells
      out a configuration loads as exactly that configuration, under the
      stem it is given. */
  lemma ValidateDocOf(c: ModelConfig, modelId: string)
    ensures Validate(DocOf(c), modelId) == Some(c.(modelId := modelId))
  {
  }

  /** A file whose content spells out a configuration is loaded as that
      configuration under its stem. */
  lemma AdmitDocOf(yamlLoad: string -> YamlDoc, e: DirEntry, c: ModelConfig)
    requires YamlName(e.name) && !e.isDir && e.content.Some?
    requires yamlLoad(e.content.value) == DocOf(c)
    ensures Admit(yamlLoad, e) == Some((Stem(e.name), c.(modelId := Stem(e.name))))
  {
    ValidateDocOf(c, Stem(e.name));
  }

  /** `model_dump()` as the request path reads it. */
  function AsRoute(c: ModelConfig): RouteConfig {
    RouteConfig(c.url, c.path, Some(c.systemPrompt),
                Params(Some(c.parameters.temperature), Some(c.parameters.topP), Some(c.parameters.topK)))
  }

  /** The loaded dict as the routing table. */
  function RoutingTable(d: Dict<ModelConfig>): (t: Table)
    ensures |t| == |d| && Keys(t) == Keys(d)
    ensures forall i :: 0 <= i < |d| ==> t[i] == (d[i].0, Entry(AsRoute(d[i].1)))
  {
    if |d| == 0 then [] else [(d[0].0, Entry(AsRoute(d[0].1)))] + RoutingTable(d[1..])
  }

  /** At request time a model resolves exactly when some valid file has it
      as stem, and to the configuration of the last such file. */
  lemma {:induction false} LoadedRouteResolves(es: seq<DirEntry>, yamlLoad: string -> YamlDoc, id: string)
    ensures var admit := e => Admit(yamlLoad, e);
      var t := RoutingTable(LoadAllConfigs(Some(es), yamlLoad));
      && (GetConfigOrRaise(t, id).Ok? <==> exists i :: AdmittedAt(es, admit, id, i))
      && (LastAdmitted(es, admit, id).Some? ==> GetConfigOrRaise(t, id) == Ok(AsRoute(LastAdmitted(es, admit, id).value)))
  {
    var admit := e => Admit(yamlLoad, e);
    LoadAllConfigsLastWins(es, yamlLoad, id);
    LastAdmittedSome(es, admit, id);
    RoutingTableLookup(LoadAllConfigs(Some(es), yamlLoad), id);
  }

  /** The routing table built from a dict resolves what the dict holds. */
  lemma RoutingTableLookup(d: Dict<ModelConfig>, id: string)
    requires UniqueKeys(d)
    ensures GetConfigOrRaise(RoutingTable(d), id).Ok? <==> Find(d, id).Some?
    ensures Find(d, id).Some? ==> GetConfigOrRaise(RoutingTable(d), id) == Ok(AsRoute(Find(d, id).value))
  {
    var t := RoutingTable(d);
    assert UniqueKeys(t) by {
      assert forall i, j :: 0 <= i < j < |t| ==> t[i].0 == d[i].0 && t[j].0 == d[j].0;
    }
    GetConfigOrRaiseByIndex(t, id);
    if Find(d, id).Some? {
      var k :| 0 <= k < |d| && Keys(d)[k] == id;
      FindAt(d, k);
      assert t[k].0 == id && t[k].1.Entry?;
    } else {
      assert id !in Keys(t);
    }
  }
}
