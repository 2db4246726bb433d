/** The directory loops of the five Go variants: which entries each admits,
    under which model id, and how the variants compare with one another and
    with the Python loader. Every loop is `Files.LoadMap` with its own
    admit function; a directory that cannot be read yields an empty map. */
module GoLoaders {
  import opened Base
  import opened Strings
  import opened Files
  import opened GoText
  import opened GoYaml
  import ConfigLoader

  /** `filepath.Ext(name) == ".yaml" || filepath.Ext(name) == ".yml"`. */
  predicate YamlExt(name: string) {
    Ext(name) == ".yaml" || Ext(name) == ".yml"
  }

  /** golang/main.go: every YAML file is parsed, and a configuration with
      neither url nor path is skipped (a system prompt alone is not enough). */
  function AdmitMain(e: DirEntry): Option<(string, GoConfig)> {
    if e.isDir || !YamlExt(e.name) then None
    else
      var c := ParseMain(e.content);
      if c.url == "" && c.path == "" then None else Some((GoId(e.name), c))
  }

  /** golang/config.go: the parser itself refuses unopenable and empty files. */
  function AdmitRoot(e: DirEntry): Option<(string, GoConfig)> {
    if e.isDir || !YamlExt(e.name) then None
    else
      match ParseRoot(e.content)
      case None => None
      case Some(c) => Some((GoId(e.name), c))
  }

  /** golang/config/loader.go: the id is `strings.TrimSuffix(name, ext)`. */
  function AdmitLoader(e: DirEntry): Option<(string, GoConfig)> {
    if e.isDir then None
    else
      var ext := Ext(e.name);
      if ext != ".yaml" && ext != ".yml" then None
      else
        match ParseLoader(e.content)
        case Err(_) => None
        case Ok(c) => Some((TrimSuffix(e.name, ext), c))
  }

  /** golang/config/config.go: YAML files are recognised by suffix, a
      refused file or an all-empty configuration is skipped. */
  function AdmitStrict(e: DirEntry): Option<(string, GoConfig)> {
    if e.isDir || !(HasSuffix(e.name, ".yaml") || HasSuffix(e.name, ".yml")) then None
    else
      match ParseStrict(e.content)
      case Err(_) => None
      case Ok(c) =>
        if c.url == "" && c.path == "" && c.systemPrompt == "" then None
        else Some((TrimSuffix(e.name, Ext(e.name)), c))
  }

  /** golang/cmd/server/main.go: every YAML file is kept, even one that
      cannot be opened or sets nothing. */
  function AdmitServer(parseFloat: string -> Option<real>, e: DirEntry): Option<(string, ServerConfig)> {
    if e.isDir || !YamlExt(e.name) then None
    else Some((GoId(e.name), ParseServer(e.content, parseFloat)))
  }

  function LoadMain(dir: Option<seq<DirEntry>>): map<string, GoConfig> {
    match dir
    case None => map[]
    case Some(es) => LoadMap(es, AdmitMain)
  }

  function LoadRoot(dir: Option<seq<DirEntry>>): map<string, GoConfig> {
    match dir
    case None => map[]
    case Some(es) => LoadMap(es, AdmitRoot)
  }

  function LoadLoader(dir: Option<seq<DirEntry>>): map<string, GoConfig> {
    match dir
    case None => map[]
    case Some(es) => LoadMap(es, AdmitLoader)
  }

  function LoadStrict(dir: Option<seq<DirEntry>>): map<string, GoConfig> {
    match dir
    case None => map[]
    case Some(es) => LoadMap(es, AdmitStrict)
  }

  function LoadServer(dir: Option<seq<DirEntry>>, parseFloat: string -> Option<real>): map<string, ServerConfig> {
    match dir
    case None => map[]
    case Some(es) => LoadMap(es, e => AdmitServer(parseFloat, e))
  }

  /** What golang/main.go admits, golang/config.go admits identically; the
      latter also admits files that set only a system prompt. */
  lemma MainWithinRoot(e: DirEntry)
    ensures AdmitMain(e).Some? ==> AdmitRoot(e) == AdmitMain(e)
    ensures AdmitRoot(e).Some? && AdmitMain(e).None? ==>
      var c := AdmitRoot(e).value.1;
      c.url == "" && c.path == "" && c.systemPrompt != ""
  {
    if !e.isDir && YamlExt(e.name) {
      var c := ParseMain(e.content);
      var r := ParseRoot(e.content);
      assert r.Some? ==> r.value == c;
      assert r.None? <==> c == EmptyConfig;
      if c.url == "" && c.path == "" {
        assert AdmitMain(e).None?;
      } else {
        assert AdmitMain(e) == Some((GoId(e.name), c));
        assert AdmitRoot(e) == Some((GoId(e.name), c));
      }
    }
  }

  /** Unless a comment line ends in ':', golang/config/loader.go admits
      exactly what golang/config.go admits, under the same id. */
  lemma LoaderMatchesRootEntry(e: DirEntry)
    requires e.content.Some? ==>
      forall i :: 0 <= i < |Lines(e.content.value)| ==> !CommentHeader(Lines(e.content.value)[i])
    ensures AdmitLoader(e) == AdmitRoot(e)
  {
    GoIdIsTrimSuffix(e.name);
    if e.content.Some? {
      LoaderMatchesRoot(e.content.value);
    }
  }

  /** Whole directories: the two loaders build the same map. */
  lemma LoaderLoadsAsRoot(es: seq<DirEntry>)
    requires forall k :: 0 <= k < |es| ==> (es[k].content.Some? ==>
      forall i :: 0 <= i < |Lines(es[k].content.value)| ==> !CommentHeader(Lines(es[k].content.value)[i]))
    ensures LoadLoader(Some(es)) == LoadRoot(Some(es))
  {
    forall k | 0 <= k < |es|
      ensures AdmitLoader(es[k]) == AdmitRoot(es[k])
    {
      LoaderMatchesRootEntry(es[k]);
    }
    LoadMapAgree(es, AdmitLoader, AdmitRoot);
  }

  /** What golang/config/config.go admits, golang/config.go admits
      identically: the suffix test is the extension test, the id is the
      same, and a file it accepts reads as golang/main.go reads it. */
  lemma StrictWithinRoot(e: DirEntry)
    ensures AdmitStrict(e).Some? ==> AdmitRoot(e) == AdmitStrict(e)
  {
    YamlExtIsSuffix(e.name);
    GoIdIsTrimSuffix(e.name);
    if e.content.Some? {
      StrictMatchesMain(e.content.value);
    }
  }

  /** golang/cmd/server/main.go admits every YAML file, and what it reads
      besides the parameters is what golang/main.go reads. */
  lemma ServerKeepsEveryYamlFile(parseFloat: string -> Option<real>, e: DirEntry)
    ensures AdmitServer(parseFloat, e).Some? <==> !e.isDir && YamlExt(e.name)
    ensures AdmitServer(parseFloat, e).Some? ==>
      && AdmitServer(parseFloat, e).value.0 == GoId(e.name)
      && AdmitServer(parseFloat, e).value.1.config == ParseMain(e.content)
    ensures AdmitMain(e).Some? ==> AdmitServer(parseFloat, e).value.0 == AdmitMain(e).value.0
  {
  }

  /** For a YAML file name the Go id and the Python stem differ exactly
      when the name's only dot is its first character: `.yaml` is the model
      `""` in Go and `".yaml"` in Python. */
  lemma GoIdVersusStem(name: string)
    requires ConfigLoader.YamlName(name)
    ensures GoId(name) == ConfigLoader.Stem(name) <==> LastDot(name) > 0
  {
    YamlExtIsSuffix(name);
    assert |Ext(name)| >= 4;
  }

  lemma DotYamlIds()
    ensures GoId(".yaml") == ""
    ensures ConfigLoader.Stem(".yaml") == ".yaml"
  {
    assert LastDot(".yaml") == 0 by {
      assert ".yaml"[0] == '.';
      assert forall j :: 0 < j < 5 ==> ".yaml"[j] != '.';
    }
  }
}
