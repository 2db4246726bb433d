/** The line-oriented YAML subset every Go variant reads with the same loop
    (golang/main.go, golang/config.go, golang/config/loader.go,
    golang/config/config.go, golang/cmd/server/main.go): each trimmed line
    ending in ':' opens a section; `url:` counts only inside `api`, `path:`
    only inside `model`, `system_prompt:` anywhere, and the last assignment
    wins. The variants differ in which lines they skip before the loop and
    in what they make of the result. */
module GoYaml {
  import opened Base
  import opened Strings
  import opened GoText

  datatype GoConfig = GoConfig(url: string, path: string, systemPrompt: string)

  /** Go's zero `ModelConfig`. */
  const EmptyConfig := GoConfig("", "", "")

  datatype Key = Url | Path | Prompt

  function KeyText(k: Key): string {
    match k
    case Url => "url:"
    case Path => "path:"
    case Prompt => "system_prompt:"
  }

  function Get(c: GoConfig, k: Key): string {
    match k
    case Url => c.url
    case Path => c.path
    case Prompt => c.systemPrompt
  }

  function Set(c: GoConfig, k: Key, v: string): GoConfig {
    match k
    case Url => c.(url := v)
    case Path => c.(path := v)
    case Prompt => c.(systemPrompt := v)
  }

  /** `strings.HasSuffix(line, ":")`. */
  predicate IsHeader(line: string) {
    |line| > 0 && line[|line| - 1] == ':'
  }

  /** `strings.TrimSuffix(line, ":")` on a header: the section it opens. */
  function HeaderName(line: string): string
    requires IsHeader(line)
  {
    line[..|line| - 1]
  }

  /** `strings.TrimSpace(strings.TrimPrefix(line, prefix))`. */
  function ValueOf(line: string, prefix: string): string {
    TrimSpace(TrimPrefix(line, prefix))
  }

  /** Where a key counts: `url:` inside `api`, `path:` inside `model`,
      `system_prompt:` in any section. */
  predicate CountsIn(k: Key, section: string) {
    match k
    case Url => section == "api"
    case Path => section == "model"
    case Prompt => true
  }

  /** The key a non-header line assigns when `section` is in force: the
      loop's tests, in order. */
  function Assigned(section: string, line: string): Option<Key> {
    if section == "api" && HasPrefix(line, "url:") then Some(Url)
    else if section == "model" && HasPrefix(line, "path:") then Some(Path)
    else if HasPrefix(line, "system_prompt:") then Some(Prompt)
    else None
  }

  /** A key is assigned only where it counts and only by a line that starts
      with its text; no key is assigned exactly when no key that counts in
      the section starts the line. */
  lemma AssignedSpec(section: string, line: string)
    ensures Assigned(section, line).Some? ==>
      var k := Assigned(section, line).value;
      CountsIn(k, section) && HasPrefix(line, KeyText(k))
    ensures Assigned(section, line).None? <==> forall k :: !(CountsIn(k, section) && HasPrefix(line, KeyText(k)))
  {
  }

  /** The loop's variables: the section, the configuration, whether some
      line assigned a key (golang/config/loader.go), and whether some
      non-header line assigned nothing (golang/config/config.go). */
  datatype ScanState = ScanState(section: string, config: GoConfig, recognized: bool, stray: bool)

  const Start := ScanState("", EmptyConfig, false, false)

  /** One iteration of the loop on an already trimmed line. */
  function Step(st: ScanState, line: string): ScanState {
    if IsHeader(line) then st.(section := HeaderName(line))
    else
      match Assigned(st.section, line)
      case Some(k) => st.(config := Set(st.config, k, ValueOf(line, KeyText(k))), recognized := true)
      case None => st.(stray := true)
  }

  /** The loop over the first `n` trimmed lines. */
  function ScanTo(ls: seq<string>, n: nat): ScanState
    requires n <= |ls|
    decreases n, 1
  {
    if n == 0 then Start else StepAt(ls, n)
  }

  /** Iteration `n` of the loop, on line `n - 1` and the state the
      iterations before it left. */
  function StepAt(ls: seq<string>, n: nat): ScanState
    requires 0 < n <= |ls|
    decreases n, 0
  {
    Step(ScanTo(ls, n - 1), ls[n - 1])
  }

  /** The whole loop. */
  function Scan(ls: seq<string>): ScanState {
    ScanTo(ls, |ls|)
  }

  /** What one iteration does to each variable. */
  lemma StepEffect(st: ScanState, line: string, k: Key)
    ensures Step(st, line).section == if IsHeader(line) then HeaderName(line) else st.section
    ensures Get(Step(st, line).config, k)
      == if !IsHeader(line) && Assigned(st.section, line) == Some(k) then ValueOf(line, KeyText(k)) else Get(st.config, k)
    ensures Step(st, line).recognized == (st.recognized || (!IsHeader(line) && Assigned(st.section, line).Some?))
    ensures Step(st, line).stray == (st.stray || (!IsHeader(line) && Assigned(st.section, line).None?))
  {
    if !IsHeader(line) {
      match Assigned(st.section, line)
      case Some(k') =>
        assert Step(st, line) == st.(config := Set(st.config, k', ValueOf(line, KeyText(k'))), recognized := true);
      case None =>
        assert Step(st, line) == st.(stray := true);
    }
  }

  // ---- Reference meaning, by line index ----

  /** The section in force at line `n`: the name of the last header above it. */
  function SectionBefore(ls: seq<string>, n: nat): string
    requires n <= |ls|
  {
    if n == 0 then "" else if IsHeader(ls[n - 1]) then HeaderName(ls[n - 1]) else SectionBefore(ls, n - 1)
  }

  /** Line `i` assigns key `k`. */
  predicate Assigns(ls: seq<string>, i: int, k: Key) {
    0 <= i < |ls| && !IsHeader(ls[i]) && Assigned(SectionBefore(ls, i), ls[i]) == Some(k)
  }

  predicate AssignsAny(ls: seq<string>, i: int) {
    0 <= i < |ls| && !IsHeader(ls[i]) && Assigned(SectionBefore(ls, i), ls[i]).Some?
  }

  /** Line `i` is neither a header nor an assignment. */
  predicate StrayAt(ls: seq<string>, i: int) {
    0 <= i < |ls| && !IsHeader(ls[i]) && Assigned(SectionBefore(ls, i), ls[i]).None?
  }

  /** The section after iteration `n`. */
  lemma ScanToSection(ls: seq<string>, n: nat)
    requires 0 < n <= |ls|
    ensures ScanTo(ls, n).section == if IsHeader(ls[n - 1]) then HeaderName(ls[n - 1]) else ScanTo(ls, n - 1).section
  {
    ScanToStep(ls, n);
    StepEffect(ScanTo(ls, n - 1), ls[n - 1], Url);
  }

  lemma {:induction false} ScanSection(ls: seq<string>, n: nat)
    requires n <= |ls|
    ensures ScanTo(ls, n).section == SectionBefore(ls, n)
  {
    if n > 0 {
      ScanSection(ls, n - 1);
      ScanToSection(ls, n);
    }
  }

  /** Iteration `n` is one step on line `n - 1`. */
  lemma ScanToStep(ls: seq<string>, n: nat)
    requires 0 < n <= |ls|
    ensures ScanTo(ls, n) == Step(ScanTo(ls, n - 1), ls[n - 1])
  {
    assert ScanTo(ls, n) == StepAt(ls, n);
  }

  /** Iteration `n` with the section in force at its line spelled out. */
  lemma ScanToEffect(ls: seq<string>, n: nat, k: Key)
    requires 0 < n <= |ls|
    ensures var st, line, section := ScanTo(ls, n - 1), ls[n - 1], SectionBefore(ls, n - 1);
      && ScanTo(ls, n) == Step(st, line)
      && Get(Step(st, line).config, k)
        == (if !IsHeader(line) && Assigned(section, line) == Some(k) then ValueOf(line, KeyText(k)) else Get(st.config, k))
      && Step(st, line).recognized == (st.recognized || (!IsHeader(line) && Assigned(section, line).Some?))
      && Step(st, line).stray == (st.stray || (!IsHeader(line) && Assigned(section, line).None?))
  {
    ScanSection(ls, n - 1);
    StepEffect(ScanTo(ls, n - 1), ls[n - 1], k);
    ScanToStep(ls, n);
  }

  /** One iteration in terms of the reference meaning: a line that assigns
      the key sets it to its trimmed value... */
  lemma ScanToSets(ls: seq<string>, n: nat, k: Key)
    requires 0 < n <= |ls| && Assigns(ls, n - 1, k)
    ensures Get(ScanTo(ls, n).config, k) == ValueOf(ls[n - 1], KeyText(k))
  {
    ScanToEffect(ls, n, k);
  }

  /** ... and any other line leaves the key alone. */
  lemma ScanToKeeps(ls: seq<string>, n: nat, k: Key)
    requires 0 < n <= |ls| && !Assigns(ls, n - 1, k)
    ensures Get(ScanTo(ls, n).config, k) == Get(ScanTo(ls, n - 1).config, k)
  {
    ScanToEffect(ls, n, k);
  }

  /** One iteration in terms of the reference meaning: the two flags. */
  lemma ScanToFlags(ls: seq<string>, n: nat)
    requires 0 < n <= |ls|
    ensures ScanTo(ls, n).recognized == (ScanTo(ls, n - 1).recognized || AssignsAny(ls, n - 1))
    ensures ScanTo(ls, n).stray == (ScanTo(ls, n - 1).stray || StrayAt(ls, n - 1))
  {
    ScanToEffect(ls, n, Url);
  }

  /** Lines that do not assign the key leave it as it was. */
  lemma {:induction false} ScanKeepsFrom(ls: seq<string>, k: Key, m: nat, n: nat)
    requires m <= n <= |ls|
    requires forall j :: m <= j < n ==> !Assigns(ls, j, k)
    ensures Get(ScanTo(ls, n).config, k) == Get(ScanTo(ls, m).config, k)
    decreases n - m
  {
    if n > m {
      ScanKeepsFrom(ls, k, m, n - 1);
      ScanToKeeps(ls, n, k);
    }
  }

  lemma ScanKeepsLast(ls: seq<string>, k: Key, i: nat, n: nat)
    requires i < n <= |ls| && Assigns(ls, i, k)
    requires forall j :: i < j < n ==> !Assigns(ls, j, k)
    ensures Get(ScanTo(ls, n).config, k) == ValueOf(ls[i], KeyText(k))
  {
    ScanToSets(ls, i + 1, k);
    ScanKeepsFrom(ls, k, i + 1, n);
  }

  lemma ScanKeepsEmpty(ls: seq<string>, k: Key, n: nat)
    requires n <= |ls|
    requires forall j :: 0 <= j < n ==> !Assigns(ls, j, k)
    ensures Get(ScanTo(ls, n).config, k) == ""
  {
    ScanKeepsFrom(ls, k, 0, n);
  }

  /** Each key holds the value of the last line that assigns it, and ""
      when no line does. */
  lemma ScanTakesLastAssignment(ls: seq<string>, k: Key)
    ensures forall i :: ((Assigns(ls, i, k) && (forall j :: i < j < |ls| ==> !Assigns(ls, j, k)))
                         ==> Get(Scan(ls).config, k) == ValueOf(ls[i], KeyText(k)))
    ensures (forall i :: 0 <= i < |ls| ==> !Assigns(ls, i, k)) ==> Get(Scan(ls).config, k) == ""
  {
    forall i | Assigns(ls, i, k) && (forall j :: i < j < |ls| ==> !Assigns(ls, j, k))
      ensures Get(Scan(ls).config, k) == ValueOf(ls[i], KeyText(k))
    {
      ScanKeepsLast(ls, k, i, |ls|);
    }
    if forall i :: 0 <= i < |ls| ==> !Assigns(ls, i, k) {
      ScanKeepsEmpty(ls, k, |ls|);
    }
  }

  lemma {:induction false} ScanRecognizedAt(ls: seq<string>, n: nat)
    requires n <= |ls|
    ensures ScanTo(ls, n).recognized <==> exists i :: 0 <= i < n && AssignsAny(ls, i)
  {
    if n > 0 {
      ScanToFlags(ls, n);
      ScanRecognizedAt(ls, n - 1);
      if exists i :: 0 <= i < n && AssignsAny(ls, i) {
        var i :| 0 <= i < n && AssignsAny(ls, i);
        if i < n - 1 {
          assert ScanTo(ls, n - 1).recognized;
        }
      }
    }
  }

  lemma {:induction false} ScanStrayAt(ls: seq<string>, n: nat)
    requires n <= |ls|
    ensures ScanTo(ls, n).stray <==> exists i :: 0 <= i < n && StrayAt(ls, i)
  {
    if n > 0 {
      ScanToFlags(ls, n);
      ScanStrayAt(ls, n - 1);
      if exists i :: 0 <= i < n && StrayAt(ls, i) {
        var i :| 0 <= i < n && StrayAt(ls, i);
        if i < n - 1 {
          assert ScanTo(ls, n - 1).stray;
        }
      }
    }
  }

  /** `recognized` is set exactly when some line assigns a key, `stray`
      exactly when some line is neither header nor assignment. */
  lemma ScanFlags(ls: seq<string>)
    ensures Scan(ls).recognized <==> exists i :: AssignsAny(ls, i)
    ensures Scan(ls).stray <==> exists i :: StrayAt(ls, i)
  {
    ScanRecognizedAt(ls, |ls|);
    ScanStrayAt(ls, |ls|);
  }

  // ---- Trimmed lines assign non-empty values ----

  predicate Trimmed(l: string) {
    |l| > 0 ==> !GoSpace(l[0]) && !GoSpace(l[|l| - 1])
  }

  /** A trimmed line that assigns cannot assign "": a line that is only the
      key ends in ':' and is a header. */
  lemma AssignedNonEmpty(section: string, line: string, k: Key)
    requires Trimmed(line) && !IsHeader(line) && Assigned(section, line) == Some(k)
    ensures ValueOf(line, KeyText(k)) != ""
  {
    AssignedSpec(section, line);
    KeyTextEndsInColon(k);
    ValueAfterColon(line, KeyText(k));
  }

  lemma KeyTextEndsInColon(k: Key)
    ensures |KeyText(k)| > 0 && KeyText(k)[|KeyText(k)| - 1] == ':'
  {
  }

  /** What follows a prefix ending in ':' on a trimmed non-header line is
      not blank. */
  lemma ValueAfterColon(line: string, p: string)
    requires Trimmed(line) && !IsHeader(line)
    requires HasPrefix(line, p) && |p| > 0 && p[|p| - 1] == ':'
    ensures ValueOf(line, p) != ""
  {
    assert line[..|p|][|p| - 1] == line[|p| - 1] == ':';
    var rest := line[|p|..];
    assert TrimPrefix(line, p) == rest;
    assert rest[|rest| - 1] == line[|line| - 1];
    TrimKeepsLast(rest, GoSpace);
  }

  /** The flag `recognized` says whether the configuration is non-empty. */
  predicate FlagMatches(st: ScanState) {
    st.recognized <==> st.config != EmptyConfig
  }

  lemma StepKeepsRecognizedIff(st: ScanState, l: string)
    requires Trimmed(l) && FlagMatches(st)
    ensures FlagMatches(Step(st, l))
  {
    if !IsHeader(l) && Assigned(st.section, l).Some? {
      var k := Assigned(st.section, l).value;
      AssignedNonEmpty(st.section, l, k);
      StepEffect(st, l, k);
      assert Get(Step(st, l).config, k) != Get(EmptyConfig, k);
    }
  }

  lemma {:induction false} RecognizedIffNonEmptyTo(ls: seq<string>, n: nat)
    requires n <= |ls|
    requires forall i :: 0 <= i < |ls| ==> Trimmed(ls[i])
    ensures FlagMatches(ScanTo(ls, n))
  {
    if n > 0 {
      RecognizedIffNonEmptyTo(ls, n - 1);
      ScanToKeepsFlagMatches(ls, n - 1);
    }
  }

  lemma ScanToKeepsFlagMatches(ls: seq<string>, m: nat)
    requires m < |ls| && forall i :: 0 <= i < |ls| ==> Trimmed(ls[i])
    requires FlagMatches(ScanTo(ls, m))
    ensures FlagMatches(ScanTo(ls, m + 1))
  {
    StepKeepsRecognizedIff(ScanTo(ls, m), ls[m]);
    ScanToStep(ls, m + 1);
  }

  /** On trimmed lines, `recognized` is the same as a non-empty result. */
  lemma RecognizedIffNonEmpty(ls: seq<string>)
    requires forall i :: 0 <= i < |ls| ==> Trimmed(ls[i])
    ensures Scan(ls).recognized <==> Scan(ls).config != EmptyConfig
  {
    RecognizedIffNonEmptyTo(ls, |ls|);
  }

  // ---- Skipping lines before the loop ----

  /** The lines that `drop` does not select, in order. */
  function Filter(ls: seq<string>, drop: string -> bool): (r: seq<string>)
    ensures |r| <= |ls|
    ensures forall i :: 0 <= i < |r| ==> !drop(r[i])
  {
    if |ls| == 0 then []
    else
      var init := Filter(ls[..|ls| - 1], drop);
      if drop(ls[|ls| - 1]) then init else init + [ls[|ls| - 1]]
  }

  /** A line the loop passes over without any effect but `stray`. */
  predicate Inert(line: string) {
    !IsHeader(line) && !HasPrefix(line, "url:") && !HasPrefix(line, "path:") && !HasPrefix(line, "system_prompt:")
  }

  /** Two loop states that differ at most in `stray`. */
  predicate Agree(a: ScanState, b: ScanState) {
    a.section == b.section && a.config == b.config && a.recognized == b.recognized
  }

  /** The loop over a prefix does not see what follows it. */
  lemma {:induction false} ScanToPrefix(a: seq<string>, b: seq<string>, n: nat)
    requires n <= |a|
    ensures ScanTo(a + b, n) == ScanTo(a, n)
  {
    if n > 0 {
      ScanToPrefix(a, b, n - 1);
      assert (a + b)[n - 1] == a[n - 1];
      assert StepAt(a + b, n) == StepAt(a, n);
    }
  }

  lemma ScanSnoc(a: seq<string>, l: string)
    ensures Scan(a + [l]) == Step(Scan(a), l)
  {
    ScanToPrefix(a, [l], |a|);
    assert (a + [l])[|a|] == l;
    assert Scan(a + [l]) == StepAt(a + [l], |a| + 1);
  }

  /** Skipping inert lines changes nothing but `stray`. */
  lemma {:induction false} FilterInert(ls: seq<string>, drop: string -> bool)
    requires forall i :: 0 <= i < |ls| && drop(ls[i]) ==> Inert(ls[i])
    ensures Agree(Scan(Filter(ls, drop)), Scan(ls))
  {
    if |ls| > 0 {
      var init := ls[..|ls| - 1];
      var l := ls[|ls| - 1];
      assert ls == init + [l];
      assert forall i :: 0 <= i < |init| ==> init[i] == ls[i];
      FilterInert(init, drop);
      var f := Filter(init, drop);
      ScanSnoc(init, l);
      StepEffect(Scan(init), l, Url);
      StepEffect(Scan(init), l, Path);
      StepEffect(Scan(init), l, Prompt);
      if drop(l) {
        assert Inert(l);
        assert Filter(ls, drop) == f;
      } else {
        assert Filter(ls, drop) == f + [l];
        ScanSnoc(f, l);
        StepEffect(Scan(f), l, Url);
        StepEffect(Scan(f), l, Path);
        StepEffect(Scan(f), l, Prompt);
      }
    }
  }

  // ---- The five parsers ----

  /** The trimmed lines of a file. */
  function Lines(content: string): seq<string> {
    TrimAll(ScanLines(content))
  }

  /** Every line the loop sees is trimmed. */
  lemma LinesTrimmed(content: string)
    ensures forall i :: 0 <= i < |Lines(content)| ==> Trimmed(Lines(content)[i])
  {
    var ls := ScanLines(content);
    forall i | 0 <= i < |Lines(content)|
      ensures Trimmed(Lines(content)[i])
    {
      TrimSpaceTrimmed(ls[i]);
    }
  }

  lemma TrimSpaceTrimmed(s: string)
    ensures Trimmed(TrimSpace(s))
  {
    TrimSpec(s, GoSpace);
  }

  /** `parseSimpleYAML` of golang/main.go, also the configuration half of
      golang/cmd/server/main.go: a file that cannot be opened yields the
      zero configuration. */
  function ParseMain(content: Option<string>): GoConfig {
    match content
    case None => EmptyConfig
    case Some(c) => Scan(Lines(c)).config
  }

  /** `parseSimpleYAML` of golang/config.go: as above, but a file that
      cannot be opened or sets nothing is refused. */
  function ParseRoot(content: Option<string>): (r: Option<GoConfig>)
    ensures r.Some? ==> r.value == ParseMain(content) && r.value != EmptyConfig
    ensures r.None? <==> ParseMain(content) == EmptyConfig
  {
    match content
    case None => None
    case Some(c) =>
      var cfg := Scan(Lines(c)).config;
      if cfg.url == "" && cfg.path == "" && cfg.systemPrompt == "" then None else Some(cfg)
  }

  datatype GoError = OpenFailed | UnexpectedEof | Invalid

  /** Lines golang/config/loader.go skips: blank lines and comments. */
  predicate Skipped(line: string) {
    |line| == 0 || HasPrefix(line, "#")
  }

  /** Lines golang/config/config.go skips: blank lines. */
  predicate Blank(line: string) {
    |line| == 0
  }

  /** `parseSimpleYAML` of golang/config/loader.go: comments and blank lines
      are skipped, and a file in which no line assigns a key is refused
      with `io.ErrUnexpectedEOF`. */
  function ParseLoader(content: Option<string>): (r: Result<GoConfig, GoError>)
    ensures r == Err(OpenFailed) <==> content.None?
  {
    match content
    case None => Err(OpenFailed)
    case Some(c) =>
      var st := Scan(Filter(Lines(c), Skipped));
      if st.recognized then Ok(st.config) else Err(UnexpectedEof)
  }

  /** `parseSimpleYAML` of golang/config/config.go: blank lines are
      skipped, and any other line that is neither a header nor an
      assignment refuses the file with `os.ErrInvalid`. */
  function ParseStrict(content: Option<string>): (r: Result<GoConfig, GoError>)
    ensures r == Err(OpenFailed) <==> content.None?
  {
    match content
    case None => Err(OpenFailed)
    case Some(c) =>
      var st := Scan(Filter(Lines(c), Blank));
      if st.stray then Err(Invalid) else Ok(st.config)
  }

  /** A comment line that also ends in ':'. */
  predicate CommentHeader(line: string) {
    HasPrefix(line, "#") && IsHeader(line)
  }

  lemma SkippedInert(line: string)
    requires Skipped(line) && !CommentHeader(line)
    ensures Inert(line)
  {
    if |line| > 0 {
      assert line[0] == '#';
      assert !HasPrefix(line, "url:");
      assert !HasPrefix(line, "path:");
      assert !HasPrefix(line, "system_prompt:");
    }
  }

  /** Unless a comment ends in ':', the loader of golang/config/loader.go
      accepts exactly the files golang/config.go accepts, with the same
      configuration, and that configuration is what golang/main.go reads. */
  lemma LoaderMatchesRoot(c: string)
    requires forall i :: 0 <= i < |Lines(c)| ==> !CommentHeader(Lines(c)[i])
    ensures ParseLoader(Some(c)).Ok? <==> ParseRoot(Some(c)).Some?
    ensures ParseLoader(Some(c)).Ok? ==> ParseLoader(Some(c)).value == ParseRoot(Some(c)).value == ParseMain(Some(c))
    ensures ParseLoader(Some(c)).Err? ==> ParseLoader(Some(c)).error == UnexpectedEof
  {
    var ls := Lines(c);
    forall i | 0 <= i < |ls| && Skipped(ls[i])
      ensures Inert(ls[i])
    {
      SkippedInert(ls[i]);
    }
    FilterInert(ls, Skipped);
    LinesTrimmed(c);
    RecognizedIffNonEmpty(ls);
  }

  /** The comment `# note:` opens a section for golang/main.go and
      golang/config.go, so the `url:` below it is lost there; the loader of
      golang/config/loader.go skips the comment and keeps the url. */
  lemma CommentHeaderDiverges()
    ensures Scan(["api:", "#:", "url: u"]).config == EmptyConfig
    ensures Scan(Filter(["api:", "#:", "url: u"], Skipped)).config == GoConfig("u", "", "")
  {
    MainLosesUrl();
    LoaderKeepsUrl();
    FilterCommentExample();
  }

  lemma ScanApi()
    ensures Scan(["api:"]) == Start.(section := "api")
  {
    ScanSnoc([], "api:");
    assert [] + ["api:"] == ["api:"];
    assert HeaderName("api:") == "api";
  }

  lemma MainLosesUrl()
    ensures Scan(["api:", "#:", "url: u"]).config == EmptyConfig
  {
    ScanApi();
    ScanSnoc(["api:"], "#:");
    assert ["api:"] + ["#:"] == ["api:", "#:"];
    assert HeaderName("#:") == "#";
    var comment := Scan(["api:", "#:"]);
    assert comment.section == "#" && comment.config == EmptyConfig;
    ScanSnoc(["api:", "#:"], "url: u");
    assert ["api:", "#:"] + ["url: u"] == ["api:", "#:", "url: u"];
    assert !IsHeader("url: u") && Assigned("#", "url: u").None?;
  }

  lemma LoaderKeepsUrl()
    ensures Scan(["api:", "url: u"]).config == GoConfig("u", "", "")
  {
    ScanApi();
    ScanSnoc(["api:"], "url: u");
    assert ["api:"] + ["url: u"] == ["api:", "url: u"];
    assert !IsHeader("url: u");
    assert Assigned("api", "url: u") == Some(Url);
    ValueOfExample();
  }

  lemma ValueOfExample()
    ensures ValueOf("url: u", "url:") == "u"
  {
    assert HasPrefix("url: u", "url:") by { assert "url: u"[..4] == "url:"; }
    assert "url: u"[4..] == " u";
    assert GoSpace(" u"[0]) && " u"[1..] == "u";
    assert !GoSpace("u"[0]);
    assert TrimLeft("u", GoSpace) == "u";
    assert TrimLeft(" u", GoSpace) == "u";
    assert TrimRight("u", GoSpace) == "u";
  }

  lemma FilterCommentExample()
    ensures Filter(["api:", "#:", "url: u"], Skipped) == ["api:", "url: u"]
  {
    var ls := ["api:", "#:", "url: u"];
    assert ls[..2] == ["api:", "#:"] && ls[..2][..1] == ["api:"] && ls[..2][..1][..0] == [];
    assert Skipped("#:") by { assert "#:"[..1] == "#"; }
    assert !Skipped("api:") by { assert "api:"[0] != '#'; }
    assert !Skipped("url: u") by { assert "url: u"[0] != '#'; }
    assert ls[..2][..1][..0] + ["api:"] == ["api:"];
  }

  /** Every kept line is a line of the input. */
  lemma {:induction false} FilterFrom(ls: seq<string>, drop: string -> bool)
    ensures forall i :: 0 <= i < |Filter(ls, drop)| ==> Filter(ls, drop)[i] in ls
  {
    if |ls| > 0 {
      var init := ls[..|ls| - 1];
      FilterFrom(init, drop);
      assert forall i :: 0 <= i < |init| ==> init[i] == ls[i];
    }
  }

  /** A file of section headers alone, "::::" for one, assigns nothing, and
      golang/config/loader.go refuses it. */
  lemma HeadersOnlyRefused(c: string)
    requires forall i :: 0 <= i < |Lines(c)| ==> IsHeader(Lines(c)[i]) || Skipped(Lines(c)[i])
    ensures ParseLoader(Some(c)) == Err(UnexpectedEof)
  {
    var fs := Filter(Lines(c), Skipped);
    FilterFrom(Lines(c), Skipped);
    ScanFlags(fs);
  }

  lemma ColonsRefused()
    ensures ParseLoader(Some("::::")) == Err(UnexpectedEof)
  {
    var s := "::::";
    assert NewlineAt(s) == 4 by {
      assert NewlineAt(s[3..]) == 1 by { assert s[3..][1..] == []; }
      assert s[1..][1..] == s[2..] && s[2..][1..] == s[3..];
    }
    assert ScanLines(s) == [DropCR(s)];
    assert DropCR(s) == s by { assert s[3..] != "\r"; }
    assert TrimSpace(s) == s by {
      TrimFixpoint(s, GoSpace);
    }
    assert Lines(s) == [s];
    HeadersOnlyRefused(s);
  }

  /** Blank lines make no difference to golang/config/config.go beyond
      being skipped: whatever it accepts is what golang/main.go reads, and it
      refuses a file exactly when a kept line is neither header nor
      assignment. */
  lemma StrictMatchesMain(c: string)
    ensures ParseStrict(Some(c)).Ok? ==> ParseStrict(Some(c)).value == ParseMain(Some(c))
    ensures ParseStrict(Some(c)).Err? ==> exists i :: StrayAt(Filter(Lines(c), Blank), i)
    ensures (exists i :: StrayAt(Filter(Lines(c), Blank), i)) ==> ParseStrict(Some(c)).Err?
    ensures ParseStrict(Some(c)).Err? ==> ParseStrict(Some(c)).error == Invalid
  {
    var ls := Lines(c);
    var fs := Filter(ls, Blank);
    assert ParseStrict(Some(c)) == if Scan(fs).stray then Err(Invalid) else Ok(Scan(fs).config);
    assert ParseMain(Some(c)) == Scan(ls).config;
    forall i | 0 <= i < |ls| && Blank(ls[i])
      ensures Inert(ls[i])
    {
      BlankInert(ls[i]);
    }
    FilterInert(ls, Blank);
    ScanFlags(fs);
    assert ParseStrict(Some(c)).Err? <==> Scan(fs).stray;
    assert Scan(fs).stray <==> exists i :: StrayAt(fs, i);
  }

  lemma BlankInert(line: string)
    requires Blank(line)
    ensures Inert(line)
  {
    assert |"url:"| > 0 && |"path:"| > 0 && |"system_prompt:"| > 0 && |":"| > 0;
  }

  // ---- golang/cmd/server/main.go: the `parameters` section ----

  /** Go's zero values for the parameters. */
  datatype GoParams = GoParams(temperature: real, topP: real, topK: int, stream: bool)

  const ZeroParams := GoParams(0.0, 0.0, 0, false)

  datatype ParamKey = Temperature | TopP | TopK | Stream

  function ParamText(pk: ParamKey): string {
    match pk
    case Temperature => "temperature:"
    case TopP => "top_p:"
    case TopK => "top_k:"
    case Stream => "stream:"
  }

  /** The first of the parameter keys a line starts with, in the order
      the server's loop tests them. */
  function ParamKeyOf(line: string): Option<ParamKey> {
    if HasPrefix(line, "temperature:") then Some(Temperature)
    else if HasPrefix(line, "top_p:") then Some(TopP)
    else if HasPrefix(line, "top_k:") then Some(TopK)
    else if HasPrefix(line, "stream:") then Some(Stream)
    else None
  }

  /** A parameter key is reported only when the line starts with its text,
      and none only when the line starts with no key. */
  lemma ParamKeyOfSpec(line: string)
    ensures ParamKeyOf(line).Some? ==> HasPrefix(line, ParamText(ParamKeyOf(line).value))
    ensures ParamKeyOf(line).None? <==> forall pk :: !HasPrefix(line, ParamText(pk))
  {
  }

  datatype ParamValue = RealValue(r: real) | IntValue(i: int) | BoolValue(b: bool)

  /** How each parameter's text is read: `strconv.ParseFloat` (the
      parameter `parseFloat`) for the two floats, `strconv.Atoi` for top_k,
      both ignored on error, and `== "true"` for stream. */
  function ParseParam(pk: ParamKey, text: string, parseFloat: string -> Option<real>): Option<ParamValue> {
    match pk
    case Temperature => if parseFloat(text).Some? then Some(RealValue(parseFloat(text).value)) else None
    case TopP => if parseFloat(text).Some? then Some(RealValue(parseFloat(text).value)) else None
    case TopK => if Atoi(text).Some? then Some(IntValue(Atoi(text).value)) else None
    case Stream => Some(BoolValue(text == "true"))
  }

  function GetParam(p: GoParams, pk: ParamKey): ParamValue {
    match pk
    case Temperature => RealValue(p.temperature)
    case TopP => RealValue(p.topP)
    case TopK => IntValue(p.topK)
    case Stream => BoolValue(p.stream)
  }

  function SetParam(p: GoParams, pk: ParamKey, v: ParamValue): GoParams {
    match v
    case RealValue(r) => if pk == Temperature then p.(temperature := r) else if pk == TopP then p.(topP := r) else p
    case IntValue(i) => if pk == TopK then p.(topK := i) else p
    case BoolValue(b) => if pk == Stream then p.(stream := b) else p
  }

  /** One parameter line. */
  function ParamStep(p: GoParams, line: string, parseFloat: string -> Option<real>): GoParams {
    match ParamKeyOf(line)
    case None => p
    case Some(pk) =>
      match ParseParam(pk, ValueOf(line, ParamText(pk)), parseFloat)
      case None => p
      case Some(v) => SetParam(p, pk, v)
  }

  /** Whether the server's loop hands a line to the parameter branch: no
      header, none of the three keys, and `parameters` in force. */
  predicate ParamCounts(section: string, line: string) {
    !IsHeader(line) && Assigned(section, line).None? && section == "parameters"
  }

  function ParamLineStep(p: GoParams, section: string, line: string, parseFloat: string -> Option<real>): GoParams {
    if ParamCounts(section, line) then ParamStep(p, line, parseFloat) else p
  }

  /** The parameter half of the server's loop over the first `n` lines.
      The section in force is the one the loop tracks (`ScanSection`). */
  function ScanParamsTo(ls: seq<string>, n: nat, parseFloat: string -> Option<real>): GoParams
    requires n <= |ls|
  {
    if n == 0 then ZeroParams
    else ParamLineStep(ScanParamsTo(ls, n - 1, parseFloat), SectionBefore(ls, n - 1), ls[n - 1], parseFloat)
  }

  function ScanParams(ls: seq<string>, parseFloat: string -> Option<real>): GoParams {
    ScanParamsTo(ls, |ls|, parseFloat)
  }

  /** Line `i` sets parameter `pk` to a value that parses. */
  predicate SetsParam(ls: seq<string>, i: int, pk: ParamKey, parseFloat: string -> Option<real>) {
    && 0 <= i < |ls| && ParamCounts(SectionBefore(ls, i), ls[i])
    && ParamKeyOf(ls[i]) == Some(pk)
    && ParseParam(pk, ValueOf(ls[i], ParamText(pk)), parseFloat).Some?
  }

  lemma SetParamGet(p: GoParams, pk: ParamKey, q: ParamKey, v: ParamValue)
    requires v.RealValue? <==> (pk == Temperature || pk == TopP)
    requires v.IntValue? <==> pk == TopK
    ensures GetParam(SetParam(p, pk, v), q) == if q == pk then v else GetParam(p, q)
  {
  }

  lemma ParseParamKind(pk: ParamKey, text: string, parseFloat: string -> Option<real>)
    requires ParseParam(pk, text, parseFloat).Some?
    ensures ParseParam(pk, text, parseFloat).value.RealValue? <==> (pk == Temperature || pk == TopP)
    ensures ParseParam(pk, text, parseFloat).value.IntValue? <==> pk == TopK
  {
  }

  /** What one parameter line does to parameter `pk`. */
  lemma ParamStepGet(p: GoParams, line: string, pk: ParamKey, parseFloat: string -> Option<real>)
    ensures GetParam(ParamStep(p, line, parseFloat), pk)
      == if ParamKeyOf(line) == Some(pk) && ParseParam(pk, ValueOf(line, ParamText(pk)), parseFloat).Some?
         then ParseParam(pk, ValueOf(line, ParamText(pk)), parseFloat).value else GetParam(p, pk)
  {
    match ParamKeyOf(line)
    case None =>
    case Some(q) =>
      var parsed := ParseParam(q, ValueOf(line, ParamText(q)), parseFloat);
      if parsed.Some? {
        ParseParamKind(q, ValueOf(line, ParamText(q)), parseFloat);
        SetParamGet(p, q, pk, parsed.value);
      }
  }

  /** A `stream:` line always sets the flag, to true exactly when the
      trimmed value is the text `true`; "True" or "1" set it false. */
  lemma StreamLineSets(p: GoParams, line: string, parseFloat: string -> Option<real>)
    requires HasPrefix(line, "stream:")
    ensures ParamStep(p, line, parseFloat).stream <==> TrimSpace(line[|"stream:"|..]) == "true"
    ensures ParamStep(p, line, parseFloat).(stream := p.stream) == p
  {
    StreamKey(line);
    var v := ValueOf(line, ParamText(Stream));
    assert ParseParam(Stream, v, parseFloat) == Some(BoolValue(v == "true"));
    assert ParamStep(p, line, parseFloat) == SetParam(p, Stream, BoolValue(v == "true"));
  }

  lemma StreamKey(line: string)
    requires HasPrefix(line, "stream:")
    ensures ParamKeyOf(line) == Some(Stream)
  {
    assert line[0] == 's' by { assert line[..7] == "stream:"; }
    assert !HasPrefix(line, "temperature:") by { assert "temperature:"[0] == 't'; }
    assert !HasPrefix(line, "top_p:") by { assert "top_p:"[0] == 't'; }
    assert !HasPrefix(line, "top_k:") by { assert "top_k:"[0] == 't'; }
  }

  lemma ScanParamsStep(ls: seq<string>, n: nat, pk: ParamKey, parseFloat: string -> Option<real>)
    requires 0 < n <= |ls|
    ensures SetsParam(ls, n - 1, pk, parseFloat) ==>
      GetParam(ScanParamsTo(ls, n, parseFloat), pk) == ParseParam(pk, ValueOf(ls[n - 1], ParamText(pk)), parseFloat).value
    ensures !SetsParam(ls, n - 1, pk, parseFloat) ==>
      GetParam(ScanParamsTo(ls, n, parseFloat), pk) == GetParam(ScanParamsTo(ls, n - 1, parseFloat), pk)
  {
    ParamStepGet(ScanParamsTo(ls, n - 1, parseFloat), ls[n - 1], pk, parseFloat);
  }

  lemma {:induction false} ScanParamsKeepsLast(ls: seq<string>, pk: ParamKey, parseFloat: string -> Option<real>, i: nat, n: nat)
    requires i < n <= |ls| && SetsParam(ls, i, pk, parseFloat)
    requires forall j :: i < j < n ==> !SetsParam(ls, j, pk, parseFloat)
    ensures GetParam(ScanParamsTo(ls, n, parseFloat), pk) == ParseParam(pk, ValueOf(ls[i], ParamText(pk)), parseFloat).value
  {
    ScanParamsStep(ls, n, pk, parseFloat);
    if n > i + 1 {
      ScanParamsKeepsLast(ls, pk, parseFloat, i, n - 1);
    }
  }

  lemma {:induction false} ScanParamsKeepsZero(ls: seq<string>, pk: ParamKey, parseFloat: string -> Option<real>, n: nat)
    requires n <= |ls|
    requires forall j :: 0 <= j < n ==> !SetsParam(ls, j, pk, parseFloat)
    ensures GetParam(ScanParamsTo(ls, n, parseFloat), pk) == GetParam(ZeroParams, pk)
  {
    if n > 0 {
      ScanParamsStep(ls, n, pk, parseFloat);
      ScanParamsKeepsZero(ls, pk, parseFloat, n - 1);
    }
  }

  /** Each parameter holds the value of the last line in a `parameters`
      section that sets it to something that parses, and Go's zero value
      when no line does: an unparsable number leaves the earlier value. */
  lemma ScanParamsTakesLast(ls: seq<string>, pk: ParamKey, parseFloat: string -> Option<real>)
    ensures forall i :: ((SetsParam(ls, i, pk, parseFloat) && (forall j :: i < j < |ls| ==> !SetsParam(ls, j, pk, parseFloat)))
                         ==> GetParam(ScanParams(ls, parseFloat), pk) == ParseParam(pk, ValueOf(ls[i], ParamText(pk)), parseFloat).value)
    ensures (forall i :: 0 <= i < |ls| ==> !SetsParam(ls, i, pk, parseFloat))
      ==> GetParam(ScanParams(ls, parseFloat), pk) == GetParam(ZeroParams, pk)
  {
    forall i | SetsParam(ls, i, pk, parseFloat) && (forall j :: i < j < |ls| ==> !SetsParam(ls, j, pk, parseFloat))
      ensures GetParam(ScanParams(ls, parseFloat), pk) == ParseParam(pk, ValueOf(ls[i], ParamText(pk)), parseFloat).value
    {
      ScanParamsKeepsLast(ls, pk, parseFloat, i, |ls|);
    }
    if forall i :: 0 <= i < |ls| ==> !SetsParam(ls, i, pk, parseFloat) {
      ScanParamsKeepsZero(ls, pk, parseFloat, |ls|);
    }
  }

  datatype ServerConfig = ServerConfig(config: GoConfig, parameters: GoParams)

  /** `parseSimpleYAML` of golang/cmd/server/main.go. */
  function ParseServer(content: Option<string>, parseFloat: string -> Option<real>): (r: ServerConfig)
    ensures r.config == ParseMain(content)
    ensures content.None? ==> r.parameters == ZeroParams
  {
    match content
    case None => ServerConfig(EmptyConfig, ZeroParams)
    case Some(c) => ServerConfig(Scan(Lines(c)).config, ScanParams(Lines(c), parseFloat))
  }
}
