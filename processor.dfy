/** The documentation processor of flowise-generator/src/documentProcessor.ts: the
    line-driven parser that turns one node reference page into a node descriptor, and
    the passes that collect node, tutorial and flow documents from the documentation
    tree. The file system is replaced by a `DocTree` value holding the directory
    listings and file contents in the order `readdirSync` returns them. */
module DocumentProcessor {
  import opened Wrappers
  import opened Text

  // ---------------------------------------------------------------------------
  // Data model

  /** A LangChain document: its text and its string-valued metadata. */
  datatype Document = Document(pageContent: string, metadata: map<string, string>)

  /** One parameter of a node; `paramType` is the source's `type` field. */
  datatype Parameter = Parameter(name: string, paramType: string, required: bool, description: string)

  /** A node descriptor (`FlowiseNode`); `nodeType` is the source's `type` field. The
      parser always sets `examples` and `connections`, so they are plain sequences. */
  datatype FlowiseNode = FlowiseNode(
    id: string,
    nodeType: string,
    category: string,
    name: string,
    description: string,
    parameters: seq<Parameter>,
    examples: seq<string>,
    connections: seq<string>)

  /** `FlowiseKnowledge`: everything one processing pass produces. */
  datatype Knowledge = Knowledge(
    nodes: seq<FlowiseNode>,
    tutorials: seq<Document>,
    flows: seq<Document>,
    agentFlows: seq<Document>)

  const EmptyKnowledge := Knowledge([], [], [], [])

  datatype SourceFile = SourceFile(name: string, content: string)

  /** An entry of the node reference directory: a category directory and its files, or
      a plain file (skipped by the processor). */
  datatype DirEntry = DirEntry(name: string, isDirectory: bool, files: seq<SourceFile>)

  /** The three sub-directories the processor reads; `None` is a directory that does
      not exist, which the source reports as a warning and skips. */
  datatype DocTree = DocTree(
    nodesDir: Option<seq<DirEntry>>,       // en/integrations/langchain
    tutorialsDir: Option<seq<SourceFile>>, // en/tutorials
    flowsDir: Option<seq<SourceFile>>)     // en/using-flowise

  // ---------------------------------------------------------------------------
  // parseParameter: the regular expression  -\s*`([^`]+)`\s*:\s*([^-\n]+)

  /** Length of the run of `\s` characters starting at `i`. */
  function SpaceRun(s: string, i: nat): (n: nat)
    requires i <= |s|
    ensures i + n <= |s|
    ensures forall k :: i <= k < i + n ==> IsSpace(s[k])
    ensures i + n == |s| || !IsSpace(s[i + n])
    decreases |s| - i
  {
    if i < |s| && IsSpace(s[i]) then 1 + SpaceRun(s, i + 1) else 0
  }

  /** Length of the run of `[^`]` characters starting at `i`. */
  function NameRun(s: string, i: nat): (n: nat)
    requires i <= |s|
    ensures i + n <= |s|
    ensures forall k :: i <= k < i + n ==> s[k] != '`'
    ensures i + n == |s| || s[i + n] == '`'
    decreases |s| - i
  {
    if i < |s| && s[i] != '`' then 1 + NameRun(s, i + 1) else 0
  }

  predicate InDescriptionClass(c: char) {
    c != '-' && c != '\n'
  }

  /** Length of the run of `[^-\n]` characters starting at `i`. */
  function DescriptionRun(s: string, i: nat): (n: nat)
    requires i <= |s|
    ensures i + n <= |s|
    ensures forall k :: i <= k < i + n ==> InDescriptionClass(s[k])
    ensures i + n == |s| || !InDescriptionClass(s[i + n])
    decreases |s| - i
  {
    if i < |s| && InDescriptionClass(s[i]) then 1 + DescriptionRun(s, i + 1) else 0
  }

  /** Where `\s*([^-\n]+)` starts its group when tried at `p`: the greedy `\s*` first
      takes the whole white-space run and then gives characters back, so the group
      starts at the largest `q` in `p..p+w` whose character is in `[^-\n]`. */
  function DescriptionStart(s: string, p: nat, q: nat): (r: Option<nat>)
    requires p <= q <= |s|
    ensures r.Some? ==> p <= r.value <= q && r.value < |s| && InDescriptionClass(s[r.value])
    ensures r.Some? ==> forall k :: r.value < k <= q && k < |s| ==> !InDescriptionClass(s[k])
    ensures r.None? ==> forall k :: p <= k <= q && k < |s| ==> !InDescriptionClass(s[k])
    decreases q - p
  {
    if q < |s| && InDescriptionClass(s[q]) then Some(q)
    else if q == p then None
    else DescriptionStart(s, p, q - 1)
  }

  /** The rest of the expression, `\s*([^-\n]+)`, tried at `p`, after a name. */
  function MatchDescription(s: string, name: string, p: nat): (r: Option<(string, string)>)
    requires p <= |s|
    ensures r.Some? ==> r.value.0 == name
    ensures r.Some? ==> r.value.1 != [] && '-' !in r.value.1 && '\n' !in r.value.1
  {
    match DescriptionStart(s, p, p + SpaceRun(s, p))
    case None => None
    case Some(q) =>
      var desc := s[q..q + DescriptionRun(s, q)];
      assert forall i :: 0 <= i < |desc| ==> desc[i] == s[q + i];
      Some((name, desc))
  }

  /** `\s*:` and the rest, tried at `c`, after the name's closing backtick. */
  function MatchColon(s: string, name: string, c: nat): (r: Option<(string, string)>)
    requires c <= |s|
    ensures r.Some? ==> r.value.0 == name
    ensures r.Some? ==> r.value.1 != [] && '-' !in r.value.1 && '\n' !in r.value.1
  {
    var d := c + SpaceRun(s, c);
    if d == |s| || s[d] != ':' then None else MatchDescription(s, name, d + 1)
  }

  /** `` `([^`]+)` `` and the rest, tried at `k`. */
  function MatchName(s: string, k: nat): (r: Option<(string, string)>)
    requires k <= |s|
    ensures r.Some? ==> r.value.0 != [] && '`' !in r.value.0
    ensures r.Some? ==> r.value.1 != [] && '-' !in r.value.1 && '\n' !in r.value.1
  {
    if k == |s| || s[k] != '`' then None
    else
      var e := k + 1 + NameRun(s, k + 1);
      if e == k + 1 || e == |s| then None
      else
        var name := s[k + 1..e];
        assert forall i :: 0 <= i < |name| ==> name[i] == s[k + 1 + i];
        MatchColon(s, name, e + 1)
  }

  /** The regular expression tried at position `j` of `s`, giving the two groups. */
  function MatchParameterAt(s: string, j: nat): (r: Option<(string, string)>)
    requires j <= |s|
    ensures r.Some? ==> r.value.0 != [] && '`' !in r.value.0
    ensures r.Some? ==> r.value.1 != [] && '-' !in r.value.1 && '\n' !in r.value.1
  {
    if j == |s| || s[j] != '-' then None else MatchName(s, j + 1 + SpaceRun(s, j + 1))
  }

  /** The positions of a match of the expression starting at `j`: the dash at `j`,
      white space, backticks at `k` and `e` around the name, white space, the colon
      at `d`, white space, and the description from `q` up to `end`. */
  predicate ParameterSpan(s: string, j: nat, k: nat, e: nat, d: nat, q: nat, end: nat) {
    && j < k && k + 1 < e < d < q < end <= |s|
    && s[j] == '-' && AllSpace(s[j + 1..k])
    && s[k] == '`' && s[e] == '`'
    && AllSpace(s[e + 1..d]) && s[d] == ':' && AllSpace(s[d + 1..q])
  }

  /** A match of the leading part: a dash, white space, then the name part at `k`. */
  lemma DashStage(s: string, j: nat) returns (k: nat)
    requires j <= |s| && MatchParameterAt(s, j).Some?
    ensures j < k <= |s| && s[j] == '-' && AllSpace(s[j + 1..k])
    ensures MatchParameterAt(s, j) == MatchName(s, k)
  {
    k := j + 1 + SpaceRun(s, j + 1);
    var sp := s[j + 1..k];
    assert forall i :: 0 <= i < |sp| ==> sp[i] == s[j + 1 + i];
  }

  /** A match of the name part: a backtick, the name, a backtick, then the colon part
      after `e`. */
  lemma NameStage(s: string, k: nat) returns (e: nat)
    requires k <= |s| && MatchName(s, k).Some?
    ensures k < |s| && s[k] == '`' && k + 1 < e < |s| && s[e] == '`'
    ensures MatchName(s, k) == MatchColon(s, s[k + 1..e], e + 1)
  {
    e := k + 1 + NameRun(s, k + 1);
  }

  /** A match of the colon part: white space, a colon at `d`, then the description
      part. */
  lemma ColonStage(s: string, name: string, c: nat) returns (d: nat)
    requires c <= |s| && MatchColon(s, name, c).Some?
    ensures c <= d < |s| && s[d] == ':' && AllSpace(s[c..d])
    ensures MatchColon(s, name, c) == MatchDescription(s, name, d + 1)
  {
    d := c + SpaceRun(s, c);
    var sp := s[c..d];
    assert forall i :: 0 <= i < |sp| ==> sp[i] == s[c + i];
  }

  /** A match of the description part: white space, then the description from `q` to
      `end`. */
  lemma DescriptionStage(s: string, name: string, p: nat) returns (q: nat, end: nat)
    requires p <= |s| && MatchDescription(s, name, p).Some?
    ensures p <= q < end <= |s| && AllSpace(s[p..q])
    ensures MatchDescription(s, name, p) == Some((name, s[q..end]))
  {
    q := DescriptionStart(s, p, p + SpaceRun(s, p)).value;
    end := q + DescriptionRun(s, q);
    var sp := s[p..q];
    assert forall i :: 0 <= i < |sp| ==> sp[i] == s[p + i];
  }

  /** The colon part and the description part together. */
  lemma ColonShape(s: string, name: string, c: nat) returns (d: nat, q: nat, end: nat)
    requires c <= |s| && MatchColon(s, name, c).Some?
    ensures c <= d < q < end <= |s| && AllSpace(s[c..d]) && s[d] == ':' && AllSpace(s[d + 1..q])
    ensures MatchColon(s, name, c) == Some((name, s[q..end]))
  {
    d := ColonStage(s, name, c);
    q, end := DescriptionStage(s, name, d + 1);
  }

  /** The name part and everything after it. */
  lemma NameShape(s: string, k: nat) returns (e: nat, d: nat, q: nat, end: nat)
    requires k <= |s| && MatchName(s, k).Some?
    ensures k + 1 < e < d < q < end <= |s| && s[k] == '`' && s[e] == '`'
    ensures AllSpace(s[e + 1..d]) && s[d] == ':' && AllSpace(s[d + 1..q])
    ensures MatchName(s, k) == Some((s[k + 1..e], s[q..end]))
  {
    e := NameStage(s, k);
    d, q, end := ColonShape(s, s[k + 1..e], e + 1);
  }

  /** Where a match sits: a match at `j` spans the positions of `ParameterSpan`, and its
      groups are the name between the backticks and the description from `q` on. */
  lemma MatchParameterAtShape(s: string, j: nat) returns (k: nat, e: nat, d: nat, q: nat, end: nat)
    requires j <= |s| && MatchParameterAt(s, j).Some?
    ensures ParameterSpan(s, j, k, e, d, q, end)
    ensures MatchParameterAt(s, j) == Some((s[k + 1..e], s[q..end]))
  {
    k := DashStage(s, j);
    e, d, q, end := NameShape(s, k);
  }

  /** `line.match(re)`: the leftmost position where the expression matches. */
  function SearchParameter(s: string, j: nat): (r: Option<(string, string)>)
    requires j <= |s|
    ensures r.Some? ==> r.value.0 != [] && '`' !in r.value.0
    ensures r.Some? ==> r.value.1 != [] && '-' !in r.value.1 && '\n' !in r.value.1
    ensures r.Some? ==>
      exists j0 :: j <= j0 <= |s| && MatchParameterAt(s, j0) == r
        && forall k :: j <= k < j0 ==> MatchParameterAt(s, k).None?
    ensures r.None? ==> forall k :: j <= k <= |s| ==> MatchParameterAt(s, k).None?
    decreases |s| - j
  {
    match MatchParameterAt(s, j)
    case Some(m) => Some(m)
    case None =>
      if j == |s| then None
      else
        var r := SearchParameter(s, j + 1);
        LeftmostFromNext(s, j, r);
        r
  }

  /** A position without a match does not change which match is leftmost. */
  lemma LeftmostFromNext(s: string, j: nat, r: Option<(string, string)>)
    requires j < |s| && MatchParameterAt(s, j).None?
    requires r.Some? ==>
      exists j0 :: j + 1 <= j0 <= |s| && MatchParameterAt(s, j0) == r
        && forall k :: j + 1 <= k < j0 ==> MatchParameterAt(s, k).None?
    requires r.None? ==> forall k :: j + 1 <= k <= |s| ==> MatchParameterAt(s, k).None?
    ensures r.Some? ==>
      exists j0 :: j <= j0 <= |s| && MatchParameterAt(s, j0) == r
        && forall k :: j <= k < j0 ==> MatchParameterAt(s, k).None?
    ensures r.None? ==> forall k :: j <= k <= |s| ==> MatchParameterAt(s, k).None?
  {
    if r.Some? {
      var j0 :| j + 1 <= j0 <= |s| && MatchParameterAt(s, j0) == r
        && forall k :: j + 1 <= k < j0 ==> MatchParameterAt(s, k).None?;
      forall k | j <= k < j0 ensures MatchParameterAt(s, k).None? {
        if k == j {
          assert MatchParameterAt(s, j).None?;
        }
      }
      assert j <= j0 <= |s| && MatchParameterAt(s, j0) == r;
    } else {
      forall k | j <= k <= |s| ensures MatchParameterAt(s, k).None? {
        if k == j {
          assert MatchParameterAt(s, j).None?;
        }
      }
    }
  }

  lemma RequiredHasNoSpace()
    ensures forall k :: 0 <= k < |"required"| ==> !IsSpace("required"[k])
  {
    var w := "required";
    forall k | 0 <= k < |w| ensures !IsSpace(w[k]) {
      assert 'a' <= w[k] <= 'z';
    }
  }

  /** A word without white space is mentioned, in any letter case, by a text iff it
      is mentioned by the trimmed text. */
  lemma MentionIgnoresPadding(s: string, w: string)
    requires w != [] && forall k :: 0 <= k < |w| ==> !IsSpace(w[k])
    ensures ContainsLower(Trim(s), w) <==> ContainsLower(s, w)
  {
    LowerTrim(s);
    ContainsTrimmed(ToLower(s), w);
  }

  /** `parseParameter(line)`: every parameter gets the type "string"; it is required
      iff its description mentions "required" in any letter case; the description is
      cut at the first hyphen and trimmed. */
  function ParseParameter(line: string): (r: Option<Parameter>)
    ensures r.Some? ==> r.value.paramType == "string"
    ensures r.Some? ==> r.value.name != [] && '`' !in r.value.name
    ensures r.Some? ==> '-' !in r.value.description && '\n' !in r.value.description
    ensures r.Some? ==> (r.value.required <==> ContainsLower(r.value.description, "required"))
  {
    match SearchParameter(line, 0)
    case None => None
    case Some((name, desc)) =>
      TrimKeepsAbsent(desc, '-');
      TrimKeepsAbsent(desc, '\n');
      RequiredHasNoSpace();
      MentionIgnoresPadding(desc, "required");
      Some(Parameter(name, "string", ContainsLower(desc, "required"), Trim(desc)))
  }

  /** A bullet written the way the reference pages write parameters,
      "- `name`: description", parses to that name and description. */
  lemma ParseParameterOfBullet(name: string, desc: string)
    requires name != [] && '`' !in name
    requires desc != [] && '-' !in desc && '\n' !in desc && !IsSpace(desc[0])
    ensures ParseParameter("- `" + name + "`: " + desc)
         == Some(Parameter(name, "string", ContainsLower(desc, "required"), Trim(desc)))
  {
    var s := "- `" + name + "`: " + desc;
    var n := |name|;
    BulletTail(s, name, desc);
    assert s[0] == '-' && s[1] == ' ' && s[2] == '`';
    assert SpaceRun(s, 1) == 1 by {
      assert IsSpace(s[1]) && !IsSpace(s[2]);
    }
    assert s[3..3 + n] == name;
    assert NameRun(s, 3) == n by {
      forall i | 3 <= i < 3 + n ensures s[i] != '`' {
        assert s[i] == name[i - 3];
      }
      assert s[3 + n] == '`';
    }
    assert MatchName(s, 2) == Some((name, desc));
    assert SearchParameter(s, 0) == Some((name, desc));
  }

  /** The part of that bullet after the name's closing backtick. */
  lemma BulletTail(s: string, name: string, desc: string)
    requires s == "- `" + name + "`: " + desc
    requires desc != [] && '-' !in desc && '\n' !in desc && !IsSpace(desc[0])
    ensures MatchColon(s, name, 4 + |name|) == Some((name, desc))
  {
    var n := |name|;
    assert |s| == 6 + n + |desc|;
    assert s[4 + n] == ':' && s[5 + n] == ' ' && s[6 + n] == desc[0];
    assert SpaceRun(s, 4 + n) == 0;
    assert SpaceRun(s, 5 + n) == 1;
    assert DescriptionStart(s, 5 + n, 6 + n) == Some(6 + n);
    assert DescriptionRun(s, 6 + n) == |desc| by {
      forall i | 6 + n <= i < |s| ensures InDescriptionClass(s[i]) {
        assert s[i] == desc[i - (6 + n)];
      }
    }
    assert s[6 + n..6 + n + |desc|] == desc;
    assert MatchDescription(s, name, 5 + n) == Some((name, desc));
  }

  // ---------------------------------------------------------------------------
  // parseNodeDocument: the line classifier and the parser state

  /** The parser's variables between two lines: the three mode flags and the four
      outputs built so far. */
  datatype ParserState = ParserState(
    inParameters: bool,
    inExamples: bool,
    inConnections: bool,
    description: string,
    parameters: seq<Parameter>,
    examples: seq<string>,
    connections: seq<string>)

  const Start := ParserState(false, false, false, "", [], [], [])

  predicate NoMode(s: ParserState) {
    !s.inParameters && !s.inExamples && !s.inConnections
  }

  predicate AtMostOneMode(s: ParserState) {
    && (s.inParameters ==> !s.inExamples && !s.inConnections)
    && (s.inExamples ==> !s.inConnections)
  }

  predicate ExactlyOneMode(s: ParserState) {
    AtMostOneMode(s) && !NoMode(s)
  }

  predicate MentionsParameters(line: string) {
    ContainsLower(line, "parameter") || ContainsLower(line, "input")
  }

  predicate MentionsExamples(line: string) {
    ContainsLower(line, "example")
  }

  predicate MentionsConnections(line: string) {
    ContainsLower(line, "connection") || ContainsLower(line, "connect")
  }

  /** The line names one of the three sections and so switches mode (unless an
      earlier branch takes it). */
  predicate MentionsSection(line: string) {
    MentionsParameters(line) || MentionsExamples(line) || MentionsConnections(line)
  }

  /** The branches of the parser's if-chain, in order. */
  datatype LineKind =
    | Title
    | DescriptionHeading
    | ParametersStart
    | ExamplesStart
    | ConnectionsStart
    | ParameterBullet
    | ExampleBullet
    | ConnectionBullet
    | SectionEnd
    | Ignored

  /** The branch a trimmed line takes: the first one whose condition holds. */
  function Classify(s: ParserState, line: string): LineKind {
    if StartsWith(line, "# ") then Title
    else if StartsWith(line, "## ") && NoMode(s) then DescriptionHeading
    else if MentionsParameters(line) then ParametersStart
    else if MentionsExamples(line) then ExamplesStart
    else if MentionsConnections(line) then ConnectionsStart
    else if StartsWith(line, "-") && s.inParameters then ParameterBullet
    else if StartsWith(line, "-") && s.inExamples then ExampleBullet
    else if StartsWith(line, "-") && s.inConnections then ConnectionBullet
    else if StartsWith(line, "##") && !NoMode(s) then SectionEnd
    else Ignored
  }

  /** An entry of the examples or connections list: the bullet with its first "- "
      removed. */
  function BulletText(line: string): string {
    ReplaceFirst(line, "- ", "")
  }

  /** A bullet of a section body: it starts with "-" and names no section, so none of
      the keyword branches takes it. */
  predicate PlainBullet(line: string) {
    StartsWith(line, "-") && !MentionsSection(line)
  }

  /** The parameter a bullet spells, if the parameter pattern matches it. */
  function ParsedBullet(line: string): seq<Parameter> {
    match ParseParameter(line)
    case Some(p) => [p]
    case None => []
  }

  /** What one (trimmed) line does to the parser's state. */
  function Step(s: ParserState, line: string): ParserState {
    match Classify(s, line)
    case Title => s
    case DescriptionHeading => s.(description := s.description + ReplaceFirst(line, "## ", "") + "\n")
    case ParametersStart => s.(inParameters := true, inExamples := false, inConnections := false)
    case ExamplesStart => s.(inExamples := true, inParameters := false, inConnections := false)
    case ConnectionsStart => s.(inConnections := true, inParameters := false, inExamples := false)
    case ParameterBullet => s.(parameters := s.parameters + ParsedBullet(line))
    case ExampleBullet => s.(examples := s.examples + [BulletText(line)])
    case ConnectionBullet => s.(connections := s.connections + [BulletText(line)])
    case SectionEnd => s.(inParameters := false, inExamples := false, inConnections := false)
    case Ignored => s
  }

  /** The three mode flags stay mutually exclusive. */
  lemma StepKeepsOneMode(s: ParserState, line: string)
    requires AtMostOneMode(s)
    ensures AtMostOneMode(Step(s, line))
  {
  }

  /** The modes after a line that names no section: a `##` line read in a mode clears
      them all, and every other such line keeps them. */
  lemma StepModes(s: ParserState, line: string)
    ensures StartsWith(line, "##") && !NoMode(s) && !MentionsSection(line) ==>
      Step(s, line) == s.(inParameters := false, inExamples := false, inConnections := false)
    ensures !MentionsSection(line) && !(StartsWith(line, "##") && !NoMode(s)) ==>
      && Step(s, line).inParameters == s.inParameters
      && Step(s, line).inExamples == s.inExamples
      && Step(s, line).inConnections == s.inConnections
  {
    if StartsWith(line, "##") {
      assert line[1] == '#' && line[0] == '#';
      assert !StartsWith(line, "# ") && !StartsWith(line, "-");
    }
  }

  /** What one line can do to each part of the state. */
  lemma StepEffects(s: ParserState, line: string)
    // a title line contributes nothing
    ensures StartsWith(line, "# ") ==> Step(s, line) == s
    // the description grows only by a "## " heading seen outside every section,
    // with the prefix stripped and a newline added
    ensures !StartsWith(line, "# ") && NoMode(s) && StartsWith(line, "## ") ==>
      Step(s, line).description == s.description + line[3..] + "\n"
    ensures Step(s, line).description == s.description || (NoMode(s) && StartsWith(line, "## "))
    // a line naming a section switches to exactly that section and captures nothing;
    // "parameter"/"input" wins over "example", which wins over "connection"/"connect"
    ensures !StartsWith(line, "# ") && !(StartsWith(line, "## ") && NoMode(s)) && MentionsSection(line) ==>
      var r := Step(s, line);
      && ExactlyOneMode(r)
      && (r.inParameters <==> MentionsParameters(line))
      && (r.inExamples <==> !MentionsParameters(line) && MentionsExamples(line))
      && r.parameters == s.parameters && r.examples == s.examples && r.connections == s.connections
    // each list grows by at most one entry, at its end, and only from a bullet seen in
    // its own section
    ensures Step(s, line).parameters == s.parameters
         || (s.inParameters && PlainBullet(line) && ParseParameter(line).Some?
             && Step(s, line).parameters == s.parameters + [ParseParameter(line).value])
    ensures Step(s, line).examples == s.examples
         || (s.inExamples && PlainBullet(line) && Step(s, line).examples == s.examples + [BulletText(line)])
    ensures Step(s, line).connections == s.connections
         || (s.inConnections && PlainBullet(line) && Step(s, line).connections == s.connections + [BulletText(line)])
    // a heading clears every mode only if a mode was on and no keyword branch took it
    ensures NoMode(Step(s, line)) && !NoMode(s) ==> StartsWith(line, "##") && !MentionsSection(line)
    // ... and such a heading, read while a mode is on, clears all three and nothing else
    ensures StartsWith(line, "##") && !NoMode(s) && !MentionsSection(line) ==>
      Step(s, line) == s.(inParameters := false, inExamples := false, inConnections := false)
    // every other line that names no section keeps the modes as they were
    ensures !MentionsSection(line) && !(StartsWith(line, "##") && !NoMode(s)) ==>
      && Step(s, line).inParameters == s.inParameters
      && Step(s, line).inExamples == s.inExamples
      && Step(s, line).inConnections == s.inConnections
  {
    StepModes(s, line);
    if Classify(s, line) == DescriptionHeading {
      assert ReplaceFirst(line, "## ", "") == line[3..];
    }
  }

  /** `Step`, branch by branch. */
  lemma StepByKind(s: ParserState, line: string)
    ensures Classify(s, line) in {Title, Ignored} ==> Step(s, line) == s
    ensures Classify(s, line) == DescriptionHeading ==>
      Step(s, line) == s.(description := s.description + ReplaceFirst(line, "## ", "") + "\n")
    ensures Classify(s, line) == ParametersStart ==> Step(s, line) == s.(inParameters := true, inExamples := false, inConnections := false)
    ensures Classify(s, line) == ExamplesStart ==> Step(s, line) == s.(inParameters := false, inExamples := true, inConnections := false)
    ensures Classify(s, line) == ConnectionsStart ==> Step(s, line) == s.(inParameters := false, inExamples := false, inConnections := true)
    ensures Classify(s, line) == ParameterBullet ==> Step(s, line) == s.(parameters := s.parameters + ParsedBullet(line))
    ensures Classify(s, line) == ExampleBullet ==> Step(s, line) == s.(examples := s.examples + [BulletText(line)])
    ensures Classify(s, line) == ConnectionBullet ==> Step(s, line) == s.(connections := s.connections + [BulletText(line)])
    ensures Classify(s, line) == SectionEnd ==> Step(s, line) == s.(inParameters := false, inExamples := false, inConnections := false)
  {
  }

  /** A bullet read in the parameters section adds the parameter it spells, if any,
      and changes nothing else. */
  lemma StepParameterBullet(s: ParserState, line: string)
    requires s.inParameters && AtMostOneMode(s) && PlainBullet(line)
    ensures Step(s, line) == s.(parameters := s.parameters + ParsedBullet(line))
  {
    assert !StartsWith(line, "# ") && !StartsWith(line, "## ") by {
      assert line[0] == '-';
    }
  }

  /** A bullet read in the examples section adds its text and changes nothing else. */
  lemma StepExampleBullet(s: ParserState, line: string)
    requires s.inExamples && AtMostOneMode(s) && PlainBullet(line)
    ensures Step(s, line) == s.(examples := s.examples + [BulletText(line)])
  {
    assert !StartsWith(line, "# ") && !StartsWith(line, "## ") by {
      assert line[0] == '-';
    }
  }

  /** The state after feeding `lines` to the parser from state `s`, one line at a time
      from the first. */
  function RunFrom(s: ParserState, lines: seq<string>): ParserState
    decreases |lines|
  {
    if lines == [] then s else Step(RunFrom(s, lines[..|lines| - 1]), lines[|lines| - 1])
  }

  function Run(lines: seq<string>): ParserState {
    RunFrom(Start, lines)
  }

  /** The page's lines as the parser reads them: split at newlines, then trimmed. */
  function PageLines(content: string): seq<string> {
    var raw := Split(content, '\n');
    seq(|raw|, i requires 0 <= i < |raw| => Trim(raw[i]))
  }

  lemma PrefixOfPrefix<T>(xs: seq<T>, n: nat, i: nat)
    requires i <= n <= |xs|
    ensures xs[..n][..i] == xs[..i]
  {
  }

  lemma RunOneMore(lines: seq<string>, i: nat)
    requires i < |lines|
    ensures Run(lines[..i + 1]) == Step(Run(lines[..i]), lines[i])
  {
    PrefixOfPrefix(lines, i + 1, i);
  }

  /** Parsing a document in two pieces is parsing the second from where the first
      left off. */
  lemma {:induction false} RunFromAppend(s: ParserState, a: seq<string>, b: seq<string>)
    ensures RunFrom(s, a + b) == RunFrom(RunFrom(s, a), b)
    decreases |b|
  {
    if b == [] {
      assert a + b == a;
    } else {
      assert (a + b)[..|a + b| - 1] == a + b[..|b| - 1];
      RunFromAppend(s, a, b[..|b| - 1]);
    }
  }

  /** At every line boundary at most one of the three mode flags is set. */
  lemma {:induction false} RunModesExclusive(s: ParserState, lines: seq<string>)
    requires AtMostOneMode(s)
    ensures AtMostOneMode(RunFrom(s, lines))
    decreases |lines|
  {
    if lines != [] {
      RunModesExclusive(s, lines[..|lines| - 1]);
      StepKeepsOneMode(RunFrom(s, lines[..|lines| - 1]), lines[|lines| - 1]);
    }
  }

  /** Outputs only ever grow at their ends: what the first `n` lines produced is a
      prefix of what the whole document produces, so every list keeps the order of
      the lines its entries came from. */
  lemma {:induction false} RunExtends(s: ParserState, lines: seq<string>, n: nat)
    requires n <= |lines|
    ensures var early, late := RunFrom(s, lines[..n]), RunFrom(s, lines);
      && early.description <= late.description
      && early.parameters <= late.parameters
      && early.examples <= late.examples
      && early.connections <= late.connections
    decreases |lines| - n
  {
    if n < |lines| {
      var prev := lines[..|lines| - 1];
      assert prev[..n] == lines[..n];
      RunExtends(s, prev, n);
      StepEffects(RunFrom(s, prev), lines[|lines| - 1]);
    } else {
      assert lines[..n] == lines;
    }
  }

  /** Every example comes from one bullet line `i` that was read while the examples
      mode was on, and is that bullet with its "- " removed. */
  lemma {:induction false} ExampleOrigin(s: ParserState, lines: seq<string>, k: nat) returns (i: nat)
    requires |s.examples| <= k < |RunFrom(s, lines).examples|
    ensures i < |lines| && RunFrom(s, lines[..i]).inExamples && PlainBullet(lines[i])
    ensures RunFrom(s, lines).examples[k] == BulletText(lines[i])
    decreases |lines|
  {
    var last := |lines| - 1;
    var before := RunFrom(s, lines[..last]);
    StepEffects(before, lines[last]);
    if k < |before.examples| {
      i := ExampleOrigin(s, lines[..last], k);
      PrefixOfPrefix(lines, last, i);
    } else {
      i := last;
    }
  }

  /** The same for connections. */
  lemma {:induction false} ConnectionOrigin(s: ParserState, lines: seq<string>, k: nat) returns (i: nat)
    requires |s.connections| <= k < |RunFrom(s, lines).connections|
    ensures i < |lines| && RunFrom(s, lines[..i]).inConnections && PlainBullet(lines[i])
    ensures RunFrom(s, lines).connections[k] == BulletText(lines[i])
    decreases |lines|
  {
    var last := |lines| - 1;
    var before := RunFrom(s, lines[..last]);
    StepEffects(before, lines[last]);
    if k < |before.connections| {
      i := ConnectionOrigin(s, lines[..last], k);
      PrefixOfPrefix(lines, last, i);
    } else {
      i := last;
    }
  }

  /** Every parameter comes from one bullet line `i` that was read while the
      parameters mode was on and that the parameter pattern matches. */
  lemma {:induction false} ParameterOrigin(s: ParserState, lines: seq<string>, k: nat) returns (i: nat)
    requires |s.parameters| <= k < |RunFrom(s, lines).parameters|
    ensures i < |lines| && RunFrom(s, lines[..i]).inParameters && PlainBullet(lines[i])
    ensures ParseParameter(lines[i]) == Some(RunFrom(s, lines).parameters[k])
    decreases |lines|
  {
    var last := |lines| - 1;
    var before := RunFrom(s, lines[..last]);
    StepEffects(before, lines[last]);
    if k < |before.parameters| {
      i := ParameterOrigin(s, lines[..last], k);
      PrefixOfPrefix(lines, last, i);
    } else {
      i := last;
    }
  }

  /** The parameters that a run of bullets contributes: those the pattern matches. */
  function ParsedBullets(lines: seq<string>): seq<Parameter>
    decreases |lines|
  {
    if lines == [] then [] else ParsedBullets(lines[..|lines| - 1]) + ParsedBullet(lines[|lines| - 1])
  }

  function BulletTexts(lines: seq<string>): seq<string>
    decreases |lines|
  {
    if lines == [] then [] else BulletTexts(lines[..|lines| - 1]) + [BulletText(lines[|lines| - 1])]
  }

  lemma AppendAssoc<T>(a: seq<T>, b: seq<T>, c: seq<T>)
    ensures a + b + c == a + (b + c)
  {
  }

  /** One more plain bullet inside the parameters section adds the parameter it spells. */
  lemma ParameterSectionStep(s: ParserState, lines: seq<string>)
    requires s.inParameters && AtMostOneMode(s)
    requires lines != [] && PlainBullet(lines[|lines| - 1])
    requires RunFrom(s, lines[..|lines| - 1])
      == s.(parameters := s.parameters + ParsedBullets(lines[..|lines| - 1]))
    ensures RunFrom(s, lines) == s.(parameters := s.parameters + ParsedBullets(lines))
  {
    var prev, line := lines[..|lines| - 1], lines[|lines| - 1];
    var mid := s.(parameters := s.parameters + ParsedBullets(prev));
    StepParameterBullet(mid, line);
    assert RunFrom(s, lines) == Step(RunFrom(s, prev), line);
    assert ParsedBullets(lines) == ParsedBullets(prev) + ParsedBullet(line);
    AppendAssoc(s.parameters, ParsedBullets(prev), ParsedBullet(line));
  }

  /** Inside the parameters section, plain bullets add the parameters they spell and
      nothing else, and the section stays open. */
  lemma {:induction false} ParameterSectionBody(s: ParserState, lines: seq<string>)
    requires s.inParameters && AtMostOneMode(s)
    requires forall i :: 0 <= i < |lines| ==> PlainBullet(lines[i])
    ensures RunFrom(s, lines) == s.(parameters := s.parameters + ParsedBullets(lines))
    decreases |lines|
  {
    if lines != [] {
      var last := |lines| - 1;
      var prev := lines[..last];
      assert forall i :: 0 <= i < |prev| ==> prev[i] == lines[i];
      ParameterSectionBody(s, prev);
      ParameterSectionStep(s, lines);
    }
  }

  /** Inside the examples section, plain bullets add their text to the examples and
      nothing else, and the section stays open. */
  lemma {:induction false} ExampleSectionBody(s: ParserState, lines: seq<string>)
    requires s.inExamples && AtMostOneMode(s)
    requires forall i :: 0 <= i < |lines| ==> PlainBullet(lines[i])
    ensures RunFrom(s, lines) == s.(examples := s.examples + BulletTexts(lines))
    decreases |lines|
  {
    if lines != [] {
      var last := |lines| - 1;
      ExampleSectionBody(s, lines[..last]);
      StepExampleBullet(RunFrom(s, lines[..last]), lines[last]);
    }
  }

  /** Sections do not mix: in a page with a parameters section followed by an
      examples section, the example bullets never become parameters and the parameter
      bullets never become examples. The parameters heading must not be a "## "
      heading read outside every section: such a heading goes to the description. */
  lemma SectionsDoNotMix(s: ParserState, open: string, params: seq<string>, next: string, examples: seq<string>)
    requires AtMostOneMode(s)
    requires !StartsWith(open, "# ") && !(StartsWith(open, "## ") && NoMode(s)) && MentionsParameters(open)
    requires forall i :: 0 <= i < |params| ==> PlainBullet(params[i])
    requires !StartsWith(next, "# ") && !MentionsParameters(next) && MentionsExamples(next)
    requires forall i :: 0 <= i < |examples| ==> PlainBullet(examples[i])
    ensures var r := RunFrom(s, [open] + params + [next] + examples);
      && r.parameters == s.parameters + ParsedBullets(params)
      && r.examples == s.examples + BulletTexts(examples)
      && r.connections == s.connections
  {
    var s1 := Step(s, open);
    StepEffects(s, open);
    assert RunFrom(s, [open]) == s1 by {
      assert [open][..0] == [];
    }
    ParameterSectionBody(s1, params);
    var s2 := RunFrom(s1, params);
    var s3 := Step(s2, next);
    StepEffects(s2, next);
    assert RunFrom(s2, [next]) == s3 by {
      assert [next][..0] == [];
    }
    ExampleSectionBody(s3, examples);
    RunFromAppend(s, [open], params);
    RunFromAppend(s, [open] + params, [next]);
    RunFromAppend(s, [open] + params + [next], examples);
  }

  // ---------------------------------------------------------------------------
  // parseNodeDocument and the file passes

  /** The node's name: the file name with its first ".md" removed. */
  function NodeName(filename: string): string {
    ReplaceFirst(filename, ".md", "")
  }

  /** In `x + ".md"` without an earlier ".md", the extension is the first occurrence. */
  lemma ExtensionFirst(x: string)
    requires !Contains(x, ".md")
    ensures OccursAt(x + ".md", ".md", |x|)
    ensures forall k :: 0 <= k < |x| ==> !OccursAt(x + ".md", ".md", k)
  {
    var s := x + ".md";
    assert s[|x|..|x| + 3] == ".md";
    forall k | 0 <= k < |x| ensures !OccursAt(s, ".md", k) {
      if k + 3 <= |x| {
        assert s[k..k + 3] == x[k..k + 3];
        assert !OccursAt(x, ".md", k);
      } else if k == |x| - 1 {
        assert s[k + 1] == '.';
        assert ".md"[1] == 'm';
      } else {
        assert s[k + 2] == '.';
        assert ".md"[2] == 'd';
      }
    }
  }

  /** A page file's node is named by its file name without the extension. */
  lemma NodeNameOfPage(x: string)
    requires !Contains(x, ".md")
    ensures NodeName(x + ".md") == x
  {
    var s := x + ".md";
    ExtensionFirst(x);
    assert Contains(s, ".md");
    var i :| OccursAt(s, ".md", i) && (forall k :: 0 <= k < i ==> !OccursAt(s, ".md", k))
      && NodeName(s) == s[..i] + "" + s[i + 3..];
    assert i == |x|;
    assert s[..|x|] == x && s[|x| + 3..] == [];
  }

  /** The descriptor `parseNodeDocument` returns for one page. */
  function ParsedNode(content: string, category: string, filename: string): FlowiseNode {
    var st := Run(PageLines(content));
    var name := NodeName(filename);
    FlowiseNode(category + "-" + name, name, category, name, Trim(st.description),
                st.parameters, st.examples, st.connections)
  }

  /** One turn of `parseNodeDocument`'s loop: its if-chain applied to a trimmed line
      and to the loop's seven variables, held together in `st`. */
  method ReadLine(st: ParserState, line: string) returns (r: ParserState)
    ensures r == Step(st, line)
  {
    StepByKind(st, line);
    r := st;
    if StartsWith(line, "# ") {
      assert Classify(st, line) == Title;
    } else if StartsWith(line, "## ") && !st.inParameters && !st.inExamples && !st.inConnections {
      assert Classify(st, line) == DescriptionHeading;
      r := r.(description := st.description + ReplaceFirst(line, "## ", "") + "\n");
    } else if ContainsLower(line, "parameter") || ContainsLower(line, "input") {
      assert Classify(st, line) == ParametersStart;
      r := r.(inParameters := true, inExamples := false, inConnections := false);
    } else if ContainsLower(line, "example") {
      assert Classify(st, line) == ExamplesStart;
      r := r.(inExamples := true, inParameters := false, inConnections := false);
    } else if ContainsLower(line, "connection") || ContainsLower(line, "connect") {
      assert Classify(st, line) == ConnectionsStart;
      r := r.(inConnections := true, inParameters := false, inExamples := false);
    } else if StartsWith(line, "-") && st.inParameters {
      assert Classify(st, line) == ParameterBullet;
      var param := ParseParameter(line);
      if param.Some? {
        r := r.(parameters := st.parameters + [param.value]);
      }
    } else if StartsWith(line, "-") && st.inExamples {
      assert Classify(st, line) == ExampleBullet;
      r := r.(examples := st.examples + [ReplaceFirst(line, "- ", "")]);
    } else if StartsWith(line, "-") && st.inConnections {
      assert Classify(st, line) == ConnectionBullet;
      r := r.(connections := st.connections + [ReplaceFirst(line, "- ", "")]);
    } else if StartsWith(line, "##") && (st.inParameters || st.inExamples || st.inConnections) {
      assert Classify(st, line) == SectionEnd;
      r := r.(inParameters := false, inExamples := false, inConnections := false);
    } else {
      assert Classify(st, line) == Ignored;
    }
  }

  /** `parseNodeDocument`: one pass over the page's lines, trimming each. */
  method ParseNodeDocument(content: string, category: string, filename: string) returns (node: FlowiseNode)
    ensures node == ParsedNode(content, category, filename)
    ensures node.id == category + "-" + node.name
    ensures node.nodeType == node.name && node.category == category
    ensures node.name == ReplaceFirst(filename, ".md", "")
  {
    var lines := Split(content, '\n');
    ghost var read := PageLines(content);
    var name := ReplaceFirst(filename, ".md", "");
    var st := Start;
    var i := 0;
    while i < |lines|
      invariant 0 <= i <= |lines| && |read| == |lines|
      invariant Run(read[..i]) == st
    {
      var line := Trim(lines[i]);
      assert line == read[i];
      RunOneMore(read, i);
      st := ReadLine(st, line);
      i := i + 1;
    }
    assert read[..|lines|] == read;
    node := FlowiseNode(category + "-" + name, name, category, name, Trim(st.description),
                        st.parameters, st.examples, st.connections);
  }

  /** Node pages and tutorials: markdown files other than README.md. */
  predicate IsPageFile(name: string) {
    EndsWith(name, ".md") && name != "README.md"
  }

  /** Flow pages: every markdown file, README.md included. */
  predicate IsFlowFile(name: string) {
    EndsWith(name, ".md")
  }

  predicate IsAgentFlowFile(name: string) {
    Contains(name, "agentflow")
  }

  /** The nodes `processNodeCategory` parses from one category directory, in listing
      order. */
  function CategoryNodes(category: string, files: seq<SourceFile>): seq<FlowiseNode>
    decreases |files|
  {
    if files == [] then []
    else
      var f := files[|files| - 1];
      CategoryNodes(category, files[..|files| - 1])
        + if IsPageFile(f.name) then [ParsedNode(f.content, category, f.name)] else []
  }

  /** Every node of a category carries that category, and its id and type follow from
      its name; there is one node per markdown page, README.md excluded. */
  lemma {:induction false} CategoryNodesShape(category: string, files: seq<SourceFile>)
    ensures forall n :: n in CategoryNodes(category, files) ==>
      n.category == category && n.id == category + "-" + n.name && n.nodeType == n.name
    ensures |CategoryNodes(category, files)| == |set i | 0 <= i < |files| && IsPageFile(files[i].name)|
    decreases |files|
  {
    if files != [] {
      var prev := files[..|files| - 1];
      CategoryNodesShape(category, prev);
      var lastIdx := |files| - 1;
      var before := set i | 0 <= i < |prev| && IsPageFile(prev[i].name);
      var now := set i | 0 <= i < |files| && IsPageFile(files[i].name);
      assert before == set i | 0 <= i < lastIdx && IsPageFile(files[i].name);
      if IsPageFile(files[lastIdx].name) {
        assert now == before + {lastIdx};
      } else {
        assert now == before;
      }
    }
  }

  /** `processNodeCategory` */
  method ProcessNodeCategory(category: string, files: seq<SourceFile>, nodes: seq<FlowiseNode>)
    returns (result: seq<FlowiseNode>)
    ensures result == nodes + CategoryNodes(category, files)
  {
    result := nodes;
    var i := 0;
    while i < |files|
      invariant 0 <= i <= |files|
      invariant result == nodes + CategoryNodes(category, files[..i])
    {
      var file := files[i];
      PrefixOfPrefix(files, i + 1, i);
      assert CategoryNodes(category, files[..i + 1]) == CategoryNodes(category, files[..i])
        + if IsPageFile(file.name) then [ParsedNode(file.content, category, file.name)] else [];
      if IsPageFile(file.name) {
        var node := ParseNodeDocument(file.content, category, file.name);
        assert result + [node] == nodes + (CategoryNodes(category, files[..i]) + [node]);
        result := result + [node];
      }
      i := i + 1;
    }
    assert files[..|files|] == files;
  }

  /** The nodes of every category directory, in listing order; plain files among the
      categories are skipped. */
  function TreeNodes(entries: seq<DirEntry>): seq<FlowiseNode>
    decreases |entries|
  {
    if entries == [] then []
    else
      var e := entries[|entries| - 1];
      TreeNodes(entries[..|entries| - 1])
        + if e.isDirectory then CategoryNodes(e.name, e.files) else []
  }

  /** `processNodes` */
  method ProcessNodes(nodesDir: Option<seq<DirEntry>>, knowledge: Knowledge) returns (result: Knowledge)
    ensures nodesDir.None? ==> result == knowledge
    ensures nodesDir.Some? ==> result == knowledge.(nodes := knowledge.nodes + TreeNodes(nodesDir.value))
  {
    if nodesDir.None? {
      return knowledge;
    }
    var entries := nodesDir.value;
    var nodes := knowledge.nodes;
    var i := 0;
    while i < |entries|
      invariant 0 <= i <= |entries|
      invariant nodes == knowledge.nodes + TreeNodes(entries[..i])
    {
      var entry := entries[i];
      if entry.isDirectory {
        nodes := ProcessNodeCategory(entry.name, entry.files, nodes);
      }
      assert entries[..i + 1][..i] == entries[..i];
      i := i + 1;
    }
    assert entries[..|entries|] == entries;
    result := knowledge.(nodes := nodes);
  }

  function TutorialDocument(f: SourceFile): Document {
    Document(f.content, map["source" := f.name, "type" := "tutorial", "category" := "tutorial"])
  }

  /** The tutorial documents: every markdown file except README.md, whole. */
  function Tutorials(files: seq<SourceFile>): seq<Document>
    decreases |files|
  {
    if files == [] then []
    else
      var f := files[|files| - 1];
      Tutorials(files[..|files| - 1]) + if IsPageFile(f.name) then [TutorialDocument(f)] else []
  }

  /** Every tutorial document is the document of a page file of the directory. */
  lemma {:induction false} TutorialsOrigin(files: seq<SourceFile>)
    ensures forall d :: d in Tutorials(files) ==>
      exists i :: 0 <= i < |files| && IsPageFile(files[i].name) && d == TutorialDocument(files[i])
    decreases |files|
  {
    if files != [] {
      var last := |files| - 1;
      var prev := files[..last];
      TutorialsOrigin(prev);
      forall d | d in Tutorials(files)
        ensures exists i :: 0 <= i < |files| && IsPageFile(files[i].name) && d == TutorialDocument(files[i])
      {
        if d in Tutorials(prev) {
          var i :| 0 <= i < |prev| && IsPageFile(prev[i].name) && d == TutorialDocument(prev[i]);
          assert files[i] == prev[i];
        } else {
          assert d == TutorialDocument(files[last]) && IsPageFile(files[last].name);
        }
      }
    }
  }

  /** Every page file of the directory gives a tutorial document. */
  lemma {:induction false} TutorialsListed(files: seq<SourceFile>)
    ensures forall i :: 0 <= i < |files| && IsPageFile(files[i].name) ==>
      TutorialDocument(files[i]) in Tutorials(files)
    decreases |files|
  {
    if files != [] {
      var last := |files| - 1;
      TutorialsListed(files[..last]);
      forall i | 0 <= i < last && IsPageFile(files[i].name)
        ensures TutorialDocument(files[i]) in Tutorials(files)
      {
        assert files[i] == files[..last][i];
      }
    }
  }

  /** There is one tutorial document per page file. */
  lemma {:induction false} TutorialsCount(files: seq<SourceFile>)
    ensures |Tutorials(files)| == |set i | 0 <= i < |files| && IsPageFile(files[i].name)|
    decreases |files|
  {
    if files != [] {
      var prev := files[..|files| - 1];
      TutorialsCount(prev);
      var lastIdx := |files| - 1;
      var before := set i | 0 <= i < |prev| && IsPageFile(prev[i].name);
      var now := set i | 0 <= i < |files| && IsPageFile(files[i].name);
      assert before == set i | 0 <= i < lastIdx && IsPageFile(files[i].name);
      if IsPageFile(files[lastIdx].name) {
        assert now == before + {lastIdx};
      } else {
        assert now == before;
      }
    }
  }

  /** `processTutorials` */
  method ProcessTutorials(tutorialsDir: Option<seq<SourceFile>>, knowledge: Knowledge) returns (result: Knowledge)
    ensures tutorialsDir.None? ==> result == knowledge
    ensures tutorialsDir.Some? ==>
      result == knowledge.(tutorials := knowledge.tutorials + Tutorials(tutorialsDir.value))
  {
    if tutorialsDir.None? {
      return knowledge;
    }
    var files := tutorialsDir.value;
    var tutorials := knowledge.tutorials;
    var i := 0;
    while i < |files|
      invariant 0 <= i <= |files|
      invariant tutorials == knowledge.tutorials + Tutorials(files[..i])
    {
      var file := files[i];
      if EndsWith(file.name, ".md") && file.name != "README.md" {
        var doc := Document(file.content, map["source" := file.name, "type" := "tutorial", "category" := "tutorial"]);
        tutorials := tutorials + [doc];
      }
      assert files[..i + 1][..i] == files[..i];
      i := i + 1;
    }
    assert files[..|files|] == files;
    result := knowledge.(tutorials := tutorials);
  }

  function FlowDocument(f: SourceFile): Document {
    Document(f.content, map["source" := f.name, "type" := "flow",
                            "category" := if IsAgentFlowFile(f.name) then "agentflow" else "chatflow"])
  }

  /** The flow documents of files whose name does, or does not, contain "agentflow". */
  function FlowDocuments(files: seq<SourceFile>, agent: bool): seq<Document>
    decreases |files|
  {
    if files == [] then []
    else
      var f := files[|files| - 1];
      FlowDocuments(files[..|files| - 1], agent)
        + if IsFlowFile(f.name) && IsAgentFlowFile(f.name) == agent then [FlowDocument(f)] else []
  }

  /** Every document in the agent-flow list comes from a markdown file whose name
      contains "agentflow" and is labelled so; every document in the chat-flow list
      comes from a markdown file whose name does not, and is labelled "chatflow". */
  lemma {:induction false} FlowListsLabelled(files: seq<SourceFile>, agent: bool)
    ensures forall d :: d in FlowDocuments(files, agent) ==>
      && "source" in d.metadata && "type" in d.metadata && "category" in d.metadata
      && d.metadata["type"] == "flow"
      && d.metadata["category"] == (if agent then "agentflow" else "chatflow")
      && IsFlowFile(d.metadata["source"]) && IsAgentFlowFile(d.metadata["source"]) == agent
    decreases |files|
  {
    if files != [] {
      FlowListsLabelled(files[..|files| - 1], agent);
    }
  }

  /** Every markdown file lands in the list its name selects. */
  lemma {:induction false} FlowFilesListed(files: seq<SourceFile>)
    ensures forall i :: 0 <= i < |files| && IsFlowFile(files[i].name) ==>
      FlowDocument(files[i]) in FlowDocuments(files, IsAgentFlowFile(files[i].name))
    decreases |files|
  {
    if files != [] {
      var last := |files| - 1;
      FlowFilesListed(files[..last]);
      forall i | 0 <= i < |files| && IsFlowFile(files[i].name)
        ensures FlowDocument(files[i]) in FlowDocuments(files, IsAgentFlowFile(files[i].name))
      {
        var agent := IsAgentFlowFile(files[i].name);
        var f := files[last];
        assert FlowDocuments(files, agent) == FlowDocuments(files[..last], agent)
          + if IsFlowFile(f.name) && IsAgentFlowFile(f.name) == agent then [FlowDocument(f)] else [];
        if i < last {
          assert files[i] == files[..last][i];
        }
      }
    }
  }

  /** The number of markdown files. */
  function MarkdownCount(files: seq<SourceFile>): nat
    decreases |files|
  {
    if files == [] then 0
    else MarkdownCount(files[..|files| - 1]) + if IsFlowFile(files[|files| - 1].name) then 1 else 0
  }

  /** The two flow lists together hold one document per markdown file: none is lost
      and none is counted twice. */
  lemma {:induction false} FlowListsPartition(files: seq<SourceFile>)
    ensures |FlowDocuments(files, true)| + |FlowDocuments(files, false)| == MarkdownCount(files)
    decreases |files|
  {
    if files != [] {
      FlowListsPartition(files[..|files| - 1]);
    }
  }

  /** README.md is a flow page (the node and tutorial passes skip it). */
  lemma ReadmeIsAChatFlow(content: string)
    ensures FlowDocuments([SourceFile("README.md", content)], false)
         == [FlowDocument(SourceFile("README.md", content))]
    ensures Tutorials([SourceFile("README.md", content)]) == []
    ensures CategoryNodes("any", [SourceFile("README.md", content)]) == []
  {
    var f := SourceFile("README.md", content);
    assert [f][..0] == [];
    assert IsFlowFile("README.md") by {
      assert "README.md"[9 - 3..] == ".md";
    }
    assert !IsAgentFlowFile("README.md") by {
      assert "README.md"[0] != "agentflow"[0];

    }
  }

  /** `processFlows` */
  method ProcessFlows(flowsDir: Option<seq<SourceFile>>, knowledge: Knowledge) returns (result: Knowledge)
    ensures flowsDir.None? ==> result == knowledge
    ensures flowsDir.Some? ==> result == knowledge.(
      flows := knowledge.flows + FlowDocuments(flowsDir.value, false),
      agentFlows := knowledge.agentFlows + FlowDocuments(flowsDir.value, true))
  {
    if flowsDir.None? {
      return knowledge;
    }
    var files := flowsDir.value;
    var flows := knowledge.flows;
    var agentFlows := knowledge.agentFlows;
    var i := 0;
    while i < |files|
      invariant 0 <= i <= |files|
      invariant flows == knowledge.flows + FlowDocuments(files[..i], false)
      invariant agentFlows == knowledge.agentFlows + FlowDocuments(files[..i], true)
    {
      var file := files[i];
      if EndsWith(file.name, ".md") {
        var doc := Document(file.content, map["source" := file.name, "type" := "flow",
          "category" := if Contains(file.name, "agentflow") then "agentflow" else "chatflow"]);
        if Contains(file.name, "agentflow") {
          agentFlows := agentFlows + [doc];
        } else {
          flows := flows + [doc];
        }
      }
      assert files[..i + 1][..i] == files[..i];
      i := i + 1;
    }
    assert files[..|files|] == files;
    result := knowledge.(flows := flows, agentFlows := agentFlows);
  }

  /** The knowledge one processing pass builds from a documentation tree. */
  function Processed(tree: DocTree): Knowledge {
    Knowledge(
      if tree.nodesDir.Some? then TreeNodes(tree.nodesDir.value) else [],
      if tree.tutorialsDir.Some? then Tutorials(tree.tutorialsDir.value) else [],
      if tree.flowsDir.Some? then FlowDocuments(tree.flowsDir.value, false) else [],
      if tree.flowsDir.Some? then FlowDocuments(tree.flowsDir.value, true) else [])
  }

  /** `processDocumentation`: nodes, then tutorials, then flows. A missing directory is
      skipped, so a tree without any of them gives empty knowledge. */
  method ProcessDocumentation(tree: DocTree) returns (knowledge: Knowledge)
    ensures knowledge == Processed(tree)
    ensures tree == DocTree(None, None, None) ==> knowledge == EmptyKnowledge
  {
    knowledge := EmptyKnowledge;
    knowledge := ProcessNodes(tree.nodesDir, knowledge);
    knowledge := ProcessTutorials(tree.tutorialsDir, knowledge);
    knowledge := ProcessFlows(tree.flowsDir, knowledge);
  }
}
