/** The knowledge store of flowise-generator/src/vectorStore.ts: the text layout a node
    descriptor is indexed under, the documents one `addKnowledge` call sends to the
    vector index, and the `VectorStoreManager` whose every operation is guarded by the
    store having been initialised. The vector index itself (Chroma with OpenAI
    embeddings) is a collaborator: the manager holds its similarity search and its
    connection test as opaque functions. */
module VectorStore {
  import opened Wrappers
  import opened Text
  import opened DocumentProcessor

  // ---------------------------------------------------------------------------
  // Node serialisation (formatNodeAsDocument)

  /** The text of a sequence of lines, each followed by a line feed. */
  function Lines(ls: seq<string>): string
    decreases |ls|
  {
    if ls == [] then "" else ls[0] + "\n" + Lines(ls[1..])
  }

  lemma {:induction false} LinesAppend(a: seq<string>, b: seq<string>)
    ensures Lines(a + b) == Lines(a) + Lines(b)
    decreases |a|
  {
    if a == [] {
      assert a + b == b;
    } else {
      assert (a + b)[1..] == a[1..] + b;
      LinesAppend(a[1..], b);
    }
  }

  lemma LinesSnoc(a: seq<string>, l: string)
    ensures Lines(a + [l]) == Lines(a) + l + "\n"
  {
    LinesAppend(a, [l]);
    assert Lines([l]) == l + "\n" + Lines([]);
  }

  /** The text of lines is the lines joined by line feeds, with an empty last line. */
  lemma {:induction false} LinesJoin(ls: seq<string>)
    ensures Lines(ls) == Join(ls + [""], '\n')
    decreases |ls|
  {
    if ls != [] {
      assert (ls + [""])[1..] == ls[1..] + [""];
      LinesJoin(ls[1..]);
    }
  }

  /** The line of one parameter: `- name: description (type)`, with `, required`
      after the type for a required parameter. */
  function ParamLine(p: Parameter): string {
    "- " + p.name + ": " + p.description + " (" + p.paramType
      + (if p.required then ", required" else "") + ")"
  }

  function ParamLines(ps: seq<Parameter>): (ls: seq<string>)
    ensures |ls| == |ps| && forall i :: 0 <= i < |ps| ==> ls[i] == ParamLine(ps[i])
  {
    seq(|ps|, i requires 0 <= i < |ps| => ParamLine(ps[i]))
  }

  /** One `- item` line per example or connection. */
  function Bullets(items: seq<string>): (ls: seq<string>)
    ensures |ls| == |items| && forall i :: 0 <= i < |items| ==> ls[i] == "- " + items[i]
  {
    seq(|items|, i requires 0 <= i < |items| => "- " + items[i])
  }

  /** A titled section, present only for a non-empty list; it opens with an empty line. */
  function Section(title: string, body: seq<string>): seq<string> {
    if body == [] then [] else ["", title + ":"] + body
  }

  function HeaderLines(node: FlowiseNode): seq<string> {
    ["Node: " + node.name, "Type: " + node.nodeType, "Category: " + node.category,
     "Description: " + node.description]
  }

  /** The lines of the text a node is indexed under. */
  function NodeLines(node: FlowiseNode): seq<string> {
    HeaderLines(node)
      + Section("Parameters", ParamLines(node.parameters))
      + Section("Examples", Bullets(node.examples))
      + Section("Connections", Bullets(node.connections))
  }

  function NodeText(node: FlowiseNode): string {
    Lines(NodeLines(node))
  }

  /** `formatNodeAsDocument(node)`: the four header lines, then the non-empty parameter,
      example and connection sections, appended to one string. */
  method FormatNodeAsDocument(node: FlowiseNode) returns (content: string)
    ensures content == NodeText(node)
  {
    var h := HeaderLines(node);
    content := "Node: " + node.name + "\n";
    content := content + "Type: " + node.nodeType + "\n";
    content := content + "Category: " + node.category + "\n";
    content := content + "Description: " + node.description + "\n";
    HeaderText(node);
    var ps := Section("Parameters", ParamLines(node.parameters));
    var es := Section("Examples", Bullets(node.examples));
    var cs := Section("Connections", Bullets(node.connections));
    content := AppendParameters(content, node.parameters);
    content := AppendBullets(content, "Examples", node.examples);
    content := AppendBullets(content, "Connections", node.connections);
    LinesAppend(h, ps);
    LinesAppend(h + ps, es);
    LinesAppend(h + ps + es, cs);
  }

  /** The parameter section: a title and one line per parameter, or nothing. */
  method AppendParameters(text: string, ps: seq<Parameter>) returns (content: string)
    ensures content == text + Lines(Section("Parameters", ParamLines(ps)))
  {
    content := text;
    if |ps| > 0 {
      var lines := ParamLines(ps);
      var title := "Parameters";
      var head := ["", title + ":"];
      content := content + "\n" + title + ":\n";
      assert Lines([title + ":"]) == title + ":" + "\n" + Lines([]);
      assert Lines(head) == "" + "\n" + Lines([title + ":"]);
      assert head + lines[..0] == head;
      var i := 0;
      while i < |ps|
        invariant 0 <= i <= |ps|
        invariant content == text + Lines(head + lines[..i])
      {
        var done := head + lines[..i];
        LinesSnoc(done, lines[i]);
        content := content + ParamLine(ps[i]) + "\n";
        assert content == text + Lines(done + [lines[i]]);
        assert lines[..i + 1] == lines[..i] + [lines[i]];
        assert done + [lines[i]] == head + lines[..i + 1];
        i := i + 1;
      }
      assert lines[..i] == lines;
    }
  }

  /** A bullet section: a title and one `- item` line per item, or nothing. */
  method AppendBullets(text: string, title: string, items: seq<string>) returns (content: string)
    ensures content == text + Lines(Section(title, Bullets(items)))
  {
    content := text;
    if |items| > 0 {
      var lines := Bullets(items);
      var head := ["", title + ":"];
      content := content + "\n" + title + ":\n";
      assert Lines([title + ":"]) == title + ":" + "\n" + Lines([]);
      assert Lines(head) == "" + "\n" + Lines([title + ":"]);
      assert head + lines[..0] == head;
      var i := 0;
      while i < |items|
        invariant 0 <= i <= |items|
        invariant content == text + Lines(head + lines[..i])
      {
        var done := head + lines[..i];
        LinesSnoc(done, lines[i]);
        content := content + "- " + items[i] + "\n";
        assert content == text + Lines(done + [lines[i]]);
        assert lines[..i + 1] == lines[..i] + [lines[i]];
        assert done + [lines[i]] == head + lines[..i + 1];
        i := i + 1;
      }
      assert lines[..i] == lines;
    }
  }

  lemma LinesOfFour(a: string, b: string, c: string, d: string)
    ensures Lines([a, b, c, d]) == a + "\n" + (b + "\n" + (c + "\n" + (d + "\n")))
  {
    assert [a, b, c, d][1..] == [b, c, d];
    assert [b, c, d][1..] == [c, d];
    assert [c, d][1..] == [d];
    assert [d][1..] == [];
    assert Lines([d]) == d + "\n";
    assert Lines([c, d]) == c + "\n" + (d + "\n");
    assert Lines([b, c, d]) == b + "\n" + (c + "\n" + (d + "\n"));
  }

  /** The four header lines as text. */
  lemma HeaderText(node: FlowiseNode)
    ensures Lines(HeaderLines(node))
      == "Node: " + node.name + "\n" + "Type: " + node.nodeType + "\n"
         + "Category: " + node.category + "\n" + "Description: " + node.description + "\n"
  {
    var a, b, c, d := "Node: " + node.name, "Type: " + node.nodeType,
      "Category: " + node.category, "Description: " + node.description;
    LinesOfFour(a, b, c, d);
  }

  /** The text always opens with the `Node:`, `Type:`, `Category:` and `Description:`
      lines, in that order. */
  lemma NodeTextHeader(node: FlowiseNode)
    ensures StartsWith(NodeText(node),
      "Node: " + node.name + "\n" + "Type: " + node.nodeType + "\n"
      + "Category: " + node.category + "\n" + "Description: " + node.description + "\n")
  {
    var h := HeaderLines(node);
    var rest := NodeLines(node)[4..];
    assert NodeLines(node) == h + rest;
    LinesAppend(h, rest);
    HeaderText(node);
    var x := Lines(h);
    assert NodeText(node) == x + Lines(rest);
    assert (x + Lines(rest))[..|x|] == x;
  }

  /** A parameter line ends with `(string, required)` exactly for a required parameter
      (the parser gives every parameter the type "string"). */
  lemma ParamLineRequired(p: Parameter)
    requires p.paramType == "string"
    ensures EndsWith(ParamLine(p), "(string, required)") <==> p.required
  {
    var pre := "- " + p.name + ": " + p.description + " ";
    var w := "(string, required)";
    var l := ParamLine(p);
    if p.required {
      assert l == pre + w;
      assert l[|l| - |w|..] == w;
    } else {
      assert l == pre + "(string)";
      assert l[|l| - 8] == '(';
      assert w[10] == 'e';
      if |l| >= |w| {
        assert l[|l| - |w|..][10] == l[|l| - 8];
      }
    }
  }

  /** No field of the node spans several lines. */
  predicate SingleLine(node: FlowiseNode) {
    && '\n' !in node.name && '\n' !in node.nodeType && '\n' !in node.category
    && '\n' !in node.description
    && (forall i :: 0 <= i < |node.parameters| ==>
          '\n' !in node.parameters[i].name && '\n' !in node.parameters[i].description
          && '\n' !in node.parameters[i].paramType)
    && (forall i :: 0 <= i < |node.examples| ==> '\n' !in node.examples[i])
    && (forall i :: 0 <= i < |node.connections| ==> '\n' !in node.connections[i])
  }

  lemma SingleLineLines(node: FlowiseNode)
    requires SingleLine(node)
    ensures forall i :: 0 <= i < |NodeLines(node)| ==> '\n' !in NodeLines(node)[i]
  {
    var ls := NodeLines(node);
    var h := HeaderLines(node);
    var ps := Section("Parameters", ParamLines(node.parameters));
    var es := Section("Examples", Bullets(node.examples));
    var cs := Section("Connections", Bullets(node.connections));
    assert forall i :: 0 <= i < |h| ==> '\n' !in h[i];
    assert forall i :: 0 <= i < |ps| ==> '\n' !in ps[i];
    assert forall i :: 0 <= i < |es| ==> '\n' !in es[i];
    assert forall i :: 0 <= i < |cs| ==> '\n' !in cs[i];
    assert ls == h + ps + es + cs;
  }

  /** When no field spans several lines, the text splits into exactly the node's lines:
      the four header lines, then one line per parameter, example and connection
      under the title of its non-empty section, and an empty last line. */
  lemma NodeTextLines(node: FlowiseNode)
    requires SingleLine(node)
    ensures Split(NodeText(node), '\n') == NodeLines(node) + [""]
  {
    var ls := NodeLines(node) + [""];
    SingleLineLines(node);
    LinesJoin(NodeLines(node));
    SplitJoin(ls, '\n');
  }

  /** A section title line appears among a node's lines exactly when its list is not
      empty. */
  lemma SectionTitles(node: FlowiseNode)
    ensures "Parameters:" in NodeLines(node) <==> node.parameters != []
    ensures "Examples:" in NodeLines(node) <==> node.examples != []
    ensures "Connections:" in NodeLines(node) <==> node.connections != []
  {
    var h := HeaderLines(node);
    var pl := ParamLines(node.parameters);
    var el := Bullets(node.examples);
    var cl := Bullets(node.connections);
    assert NodeLines(node) == h + Section("Parameters", pl) + Section("Examples", el) + Section("Connections", cl);
    forall i | 0 <= i < |pl| ensures |pl[i]| > 0 && pl[i][0] == '-' {
      assert pl[i] == ParamLine(node.parameters[i]);
    }
    forall i | 0 <= i < |el| ensures |el[i]| > 0 && el[i][0] == '-' {
      assert el[i] == "- " + node.examples[i];
    }
    forall i | 0 <= i < |cl| ensures |cl[i]| > 0 && cl[i][0] == '-' {
      assert cl[i] == "- " + node.connections[i];
    }
    TitleNotInHeader(node, "Parameters:");
    TitleNotInHeader(node, "Examples:");
    TitleNotInHeader(node, "Connections:");
    SectionHolds("Parameters", pl, "Parameters:");
    SectionHolds("Parameters", pl, "Examples:");
    SectionHolds("Parameters", pl, "Connections:");
    SectionHolds("Examples", el, "Parameters:");
    SectionHolds("Examples", el, "Examples:");
    SectionHolds("Examples", el, "Connections:");
    SectionHolds("Connections", cl, "Parameters:");
    SectionHolds("Connections", cl, "Examples:");
    SectionHolds("Connections", cl, "Connections:");
  }

  /** A section holds a line other than a bullet only as its title or its opening
      empty line. */
  lemma SectionHolds(title: string, body: seq<string>, t: string)
    requires forall i :: 0 <= i < |body| ==> |body[i]| > 0 && body[i][0] == '-'
    requires t != "" && t[0] != '-'
    ensures t in Section(title, body) <==> body != [] && t == title + ":"
  {
    forall i | 0 <= i < |body| ensures body[i] != t {
      assert body[i][0] != t[0];
    }
  }

  /** No header line is a section title. */
  lemma TitleNotInHeader(node: FlowiseNode, t: string)
    requires t == "Parameters:" || t == "Examples:" || t == "Connections:"
    ensures t !in HeaderLines(node)
  {
    var h := HeaderLines(node);
    assert |t| > 1 && t[0] != 'N' && t[0] != 'T' && t[0] != 'D' && (t[0] != 'C' || t[1] != 'a');
    forall i | 0 <= i < 4 ensures h[i] != t {
      if i == 0 {
        assert h[0][0] == 'N';
      } else if i == 1 {
        assert h[1][0] == 'T';
      } else if i == 2 {
        assert h[2][0] == 'C' && h[2][1] == 'a';
      } else {
        assert h[3][0] == 'D';
      }
    }
  }

  // ---------------------------------------------------------------------------
  // Knowledge assembly (addKnowledge)

  /** The document a node is indexed as, tagged with its type, category, node type, id
      and name. */
  function NodeDocument(node: FlowiseNode): Document {
    Document(NodeText(node),
      map["type" := "node", "category" := node.category, "nodeType" := node.nodeType,
          "nodeId" := node.id, "name" := node.name])
  }

  /** The documents one `addKnowledge` call sends: one per node, then the tutorials,
      flows and agent flows as they are. */
  function KnowledgeDocuments(knowledge: Knowledge): seq<Document> {
    seq(|knowledge.nodes|, i requires 0 <= i < |knowledge.nodes| => NodeDocument(knowledge.nodes[i]))
      + knowledge.tutorials + knowledge.flows + knowledge.agentFlows
  }

  /** One document per node in node order, each tagged "node" with the node's own
      category, type, id and name, followed by the other three lists unchanged; the
      count is the sum of the four list lengths. */
  lemma KnowledgeDocumentsShape(knowledge: Knowledge)
    ensures |KnowledgeDocuments(knowledge)|
      == |knowledge.nodes| + |knowledge.tutorials| + |knowledge.flows| + |knowledge.agentFlows|
    ensures forall i :: 0 <= i < |knowledge.nodes| ==>
      var d := KnowledgeDocuments(knowledge)[i];
      var n := knowledge.nodes[i];
      && d.pageContent == NodeText(n)
      && d.metadata.Keys == {"type", "category", "nodeType", "nodeId", "name"}
      && d.metadata["type"] == "node" && d.metadata["category"] == n.category
      && d.metadata["nodeType"] == n.nodeType && d.metadata["nodeId"] == n.id
      && d.metadata["name"] == n.name
    ensures KnowledgeDocuments(knowledge)[|knowledge.nodes|..]
      == knowledge.tutorials + knowledge.flows + knowledge.agentFlows
  {
    var nodes := seq(|knowledge.nodes|, i requires 0 <= i < |knowledge.nodes| => NodeDocument(knowledge.nodes[i]));
    var rest := knowledge.tutorials + knowledge.flows + knowledge.agentFlows;
    assert KnowledgeDocuments(knowledge) == nodes + rest;
  }

  /** The document list `addKnowledge` builds by pushing onto an array. */
  method AssembleDocuments(knowledge: Knowledge) returns (documents: seq<Document>)
    ensures documents == KnowledgeDocuments(knowledge)
  {
    var nodes := knowledge.nodes;
    ghost var all := seq(|nodes|, i requires 0 <= i < |nodes| => NodeDocument(nodes[i]));
    documents := [];
    var i := 0;
    while i < |nodes|
      invariant 0 <= i <= |nodes|
      invariant documents == all[..i]
    {
      var content := FormatNodeAsDocument(nodes[i]);
      var doc := Document(content,
        map["type" := "node", "category" := nodes[i].category, "nodeType" := nodes[i].nodeType,
            "nodeId" := nodes[i].id, "name" := nodes[i].name]);
      documents := documents + [doc];
      assert all[..i + 1] == all[..i] + [all[i]];
      i := i + 1;
    }
    assert all[..i] == all;
    documents := documents + knowledge.tutorials;
    documents := documents + knowledge.flows;
    documents := documents + knowledge.agentFlows;
  }

  // ---------------------------------------------------------------------------
  // The manager

  /** A similarity query: up to `k` documents near `text`, optionally restricted to the
      documents whose metadata maps a key to a value. */
  datatype Query = Query(text: string, k: nat, filter: Option<(string, string)>)

  predicate Matches(d: Document, filter: Option<(string, string)>) {
    match filter
    case None => true
    case Some((key, value)) => key in d.metadata && d.metadata[key] == value
  }

  /** A similarity search that keeps to its contract: at most `k` results, each an
      indexed document that passes the filter. The ranking itself is the index's. */
  ghost predicate Honest(search: (seq<Document>, Query) -> Result<seq<Document>, string>) {
    forall docs, q :: search(docs, q).Ok? ==>
      var r := search(docs, q).value;
      |r| <= q.k && forall i :: 0 <= i < |r| ==> r[i] in docs && Matches(r[i], q.filter)
  }

  datatype StoreError = NotInitialized | ServiceFailed(reason: string)

  function StoreMessage(e: StoreError): string {
    match e
    case NotInitialized => "Vector store not initialized"
    case ServiceFailed(reason) => reason
  }

  const DefaultCollection := "flowise-knowledge"
  const EmbeddingModel := "text-embedding-ada-002"
  const DefaultChromaUrl := "http://localhost:8000"

  /** `process.env.CHROMA_URL || 'http://localhost:8000'`: an unset or empty variable
      gives the local default. */
  function ChromaUrl(env: Option<string>): (url: string)
    ensures env.Some? && env.value != "" ==> url == env.value
    ensures env.None? || env.value == "" ==> url == DefaultChromaUrl
  {
    if env.Some? && env.value != "" then env.value else DefaultChromaUrl
  }

  class VectorStoreManager {
    const collectionName: string
    /** The index's similarity search over the documents it holds. */
    const search: (seq<Document>, Query) -> Result<seq<Document>, string>
    /** Whether the index at a URL accepts a collection of the given name. */
    const connect: (string, string) -> bool
    /** `vectorStore !== null` */
    var ready: bool
    /** The documents this manager has added to the index, in order. */
    var indexed: seq<Document>

    constructor (collectionName: string,
                 search: (seq<Document>, Query) -> Result<seq<Document>, string>,
                 connect: (string, string) -> bool)
      ensures this.collectionName == collectionName
      ensures this.search == search && this.connect == connect
      ensures !ready && indexed == []
    {
      this.collectionName := collectionName;
      this.search := search;
      this.connect := connect;
      ready := false;
      indexed := [];
    }

    /** `new VectorStoreManager()` with the default collection name. */
    constructor WithDefaultCollection(search: (seq<Document>, Query) -> Result<seq<Document>, string>,
                                      connect: (string, string) -> bool)
      ensures collectionName == DefaultCollection
      ensures this.search == search && this.connect == connect
      ensures !ready && indexed == []
    {
      collectionName := DefaultCollection;
      this.search := search;
      this.connect := connect;
      ready := false;
      indexed := [];
    }

    /** `initialize()`: opens the collection at the configured URL; on failure the
        error propagates and the store keeps its previous state. */
    method Initialize(env: Option<string>) returns (r: Result<(), StoreError>)
      modifies this
      ensures connect(collectionName, ChromaUrl(env)) ==> r.Ok? && ready && indexed == old(indexed)
      ensures !connect(collectionName, ChromaUrl(env)) ==>
        r.Err? && r.error.ServiceFailed? && ready == old(ready) && indexed == old(indexed)
    {
      if connect(collectionName, ChromaUrl(env)) {
        ready := true;
        r := Ok(());
      } else {
        r := Err(ServiceFailed("Error initializing vector store"));
      }
    }

    /** `addKnowledge(knowledge)`: refused while the store is null; otherwise the
        assembled documents go to the index in one call, which `accepted` says the
        index took. */
    method AddKnowledge(knowledge: Knowledge, accepted: bool) returns (r: Result<(), StoreError>)
      modifies this
      ensures ready == old(ready)
      ensures !ready ==> r == Err(NotInitialized) && indexed == old(indexed)
      ensures ready && accepted ==> r.Ok? && indexed == old(indexed) + KnowledgeDocuments(knowledge)
      ensures ready && !accepted ==> r.Err? && r.error.ServiceFailed? && indexed == old(indexed)
    {
      if !ready {
        return Err(NotInitialized);
      }
      var documents := AssembleDocuments(knowledge);
      if accepted {
        indexed := indexed + documents;
        r := Ok(());
      } else {
        r := Err(ServiceFailed("Error adding documents to vector store"));
      }
    }

    /** What the guarded query methods return for a query. */
    function Answer(q: Query): (r: Result<seq<Document>, StoreError>)
      reads this
      ensures !ready ==> r == Err(NotInitialized)
      ensures ready && search(indexed, q).Ok? ==> r == Ok(search(indexed, q).value)
      ensures ready && search(indexed, q).Err? ==> r == Err(ServiceFailed(search(indexed, q).error))
    {
      if !ready then Err(NotInitialized)
      else match search(indexed, q)
        case Ok(docs) => Ok(docs)
        case Err(e) => Err(ServiceFailed(e))
    }

    /** With an honest index, a successful answer holds at most `k` indexed documents,
        each passing the query's filter. */
    lemma HonestAnswer(q: Query)
      requires Honest(search)
      ensures Answer(q).Ok? ==> |Answer(q).value| <= q.k
      ensures Answer(q).Ok? ==> forall i :: 0 <= i < |Answer(q).value| ==>
        Answer(q).value[i] in indexed && Matches(Answer(q).value[i], q.filter)
    {
      if ready {
        var r := search(indexed, q);
      }
    }

    /** `search(query, k)` */
    method Search(query: string, k: nat) returns (r: Result<seq<Document>, StoreError>)
      ensures r == Answer(Query(query, k, None))
      ensures !ready ==> r == Err(NotInitialized)
    {
      if !ready {
        return Err(NotInitialized);
      }
      r := Answer(Query(query, k, None));
    }

    /** `searchByType(query, type, k)` */
    method SearchByType(query: string, docType: string, k: nat) returns (r: Result<seq<Document>, StoreError>)
      ensures r == Answer(Query(query, k, Some(("type", docType))))
      ensures !ready ==> r == Err(NotInitialized)
    {
      if !ready {
        return Err(NotInitialized);
      }
      r := Answer(Query(query, k, Some(("type", docType))));
    }

    /** `searchByCategory(query, category, k)` */
    method SearchByCategory(query: string, category: string, k: nat) returns (r: Result<seq<Document>, StoreError>)
      ensures r == Answer(Query(query, k, Some(("category", category))))
      ensures !ready ==> r == Err(NotInitialized)
    {
      if !ready {
        return Err(NotInitialized);
      }
      r := Answer(Query(query, k, Some(("category", category))));
    }

    /** `getAllNodes()`: up to 100 node documents near the word "node". */
    method GetAllNodes() returns (r: Result<seq<Document>, StoreError>)
      ensures r == Answer(Query("node", 100, Some(("type", "node"))))
      ensures !ready ==> r == Err(NotInitialized)
    {
      if !ready {
        return Err(NotInitialized);
      }
      r := Answer(Query("node", 100, Some(("type", "node"))));
    }

    /** `getTutorials()`: up to 50 tutorial documents. */
    method GetTutorials() returns (r: Result<seq<Document>, StoreError>)
      ensures r == Answer(Query("tutorial", 50, Some(("type", "tutorial"))))
      ensures !ready ==> r == Err(NotInitialized)
    {
      if !ready {
        return Err(NotInitialized);
      }
      r := Answer(Query("tutorial", 50, Some(("type", "tutorial"))));
    }

    /** `getFlows()`: up to 50 flow documents. */
    method GetFlows() returns (r: Result<seq<Document>, StoreError>)
      ensures r == Answer(Query("flow", 50, Some(("type", "flow"))))
      ensures !ready ==> r == Err(NotInitialized)
    {
      if !ready {
        return Err(NotInitialized);
      }
      r := Answer(Query("flow", 50, Some(("type", "flow"))));
    }

    /** `getAgentFlows()`: up to 50 documents of the category "agentflow". */
    method GetAgentFlows() returns (r: Result<seq<Document>, StoreError>)
      ensures r == Answer(Query("agentflow", 50, Some(("category", "agentflow"))))
      ensures !ready ==> r == Err(NotInitialized)
    {
      if !ready {
        return Err(NotInitialized);
      }
      r := Answer(Query("agentflow", 50, Some(("category", "agentflow"))));
    }
  }
}
