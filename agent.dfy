/** The flow agent of flowise-generator/src/flowiseAgent.ts: retrieval of context
    documents, the context text sent to the model, extraction of the JSON object from
    the model's reply, validation of the parsed flow graph and the splitting of review
    suggestions. The chat-completion client and `JSON.parse` are collaborators, held by
    the agent as opaque functions. */
module FlowAgent {
  import opened Wrappers
  import opened Text
  import opened Json
  import opened DocumentProcessor
  import opened VectorStore

  // ---------------------------------------------------------------------------
  // validateFlow

  /** The ways validation fails. `NullProperty` is the `TypeError` JavaScript raises
      when a property of a `null` entry is read. */
  datatype FlowError =
    | NoNodesArray
    | NoEdgesArray
    | NodeFieldMissing
    | NodeDataFieldMissing
    | EdgeFieldMissing
    | SourceNotFound(source: Json)
    | TargetNotFound(target: Json)
    | NullProperty

  /** The message of each error; `None` where JavaScript would render a number, array or
      object reference into the message, which the model does not spell out. */
  function FlowMessage(e: FlowError): Option<string> {
    match e
    case NoNodesArray => Some("Flow must have nodes array")
    case NoEdgesArray => Some("Flow must have edges array")
    case NodeFieldMissing => Some("Node must have id, type, position, and data")
    case NodeDataFieldMissing => Some("Node data must have label, name, and category")
    case EdgeFieldMissing => Some("Edge must have id, source, target, sourceHandle, and targetHandle")
    case SourceNotFound(v) =>
      (match Rendered(v) case Some(t) => Some("Source node " + t + " not found") case None => None)
    case TargetNotFound(v) =>
      (match Rendered(v) case Some(t) => Some("Target node " + t + " not found") case None => None)
    case NullProperty => None
  }

  /** The text of a string or boolean value inside a template literal. */
  function Rendered(v: Json): Option<string> {
    match v
    case JString(s) => Some(s)
    case JBool(b) => Some(if b then "true" else "false")
    case JNull => Some("null")
    case _ => None
  }

  /** A node with a truthy `id`, `type`, `position` and `data`, whose `data` has a truthy
      `label`, `name` and `category`. */
  predicate NodeOk(n: Json) {
    && !n.JNull?
    && Truthy(Get(n, "id")) && Truthy(Get(n, "type")) && Truthy(Get(n, "position"))
    && Truthy(Get(n, "data"))
    && var data := Get(n, "data").value;
       Truthy(Get(data, "label")) && Truthy(Get(data, "name")) && Truthy(Get(data, "category"))
  }

  /** An edge with a truthy `id`, `source`, `target`, `sourceHandle` and `targetHandle`. */
  predicate EdgeOk(e: Json) {
    && !e.JNull?
    && Truthy(Get(e, "id")) && Truthy(Get(e, "source")) && Truthy(Get(e, "target"))
    && Truthy(Get(e, "sourceHandle")) && Truthy(Get(e, "targetHandle"))
  }

  /** Some node's `id` is `===` to the reference. */
  predicate Declares(nodes: seq<Json>, ref: Option<Json>) {
    exists i :: 0 <= i < |nodes| && StrictEquals(Get(nodes[i], "id"), ref)
  }

  /** The error the node loop raises for one node, if any. */
  function NodeIssue(n: Json): Option<FlowError> {
    if n.JNull? then Some(NullProperty)
    else if !(Truthy(Get(n, "id")) && Truthy(Get(n, "type")) && Truthy(Get(n, "position"))
              && Truthy(Get(n, "data"))) then Some(NodeFieldMissing)
    else
      var data := Get(n, "data").value;
      if !(Truthy(Get(data, "label")) && Truthy(Get(data, "name")) && Truthy(Get(data, "category")))
      then Some(NodeDataFieldMissing)
      else None
  }

  /** The error the edge loop raises for one edge, if any: missing fields first, then
      an unknown source, then an unknown target. */
  function EdgeIssue(e: Json, nodes: seq<Json>): Option<FlowError> {
    if e.JNull? then Some(NullProperty)
    else if !(Truthy(Get(e, "id")) && Truthy(Get(e, "source")) && Truthy(Get(e, "target"))
              && Truthy(Get(e, "sourceHandle")) && Truthy(Get(e, "targetHandle")))
    then Some(EdgeFieldMissing)
    else if !Declares(nodes, Get(e, "source")) then Some(SourceNotFound(Get(e, "source").value))
    else if !Declares(nodes, Get(e, "target")) then Some(TargetNotFound(Get(e, "target").value))
    else None
  }

  function FirstNodeIssue(nodes: seq<Json>): Option<FlowError>
    decreases |nodes|
  {
    if nodes == [] then None
    else if NodeIssue(nodes[0]).Some? then NodeIssue(nodes[0])
    else FirstNodeIssue(nodes[1..])
  }

  function FirstEdgeIssue(edges: seq<Json>, nodes: seq<Json>): Option<FlowError>
    decreases |edges|
  {
    if edges == [] then None
    else if EdgeIssue(edges[0], nodes).Some? then EdgeIssue(edges[0], nodes)
    else FirstEdgeIssue(edges[1..], nodes)
  }

  function NodesOf(flow: Json): seq<Json> {
    var v := Get(flow, "nodes");
    if v.Some? && v.value.JArray? then v.value.items else []
  }

  function EdgesOf(flow: Json): seq<Json> {
    var v := Get(flow, "edges");
    if v.Some? && v.value.JArray? then v.value.items else []
  }

  /** `validateFlow(flow)`: the arrays first, then every node, then every edge. */
  function Validate(flow: Json): Result<Json, FlowError> {
    if flow.JNull? then Err(NullProperty)
    else if !IsArray(Get(flow, "nodes")) then Err(NoNodesArray)
    else if !IsArray(Get(flow, "edges")) then Err(NoEdgesArray)
    else match FirstNodeIssue(NodesOf(flow))
      case Some(e) => Err(e)
      case None =>
        match FirstEdgeIssue(EdgesOf(flow), NodesOf(flow))
        case Some(e) => Err(e)
        case None => Ok(flow)
  }

  /** A flow graph the validator accepts: both arrays present, every node and edge
      complete, and every edge's source and target the id of some node. */
  predicate WellFormed(flow: Json) {
    && IsArray(Get(flow, "nodes")) && IsArray(Get(flow, "edges"))
    && (forall i :: 0 <= i < |NodesOf(flow)| ==> NodeOk(NodesOf(flow)[i]))
    && (forall j :: 0 <= j < |EdgesOf(flow)| ==>
          var e := EdgesOf(flow)[j];
          EdgeOk(e) && Declares(NodesOf(flow), Get(e, "source"))
          && Declares(NodesOf(flow), Get(e, "target")))
  }

  lemma NodeIssueNone(n: Json)
    ensures NodeIssue(n).None? <==> NodeOk(n)
  {
  }

  lemma EdgeIssueNone(e: Json, nodes: seq<Json>)
    ensures EdgeIssue(e, nodes).None? <==>
      EdgeOk(e) && Declares(nodes, Get(e, "source")) && Declares(nodes, Get(e, "target"))
  {
  }

  /** The node loop reports the issue of the first node that has one. */
  lemma {:induction false} FirstNodeIssueAt(nodes: seq<Json>, i: nat)
    requires i <= |nodes|
    requires forall k :: 0 <= k < i ==> NodeIssue(nodes[k]).None?
    ensures FirstNodeIssue(nodes) == FirstNodeIssue(nodes[i..])
    decreases i
  {
    if i > 0 {
      assert NodeIssue(nodes[0]).None?;
      FirstNodeIssueAt(nodes[1..], i - 1);
      assert nodes[1..][i - 1..] == nodes[i..];
    }
  }

  lemma {:induction false} FirstNodeIssueNone(nodes: seq<Json>)
    ensures FirstNodeIssue(nodes).None? <==> forall k :: 0 <= k < |nodes| ==> NodeIssue(nodes[k]).None?
    decreases |nodes|
  {
    if nodes != [] {
      FirstNodeIssueNone(nodes[1..]);
      assert forall k :: 1 <= k < |nodes| ==> nodes[k] == nodes[1..][k - 1];
    }
  }

  lemma {:induction false} FirstEdgeIssueAt(edges: seq<Json>, nodes: seq<Json>, j: nat)
    requires j <= |edges|
    requires forall k :: 0 <= k < j ==> EdgeIssue(edges[k], nodes).None?
    ensures FirstEdgeIssue(edges, nodes) == FirstEdgeIssue(edges[j..], nodes)
    decreases j
  {
    if j > 0 {
      assert EdgeIssue(edges[0], nodes).None?;
      FirstEdgeIssueAt(edges[1..], nodes, j - 1);
      assert edges[1..][j - 1..] == edges[j..];
    }
  }

  lemma {:induction false} FirstEdgeIssueNone(edges: seq<Json>, nodes: seq<Json>)
    ensures FirstEdgeIssue(edges, nodes).None? <==>
      forall k :: 0 <= k < |edges| ==> EdgeIssue(edges[k], nodes).None?
    decreases |edges|
  {
    if edges != [] {
      FirstEdgeIssueNone(edges[1..], nodes);
      assert forall k :: 1 <= k < |edges| ==> edges[k] == edges[1..][k - 1];
    }
  }

  /** The validator accepts exactly the well-formed flows, and returns them unchanged. */
  lemma ValidateAccepts(flow: Json)
    ensures Validate(flow).Ok? <==> WellFormed(flow)
    ensures Validate(flow).Ok? ==> Validate(flow).value == flow
  {
    var ns := NodesOf(flow);
    var es := EdgesOf(flow);
    FirstNodeIssueNone(ns);
    FirstEdgeIssueNone(es, ns);
    forall i | 0 <= i < |ns| ensures NodeIssue(ns[i]).None? <==> NodeOk(ns[i]) {
      NodeIssueNone(ns[i]);
    }
    forall j | 0 <= j < |es| ensures EdgeIssue(es[j], ns).None? <==>
      EdgeOk(es[j]) && Declares(ns, Get(es[j], "source")) && Declares(ns, Get(es[j], "target"))
    {
      EdgeIssueNone(es[j], ns);
    }
  }

  /** The array checks come first: a missing `nodes` array is reported before anything
      else, then a missing `edges` array. */
  lemma ValidateArraysFirst(flow: Json)
    requires !flow.JNull?
    ensures !IsArray(Get(flow, "nodes")) ==> Validate(flow) == Err(NoNodesArray)
    ensures IsArray(Get(flow, "nodes")) && !IsArray(Get(flow, "edges")) ==> Validate(flow) == Err(NoEdgesArray)
  {
  }

  /** With both arrays present, the first incomplete node is reported, before any edge
      is looked at. */
  lemma ValidateFirstBadNode(flow: Json, i: nat)
    requires !flow.JNull? && IsArray(Get(flow, "nodes")) && IsArray(Get(flow, "edges"))
    requires i < |NodesOf(flow)| && !NodeOk(NodesOf(flow)[i])
    requires forall k :: 0 <= k < i ==> NodeOk(NodesOf(flow)[k])
    ensures Validate(flow) == Err(NodeIssue(NodesOf(flow)[i]).value)
    ensures Validate(flow).error in {NullProperty, NodeFieldMissing, NodeDataFieldMissing}
  {
    var ns := NodesOf(flow);
    forall k | 0 <= k < i ensures NodeIssue(ns[k]).None? {
      NodeIssueNone(ns[k]);
    }
    NodeIssueNone(ns[i]);
    FirstNodeIssueAt(ns, i);
    assert ns[i..][0] == ns[i];
  }

  /** With every node complete, the first bad edge is reported: missing fields first,
      then an unknown source, and an unknown target only when the source is known. */
  lemma ValidateFirstBadEdge(flow: Json, j: nat)
    requires !flow.JNull? && IsArray(Get(flow, "nodes")) && IsArray(Get(flow, "edges"))
    requires forall k :: 0 <= k < |NodesOf(flow)| ==> NodeOk(NodesOf(flow)[k])
    requires j < |EdgesOf(flow)|
    requires forall k :: 0 <= k < j ==> EdgeIssue(EdgesOf(flow)[k], NodesOf(flow)).None?
    ensures var e := EdgesOf(flow)[j];
      && (!EdgeOk(e) ==> Validate(flow).Err? && Validate(flow).error in {NullProperty, EdgeFieldMissing})
      && (EdgeOk(e) && !Declares(NodesOf(flow), Get(e, "source")) ==>
            Validate(flow) == Err(SourceNotFound(Get(e, "source").value)))
      && (EdgeOk(e) && Declares(NodesOf(flow), Get(e, "source")) && !Declares(NodesOf(flow), Get(e, "target")) ==>
            Validate(flow) == Err(TargetNotFound(Get(e, "target").value)))
  {
    var ns := NodesOf(flow);
    var es := EdgesOf(flow);
    forall k | 0 <= k < |ns| ensures NodeIssue(ns[k]).None? {
      NodeIssueNone(ns[k]);
    }
    FirstNodeIssueNone(ns);
    FirstEdgeIssueAt(es, ns, j);
    assert es[j..][0] == es[j];
  }

  /** `flowConfig.nodes.find(n => n.id === ref)` */
  method FindNode(nodes: seq<Json>, ref: Option<Json>) returns (found: Option<Json>)
    ensures found.Some? <==> Declares(nodes, ref)
    ensures found.Some? ==> found.value in nodes && StrictEquals(Get(found.value, "id"), ref)
  {
    var i := 0;
    while i < |nodes|
      invariant 0 <= i <= |nodes|
      invariant forall k :: 0 <= k < i ==> !StrictEquals(Get(nodes[k], "id"), ref)
    {
      if StrictEquals(Get(nodes[i], "id"), ref) {
        return Some(nodes[i]);
      }
      i := i + 1;
    }
    return None;
  }

  /** `validateFlow(flowConfig)`, with its two loops and early exits. */
  method ValidateFlow(flow: Json) returns (r: Result<Json, FlowError>)
    ensures r == Validate(flow)
  {
    if flow.JNull? {
      return Err(NullProperty);
    }
    var nodes := Get(flow, "nodes");
    if !Truthy(nodes) || !IsArray(nodes) {
      return Err(NoNodesArray);
    }
    var edges := Get(flow, "edges");
    if !Truthy(edges) || !IsArray(edges) {
      return Err(NoEdgesArray);
    }
    var ns := nodes.value.items;
    var es := edges.value.items;
    assert ns == NodesOf(flow) && es == EdgesOf(flow);
    r := CheckNodes(ns);
    if r.Err? {
      return r;
    }
    r := CheckEdges(es, ns);
    if r.Err? {
      return r;
    }
    FirstNodeIssueNone(ns);
    return Ok(flow);
  }

  /** The node loop of `validateFlow`; `Ok(JNull)` stands for passing it. */
  method CheckNodes(ns: seq<Json>) returns (r: Result<Json, FlowError>)
    ensures r.Ok? <==> FirstNodeIssue(ns).None?
    ensures r.Err? ==> r.error == FirstNodeIssue(ns).value
  {
    var i := 0;
    while i < |ns|
      invariant 0 <= i <= |ns|
      invariant forall k :: 0 <= k < i ==> NodeIssue(ns[k]).None?
    {
      var node := ns[i];
      FirstNodeIssueAt(ns, i);
      assert ns[i..][0] == node;
      if node.JNull? {
        return Err(NullProperty);
      }
      if !Truthy(Get(node, "id")) || !Truthy(Get(node, "type")) || !Truthy(Get(node, "position"))
         || !Truthy(Get(node, "data")) {
        return Err(NodeFieldMissing);
      }
      var data := Get(node, "data").value;
      if !Truthy(Get(data, "label")) || !Truthy(Get(data, "name")) || !Truthy(Get(data, "category")) {
        return Err(NodeDataFieldMissing);
      }
      i := i + 1;
    }
    FirstNodeIssueNone(ns);
    return Ok(JNull);
  }

  /** The edge loop of `validateFlow`; `Ok(JNull)` stands for passing it. */
  method CheckEdges(es: seq<Json>, ns: seq<Json>) returns (r: Result<Json, FlowError>)
    ensures r.Ok? <==> FirstEdgeIssue(es, ns).None?
    ensures r.Err? ==> r.error == FirstEdgeIssue(es, ns).value
  {
    var j := 0;
    while j < |es|
      invariant 0 <= j <= |es|
      invariant forall k :: 0 <= k < j ==> EdgeIssue(es[k], ns).None?
    {
      var edge := es[j];
      FirstEdgeIssueAt(es, ns, j);
      assert es[j..][0] == edge;
      if edge.JNull? {
        return Err(NullProperty);
      }
      if !Truthy(Get(edge, "id")) || !Truthy(Get(edge, "source")) || !Truthy(Get(edge, "target"))
         || !Truthy(Get(edge, "sourceHandle")) || !Truthy(Get(edge, "targetHandle")) {
        return Err(EdgeFieldMissing);
      }
      var sourceNode := FindNode(ns, Get(edge, "source"));
      var targetNode := FindNode(ns, Get(edge, "target"));
      if sourceNode.None? {
        return Err(SourceNotFound(Get(edge, "source").value));
      }
      if targetNode.None? {
        return Err(TargetNotFound(Get(edge, "target").value));
      }
      j := j + 1;
    }
    FirstEdgeIssueNone(es, ns);
    return Ok(JNull);
  }

  // ---------------------------------------------------------------------------
  // formatContextForAI

  /** `doc.metadata[key] || 'Unknown'` */
  function Label(metadata: map<string, string>, key: string): (l: string)
    ensures key in metadata && metadata[key] != "" ==> l == metadata[key]
    ensures key !in metadata || metadata[key] == "" ==> l == "Unknown"
  {
    if key in metadata && metadata[key] != "" then metadata[key] else "Unknown"
  }

  /** The first 500 characters of a document's text. */
  function Excerpt(d: Document): (c: string)
    ensures |c| <= 500 && |c| <= |d.pageContent| && c == d.pageContent[..|c|]
    ensures |d.pageContent| <= 500 ==> c == d.pageContent
  {
    Take(d.pageContent, 500)
  }

  /** The block one document contributes to the context. */
  function Block(d: Document): string {
    ("\n--- Document: " + Label(d.metadata, "source") + " ---\n")
      + ("Type: " + Label(d.metadata, "type") + "\n")
      + ("Content: " + Excerpt(d) + "...\n\n")
  }

  lemma ThreePieces(h: string, t: string, c: string)
    ensures StartsWith(h + t + c, h) && StartsWith(h + t + c, h + t) && EndsWith(h + t + c, c)
  {
    assert (h + t + c)[..|h + t|] == h + t;
    assert (h + t)[..|h|] == h;
    assert (h + t + c)[..|h|] == (h + t)[..|h|];
  }

  /** A block opens with its document's source, `Unknown` for a missing or empty one. */
  lemma BlockSource(d: Document)
    ensures ("source" !in d.metadata || d.metadata["source"] == "") ==>
      StartsWith(Block(d), "\n--- Document: Unknown ---\n")
    ensures "source" in d.metadata && d.metadata["source"] != "" ==>
      StartsWith(Block(d), "\n--- Document: " + d.metadata["source"] + " ---\n")
  {
    var h := "\n--- Document: " + Label(d.metadata, "source") + " ---\n";
    ThreePieces(h, "Type: " + Label(d.metadata, "type") + "\n", "Content: " + Excerpt(d) + "...\n\n");
  }

  /** After the source line a block names its document's type, `Unknown` for a missing
      or empty one. */
  lemma BlockType(d: Document)
    ensures ("type" !in d.metadata || d.metadata["type"] == "") ==>
      StartsWith(Block(d), "\n--- Document: " + Label(d.metadata, "source") + " ---\nType: Unknown\n")
    ensures "type" in d.metadata && d.metadata["type"] != "" ==>
      StartsWith(Block(d), "\n--- Document: " + Label(d.metadata, "source") + " ---\nType: "
        + d.metadata["type"] + "\n")
  {
    var h := "\n--- Document: " + Label(d.metadata, "source") + " ---\n";
    var t := "Type: " + Label(d.metadata, "type") + "\n";
    ThreePieces(h, t, "Content: " + Excerpt(d) + "...\n\n");
    assert h + t == "\n--- Document: " + Label(d.metadata, "source") + " ---\nType: " + Label(d.metadata, "type") + "\n";
  }

  /** A block closes with the excerpt of its document's content. */
  lemma BlockContent(d: Document)
    ensures EndsWith(Block(d), "Content: " + Excerpt(d) + "...\n\n")
  {
    ThreePieces("\n--- Document: " + Label(d.metadata, "source") + " ---\n",
      "Type: " + Label(d.metadata, "type") + "\n", "Content: " + Excerpt(d) + "...\n\n");
  }

  function Blocks(docs: seq<Document>): string
    decreases |docs|
  {
    if docs == [] then "" else Blocks(docs[..|docs| - 1]) + Block(docs[|docs| - 1])
  }

  /** The context text: one block for each of the first ten documents. */
  function FormatContext(docs: seq<Document>): string {
    Blocks(Take(docs, 10))
  }

  /** Documents after the tenth never reach the context. */
  lemma ContextIgnoresLaterDocs(docs: seq<Document>, more: seq<Document>)
    requires |docs| >= 10
    ensures FormatContext(docs + more) == FormatContext(docs)
  {
    assert Take(docs + more, 10) == Take(docs, 10);
  }

  /** Below ten documents, each further document adds its own block at the end. */
  lemma ContextGrows(docs: seq<Document>, d: Document)
    requires |docs| < 10
    ensures FormatContext(docs + [d]) == FormatContext(docs) + Block(d)
  {
    assert Take(docs + [d], 10) == docs + [d];
    assert (docs + [d])[..|docs|] == docs;
  }

  lemma BlockAppended(context: string, doc: Document)
    ensures context + "\n--- Document: " + Label(doc.metadata, "source") + " ---\n"
      + "Type: " + Label(doc.metadata, "type") + "\n"
      + "Content: " + Take(doc.pageContent, 500) + "...\n\n" == context + Block(doc)
  {
  }

  /** `formatContextForAI(docs)` */
  method FormatContextForAI(docs: seq<Document>) returns (context: string)
    ensures context == FormatContext(docs)
  {
    context := "";
    var shown := Take(docs, 10);
    var i := 0;
    while i < |shown|
      invariant 0 <= i <= |shown|
      invariant context == Blocks(shown[..i])
    {
      var doc := shown[i];
      ghost var before := context;
      context := context + "\n--- Document: " + Label(doc.metadata, "source") + " ---\n";
      context := context + "Type: " + Label(doc.metadata, "type") + "\n";
      context := context + "Content: " + Take(doc.pageContent, 500) + "...\n\n";
      BlockAppended(before, doc);
      assert shown[..i + 1][..i] == shown[..i];
      i := i + 1;
    }
    assert shown[..i] == shown;
  }

  // ---------------------------------------------------------------------------
  // JSON extraction: response.match(/\{[\s\S]*\}/)

  function FirstIndexOf(s: string, c: char): (r: Option<nat>)
    ensures r.Some? ==> r.value < |s| && s[r.value] == c && forall k :: 0 <= k < r.value ==> s[k] != c
    ensures r.None? ==> forall k :: 0 <= k < |s| ==> s[k] != c
    decreases |s|
  {
    if s == [] then None
    else if s[0] == c then Some(0)
    else match FirstIndexOf(s[1..], c)
      case None => None
      case Some(i) => Some(i + 1)
  }

  function LastIndexOf(s: string, c: char): (r: Option<nat>)
    ensures r.Some? ==> r.value < |s| && s[r.value] == c && forall k :: r.value < k < |s| ==> s[k] != c
    ensures r.None? ==> forall k :: 0 <= k < |s| ==> s[k] != c
    decreases |s|
  {
    if s == [] then None
    else if s[|s| - 1] == c then Some(|s| - 1)
    else LastIndexOf(s[..|s| - 1], c)
  }

  /** The match starting at `i`, if any: an opening brace, then as many characters as
      possible up to a closing brace. */
  function BraceMatchAt(s: string, i: nat): Option<string>
    requires i < |s|
  {
    if s[i] != '{' then None
    else match LastIndexOf(s, '}')
      case Some(j) => if j > i then Some(s[i..j + 1]) else None
      case None => None
  }

  /** The leftmost match at or after `i`. */
  function BraceSearch(s: string, i: nat): Option<string>
    requires i <= |s|
    decreases |s| - i
  {
    if i == |s| then None
    else match BraceMatchAt(s, i)
      case Some(m) => Some(m)
      case None => BraceSearch(s, i + 1)
  }

  function ExtractJson(response: string): Option<string> {
    BraceSearch(response, 0)
  }

  lemma {:induction false} BraceSearchSkips(s: string, i: nat, f: nat)
    requires i <= f <= |s|
    requires forall k :: i <= k < f ==> s[k] != '{'
    ensures BraceSearch(s, i) == BraceSearch(s, f)
    decreases f - i
  {
    if i < f {
      BraceSearchSkips(s, i + 1, f);
    }
  }

  lemma {:induction false} BraceSearchFails(s: string, i: nat)
    requires i <= |s|
    requires LastIndexOf(s, '}').None? || LastIndexOf(s, '}').value < i
    ensures BraceSearch(s, i) == None
    decreases |s| - i
  {
    if i < |s| {
      BraceSearchFails(s, i + 1);
    }
  }

  /** Extraction succeeds exactly when some `{` comes before some `}`, and then yields
      the text from the first `{` to the last `}`, both included. */
  lemma ExtractJsonFirstLast(s: string)
    ensures var f := FirstIndexOf(s, '{');
      var l := LastIndexOf(s, '}');
      ExtractJson(s) == if f.Some? && l.Some? && f.value < l.value then Some(s[f.value..l.value + 1]) else None
  {
    var f := FirstIndexOf(s, '{');
    var l := LastIndexOf(s, '}');
    if f.None? {
      BraceSearchSkips(s, 0, |s|);
    } else {
      BraceSearchSkips(s, 0, f.value);
      if !(l.Some? && l.value > f.value) {
        BraceSearchFails(s, f.value + 1);
      }
    }
  }

  /** Some `{` precedes some `}` exactly when the first `{` precedes the last `}`. */
  lemma BracePair(s: string)
    ensures (exists i, j :: 0 <= i < j < |s| && s[i] == '{' && s[j] == '}') <==>
      var f := FirstIndexOf(s, '{');
      var l := LastIndexOf(s, '}');
      f.Some? && l.Some? && f.value < l.value
  {
  }

  /** Extraction succeeds exactly when some `{` comes before some `}`, and then yields
      the text from the first `{` to the last `}`, both included. */
  lemma ExtractJsonSpan(s: string)
    ensures ExtractJson(s).Some? <==>
      exists i, j :: 0 <= i < j < |s| && s[i] == '{' && s[j] == '}'
    ensures ExtractJson(s).Some? ==>
      var i := FirstIndexOf(s, '{').value;
      var j := LastIndexOf(s, '}').value;
      i < j && ExtractJson(s) == Some(s[i..j + 1])
  {
    ExtractJsonFirstLast(s);
    BracePair(s);
  }

  /** The extracted text opens with `{` and closes with `}`. */
  lemma ExtractedIsBraced(s: string)
    requires ExtractJson(s).Some?
    ensures |ExtractJson(s).value| >= 2
    ensures ExtractJson(s).value[0] == '{' && ExtractJson(s).value[|ExtractJson(s).value| - 1] == '}'
  {
    ExtractJsonSpan(s);
  }

  // ---------------------------------------------------------------------------
  // Suggestions: response.split(/\d+\./).filter(s => s.trim().length > 0).map(s => s.trim())

  /** The number of digits at the front of `s`. */
  function DigitRun(s: string): (n: nat)
    ensures n <= |s| && forall k :: 0 <= k < n ==> IsDigit(s[k])
    ensures n == |s| || !IsDigit(s[n])
    decreases |s|
  {
    if s != [] && IsDigit(s[0]) then 1 + DigitRun(s[1..]) else 0
  }

  /** The length of a match of `\d+\.` at the front of `s`: the whole digit run and a
      dot (a shorter run is followed by a digit, never by a dot). */
  function NumberPrefix(s: string): Option<nat> {
    var n := DigitRun(s);
    if 0 < n < |s| && s[n] == '.' then Some(n + 1) else None
  }

  /** Splitting the rest `s` of the text, `acc` being the piece read so far: at each
      position a separator match is tried, and the piece ends where one starts. */
  function SplitRest(s: string, acc: string): seq<string>
    decreases |s|
  {
    if s == [] then [acc]
    else match NumberPrefix(s)
      case Some(n) => [acc] + SplitRest(s[n..], "")
      case None => SplitRest(s[1..], acc + [s[0]])
  }

  function SplitNumbered(s: string): seq<string> {
    SplitRest(s, "")
  }

  /** The pieces that are not white space only, trimmed. */
  function Kept(pieces: seq<string>): (r: seq<string>)
    ensures forall i :: 0 <= i < |r| ==> r[i] != [] && !IsSpace(r[i][0]) && !IsSpace(r[i][|r[i]| - 1])
    decreases |pieces|
  {
    if pieces == [] then []
    else
      TrimShape(pieces[0]);
      (if Trim(pieces[0]) != [] then [Trim(pieces[0])] else []) + Kept(pieces[1..])
  }

  function Suggestions(response: string): seq<string> {
    Kept(SplitNumbered(response))
  }

  predicate NoDigits(s: string) {
    forall k :: 0 <= k < |s| ==> !IsDigit(s[k])
  }

  predicate Numeral(s: string) {
    s != [] && forall k :: 0 <= k < |s| ==> IsDigit(s[k])
  }

  /** A numbered list, one item per line: `1. first`, `2. second`, ... */
  function NumberedList(items: seq<string>, numerals: seq<string>): string
    requires |items| == |numerals| >= 1
    decreases |items|
  {
    if |items| == 1 then numerals[0] + ". " + items[0]
    else numerals[0] + ". " + items[0] + "\n" + NumberedList(items[1..], numerals[1..])
  }

  lemma NumeralPrefix(d: string, rest: string)
    requires Numeral(d)
    ensures NumberPrefix(d + "." + rest) == Some(|d| + 1)
  {
    var s := d + "." + rest;
    DigitRunOf(d, "." + rest);
    assert s == d + ("." + rest);
  }

  lemma {:induction false} DigitRunOf(d: string, rest: string)
    requires forall k :: 0 <= k < |d| ==> IsDigit(d[k])
    requires rest == [] || !IsDigit(rest[0])
    ensures DigitRun(d + rest) == |d|
    decreases |d|
  {
    if d == [] {
      assert d + rest == rest;
    } else {
      assert (d + rest)[1..] == d[1..] + rest;
      DigitRunOf(d[1..], rest);
    }
  }

  /** Text without digits never holds a separator, so it only extends the piece. */
  lemma {:induction false} SplitRestNoDigits(x: string, s: string, acc: string)
    requires NoDigits(x)
    ensures SplitRest(x + s, acc) == SplitRest(s, acc + x)
    decreases |x|
  {
    if x == [] {
      assert x + s == s && acc + x == acc;
    } else {
      assert (x + s)[0] == x[0];
      assert (x + s)[1..] == x[1..] + s;
      assert acc + [x[0]] + x[1..] == acc + x;
      SplitRestNoDigits(x[1..], s, acc + [x[0]]);
    }
  }

  lemma PaddedNoDigits(x: string, eol: string)
    requires NoDigits(x) && NoDigits(eol)
    ensures NoDigits(" " + x + eol)
  {
    var y := " " + x + eol;
    assert forall k :: 1 <= k < 1 + |x| ==> y[k] == x[k - 1];
    assert forall k :: 1 + |x| <= k < |y| ==> y[k] == eol[k - 1 - |x|];
  }

  /** A numeral and its dot end the current piece; the text up to the next numeral
      starts the next one. */
  lemma LeadingItem(d: string, y: string, rest: string, acc: string)
    requires Numeral(d) && NoDigits(y)
    ensures SplitRest(d + "." + (y + rest), acc) == [acc] + SplitRest(rest, y)
  {
    var s := d + "." + (y + rest);
    NumeralPrefix(d, y + rest);
    assert s[|d| + 1..] == y + rest;
    SplitRestNoDigits(y, rest, "");
    assert "" + y == y;
  }

  /** The items as they stand between the numbers of a numbered list: after the space
      that follows the dot, and with the line feed that ends all but the last line. */
  function Padded(items: seq<string>): seq<string>
    requires |items| >= 1
    decreases |items|
  {
    if |items| == 1 then [" " + items[0]] else [" " + items[0] + "\n"] + Padded(items[1..])
  }

  /** The pieces of a numbered list: an empty piece before the first number, then each
      item padded as it stands in the list. */
  lemma {:induction false} NumberedListPieces(items: seq<string>, numerals: seq<string>, acc: string)
    requires |items| == |numerals| >= 1
    requires forall i :: 0 <= i < |items| ==> NoDigits(items[i]) && Numeral(numerals[i])
    ensures SplitRest(NumberedList(items, numerals), acc) == [acc] + Padded(items)
    decreases |items|
  {
    var d := numerals[0];
    var x := items[0];
    if |items| == 1 {
      PaddedNoDigits(x, "");
      assert " " + x + "" == " " + x;
      assert NumberedList(items, numerals) == d + "." + (" " + x + []);
      LeadingItem(d, " " + x, [], acc);
    } else {
      var tail := NumberedList(items[1..], numerals[1..]);
      var y := " " + x + "\n";
      PaddedNoDigits(x, "\n");
      assert NumberedList(items, numerals) == d + "." + (y + tail);
      LeadingItem(d, y, tail, acc);
      NumberedListPieces(items[1..], numerals[1..], y);
    }
  }

  lemma {:induction false} KeptPadded(items: seq<string>)
    requires |items| >= 1
    requires forall i :: 0 <= i < |items| ==> items[i] != [] && !IsSpace(items[i][0]) && !IsSpace(items[i][|items[i]| - 1])
    ensures Kept(Padded(items)) == items
    decreases |items|
  {
    var x := items[0];
    if |items| == 1 {
      TrimPadded(" ", x, "");
      assert " " + x + "" == " " + x;
      assert [" " + x][1..] == [];
    } else {
      TrimPadded(" ", x, "\n");
      assert Padded(items)[1..] == Padded(items[1..]);
      KeptPadded(items[1..]);
      assert items == [x] + items[1..];
    }
  }

  /** Suggestions round-trip through a numbered list: the items come back in order,
      whatever the numbers, when they hold no digits and are trimmed. */
  lemma SuggestionsOfNumberedList(items: seq<string>, numerals: seq<string>)
    requires |items| == |numerals| >= 1
    requires forall i :: 0 <= i < |items| ==> NoDigits(items[i]) && Numeral(numerals[i])
    requires forall i :: 0 <= i < |items| ==> items[i] != [] && !IsSpace(items[i][0]) && !IsSpace(items[i][|items[i]| - 1])
    ensures Suggestions(NumberedList(items, numerals)) == items
  {
    NumberedListPieces(items, numerals, "");
    assert Trim("") == "";
    assert ([""] + Padded(items))[1..] == Padded(items);
    KeptPadded(items);
  }

  /** The reply `1. A\n2. B` gives the suggestions `A` and `B`. */
  lemma SuggestionsExample()
    ensures Suggestions("1. A\n2. B") == ["A", "B"]
  {
    assert "1. A\n2. B" == NumberedList(["A", "B"], ["1", "2"]);
    SuggestionsOfNumberedList(["A", "B"], ["1", "2"]);
  }

  /** A version number inside a suggestion is split as well: the digits before its
      dot count as a separator. */
  lemma SuggestionsSplitVersions()
    ensures Suggestions("v1.2") == ["v", "2"]
  {
    assert !IsSpace('v') && !IsSpace('2');
    TrimPadded("", "v", "");
    assert "" + "v" + "" == "v";
    TrimPadded("", "2", "");
    assert "" + "2" + "" == "2";
    assert NumberPrefix("v1.2") == None;
    assert "v1.2"[1..] == "1.2";
    assert DigitRun("1.2") == 1;
    assert NumberPrefix("1.2") == Some(2);
    assert "1.2"[2..] == "2";
    assert DigitRun("2") == 1;
    assert NumberPrefix("2") == None;
    assert "2"[1..] == [];
    assert SplitRest("", "2") == ["2"];
    assert SplitRest("2", "") == SplitRest("", "" + ['2']);
    assert "" + ['2'] == "2";
    assert SplitRest("1.2", "v") == ["v"] + SplitRest("2", "");
    assert SplitRest("v1.2", "") == SplitRest("1.2", "" + ['v']);
    assert "" + ['v'] == "v";
    assert SplitNumbered("v1.2") == ["v", "2"];
    assert ["v", "2"][1..] == ["2"];
  }

  // ---------------------------------------------------------------------------
  // The agent

  datatype FlowType = Chatflow | Agentflow

  function FlowTypeName(t: FlowType): string {
    match t
    case Chatflow => "chatflow"
    case Agentflow => "agentflow"
  }

  /** What the model is asked; the prompt text built from these parts is not modelled. */
  datatype Prompt =
    | FlowPrompt(description: string, flowType: FlowType, context: string)
    | ReviewPrompt(flow: Json, description: string)

  datatype ChatRequest = ChatRequest(prompt: Prompt, temperature: real, maxTokens: nat)

  function FlowRequest(description: string, flowType: FlowType, context: string): ChatRequest {
    ChatRequest(FlowPrompt(description, flowType, context), 0.3, 4000)
  }

  function ReviewRequest(flow: Json, description: string): ChatRequest {
    ChatRequest(ReviewPrompt(flow, description), 0.3, 2000)
  }

  datatype AgentError =
    | StoreFailed(store: StoreError)
    | ClientMissing          // the chat client was never created
    | ClientCreationFailed
    | ChatFailed(reason: string)
    | NoResponse             // "No response from AI"
    | NoJsonFound            // "No valid JSON found in response"
    | MalformedJson          // JSON.parse threw
    | InvalidFlow(flow: FlowError)

  /** `choices[0]?.message?.content` as JavaScript truthiness sees it. */
  predicate HasContent(reply: Option<string>) {
    reply.Some? && reply.value != ""
  }

  class FlowiseAgent {
    const store: VectorStoreManager
    /** One chat completion: `Err` when the call throws, `Ok(None)` when the reply has
        no content. */
    const chat: ChatRequest -> Result<Option<string>, string>
    /** `JSON.parse`; `None` when it throws. */
    const parse: string -> Option<Json>
    /** `this.zai` has been created. */
    var connected: bool

    constructor (store: VectorStoreManager, chat: ChatRequest -> Result<Option<string>, string>,
                 parse: string -> Option<Json>)
      ensures this.store == store && this.chat == chat && this.parse == parse
      ensures !connected
    {
      this.store := store;
      this.chat := chat;
      this.parse := parse;
      connected := false;
    }

    /** `initialize()`: creates the chat client; on failure nothing changes. */
    method Initialize(created: bool) returns (r: Result<(), AgentError>)
      modifies this
      ensures created ==> r.Ok? && connected
      ensures !created ==> r == Err(ClientCreationFailed) && connected == old(connected)
    {
      if created {
        connected := true;
        r := Ok(());
      } else {
        r := Err(ClientCreationFailed);
      }
    }

    /** The documents `retrieveRelevantKnowledge` gathers, or the first store error. */
    function Retrieval(description: string, flowType: FlowType): Result<seq<Document>, StoreError>
      reads store
    {
      match store.Answer(Query(description, 10, None))
      case Err(e) => Err(e)
      case Ok(nodeDocs) =>
        match store.Answer(Query(description, 5, Some(("type", "tutorial"))))
        case Err(e) => Err(e)
        case Ok(tutorialDocs) =>
          match store.Answer(Query(description, 5, Some(("type", "flow"))))
          case Err(e) => Err(e)
          case Ok(flowDocs) =>
            if flowType != Agentflow then Ok(nodeDocs + tutorialDocs + flowDocs)
            else match store.Answer(Query("agentflow", 50, Some(("category", "agentflow"))))
              case Err(e) => Err(e)
              case Ok(agentDocs) => Ok(nodeDocs + tutorialDocs + flowDocs + Take(agentDocs, 5))
    }

    /** The retrieved documents are the generic hits, then the tutorial hits, then the
        flow hits, then, for an agent flow only, the first five agent-flow documents;
        nothing is dropped or merged. */
    lemma RetrievalOrder(description: string, flowType: FlowType,
                         a: seq<Document>, b: seq<Document>, c: seq<Document>, d: seq<Document>)
      requires store.Answer(Query(description, 10, None)) == Ok(a)
      requires store.Answer(Query(description, 5, Some(("type", "tutorial")))) == Ok(b)
      requires store.Answer(Query(description, 5, Some(("type", "flow")))) == Ok(c)
      requires flowType == Agentflow ==> store.Answer(Query("agentflow", 50, Some(("category", "agentflow")))) == Ok(d)
      ensures flowType == Chatflow ==> Retrieval(description, flowType) == Ok(a + b + c)
      ensures flowType == Agentflow ==> Retrieval(description, flowType) == Ok(a + b + c + Take(d, 5))
      ensures |Retrieval(description, flowType).value|
        == |a| + |b| + |c| + (if flowType == Agentflow then (if |d| < 5 then |d| else 5) else 0)
    {
    }

    /** With an honest index, at most 20 documents are retrieved for a chat flow and
        at most 25 for an agent flow. */
    lemma RetrievalBound(description: string, flowType: FlowType)
      requires Honest(store.search)
      ensures Retrieval(description, flowType).Ok? ==>
        |Retrieval(description, flowType).value| <= (if flowType == Agentflow then 25 else 20)
    {
      store.HonestAnswer(Query(description, 10, None));
      store.HonestAnswer(Query(description, 5, Some(("type", "tutorial"))));
      store.HonestAnswer(Query(description, 5, Some(("type", "flow"))));
    }

    /** `retrieveRelevantKnowledge(description, flowType)` */
    method Retrieve(description: string, flowType: FlowType) returns (r: Result<seq<Document>, StoreError>)
      ensures r == Retrieval(description, flowType)
    {
      var relevantDocs: seq<Document> := [];
      var nodeDocs := store.Search(description, 10);
      if nodeDocs.Err? {
        return Err(nodeDocs.error);
      }
      relevantDocs := relevantDocs + nodeDocs.value;
      var tutorialDocs := store.SearchByType(description, "tutorial", 5);
      if tutorialDocs.Err? {
        return Err(tutorialDocs.error);
      }
      relevantDocs := relevantDocs + tutorialDocs.value;
      var flowDocs := store.SearchByType(description, "flow", 5);
      if flowDocs.Err? {
        return Err(flowDocs.error);
      }
      relevantDocs := relevantDocs + flowDocs.value;
      if flowType == Agentflow {
        var agentDocs := store.GetAgentFlows();
        if agentDocs.Err? {
          return Err(agentDocs.error);
        }
        relevantDocs := relevantDocs + Take(agentDocs.value, 5);
      }
      assert [] + nodeDocs.value == nodeDocs.value;
      return Ok(relevantDocs);
    }

    /** The flow `generateFlowConfig` obtains from the model for the given documents. */
    function FlowConfig(description: string, flowType: FlowType, docs: seq<Document>): Result<Json, AgentError>
      reads this
    {
      if !connected then Err(ClientMissing)
      else match chat(FlowRequest(description, flowType, FormatContext(docs)))
        case Err(m) => Err(ChatFailed(m))
        case Ok(reply) =>
          if !HasContent(reply) then Err(NoResponse)
          else match ExtractJson(reply.value)
            case None => Err(NoJsonFound)
            case Some(text) =>
              match parse(text)
              case None => Err(MalformedJson)
              case Some(v) => Ok(v)
    }

    /** A configuration comes only from a non-empty reply to a request at temperature
        0.3 and at most 4000 tokens, as the parse of its braced span. */
    lemma FlowConfigSource(description: string, flowType: FlowType, docs: seq<Document>)
      requires FlowConfig(description, flowType, docs).Ok?
      ensures connected
      ensures var req := chat(ChatRequest(FlowPrompt(description, flowType, FormatContext(docs)), 0.3, 4000));
        && req.Ok? && HasContent(req.value)
        && ExtractJson(req.value.value).Some?
        && parse(ExtractJson(req.value.value).value) == Some(FlowConfig(description, flowType, docs).value)
    {
    }

    /** `generateFlowConfig(description, flowType, docs)` */
    method GenerateFlowConfig(description: string, flowType: FlowType, docs: seq<Document>)
      returns (r: Result<Json, AgentError>)
      ensures r == FlowConfig(description, flowType, docs)
    {
      var context := FormatContextForAI(docs);
      if !connected {
        return Err(ClientMissing);
      }
      var completion := chat(FlowRequest(description, flowType, context));
      if completion.Err? {
        return Err(ChatFailed(completion.error));
      }
      var response := completion.value;
      if response.None? || response.value == "" {
        return Err(NoResponse);
      }
      var jsonMatch := ExtractJson(response.value);
      if jsonMatch.None? {
        return Err(NoJsonFound);
      }
      var flowConfig := parse(jsonMatch.value);
      if flowConfig.None? {
        return Err(MalformedJson);
      }
      return Ok(flowConfig.value);
    }

    /** What `generateFlow` produces: retrieval, generation and validation in turn, the
        first failure ending it. */
    function Outcome(description: string, flowType: FlowType): Result<Json, AgentError>
      reads this, store
    {
      match Retrieval(description, flowType)
      case Err(e) => Err(StoreFailed(e))
      case Ok(docs) =>
        match FlowConfig(description, flowType, docs)
        case Err(e) => Err(e)
        case Ok(flow) =>
          match Validate(flow)
          case Err(e) => Err(InvalidFlow(e))
          case Ok(v) => Ok(v)
    }

    /** Every flow the agent returns is well formed, and is the configuration the model
        produced for the retrieved documents. */
    lemma OutcomeWellFormed(description: string, flowType: FlowType)
      requires Outcome(description, flowType).Ok?
      ensures WellFormed(Outcome(description, flowType).value)
      ensures Retrieval(description, flowType).Ok?
      ensures FlowConfig(description, flowType, Retrieval(description, flowType).value)
        == Ok(Outcome(description, flowType).value)
    {
      var docs := Retrieval(description, flowType).value;
      ValidateAccepts(FlowConfig(description, flowType, docs).value);
    }

    /** `generateFlow(description, flowType)` */
    method GenerateFlow(description: string, flowType: FlowType) returns (r: Result<Json, AgentError>)
      ensures r == Outcome(description, flowType)
    {
      var relevantDocs := Retrieve(description, flowType);
      if relevantDocs.Err? {
        return Err(StoreFailed(relevantDocs.error));
      }
      var flowConfig := GenerateFlowConfig(description, flowType, relevantDocs.value);
      if flowConfig.Err? {
        return flowConfig;
      }
      var validated := ValidateFlow(flowConfig.value);
      if validated.Err? {
        return Err(InvalidFlow(validated.error));
      }
      return Ok(validated.value);
    }

    /** The suggestions `suggestImprovements` returns; any failure gives none. */
    function SuggestionsFor(flow: Json, description: string): seq<string>
      reads this
    {
      if !connected then []
      else match chat(ReviewRequest(flow, description))
        case Err(_) => []
        case Ok(reply) => if HasContent(reply) then Suggestions(reply.value) else []
    }

    /** Suggestions are never empty or padded with white space, and a failed or empty
        reply gives none. */
    lemma SuggestionsForShape(flow: Json, description: string)
      ensures forall i :: 0 <= i < |SuggestionsFor(flow, description)| ==>
        var t := SuggestionsFor(flow, description)[i];
        t != [] && !IsSpace(t[0]) && !IsSpace(t[|t| - 1])
      ensures !connected || chat(ReviewRequest(flow, description)).Err?
        || !HasContent(chat(ReviewRequest(flow, description)).value)
        ==> SuggestionsFor(flow, description) == []
    {
    }

    /** `suggestImprovements(flowConfig, description)` */
    method SuggestImprovements(flow: Json, description: string) returns (suggestions: seq<string>)
      ensures suggestions == SuggestionsFor(flow, description)
    {
      if !connected {
        return [];
      }
      var completion := chat(ReviewRequest(flow, description));
      if completion.Err? {
        return [];
      }
      var response := completion.value;
      if response.None? || response.value == "" {
        return [];
      }
      return Suggestions(response.value);
    }
  }
}
