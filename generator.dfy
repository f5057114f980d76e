/** The facade of flowise-generator/src/index.ts: one-time initialisation of the
    store, the documentation and the agent, flow generation with optional saving, and
    the guarded query helpers. The file system is a map from paths to the flows written
    there; the clock and `path.join` are parameters. */
module Generator {
  import opened Wrappers
  import opened Json
  import opened DocumentProcessor
  import opened VectorStore
  import opened FlowAgent

  datatype GeneratorError =
    | Uninitialized
    | IndexFailed(store: StoreError)
    | AgentFailed(agent: AgentError)
    | SaveFailed

  function GeneratorMessage(e: GeneratorError): Option<string> {
    match e
    case Uninitialized => Some("Flowise Generator not initialized. Call initialize() first.")
    case IndexFailed(s) => Some(StoreMessage(s))
    case _ => None
  }

  /** `{ content: doc.pageContent, metadata: doc.metadata }` */
  datatype Hit = Hit(content: string, metadata: map<string, string>)

  function Hits(docs: seq<Document>): (hits: seq<Hit>)
    ensures |hits| == |docs|
  {
    seq(|docs|, i requires 0 <= i < |docs| => Hit(docs[i].pageContent, docs[i].metadata))
  }

  function HitDocument(h: Hit): Document {
    Document(h.content, h.metadata)
  }

  /** Nothing is lost in the mapping: the documents come back from the hits, in order. */
  lemma HitsKeepDocuments(docs: seq<Document>)
    ensures seq(|Hits(docs)|, i requires 0 <= i < |Hits(docs)| => HitDocument(Hits(docs)[i])) == docs
  {
  }

  /** `isoTime.replace(/[:.]/g, '-')` */
  function Stamp(isoTime: string): (t: string)
    ensures |t| == |isoTime|
  {
    seq(|isoTime|, i requires 0 <= i < |isoTime| =>
      if isoTime[i] == ':' || isoTime[i] == '.' then '-' else isoTime[i])
  }

  /** A stamp holds no colon and no dot, keeps every other character in place, and
      stamping twice changes nothing further. */
  lemma StampShape(isoTime: string)
    ensures forall i :: 0 <= i < |Stamp(isoTime)| ==> Stamp(isoTime)[i] != ':' && Stamp(isoTime)[i] != '.'
    ensures forall i :: 0 <= i < |isoTime| && isoTime[i] != ':' && isoTime[i] != '.' ==> Stamp(isoTime)[i] == isoTime[i]
    ensures Stamp(Stamp(isoTime)) == Stamp(isoTime)
  {
  }

  lemma StampExample()
    ensures Stamp("2024-01-15T10:30:45.123Z") == "2024-01-15T10-30-45-123Z"
  {
  }

  /** `flow_${timestamp}.json` */
  function FlowFileName(isoTime: string): string {
    "flow_" + Stamp(isoTime) + ".json"
  }

  class FlowiseGenerator {
    const vectorStore: VectorStoreManager
    const agent: FlowiseAgent
    var initialized: bool
    /** The flows written so far, by path; a later write to a path replaces the earlier. */
    var files: map<string, Json>

    /** The agent queries the generator's own store, and an initialised generator has
        a ready store and a connected agent. */
    ghost predicate Valid()
      reads this, vectorStore, agent
    {
      agent.store == vectorStore && (initialized ==> vectorStore.ready && agent.connected)
    }

    constructor (search: (seq<Document>, Query) -> Result<seq<Document>, string>,
                 connect: (string, string) -> bool,
                 chat: ChatRequest -> Result<Option<string>, string>,
                 parse: string -> Option<Json>)
      ensures Valid() && fresh(vectorStore) && fresh(agent)
      ensures !initialized && files == map[]
      ensures vectorStore.collectionName == DefaultCollection && !vectorStore.ready && vectorStore.indexed == []
      ensures vectorStore.search == search && vectorStore.connect == connect
      ensures agent.chat == chat && agent.parse == parse && !agent.connected
    {
      var store := new VectorStoreManager.WithDefaultCollection(search, connect);
      vectorStore := store;
      agent := new FlowiseAgent(store, chat, parse);
      initialized := false;
      files := map[];
    }

    /** `initialize()`: a no-op once done; otherwise the store is reached, the
        documentation processed and indexed and the agent connected, in that order, and
        the generator counts as initialised only when every step succeeded. */
    method Initialize(env: Option<string>, tree: DocTree, accepted: bool, created: bool)
      returns (r: Result<(), GeneratorError>)
      requires Valid()
      modifies this, vectorStore, agent
      ensures Valid() && files == old(files)
      ensures old(initialized) ==>
        && r.Ok? && initialized
        && vectorStore.ready == old(vectorStore.ready) && vectorStore.indexed == old(vectorStore.indexed)
        && agent.connected == old(agent.connected)
      ensures !old(initialized) ==>
        var reached := vectorStore.connect(vectorStore.collectionName, ChromaUrl(env));
        && (r.Ok? <==> reached && accepted && created)
        && initialized == r.Ok?
        && (reached ==> vectorStore.ready)
        && (!reached ==> vectorStore.ready == old(vectorStore.ready))
        && (!reached ==>
              r.Err? && r.error.IndexFailed? && vectorStore.indexed == old(vectorStore.indexed)
              && agent.connected == old(agent.connected))
        && (reached && !accepted ==>
              r.Err? && r.error.IndexFailed?
              && vectorStore.indexed == old(vectorStore.indexed) && agent.connected == old(agent.connected))
        && (reached && accepted ==>
              vectorStore.indexed == old(vectorStore.indexed) + KnowledgeDocuments(Processed(tree)))
        && (reached && accepted && !created ==>
              r == Err(AgentFailed(ClientCreationFailed)) && agent.connected == old(agent.connected))
    {
      if initialized {
        return Ok(());
      }
      var reached := vectorStore.Initialize(env);
      if reached.Err? {
        return Err(IndexFailed(reached.error));
      }
      var knowledge := DocumentProcessor.ProcessDocumentation(tree);
      var added := vectorStore.AddKnowledge(knowledge, accepted);
      if added.Err? {
        return Err(IndexFailed(added.error));
      }
      var connected := agent.Initialize(created);
      if connected.Err? {
        return Err(AgentFailed(connected.error));
      }
      initialized := true;
      r := Ok(());
    }

    /** `saveFlow(flowConfig, outputPath)`: `written` says whether the file system took
        the write. */
    method SaveFlow(flow: Json, outputPath: string, written: bool) returns (r: Result<(), GeneratorError>)
      modifies this
      ensures initialized == old(initialized)
      ensures written ==> r.Ok? && files == old(files)[outputPath := flow]
      ensures !written ==> r == Err(SaveFailed) && files == old(files)
    {
      if written {
        files := files[outputPath := flow];
        r := Ok(());
      } else {
        r := Err(SaveFailed);
      }
    }

    /** `generateFlow(description, flowType, outputPath)`: the agent's flow, saved when
        a non-empty path is given. */
    method GenerateFlow(description: string, flowType: FlowType, outputPath: Option<string>, written: bool)
      returns (r: Result<Json, GeneratorError>)
      requires Valid()
      modifies this
      ensures Valid() && initialized == old(initialized)
      ensures !initialized ==> r == Err(Uninitialized) && files == old(files)
      ensures initialized && agent.Outcome(description, flowType).Err? ==>
        r == Err(AgentFailed(agent.Outcome(description, flowType).error)) && files == old(files)
      ensures initialized && agent.Outcome(description, flowType).Ok? ==>
        var flow := agent.Outcome(description, flowType).value;
        if outputPath.Some? && outputPath.value != "" then
          (written ==> r == Ok(flow) && files == old(files)[outputPath.value := flow])
          && (!written ==> r == Err(SaveFailed) && files == old(files))
        else r == Ok(flow) && files == old(files)
      ensures r.Ok? ==> WellFormed(r.value)
      ensures r.Err? ==>
        r.error != AgentFailed(StoreFailed(VectorStore.NotInitialized)) && r.error != AgentFailed(ClientMissing)
    {
      if !initialized {
        return Err(Uninitialized);
      }
      var flowConfig := agent.GenerateFlow(description, flowType);
      if flowConfig.Err? {
        return Err(AgentFailed(flowConfig.error));
      }
      agent.OutcomeWellFormed(description, flowType);
      if outputPath.Some? && outputPath.value != "" {
        var saved := SaveFlow(flowConfig.value, outputPath.value, written);
        if saved.Err? {
          return Err(saved.error);
        }
      }
      return Ok(flowConfig.value);
    }

    /** `generateFlowWithTimestamp(description, flowType, outputDir)`: the flow is
        saved under `flow_<stamp>.json` in the directory, and the path is returned with
        it. */
    method GenerateFlowWithTimestamp(description: string, flowType: FlowType, outputDir: string,
                                     isoTime: string, join: (string, string) -> string, written: bool)
      returns (r: Result<(Json, string), GeneratorError>)
      requires Valid()
      modifies this
      ensures Valid() && initialized == old(initialized)
      ensures var filePath := join(outputDir, FlowFileName(isoTime));
        && (r.Ok? ==>
              && r.value.1 == filePath && WellFormed(r.value.0)
              && agent.Outcome(description, flowType).Ok?
              && r.value.0 == agent.Outcome(description, flowType).value
              && (filePath != "" ==> files == old(files)[filePath := r.value.0]))
        && (!initialized ==> r == Err(Uninitialized) && files == old(files))
    ensures initialized && agent.Outcome(description, flowType).Err? ==>
      r == Err(AgentFailed(agent.Outcome(description, flowType).error)) && files == old(files)
    ensures var filePath := join(outputDir, FlowFileName(isoTime));
      initialized && agent.Outcome(description, flowType).Ok? ==>
        && (filePath != "" && !written ==> r == Err(SaveFailed) && files == old(files))
        && (written || filePath == "" ==> r.Ok?)
    ensures join(outputDir, FlowFileName(isoTime)) == "" ==> files == old(files)
    {
      var timestamp := Stamp(isoTime);
      var fileName := "flow_" + timestamp + ".json";
      var filePath := join(outputDir, fileName);
      var flowConfig := GenerateFlow(description, flowType, Some(filePath), written);
      if flowConfig.Err? {
        return Err(flowConfig.error);
      }
      return Ok((flowConfig.value, filePath));
    }

    /** `getSuggestions(flowConfig, description)` */
    method GetSuggestions(flow: Json, description: string) returns (r: Result<seq<string>, GeneratorError>)
      requires Valid()
      ensures !initialized ==> r == Err(Uninitialized)
      ensures initialized ==> r == Ok(agent.SuggestionsFor(flow, description))
    {
      if !initialized {
        return Err(Uninitialized);
      }
      var suggestions := agent.SuggestImprovements(flow, description);
      return Ok(suggestions);
    }

    /** The hits a guarded store query gives once the generator is initialised: a
        failed query gives none. */
    function HitsFor(q: Query): (r: seq<Hit>)
      reads vectorStore
      ensures vectorStore.Answer(q).Err? ==> r == []
      ensures vectorStore.Answer(q).Ok? ==> |r| == |vectorStore.Answer(q).value|
    {
      match vectorStore.Answer(q)
      case Err(_) => []
      case Ok(docs) => Hits(docs)
    }

    /** With an honest index and a ready store, every hit is an indexed document. */
    lemma HitsAreIndexed(q: Query)
      requires Honest(vectorStore.search) && vectorStore.ready
      ensures |HitsFor(q)| <= q.k
      ensures forall i :: 0 <= i < |HitsFor(q)| ==>
        HitDocument(HitsFor(q)[i]) in vectorStore.indexed && Matches(HitDocument(HitsFor(q)[i]), q.filter)
    {
      vectorStore.HonestAnswer(q);
      if vectorStore.Answer(q).Ok? {
        var docs := vectorStore.Answer(q).value;
        assert forall i :: 0 <= i < |docs| ==> HitDocument(Hits(docs)[i]) == docs[i];
      }
    }

    /** `searchKnowledge(query, limit)` */
    method SearchKnowledge(query: string, limit: nat) returns (r: Result<seq<Hit>, GeneratorError>)
      requires Valid()
      ensures !initialized ==> r == Err(Uninitialized)
      ensures initialized ==> r == Ok(HitsFor(Query(query, limit, None)))
    {
      if !initialized {
        return Err(Uninitialized);
      }
      var docs := vectorStore.Search(query, limit);
      if docs.Err? {
        return Ok([]);
      }
      return Ok(Hits(docs.value));
    }

    /** `getAvailableNodes()` */
    method GetAvailableNodes() returns (r: Result<seq<Hit>, GeneratorError>)
      requires Valid()
      ensures !initialized ==> r == Err(Uninitialized)
      ensures initialized ==> r == Ok(HitsFor(Query("node", 100, Some(("type", "node")))))
    {
      if !initialized {
        return Err(Uninitialized);
      }
      var docs := vectorStore.GetAllNodes();
      if docs.Err? {
        return Ok([]);
      }
      return Ok(Hits(docs.value));
    }

    /** `getTutorials()` */
    method GetTutorials() returns (r: Result<seq<Hit>, GeneratorError>)
      requires Valid()
      ensures !initialized ==> r == Err(Uninitialized)
      ensures initialized ==> r == Ok(HitsFor(Query("tutorial", 50, Some(("type", "tutorial")))))
    {
      if !initialized {
        return Err(Uninitialized);
      }
      var docs := vectorStore.GetTutorials();
      if docs.Err? {
        return Ok([]);
      }
      return Ok(Hits(docs.value));
    }

    /** `isInitialized()` */
    method IsInitialized() returns (b: bool)
      ensures b == initialized
    {
      return initialized;
    }
  }
}
