# Flowise flow generator: a verified model of its core

Flowise's flow generator turns a natural-language description into a Flowise flow
graph, a JSON object made of `nodes` and `edges`. It works in four stages:

1. It reads the Flowise documentation. Node reference pages are parsed into node
   descriptors; tutorials and flow pages are kept as documents.
2. It indexes all of these in a vector store.
3. It retrieves context for a request and asks a chat model to write the flow.
4. It extracts the JSON from the reply and validates the graph.

This project models the deterministic logic of those stages in Dafny and proves
what that logic promises. Each module follows one source file:

| module (file) | source |
|---|---|
| `Wrappers` (wrappers.dfy) | `Option` and `Result`, plus `Take`, which is `slice(0, n)` and `substring(0, n)` |
| `Text` (text.dfy) | the JavaScript string operations the core uses: `trim`, `toLowerCase`, `startsWith`, `includes`, `indexOf`, `replace` with a string pattern, `split` on a character |
| `Json` (json.dfy) | values as `JSON.parse` returns them, with property access, truthiness and `===` |
| `DocumentProcessor` (processor.dfy) | `flowise-generator/src/documentProcessor.ts` |
| `VectorStore` (store.dfy) | `flowise-generator/src/vectorStore.ts` |
| `FlowAgent` (agent.dfy) | `flowise-generator/src/flowiseAgent.ts` |
| `Generator` (generator.dfy) | `flowise-generator/src/index.ts` |

Code that works step by step stays imperative:

- The node-page parser is a method with a loop over the page's lines. It updates
  the three mode flags and the four outputs.
- The directory passes, document assembly, the node serialiser and the context
  formatter are loops that append.
- The validator is two loops with early returns.
- The vector store, the agent and the generator are classes whose methods change
  their fields.

Each method is proved equal to a specification function. The properties are
proved as lemmas about those functions.

The external services are opaque values that the model does not interpret:

- The similarity search of the vector database is a function field of
  `VectorStoreManager`. It maps the indexed documents and a query to a result.
  The ghost predicate `Honest` states its contract: at most `k` hits, each an
  indexed document that passes the filter.
- The connection to the database is a function of the collection name and the URL.
- The chat model is a function from requests to replies. `JSON.parse` is a function
  from text to `Json` values.
- The documentation directory is a value (`DocTree`).
- The outcomes of writing to the index, creating the chat client and writing a file
  are boolean parameters.
- `path.join` and the current time are parameters.

Three behaviours of the code are worth knowing:

- A node's id joins the category and the name with a hyphen, `category-name`
  (flowise-generator/src/documentProcessor.ts:143).
- A retried `initialize` is not a restart from scratch. When the agent step fails
  after the documents were added, the retried run adds them to the index a second
  time (flowise-generator/src/index.ts:19-49, flowise-generator/src/vectorStore.ts:36-70;
  `Generator.FlowiseGenerator.Initialize`).
- Suggestions are split at every digit run followed by a dot, including the digits
  of a version number inside a suggestion (flowise-generator/src/flowiseAgent.ts:294;
  `FlowAgent.SuggestionsSplitVersions`).

## Model

| member | source | states |
|---|---|---|
| Text.TrimShape | flowise-generator/src/documentProcessor.ts:107 | A trimmed line is empty exactly when the line is all white space; otherwise it starts and ends with a non-space character. |
| Text.TrimSplits | flowise-generator/src/documentProcessor.ts:107 | Every string is white space, then its trimmed form, then white space. |
| Text.TrimPadded | flowise-generator/src/documentProcessor.ts:163 | Trimming text padded with white space gives back the text, when the text has non-space ends. |
| Text.LowerTrim | flowise-generator/src/documentProcessor.ts:114 | Lowercasing and trimming commute. |
| Text.ContainsTrimmed | flowise-generator/src/documentProcessor.ts:114 | A word with non-space ends occurs in the trimmed line exactly when it occurs in the line. |
| Text.IndexOf | flowise-generator/src/documentProcessor.ts:95 | The result is the first position where the pattern occurs, or `None` when it occurs nowhere. |
| Text.ReplaceFirst | flowise-generator/src/documentProcessor.ts:95 | Without an occurrence the string is unchanged. Otherwise the first occurrence, wherever it is, is replaced and the rest of the string is kept. |
| Text.Split | flowise-generator/src/documentProcessor.ts:94 | Splitting gives at least one piece, and no piece holds the separator. |
| Text.JoinSplit | flowise-generator/src/documentProcessor.ts:94 | Joining the pieces of a split with the separator gives back the text. |
| Text.SplitJoin | flowise-generator/src/documentProcessor.ts:94 | Splitting a join of separator-free pieces gives back the pieces. |
| DocumentProcessor.SearchParameter | flowise-generator/src/documentProcessor.ts:156 | A result is the match at the leftmost position where the parameter pattern matches, and `None` means no position matches. The name is non-empty without backticks, and the description non-empty without `-` or line feeds. |
| DocumentProcessor.MatchParameterAtShape | flowise-generator/src/documentProcessor.ts:156 | A match is a `-`, white space, a name between backticks, white space, a `:`, white space and the description at the end; the two groups are that name and that description. |
| DocumentProcessor.ParseParameter | flowise-generator/src/documentProcessor.ts:154-167 | Every parsed parameter has type `string`. It is required exactly when its description mentions "required" in any letter case. The name and description satisfy the pattern's character classes. |
| DocumentProcessor.MentionIgnoresPadding | flowise-generator/src/documentProcessor.ts:160-163 | Whether a description mentions "required" does not depend on its padding, so the trimmed description reports the same. |
| DocumentProcessor.ParseParameterOfBullet | flowise-generator/src/documentProcessor.ts:156-165 | The bullet "- `name`: desc" parses to that name, type `string`, the required flag of `desc`, and `desc` trimmed. |
| DocumentProcessor.StepKeepsOneMode | flowise-generator/src/documentProcessor.ts:114-139 | One line never leaves two of the three mode flags set. |
| DocumentProcessor.StepEffects | flowise-generator/src/documentProcessor.ts:107-139 | A `# ` line changes nothing. A `## ` heading outside every section adds its text, with the prefix stripped, to the description. A keyword line selects exactly one section, with parameter/input before example before connection/connect, and captures nothing. Each list grows by at most one entry, only from a bullet read in its own section. All modes clear only on a `##` line that names no section, and such a line read while a mode is on clears all three and changes nothing else. Every other line that names no section keeps the modes. |
| DocumentProcessor.StepModes | flowise-generator/src/documentProcessor.ts:114-139 | A `##` line that names no section, read while a mode is on, clears all three modes and changes nothing else; every other line that names no section keeps the modes. |
| DocumentProcessor.StepParameterBullet | flowise-generator/src/documentProcessor.ts:126-130 | A plain bullet in the parameters section appends the parameter it spells, if any, and changes nothing else. |
| DocumentProcessor.StepExampleBullet | flowise-generator/src/documentProcessor.ts:131-132 | A plain bullet in the examples section appends its text, with the first "- " removed, and changes nothing else. |
| DocumentProcessor.RunFromAppend | flowise-generator/src/documentProcessor.ts:106-140 | Parsing two blocks of lines is parsing the second from the state the first leaves. |
| DocumentProcessor.RunModesExclusive | flowise-generator/src/documentProcessor.ts:106-140 | At every line boundary at most one mode flag is set. |
| DocumentProcessor.RunExtends | flowise-generator/src/documentProcessor.ts:106-140 | What the first lines produce is a prefix of what the whole page produces, for the description and for each list, so the lists keep line order. |
| DocumentProcessor.ParameterOrigin | flowise-generator/src/documentProcessor.ts:126-130 | Every parameter comes from a bullet line read while the parameters mode was on, and is that line's parse. |
| DocumentProcessor.ExampleOrigin | flowise-generator/src/documentProcessor.ts:131-132 | Every example is the text of a bullet line read while the examples mode was on. |
| DocumentProcessor.ConnectionOrigin | flowise-generator/src/documentProcessor.ts:133-134 | Every connection is the text of a bullet line read while the connections mode was on. |
| DocumentProcessor.ParameterSectionBody | flowise-generator/src/documentProcessor.ts:126-130 | Inside the parameters section, a run of plain bullets adds exactly the parameters they spell, in order. |
| DocumentProcessor.ExampleSectionBody | flowise-generator/src/documentProcessor.ts:131-132 | Inside the examples section, a run of plain bullets adds exactly their texts, in order. |
| DocumentProcessor.SectionsDoNotMix | flowise-generator/src/documentProcessor.ts:114-134 | On a page with a parameters section and then an examples section, parameter bullets become only parameters and example bullets become only examples. |
| DocumentProcessor.ReadLine | flowise-generator/src/documentProcessor.ts:107-139 | One turn of the loop body has the effect `Step` gives that line. |
| DocumentProcessor.ParseNodeDocument | flowise-generator/src/documentProcessor.ts:93-152 | The node is the parse of the page's trimmed lines. Its name is the file name with its first ".md" removed, its id is `category-name`, its type is its name, and its category is the directory's. |
| DocumentProcessor.NodeNameOfPage | flowise-generator/src/documentProcessor.ts:95 | The node name of a page `x.md` is `x`, when `x` itself holds no ".md". |
| DocumentProcessor.CategoryNodesShape | flowise-generator/src/documentProcessor.ts:77-91 | Every node of a category carries that category, an id `category-name` and a type equal to its name. There is one node per markdown page other than README.md. |
| DocumentProcessor.ProcessNodeCategory | flowise-generator/src/documentProcessor.ts:77-91 | The category's nodes, in listing order, are appended after the nodes already found. |
| DocumentProcessor.ProcessNodes | flowise-generator/src/documentProcessor.ts:57-75 | A missing directory changes nothing. Otherwise the nodes of every category directory are appended, and plain files are skipped. |
| DocumentProcessor.ProcessTutorials | flowise-generator/src/documentProcessor.ts:169-196 | A missing directory changes nothing. Otherwise every markdown file except README.md is appended whole as a tutorial document, and only the tutorial list changes. |
| DocumentProcessor.TutorialsOrigin | flowise-generator/src/documentProcessor.ts:178-193 | Every tutorial document is the whole text of a markdown file other than README.md, with that file as its source and type and category `tutorial`. |
| DocumentProcessor.TutorialsListed | flowise-generator/src/documentProcessor.ts:178-193 | Every markdown file other than README.md yields its tutorial document. |
| DocumentProcessor.TutorialsCount | flowise-generator/src/documentProcessor.ts:178-193 | There are exactly as many tutorial documents as such files. |
| DocumentProcessor.FlowListsLabelled | flowise-generator/src/documentProcessor.ts:209-226 | Every agent-flow document comes from a markdown file whose name contains "agentflow" and has category `agentflow`. Every chat-flow document comes from one whose name does not and has category `chatflow`. All have type `flow`. |
| DocumentProcessor.FlowFilesListed | flowise-generator/src/documentProcessor.ts:209-226 | Every markdown file lands in the list its name selects. |
| DocumentProcessor.FlowListsPartition | flowise-generator/src/documentProcessor.ts:208-227 | The two flow lists together hold exactly one document per markdown file. |
| DocumentProcessor.ReadmeIsAChatFlow | flowise-generator/src/documentProcessor.ts:209 | README.md is kept as a chat flow, but it yields no tutorial and no node. |
| DocumentProcessor.ProcessFlows | flowise-generator/src/documentProcessor.ts:198-229 | A missing directory changes nothing. Otherwise the chat-flow and agent-flow documents are appended to their lists, and the other lists do not change. |
| DocumentProcessor.ProcessDocumentation | flowise-generator/src/documentProcessor.ts:37-55 | The knowledge is nodes, then tutorials, then flows, built from empty lists. An empty tree gives empty knowledge. |
| VectorStore.LinesAppend | flowise-generator/src/vectorStore.ts:73-97 | Rendering two blocks of lines is rendering each and concatenating. |
| VectorStore.LinesJoin | flowise-generator/src/vectorStore.ts:73-97 | Rendering lines, each ended by a line feed, is joining them with line feeds after an empty last line. |
| VectorStore.AppendParameters | flowise-generator/src/vectorStore.ts:78-83 | The loop appends the Parameters section, which is empty for no parameters. |
| VectorStore.AppendBullets | flowise-generator/src/vectorStore.ts:85-97 | The loop appends a titled bullet section, which is empty for no items. |
| VectorStore.FormatNodeAsDocument | flowise-generator/src/vectorStore.ts:72-100 | The text is exactly the rendering of the node's lines: the header, then the Parameters, Examples and Connections sections. |
| VectorStore.HeaderText | flowise-generator/src/vectorStore.ts:73-76 | The header renders as the `Node:`, `Type:`, `Category:` and `Description:` lines. |
| VectorStore.NodeTextHeader | flowise-generator/src/vectorStore.ts:73-76 | Every node text starts with those four lines, in that order. |
| VectorStore.ParamLineRequired | flowise-generator/src/vectorStore.ts:81 | A string parameter's line ends with "(string, required)" exactly when the parameter is required. |
| VectorStore.SingleLineLines | flowise-generator/src/vectorStore.ts:72-100 | When the node's fields have no line feeds, none of its rendered lines has one. |
| VectorStore.NodeTextLines | flowise-generator/src/vectorStore.ts:72-100 | Such a node's text splits at line feeds into exactly its lines and a final empty piece. |
| VectorStore.SectionTitles | flowise-generator/src/vectorStore.ts:78-97 | Each of the Parameters, Examples and Connections title lines appears exactly when its list is non-empty. |
| VectorStore.KnowledgeDocumentsShape | flowise-generator/src/vectorStore.ts:41-65 | The documents are one per node, in node order, then the tutorials, flows and agent flows unchanged, so their count is the sum of the four list lengths. Each node document has type `node` and copies the node's category, type, id and name. |
| VectorStore.AssembleDocuments | flowise-generator/src/vectorStore.ts:41-65 | The loop and the spreads build exactly those documents. |
| VectorStore.VectorStoreManager.constructor | flowise-generator/src/vectorStore.ts:11-17 | A new manager has the given collection, no store and nothing indexed. |
| VectorStore.VectorStoreManager.WithDefaultCollection | flowise-generator/src/vectorStore.ts:11 | The default collection is "flowise-knowledge". |
| VectorStore.VectorStoreManager.Initialize | flowise-generator/src/vectorStore.ts:19-34 | Connecting sets the store and keeps the index. A failed connection propagates and changes nothing. |
| VectorStore.VectorStoreManager.AddKnowledge | flowise-generator/src/vectorStore.ts:36-70 | Without a store it fails with the not-initialized error. Otherwise the assembled documents go to the index in one call, and a failed call leaves the index unchanged. |
| VectorStore.VectorStoreManager.HonestAnswer | flowise-generator/src/vectorStore.ts:102-114 | With an honest index, an answer holds at most `k` indexed documents, each passing the filter. |
| VectorStore.VectorStoreManager.Search | flowise-generator/src/vectorStore.ts:102-114 | The result is the unfiltered `k`-query, and the not-initialized error while the store is null. |
| VectorStore.VectorStoreManager.SearchByType | flowise-generator/src/vectorStore.ts:116-130 | The result is the query filtered on `type`, with the same guard. |
| VectorStore.VectorStoreManager.SearchByCategory | flowise-generator/src/vectorStore.ts:132-146 | The result is the query filtered on `category`, with the same guard. |
| VectorStore.VectorStoreManager.GetAllNodes | flowise-generator/src/vectorStore.ts:148-162 | The result is the query "node" with cap 100 and `type=node`, with the same guard. |
| VectorStore.VectorStoreManager.GetTutorials | flowise-generator/src/vectorStore.ts:164-178 | The result is the query "tutorial" with cap 50 and `type=tutorial`, with the same guard. |
| VectorStore.VectorStoreManager.GetFlows | flowise-generator/src/vectorStore.ts:180-194 | The result is the query "flow" with cap 50 and `type=flow`, with the same guard. |
| VectorStore.VectorStoreManager.GetAgentFlows | flowise-generator/src/vectorStore.ts:196-210 | The result is the query "agentflow" with cap 50 and `category=agentflow`, with the same guard. |
| FlowAgent.NodeIssueNone | flowise-generator/src/flowiseAgent.ts:220-228 | A node raises no error exactly when it is complete: non-null, with truthy `id`, `type`, `position` and `data`, and `data` has truthy `label`, `name` and `category`. |
| FlowAgent.EdgeIssueNone | flowise-generator/src/flowiseAgent.ts:231-246 | An edge raises no error exactly when its five fields are truthy and its source and target are some node's id. |
| FlowAgent.FirstNodeIssueAt | flowise-generator/src/flowiseAgent.ts:220-228 | The node loop reaches the first node with an issue and reports that node's issue. |
| FlowAgent.FirstNodeIssueNone | flowise-generator/src/flowiseAgent.ts:220-228 | The node loop passes exactly when no node has an issue. |
| FlowAgent.FirstEdgeIssueAt | flowise-generator/src/flowiseAgent.ts:231-247 | The edge loop reaches the first edge with an issue and reports that edge's issue. |
| FlowAgent.FirstEdgeIssueNone | flowise-generator/src/flowiseAgent.ts:231-247 | The edge loop passes exactly when no edge has an issue. |
| FlowAgent.ValidateAccepts | flowise-generator/src/flowiseAgent.ts:209-250 | The validator accepts exactly the well-formed flows: both arrays present, every node complete, every edge complete with its source and target each `===` some node's id. It returns an accepted flow unchanged. |
| FlowAgent.ValidateArraysFirst | flowise-generator/src/flowiseAgent.ts:211-217 | A missing `nodes` array is reported first, then a missing `edges` array. |
| FlowAgent.ValidateFirstBadNode | flowise-generator/src/flowiseAgent.ts:219-228 | With both arrays present, the first incomplete node's error is reported before any edge is looked at. |
| FlowAgent.ValidateFirstBadEdge | flowise-generator/src/flowiseAgent.ts:231-246 | With all nodes complete, the first bad edge is reported. Missing fields come first, then an unknown source, and then an unknown target only when the source is known. |
| FlowAgent.FindNode | flowise-generator/src/flowiseAgent.ts:237-238 | A node is found exactly when some node's id is `===` to the reference, and the node returned is such a node. |
| FlowAgent.CheckNodes | flowise-generator/src/flowiseAgent.ts:220-228 | The node loop fails exactly when some node has an issue, with the first such issue. |
| FlowAgent.CheckEdges | flowise-generator/src/flowiseAgent.ts:231-247 | The edge loop fails exactly when some edge has an issue, with the first such issue. |
| FlowAgent.ValidateFlow | flowise-generator/src/flowiseAgent.ts:209-250 | The method's checks and early exits give exactly `Validate`. |
| FlowAgent.Excerpt | flowise-generator/src/flowiseAgent.ts:203 | The content shown is a prefix of the document's text of at most 500 characters, and all of it when the text is shorter. |
| FlowAgent.BlockSource | flowise-generator/src/flowiseAgent.ts:201 | A document's block opens with its source, and with `Unknown` when the source is missing or empty. |
| FlowAgent.BlockType | flowise-generator/src/flowiseAgent.ts:202 | After the source line the block names the type, and `Unknown` when the type is missing or empty. |
| FlowAgent.BlockContent | flowise-generator/src/flowiseAgent.ts:203 | The block closes with `Content: `, the excerpt of the text and `...`. |
| FlowAgent.ContextIgnoresLaterDocs | flowise-generator/src/flowiseAgent.ts:200 | Documents after the tenth never reach the context. |
| FlowAgent.ContextGrows | flowise-generator/src/flowiseAgent.ts:200-204 | Below ten documents, each further document adds exactly its own block at the end. |
| FlowAgent.FormatContextForAI | flowise-generator/src/flowiseAgent.ts:197-207 | The loop builds exactly `FormatContext`: one block per document, for the first ten. |
| FlowAgent.DigitRun | flowise-generator/src/flowiseAgent.ts:294 | This is the maximal run of leading digits. |
| FlowAgent.ExtractJsonSpan | flowise-generator/src/flowiseAgent.ts:184-187 | Extraction succeeds exactly when some `{` precedes some `}`. It then yields the text from the first `{` to the last `}`, both included. |
| FlowAgent.ExtractedIsBraced | flowise-generator/src/flowiseAgent.ts:184-189 | The extracted text opens with `{` and closes with `}`. |
| FlowAgent.Kept | flowise-generator/src/flowiseAgent.ts:294-295 | Every kept suggestion is non-empty and starts and ends with a non-space character. |
| FlowAgent.SplitRestNoDigits | flowise-generator/src/flowiseAgent.ts:294 | A stretch without digits holds no separator, so it only extends the current piece. |
| FlowAgent.NumberedListPieces | flowise-generator/src/flowiseAgent.ts:294 | A numbered list splits into an empty piece, then each item as it stands between the numbers. |
| FlowAgent.SuggestionsOfNumberedList | flowise-generator/src/flowiseAgent.ts:294-295 | The items of a numbered list come back in order, whatever the numbers, when they hold no digits and have non-space ends. |
| FlowAgent.SuggestionsExample | flowise-generator/src/flowiseAgent.ts:294-295 | The reply `1. A\n2. B` gives the suggestions `A` and `B`. |
| FlowAgent.SuggestionsSplitVersions | flowise-generator/src/flowiseAgent.ts:294 | The reply `v1.2` gives `v` and `2`, because the digits before a dot count as a separator. |
| FlowAgent.FlowiseAgent.Initialize | flowise-generator/src/flowiseAgent.ts:41-49 | Creating the chat client connects the agent. A failure is reported and changes nothing. |
| FlowAgent.FlowiseAgent.RetrievalOrder | flowise-generator/src/flowiseAgent.ts:69-90 | The agent-flow listing is consulted only for an agent flow. The documents are the generic hits (k=10), then the tutorial hits (k=5), then the flow hits (k=5). For an agent flow only, the first at most five agent-flow documents follow. Nothing is dropped or merged. |
| FlowAgent.FlowiseAgent.RetrievalBound | flowise-generator/src/flowiseAgent.ts:69-90 | With an honest index, at most 20 documents are retrieved for a chat flow and at most 25 for an agent flow. |
| FlowAgent.FlowiseAgent.Retrieve | flowise-generator/src/flowiseAgent.ts:69-96 | The method gathers exactly `Retrieval`, and the first store error ends it. |
| FlowAgent.FlowiseAgent.FlowConfigSource | flowise-generator/src/flowiseAgent.ts:98-195 | A configuration comes only from a connected client's non-empty reply to a request at temperature 0.3 and 4000 tokens that carries the formatted context. It is the parse of the reply's braced span. |
| FlowAgent.FlowiseAgent.GenerateFlowConfig | flowise-generator/src/flowiseAgent.ts:98-195 | The result is exactly `FlowConfig`: "No response from AI" for an empty reply, "No valid JSON found in response" without a braced span, and the parse error for malformed JSON. |
| FlowAgent.FlowiseAgent.OutcomeWellFormed | flowise-generator/src/flowiseAgent.ts:51-67 | Every flow the agent returns is well formed, and it is the configuration produced for the retrieved documents. |
| FlowAgent.FlowiseAgent.GenerateFlow | flowise-generator/src/flowiseAgent.ts:51-67 | The method runs retrieval, generation and validation in turn, and the first failure ends it. |
| FlowAgent.FlowiseAgent.SuggestionsForShape | flowise-generator/src/flowiseAgent.ts:252-300 | Suggestions are never empty or padded with white space. A missing client, a failed call or an empty reply gives none. |
| FlowAgent.FlowiseAgent.SuggestImprovements | flowise-generator/src/flowiseAgent.ts:252-300 | The method gives exactly `SuggestionsFor`, with a request at temperature 0.3 and 2000 tokens. |
| Generator.Hits | flowise-generator/src/index.ts:132-135 | There is one hit per document. |
| Generator.HitsKeepDocuments | flowise-generator/src/index.ts:132-135 | The documents come back from the hits, in order, so the order and length are kept. |
| Generator.StampShape | flowise-generator/src/index.ts:100 | The stamp has no `:` and no `.`, keeps every other character in place, and stamping twice changes nothing more. |
| Generator.StampExample | flowise-generator/src/index.ts:100 | `2024-01-15T10:30:45.123Z` becomes `2024-01-15T10-30-45-123Z`. |
| Generator.FlowiseGenerator.constructor | flowise-generator/src/index.ts:13-17 | A new generator owns a fresh store with the default collection and a fresh agent on that store, and it is not initialised. |
| Generator.FlowiseGenerator.Initialize | flowise-generator/src/index.ts:19-49 | Once initialised it is a no-op. Otherwise the store is opened, the documentation processed and indexed, and the agent connected, in that order. The first failure is returned. The generator counts as initialised exactly when every step succeeded. An opened store stays open after a later failure, a failed connection leaves the store as it was, and a failed client creation leaves the agent as it was. |
| Generator.FlowiseGenerator.SaveFlow | flowise-generator/src/index.ts:79-93 | A write records the flow under its path, and a failed write changes nothing. |
| Generator.FlowiseGenerator.GenerateFlow | flowise-generator/src/index.ts:51-77 | The method is guarded by the flag and returns the agent's flow unchanged. It saves exactly when a non-empty path is given. An initialised generator never meets the store's or the client's not-initialized error, and every flow it returns is well formed. |
| Generator.FlowiseGenerator.GenerateFlowWithTimestamp | flowise-generator/src/index.ts:95-110 | The flow is saved under `join(outputDir, "flow_" + stamp + ".json")`, and exactly that path is returned with it. An agent error is passed on and a failed write gives the save error, both with the files unchanged; a generated flow whose write succeeds is returned. |
| Generator.FlowiseGenerator.GetSuggestions | flowise-generator/src/index.ts:112-123 | The method is guarded by the flag and otherwise gives the agent's suggestions. |
| Generator.FlowiseGenerator.HitsFor | flowise-generator/src/index.ts:130-139 | A failed query gives no hits; a successful one gives one hit per document. |
| Generator.FlowiseGenerator.HitsAreIndexed | flowise-generator/src/index.ts:130-139 | With an honest index and a ready store, there are at most `k` hits, each an indexed document passing the filter. |
| Generator.FlowiseGenerator.SearchKnowledge | flowise-generator/src/index.ts:125-140 | The method is guarded by the flag and otherwise maps the unfiltered `limit`-query, with `[]` on a backend error. |
| Generator.FlowiseGenerator.GetAvailableNodes | flowise-generator/src/index.ts:142-157 | The method is guarded by the flag and otherwise maps the store's node listing, with `[]` on a backend error. |
| Generator.FlowiseGenerator.GetTutorials | flowise-generator/src/index.ts:159-174 | The method is guarded by the flag and otherwise maps the store's tutorial listing, with `[]` on a backend error. |
| Generator.FlowiseGenerator.IsInitialized | flowise-generator/src/index.ts:176-178 | The method reports whether initialisation has completed. |

## Left out

- File system access is left out. The directory traversal, `existsSync`, `readFileSync`, `mkdirSync` and `writeFileSync` become the `DocTree` value and a write outcome; the directory creation in `saveFlow` is not modelled.
- `console` output is left out, because it has no effect on results.
- Chroma, the OpenAI embeddings and the similarity ranking are left out: they are foreign services, modelled as opaque functions.
- The z-ai chat client is left out for the same reason: it is a foreign service, modelled as an opaque function.
- The prompt text and the system messages are left out. A request carries the prompt's inputs (description, flow type and context, or the flow and description) and its temperature and token limit.
- The bodies of `JSON.parse` and `JSON.stringify` are left out: parsing is an opaque function to `Json` values, and a saved file holds the `Json` value.
- `path.join` and `path.dirname` are left out; `join` is a parameter.
- `new Date().toISOString()` is left out; the time is a parameter.
- `splitDocuments` is left out, because `RecursiveCharacterTextSplitter` is a library whose code is not part of this model.
- The CLI `main` at flowise-generator/src/index.ts:185-236 is left out, because it only parses arguments and prints.
- The Next.js UI and the HTTP route are left out.
- flowise-generator/examples/demo.ts and flowise-generator/src/init.ts are left out.
- Asynchrony is left out. The `await`ed calls run one after another, as the source awaits each before the next.
- Text.ToLower: lowercases ASCII letters only. JavaScript's `toLowerCase` also maps other letters, but none of them turns into a letter of the ASCII keywords the parser looks for.
- FlowAgent.Excerpt: counts characters, while `substring(0, 500)` counts UTF-16 code units. The two differ only for text outside the Basic Multilingual Plane.
- Json: numbers are exact reals, not IEEE doubles; rounding in `JSON.parse` is not modelled. The validator only tests numbers for truthiness and compares them with `===`.
- FlowAgent.FlowMessage: gives no text for an unknown source or target that is a number, array or object, because the model does not render such values into a string. It also gives no text for the `TypeError` a `null` node or edge raises.
- VectorStore.VectorStoreManager.AddKnowledge: the index's `addDocuments` is modelled as all-or-nothing; a service that stores part of a batch before failing is not modelled.
- VectorStore.VectorStoreManager.Initialize: the error carried by a failed connection is a fixed reason, not the service's own error.
- VectorStore.VectorStoreManager.Initialize: re-initialising keeps the documents already indexed by this manager. The model keeps them because the collection is opened again by name.
- VectorStore.VectorStoreManager.constructor: a manager starts with nothing indexed. The source reopens the server's collection by name (flowise-generator/src/vectorStore.ts:21-27), and that collection keeps what earlier processes added, each of which indexes the whole knowledge again (src/app/api/flowise/generate/route.ts:7-12). So the claims of `HonestAnswer` and `HitsAreIndexed` that each hit is an indexed document hold for a fresh collection only.
- Default arguments are left out; each becomes a required parameter: `k = 5` (flowise-generator/src/vectorStore.ts:102, 116, 132), `limit = 10` (flowise-generator/src/index.ts:125), `flowType = 'chatflow'` (flowise-generator/src/flowiseAgent.ts:51, flowise-generator/src/index.ts:53, 97), `outputDir = './output'` (flowise-generator/src/index.ts:98) and `docsPath = './FlowiseDocs'` (flowise-generator/src/index.ts:13, flowise-generator/src/documentProcessor.ts:33).
- Generator.FlowiseGenerator.SearchKnowledge: the `limit` is a natural number; a negative or fractional limit is not modelled.
- Node `position` and the flow's `viewport` are checked only for presence (truthiness), as the validator does; their numbers are not modelled.
