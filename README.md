# RAG question answering: the retrieve → generate flow

This project models the question-answering core of a retrieval-augmented PDF assistant
(`rag_graph.py`). A `QAState` record holds a `question`, a `context` list, a parallel
`sources` list of citation strings and an optional `answer`. A compiled two-node state graph
runs on a fresh record:

- **retrieve** asks the retriever for documents. It sets `context` to their `page_content`.
  It sets `sources` to one citation per document. An integer `page` (0-based) becomes
  `"Seite <page+1>"`. Anything else becomes `"Quelle: <source>"`. Both metadata lookups
  default to `"Unbekannt"`.
- **generate** renders the prompt from the record and stores the language model's reply in
  `answer`.

`RAGPipeline.answer` (and its alias `ask`) returns the final `answer`. The pipeline's
retriever reads the collection it was given, or `"default"` when that name is `None` or empty.

Files:

- `wrappers.dfy`: `Option`.
- `decimal.dfy`: Python's `str(int)`, with a parser as its inverse.
- `documents.dfy`: documents, metadata, the citation rule, and reading a citation back.
- `rag_graph.dfy`: the record (`QAView` as a value, `QAState` as the mutable object), the two
  nodes, the graph, and the pipeline.

The vector store, the language model and the prompt template are not modelled. Each is a
function passed to the `RAGPipeline` constructor:

- `store: string -> (string -> seq<Doc>)` maps a collection name to the retriever over that
  collection. The pipeline's `retriever` is `store(collectionName)`.
- `llm: string -> string` returns the reply's `content`.
- `render: (question, context, sources) -> prompt` is the prompt template.

A point about Python: `isinstance(True, int)` holds. So a `bool` page is cited as
`"Seite 2"` (True) or `"Seite 1"` (False). `PageValue.BoolPage` models this.

## Model

| member | source | states |
|---|---|---|
| `RagGraph.QAState.constructor` | rag_graph.py:17-22 | a fresh record holds the question, an empty context, empty sources and no answer |
| `RagGraph.Initial` | rag_graph.py:17-22 | the record built from `{"question": q}` holds q, an empty context, empty sources and no answer (the dataclass defaults) |
| `RagGraph.RAGPipeline.constructor` | rag_graph.py:37-60 | the pipeline's collection is the effective collection name, and its retriever is the store's retriever over exactly that collection; model and template are the ones given |
| `RagGraph.EffectiveCollectionName` | rag_graph.py:43 | the result is never empty; it is the given name when that is present and non-empty, and "default" exactly when the name is None, empty or "default" |
| `RagGraph.EffectiveCollectionNameIdempotent` | rag_graph.py:43 | applying the default to an already effective name changes nothing |
| `RagGraph.Retrieve` | rag_graph.py:66-80 | question and answer unchanged; context has one entry per document, entry i is document i's text; sources has one entry per document, entry i is the citation of document i's metadata alone |
| `RagGraph.RAGPipeline.RetrieveNode` | rag_graph.py:66-80 | the record afterwards is `Retrieve` of the record before, for the documents retrieved for its question; the append loop builds exactly `Citations(docs)` |
| `RagGraph.Generate` | rag_graph.py:82-85 | question, context and sources unchanged; answer is the model's reply to the prompt rendered from question, context and sources |
| `RagGraph.RAGPipeline.GenerateNode` | rag_graph.py:82-85 | the record afterwards is `Generate` of the record before |
| `RagGraph.BuildGraph` | rag_graph.py:87-92 | the compiled graph is a straight path with two nodes: no edge leaves the finish point or leads back to the entry, and the entry's one edge leads directly to the finish |
| `RagGraph.RAGPipeline.Step` | rag_graph.py:66-88 | the node registered as "retrieve" fills context and sources from the retrieved documents and keeps the answer; "generate" sets the answer to the model's reply and keeps context and sources; no node changes the question; an unregistered name does nothing |
| `RagGraph.RAGPipeline.Execute` | rag_graph.py:87-92 | a completed run starts at the given node, ends at the finish point and takes at most the step bound |
| `RagGraph.RAGPipeline.InvokeRunsRetrieveThenGenerate` | rag_graph.py:87-96 | invoking the graph on a question visits retrieve once, then generate once, and ends with `Generate(Retrieve(fresh record))`; with fewer than two steps allowed it does not finish |
| `RagGraph.RAGPipeline.AnswerOf` | rag_graph.py:95-97 | the answer is the model's reply to the prompt rendered from the question and the texts and citations of the documents the pipeline's own collection returns for it |
| `RagGraph.RAGPipeline.Answer` | rag_graph.py:95-97 | returns `AnswerOf(question)`, running retrieve then generate on a fresh record |
| `RagGraph.RAGPipeline.Ask` | rag_graph.py:99 | the same answer as `Answer` for every question |
| `Documents.CitationRoundTrip` | rag_graph.py:72-78 | every citation reads back as intended: integer page p → page p+1, bool page → page 2 or 1, missing or non-integer page → source label, "Unbekannt" when the source is missing |
| `Documents.PageCitationsDistinguishPages` | rag_graph.py:74-76 | two integer-page citations are equal exactly when the pages are equal |
| `Documents.PageAndSourceCitationsDiffer` | rag_graph.py:74-78 | a page citation never equals a source citation |
| `Documents.CitationExamples` | rag_graph.py:72-78 | page 1 → "Seite 2", page -1 → "Seite 0", True → "Seite 2", non-integer or missing page → "Quelle: <source>", no metadata → "Quelle: Unbekannt" |
| `Documents.Contexts` | rag_graph.py:68 | one text per document, in order, entry i is document i's `page_content` |
| `Documents.Citations` | rag_graph.py:70-79 | one citation per document, in order, entry i is `CitationOf` document i's metadata |
| `Decimal.NatDigits` | rag_graph.py:76 | digits only, no leading zero, and it starts with '0' exactly for 0 |
| `Decimal.DecimalString` | rag_graph.py:76 | non-empty, and it starts with '-' exactly for negative numbers |
| `Decimal.NatDigitsRoundTrip` | rag_graph.py:76 | reading the digits of n gives back n |
| `Decimal.ParseNatRoundTrip` | rag_graph.py:76 | every canonical digit string is the rendering of its own value |
| `Decimal.DecimalStringParse` | rag_graph.py:76 | a string parses to n exactly when it is the rendering of n |
| `Decimal.DecimalStringInjective` | rag_graph.py:76 | distinct integers render differently |

## Left out

- Chroma retrieval, HuggingFace embeddings, similarity ranking and the `k` passed to `as_retriever` (rag_graph.py:45-50) are library code. The store is a function from collection name to a retriever, and a retriever is a function from question to documents. Nothing is claimed about how many documents it returns or in what order.
- The retriever is modelled as a function of the collection and the question alone. A store that changes between calls is not modelled.
- Exceptions raised by `self._retriever.invoke` (rag_graph.py:67), such as a storage or embedding failure, are not modelled. In the source they abort `answer`; the model's retriever always returns a list.
- The `ChatOpenAI` client (rag_graph.py:53-59) is a network call with a timeout, and it is an opaque function here. Its failures and timeouts are not modelled, and neither is `temperature` (a float).
- The prompt template text and `PromptTemplate.format` (rag_graph.py:29-35, 83) are opaque. They are modelled as a function of question, context and sources. `format` also receives `answer` (None), but the template never uses it.
- `cfg or RAGConfig()` (rag_graph.py:42): configuration is read from the environment, so it is not modelled.
- Only two metadata keys are modelled, `page` and `source`. A `source` value of any type is carried as the text `str()` gives it.
- LangGraph's own execution engine is modelled only as far as this graph needs. It applies nodes along edges from the entry point to the finish point. The engine's recursion limit is a step bound (`fuel`). How it merges a node's returned dataclass into its state is taken to be "the returned record is the new state".
- `RagGraph.RAGPipeline.Answer` runs the two nodes directly rather than through `Execute`. `InvokeRunsRetrieveThenGenerate` proves that the graph does the same.
- ingest_docs.py, config.py, app.py and test.py (PDF loading, chunking, UI, manual script) are not part of this model.
