/**
 * The two-stage question-answering flow: a `QAState` record is filled in by a
 * retrieve node (context and citations from the retrieved documents) and then a
 * generate node (the language model's reply), wired as the fixed graph
 * retrieve -> generate.
 *
 * The vector store, the language model and the prompt template are external: they are
 * given to the pipeline as functions. The store maps a collection name to the
 * retriever over that collection.
 */
module RagGraph {
  import opened Wrappers
  import opened Documents

  /** The value of a `QAState` record at one moment. */
  datatype QAView = QAView(question: string, context: seq<string>, sources: seq<string>, answer: Option<string>)

  /** The record built from `{"question": question}`: every other field takes its dataclass default. */
  function Initial(question: string): (r: QAView)
    ensures r.question == question && r.context == [] && r.sources == [] && r.answer.None?
  {
    QAView(question, [], [], None)
  }

  /** The retrieve step as a transformation of the record, for the documents retrieved. */
  function Retrieve(s: QAView, docs: seq<Doc>): (r: QAView)
    ensures r.question == s.question && r.answer == s.answer
    ensures |r.context| == |docs| && forall i :: 0 <= i < |docs| ==> r.context[i] == docs[i].pageContent
    ensures |r.sources| == |docs| && forall i :: 0 <= i < |docs| ==> r.sources[i] == CitationOf(docs[i].metadata)
  {
    s.(context := Contexts(docs), sources := Citations(docs))
  }

  /**
   * The generate step as a transformation of the record. The prompt template receives
   * every field but refers only to the question, the context and the sources.
   */
  function Generate(s: QAView, llm: string -> string, render: (string, seq<string>, seq<string>) -> string): (r: QAView)
    ensures r.question == s.question && r.context == s.context && r.sources == s.sources
    ensures r.answer == Some(llm(render(s.question, s.context, s.sources)))
  {
    s.(answer := Some(llm(render(s.question, s.context, s.sources))))
  }

  /** The collection the pipeline reads from: the given name, or "default" for `None` or "". */
  function EffectiveCollectionName(name: Option<string>): (r: string)
    ensures r != []
    ensures r == "default" <==> (name.None? || name.value == [] || name.value == "default")
    ensures name.Some? && name.value != [] ==> r == name.value
  {
    if name.Some? && name.value != [] then name.value else "default"
  }

  /** Applying the default twice changes nothing. */
  lemma EffectiveCollectionNameIdempotent(name: Option<string>)
    ensures EffectiveCollectionName(Some(EffectiveCollectionName(name))) == EffectiveCollectionName(name)
  {
  }

  const RetrieveName: string := "retrieve"
  const GenerateName: string := "generate"

  /** A compiled state graph: its nodes, entry point, edges and finish point. */
  datatype Graph = Graph(nodes: set<string>, entry: string, edges: map<string, string>, finish: string)

  /**
   * A graph that is one straight path: entry and finish are nodes, every edge joins two
   * nodes, no edge leaves the finish point, and no edge leads back to the entry point.
   */
  predicate Linear(g: Graph) {
    g.entry in g.nodes && g.finish in g.nodes && g.finish !in g.edges &&
    (forall n :: n in g.edges ==> n in g.nodes && g.edges[n] in g.nodes && g.edges[n] != g.entry)
  }

  /** The graph `_build_graph` compiles: a straight path whose entry leads directly to its finish. */
  function BuildGraph(): (g: Graph)
    ensures Linear(g)
    ensures g.entry != g.finish && g.entry in g.edges && g.edges[g.entry] == g.finish
    ensures |g.nodes| == 2
  {
    Graph({RetrieveName, GenerateName}, RetrieveName, map[RetrieveName := GenerateName], GenerateName)
  }

  /** The nodes a graph run visited, in order, and the record it ended with. */
  datatype Run = Run(visited: seq<string>, final: QAView)

  /** The mutable record that flows through the graph. */
  class QAState {
    var question: string
    var context: seq<string>
    var sources: seq<string>
    var answer: Option<string>

    function View(): QAView
      reads this
    {
      QAView(question, context, sources, answer)
    }

    /** A fresh record has the question, no context, no sources and no answer. */
    constructor (question: string)
      ensures View() == Initial(question)
      ensures this.question == question && context == [] && sources == [] && answer == None
    {
      this.question := question;
      context := [];
      sources := [];
      answer := None;
    }
  }

  class RAGPipeline {
    const collectionName: string
    const store: string -> (string -> seq<Doc>)
    /** The retriever over the pipeline's own collection. */
    const retriever: string -> seq<Doc> := store(collectionName)
    const llm: string -> string
    const render: (string, seq<string>, seq<string>) -> string
    const graph: Graph := BuildGraph()

    /** Opens the effective collection of `store`; `None` and "" both select "default". */
    constructor (collectionName: Option<string>, store: string -> (string -> seq<Doc>), llm: string -> string,
                 render: (string, seq<string>, seq<string>) -> string)
      ensures this.collectionName == EffectiveCollectionName(collectionName)
      ensures this.store == store && retriever == store(EffectiveCollectionName(collectionName))
      ensures this.llm == llm && this.render == render
    {
      this.collectionName := EffectiveCollectionName(collectionName);
      this.store := store;
      this.llm := llm;
      this.render := render;
    }

    /**
     * The retrieve node: sets `context` to the texts and `sources` to the citations of
     * the documents retrieved for the question; `question` and `answer` are untouched.
     */
    method RetrieveNode(state: QAState)
      modifies state
      ensures state.View() == Retrieve(old(state.View()), retriever(old(state.question)))
      ensures state.question == old(state.question) && state.answer == old(state.answer)
    {
      var docs := retriever(state.question);
      state.context := Contexts(docs);
      var sources: seq<string> := [];
      for i := 0 to |docs|
        invariant sources == Citations(docs[..i])
      {
        assert docs[..i + 1][..i] == docs[..i];
        sources := sources + [CitationOf(docs[i].metadata)];
      }
      assert docs[..|docs|] == docs;
      state.sources := sources;
    }

    /** The generate node: sets `answer` to the model's reply to the rendered prompt. */
    method GenerateNode(state: QAState)
      modifies state
      ensures state.View() == Generate(old(state.View()), llm, render)
      ensures state.question == old(state.question) && state.context == old(state.context)
      ensures state.sources == old(state.sources)
    {
      var response := llm(render(state.question, state.context, state.sources));
      state.answer := Some(response);
    }

    /** What running the node registered under `name` does to the record. */
    function Step(name: string, s: QAView): (r: QAView)
      ensures r.question == s.question
      ensures name == RetrieveName ==> r.answer == s.answer && r.context == Contexts(retriever(s.question))
      ensures name == RetrieveName ==> r.sources == Citations(retriever(s.question))
      ensures name == GenerateName ==> r.context == s.context && r.sources == s.sources
      ensures name == GenerateName ==> r.answer == Some(llm(render(s.question, s.context, s.sources)))
      ensures name !in BuildGraph().nodes ==> r == s
    {
      if name == RetrieveName then Retrieve(s, retriever(s.question))
      else if name == GenerateName then Generate(s, llm, render)
      else s
    }

    /**
     * Runs a graph from node `at`: each node is applied, then the run ends at the
     * finish point or follows the node's edge. `fuel` bounds the number of steps;
     * a run that exceeds it, or reaches a node without a way on, yields `None`.
     */
    function Execute(g: Graph, at: string, s: QAView, fuel: nat): (r: Option<Run>)
      ensures r.Some? ==> 1 <= |r.value.visited| <= fuel && r.value.visited[0] == at
      ensures r.Some? ==> r.value.visited[|r.value.visited| - 1] == g.finish
      decreases fuel
    {
      if fuel == 0 || at !in g.nodes then None
      else
        var next := Step(at, s);
        if at == g.finish then Some(Run([at], next))
        else if at in g.edges then
          match Execute(g, g.edges[at], next, fuel - 1)
          case None => None
          case Some(rest) => Some(Run([at] + rest.visited, rest.final))
        else None
    }

    /**
     * Invoking the compiled graph on a question runs retrieve exactly once, then
     * generate exactly once, and ends with `Generate(Retrieve(...))` of the fresh record.
     */
    lemma InvokeRunsRetrieveThenGenerate(question: string, fuel: nat)
      ensures fuel >= 2 ==>
        Execute(graph, graph.entry, Initial(question), fuel) ==
        Some(Run([RetrieveName, GenerateName], Generate(Retrieve(Initial(question), retriever(question)), llm, render)))
      ensures fuel < 2 ==> Execute(graph, graph.entry, Initial(question), fuel) == None
    {
      var s := Initial(question);
      var retrieved := Retrieve(s, retriever(question));
      assert RetrieveName != GenerateName by { assert RetrieveName[0] != GenerateName[0]; }
      assert Step(RetrieveName, s) == retrieved;
      assert Step(GenerateName, retrieved) == Generate(retrieved, llm, render);
      if fuel >= 2 {
        assert Execute(graph, GenerateName, retrieved, fuel - 1) == Some(Run([GenerateName], Generate(retrieved, llm, render)));
        assert [RetrieveName] + [GenerateName] == [RetrieveName, GenerateName];
      } else if fuel == 1 {
        assert Execute(graph, GenerateName, retrieved, 0) == None;
      }
    }

    /** The `answer` field after the whole flow has run on `question`. */
    function AnswerOf(question: string): (r: string)
      ensures var docs := store(collectionName)(question);
        r == llm(render(question, Contexts(docs), Citations(docs)))
    {
      Generate(Retrieve(Initial(question), retriever(question)), llm, render).answer.value
    }

    /** Answers a question: a fresh record goes through retrieve, then generate. */
    method Answer(question: string) returns (a: string)
      ensures a == AnswerOf(question)
    {
      var state := new QAState(question);
      RetrieveNode(state);
      GenerateNode(state);
      a := state.answer.value;
    }

    /** `ask` is another name for `answer`. */
    method Ask(question: string) returns (a: string)
      ensures a == AnswerOf(question)
    {
      a := Answer(question);
    }
  }
}
