/**
 * The basic linear workflow: `load_news`, then `process_articles`, then
 * `generate_summary`, over a `BasicNewsState`. Each step reads the state and
 * returns a partial update holding only the keys it changes; the runtime
 * merges that update into the state by overwriting key by key.
 */
module BasicState {
  import opened Results
  import Text
  import Graph
  import opened Engine

  /** One news article; the scripts only ever build articles with these three string keys. */
  datatype Article = Article(id: string, title: string, content: string)

  /**
   * A `BasicNewsState`. A field is `None` when its key is absent from the
   * dict; as a partial update, `None` means "this key is not returned".
   */
  datatype State = State(
    currentStep: Option<string>,
    articles: Option<seq<Article>>,
    processedCount: Option<int>,
    results: Option<seq<string>>)

  /** The state with no key set, and the update that changes nothing. */
  const Empty: State := State(None, None, None, None)

  /**
   * The runtime's merge of a step's partial update into the state: shallow
   * overwrite by key. A list returned by a step replaces the old list whole;
   * LangGraph is not part of this model beyond this rule.
   */
  function Merge(s: State, u: State): State {
    State(
      Over(s.currentStep, u.currentStep),
      Over(s.articles, u.articles),
      Over(s.processedCount, u.processedCount),
      Over(s.results, u.results))
  }

  /** The two mock articles `load_news` returns. */
  const MockArticles: seq<Article> := [
    Article("1", "AI Breakthrough Announced", "Scientists have made a significant breakthrough..."),
    Article("2", "Climate Summit Results", "World leaders agreed on new climate targets...")
  ]

  /** Step 1: `load_news`. It cannot fail and never returns `results`. */
  function LoadNews(s: State): State {
    State(Some("data_loaded"), Some(MockArticles), Some(0), None)
  }

  /** The result line for one article: its title and the word count of its content. */
  function Describe(a: Article): string {
    "Article '" + a.title + "' has " + Text.IntToString(Text.WordCount(a.content)) + " words"
  }

  /** One result line per article, in article order. */
  function Descriptions(articles: seq<Article>): seq<string> {
    seq(|articles|, i requires 0 <= i < |articles| => Describe(articles[i]))
  }

  /** The `for article in state['articles']` loop that appends one result line per article. */
  method CollectResults(articles: seq<Article>) returns (results: seq<string>)
    ensures |results| == |articles|
    ensures forall k :: 0 <= k < |articles| ==> results[k] == Describe(articles[k])
    ensures results == Descriptions(articles)
  {
    results := [];
    for i := 0 to |articles|
      invariant |results| == i
      invariant forall k :: 0 <= k < i ==> results[k] == Describe(articles[k])
    {
      results := results + [Describe(articles[i])];
    }
  }

  /**
   * Step 2: `process_articles`. Raises `KeyError` when `articles` is absent;
   * never returns `articles`.
   */
  function ProcessArticles(s: State): Result<State, StepError> {
    match s.articles
    case None => Failure(KeyError("articles"))
    case Some(articles) =>
      Success(State(Some("articles_processed"), None, Some(|articles|), Some(Descriptions(articles))))
  }

  function Summary(processedCount: int): string {
    "Processed " + Text.IntToString(processedCount) + " articles successfully"
  }

  /**
   * Step 3: `generate_summary`. Reads `processed_count` first, then
   * `results`; either one absent raises `KeyError`.
   */
  function GenerateSummary(s: State): Result<State, StepError> {
    if s.processedCount.None? then Failure(KeyError("processed_count"))
    else if s.results.None? then Failure(KeyError("results"))
    else Success(State(Some("completed"), None, None, Some(s.results.value + [Summary(s.processedCount.value)])))
  }

  /** The nodes `create_basic_workflow` registers. */
  datatype Node = LoadNewsNode | ProcessArticlesNode | GenerateSummaryNode

  function Update(n: Node, s: State): Result<State, StepError> {
    match n
    case LoadNewsNode => Success(LoadNews(s))
    case ProcessArticlesNode => ProcessArticles(s)
    case GenerateSummaryNode => GenerateSummary(s)
  }

  /** One node run by the runtime: its update merged into the state. */
  function Apply(n: Node, s: State): Result<State, StepError> {
    match Update(n, s)
    case Failure(e) => Failure(e)
    case Success(u) => Success(Merge(s, u))
  }

  /** The `add_edge` calls of `create_basic_workflow`, in order. */
  const Edges: seq<Graph.Edge<Node>> := [
    (Graph.Start, Graph.Node(LoadNewsNode)),
    (Graph.Node(LoadNewsNode), Graph.Node(ProcessArticlesNode)),
    (Graph.Node(ProcessArticlesNode), Graph.Node(GenerateSummaryNode)),
    (Graph.Node(GenerateSummaryNode), Graph.End)
  ]

  const Order: seq<Node> := [LoadNewsNode, ProcessArticlesNode, GenerateSummaryNode]

  /** `graph.invoke(state)` of the compiled basic workflow (no checkpointer). */
  function Invoke(s: State): Result<State, Failure<Node>> {
    Run(Order, Apply, s)
  }

  /** The initial state of `main`. */
  const InitialState: State := State(Some("starting"), Some([]), Some(0), Some([]))

  /** The edges are the chain `START`, LoadNewsNode, ProcessArticlesNode, GenerateSummaryNode, `END`, in the order they are added. */
  lemma EdgesAreChain()
    ensures Edges == Graph.Chain(Order)
  {
  }

  /** The edges fix the order in which the runtime executes the three nodes. */
  lemma EdgesGiveOrder()
    ensures Graph.StepOrder(Edges) == Success(Order)
  {
    EdgesAreChain();
    Graph.ChainOrder(Order);
  }

  /** Merging is shallow overwrite: the empty update is neutral, merging is associative, re-merging changes nothing. */
  lemma MergeLaws(s: State, u: State, v: State)
    ensures Merge(s, Empty) == s && Merge(Empty, u) == u
    ensures Merge(Merge(s, u), v) == Merge(s, Merge(u, v))
    ensures Merge(Merge(s, u), u) == Merge(s, u)
  {
  }

  /**
   * `load_news` sets exactly `current_step`, `articles` (the two mock
   * articles) and `processed_count`; the caller's `results` survives.
   */
  lemma LoadNewsEffect(s: State)
    ensures var r := Apply(LoadNewsNode, s);
      && r.Success?
      && r.value.currentStep == Some("data_loaded")
      && r.value.articles == Some(MockArticles) && |MockArticles| == 2
      && r.value.processedCount == Some(0)
      && r.value.results == s.results
  {
  }

  /**
   * `process_articles` counts the input articles, yields one result line per
   * article in article order, and leaves `articles` as it was; without
   * `articles` it raises.
   */
  lemma ProcessArticlesEffect(s: State)
    ensures s.articles.None? ==> Apply(ProcessArticlesNode, s) == Failure(KeyError("articles"))
    ensures s.articles.Some? ==>
      var r := Apply(ProcessArticlesNode, s);
      var articles := s.articles.value;
      && r.Success?
      && r.value.currentStep == Some("articles_processed")
      && r.value.articles == s.articles
      && r.value.processedCount == Some(|articles|)
      && r.value.results.Some? && |r.value.results.value| == |articles|
      && forall k :: 0 <= k < |articles| ==> r.value.results.value[k] == Describe(articles[k])
  {
  }

  /**
   * `generate_summary` appends exactly one line, the summary, after the prior
   * results, and sets `current_step` to "completed"; it raises on a missing
   * `processed_count` or `results`, in that order.
   */
  lemma GenerateSummaryEffect(s: State)
    ensures s.processedCount.None? ==> Apply(GenerateSummaryNode, s) == Failure(KeyError("processed_count"))
    ensures s.processedCount.Some? && s.results.None? ==> Apply(GenerateSummaryNode, s) == Failure(KeyError("results"))
    ensures s.processedCount.Some? && s.results.Some? ==>
      var r := Apply(GenerateSummaryNode, s);
      && r.Success?
      && r.value.currentStep == Some("completed")
      && r.value.articles == s.articles && r.value.processedCount == s.processedCount
      && r.value.results.Some?
      && |r.value.results.value| == |s.results.value| + 1
      && r.value.results.value[..|s.results.value|] == s.results.value
      && r.value.results.value[|s.results.value|] == Summary(s.processedCount.value)
  {
  }

  /** The summary line of a run over the two mock articles. */
  lemma SummaryOfTwo()
    ensures Summary(2) == "Processed 2 articles successfully"
  {
  }

  /**
   * Once articles are loaded, `process_articles` then `generate_summary`
   * complete: the count is the number of articles and the results are one
   * line per article followed by the summary.
   */
  lemma ProcessThenSummarize(s: State)
    requires s.articles.Some?
    ensures var a := s.articles.value;
      Run(Order[1..], Apply, s) ==
        Success(State(Some("completed"), s.articles, Some(|a|), Some(Descriptions(a) + [Summary(|a|)])))
  {
    var a := s.articles.value;
    var s2 := Merge(s, State(Some("articles_processed"), None, Some(|a|), Some(Descriptions(a))));
    var s3 := Merge(s2, State(Some("completed"), None, None, Some(Descriptions(a) + [Summary(|a|)])));
    assert Apply(ProcessArticlesNode, s) == Success(s2);
    assert Apply(GenerateSummaryNode, s2) == Success(s3);
    assert Order[1..][1..][1..] == [];
    assert Run(Order[1..][1..], Apply, s2) == Success(s3);
  }

  /** With two articles the results are the two article lines and then the summary. */
  lemma ResultsOfTwo(articles: seq<Article>)
    requires |articles| == 2
    ensures Descriptions(articles) + [Summary(2)] == [Describe(articles[0]), Describe(articles[1]), Summary(2)]
  {
  }

  /**
   * From any state, and so from `main`'s initial state, the workflow
   * completes with `processed_count` 2 and three results: one line per mock
   * article, in order, then the summary.
   */
  lemma InvokeOutcome(s: State)
    ensures var r := Invoke(s);
      && r.Success?
      && r.value.currentStep == Some("completed")
      && r.value.articles == Some(MockArticles)
      && r.value.processedCount == Some(2)
      && r.value.results == Some([Describe(MockArticles[0]), Describe(MockArticles[1]), Summary(2)])
  {
    var s1 := Merge(s, LoadNews(s));
    assert Apply(LoadNewsNode, s) == Success(s1);
    ProcessThenSummarize(s1);
    ResultsOfTwo(MockArticles);
  }

  /**
   * `main`'s run from its initial state, with the summary spelled out:
   * "completed", the two mock articles, `processed_count` 2, and the two
   * article lines followed by "Processed 2 articles successfully".
   */
  lemma MainRun()
    ensures Invoke(InitialState) == Success(State(
      Some("completed"),
      Some(MockArticles),
      Some(2),
      Some([Describe(MockArticles[0]), Describe(MockArticles[1]), "Processed 2 articles successfully"])))
  {
    InvokeOutcome(InitialState);
    SummaryOfTwo();
  }
}
