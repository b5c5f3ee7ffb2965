/**
 * The persistent workflow: `start_session`, then `process_batch`, then
 * `finalize_session`, over a `PersistentNewsState`. As in the basic workflow
 * each step returns a partial update that the runtime merges into the state
 * by overwriting key by key.
 */
module Checkpointing {
  import opened Results
  import Text
  import Graph
  import opened Engine

  /**
   * A `PersistentNewsState`. A field is `None` when its key is absent; as a
   * partial update, `None` means "this key is not returned".
   */
  datatype State = State(
    sessionId: Option<string>,
    currentStep: Option<string>,
    articlesProcessed: Option<seq<string>>,
    totalCount: Option<int>,
    sessionNotes: Option<seq<string>>)

  /** The state with no key set, and the update that changes nothing. */
  const Empty: State := State(None, None, None, None, None)

  /** The runtime's shallow overwrite-by-key merge of a partial update. */
  function Merge(s: State, u: State): State {
    State(
      Over(s.sessionId, u.sessionId),
      Over(s.currentStep, u.currentStep),
      Over(s.articlesProcessed, u.articlesProcessed),
      Over(s.totalCount, u.totalCount),
      Over(s.sessionNotes, u.sessionNotes))
  }

  /**
   * `start_session`. `freshId` stands for `str(uuid.uuid4())[:8]`, the random
   * id used only when the state has no `session_id`. It cannot fail.
   */
  function StartSession(s: State, freshId: string): State {
    var sessionId := s.sessionId.GetOr(freshId);
    var notes := s.sessionNotes.GetOr([]) + [StartNote(sessionId)];
    State(Some(sessionId), Some("session_started"), None, None, Some(notes))
  }

  function StartNote(sessionId: string): string {
    "Session " + sessionId + " started"
  }

  function BatchNote(batchSize: int): string {
    "Processed batch of " + Text.IntToString(batchSize) + " articles"
  }

  function CompletionNote(totalCount: int): string {
    "Session completed with " + Text.IntToString(totalCount) + " articles"
  }

  /** `[f"article_{i}" for i in range(3)]`. */
  function NewArticles(): seq<string> {
    seq(3, i requires 0 <= i < 3 => "article_" + Text.IntToString(i))
  }

  /**
   * `process_batch`. Reads `session_id` (for its log line) and then
   * `session_notes`; either one absent raises `KeyError`. A missing
   * `articles_processed` counts as the empty list.
   */
  function ProcessBatch(s: State): Result<State, StepError> {
    if s.sessionId.None? then Failure(KeyError("session_id"))
    else if s.sessionNotes.None? then Failure(KeyError("session_notes"))
    else
      var current := s.articlesProcessed.GetOr([]);
      var added := NewArticles();
      Success(State(
        None,
        Some("batch_processed"),
        Some(current + added),
        Some(|current| + |added|),
        Some(s.sessionNotes.value + [BatchNote(|added|)])))
  }

  /**
   * `finalize_session`. Reads `session_id` (for its log line), then
   * `session_notes`, then `total_count`; the first one absent raises `KeyError`.
   */
  function FinalizeSession(s: State): Result<State, StepError> {
    if s.sessionId.None? then Failure(KeyError("session_id"))
    else if s.sessionNotes.None? then Failure(KeyError("session_notes"))
    else if s.totalCount.None? then Failure(KeyError("total_count"))
    else
      Success(State(
        None,
        Some("session_completed"),
        None,
        None,
        Some(s.sessionNotes.value + [CompletionNote(s.totalCount.value)])))
  }

  /** The nodes `create_persistent_workflow` registers. */
  datatype Node = StartSessionNode | ProcessBatchNode | FinalizeSessionNode

  /** The name each node is registered under with `add_node`. */
  function NodeName(n: Node): string {
    match n
    case StartSessionNode => "start_session"
    case ProcessBatchNode => "process_batch"
    case FinalizeSessionNode => "finalize_session"
  }

  /** The node registered under `name`, if any. */
  function NodeNamed(name: string): (r: Option<Node>)
    ensures r.Some? ==> NodeName(r.value) == name
    ensures r.None? ==> forall n: Node :: NodeName(n) != name
  {
    if name == "start_session" then Some(StartSessionNode)
    else if name == "process_batch" then Some(ProcessBatchNode)
    else if name == "finalize_session" then Some(FinalizeSessionNode)
    else None
  }

  function Update(n: Node, s: State, freshId: string): Result<State, StepError> {
    match n
    case StartSessionNode => Success(StartSession(s, freshId))
    case ProcessBatchNode => ProcessBatch(s)
    case FinalizeSessionNode => FinalizeSession(s)
  }

  /** One node run by the runtime: its update merged into the state. */
  function Apply(n: Node, s: State, freshId: string): Result<State, StepError> {
    match Update(n, s, freshId)
    case Failure(e) => Failure(e)
    case Success(u) => Success(Merge(s, u))
  }

  /** `Apply` with the random session id fixed, in the shape the engine runs. */
  function Stepper(freshId: string): (Node, State) -> Result<State, StepError> {
    (n, s) => Apply(n, s, freshId)
  }

  /** The `add_edge` calls of `create_persistent_workflow`, in order. */
  const Edges: seq<Graph.Edge<Node>> := [
    (Graph.Start, Graph.Node(StartSessionNode)),
    (Graph.Node(StartSessionNode), Graph.Node(ProcessBatchNode)),
    (Graph.Node(ProcessBatchNode), Graph.Node(FinalizeSessionNode)),
    (Graph.Node(FinalizeSessionNode), Graph.End)
  ]

  const Order: seq<Node> := [StartSessionNode, ProcessBatchNode, FinalizeSessionNode]

  /** The initial state of `demonstrate_checkpointing`. */
  const InitialState: State := State(Some(""), Some("initializing"), Some([]), Some(0), Some([]))

  /** The bookkeeping invariant `process_batch` establishes: `total_count` counts `articles_processed`. */
  predicate CountMatches(s: State) {
    s.totalCount.Some? && s.articlesProcessed.Some? && s.totalCount.value == |s.articlesProcessed.value|
  }

  /** The edges are the chain `START`, StartSessionNode, ProcessBatchNode, FinalizeSessionNode, `END`, in the order they are added. */
  lemma EdgesAreChain()
    ensures Edges == Graph.Chain(Order)
  {
  }

  /** The edges fix the order in which the runtime executes the three nodes. */
  lemma EdgesGiveOrder()
    ensures Graph.StepOrder(Edges) == Success(Order)
  {
    EdgesAreChain();
    Graph.ChainOrder(Order);
  }

  /** Merging is shallow overwrite: the empty update is neutral, merging is associative, re-merging changes nothing. */
  lemma MergeLaws(s: State, u: State, v: State)
    ensures Merge(s, Empty) == s && Merge(Empty, u) == u
    ensures Merge(Merge(s, u), v) == Merge(s, Merge(u, v))
    ensures Merge(Merge(s, u), u) == Merge(s, u)
  {
  }

  /** The texts of the notes as the scripts' runs write them. */
  lemma NoteTexts()
    ensures StartNote("") == "Session  started"
    ensures StartNote("demo_session") == "Session demo_session started"
    ensures BatchNote(3) == "Processed batch of 3 articles"
    ensures CompletionNote(3) == "Session completed with 3 articles"
    ensures CompletionNote(4) == "Session completed with 4 articles"
  {
  }

  /** The batch `process_batch` adds. */
  lemma NewArticlesAre()
    ensures NewArticles() == ["article_0", "article_1", "article_2"]
  {
    var a := NewArticles();
    assert Text.IntToString(0) == "0" && Text.IntToString(1) == "1" && Text.IntToString(2) == "2";
    assert a[0] == "article_" + "0" == "article_0";
    assert a[1] == "article_" + "1" == "article_1";
    assert a[2] == "article_" + "2" == "article_2";
  }

  /**
   * `start_session` keeps a present `session_id` (the initial "" stays ""),
   * falls back to the fresh id only when it is absent, appends exactly one
   * note and sets `current_step`; nothing else changes.
   */
  lemma StartSessionEffect(s: State, freshId: string)
    ensures var r := Apply(StartSessionNode, s, freshId);
      var id := if s.sessionId.Some? then s.sessionId.value else freshId;
      var prior := if s.sessionNotes.Some? then s.sessionNotes.value else [];
      && r.Success?
      && r.value.sessionId == Some(id)
      && r.value.currentStep == Some("session_started")
      && r.value.sessionNotes == Some(prior + [StartNote(id)])
      && r.value.articlesProcessed == s.articlesProcessed
      && r.value.totalCount == s.totalCount
  {
  }

  /**
   * `process_batch` extends `articles_processed` by the three new articles,
   * sets `total_count` to its new length, appends one note and keeps
   * `session_id`; it raises on a missing `session_id` or `session_notes`.
   */
  lemma ProcessBatchEffect(s: State, freshId: string)
    ensures s.sessionId.None? ==> Apply(ProcessBatchNode, s, freshId) == Failure(KeyError("session_id"))
    ensures s.sessionId.Some? && s.sessionNotes.None? ==> Apply(ProcessBatchNode, s, freshId) == Failure(KeyError("session_notes"))
    ensures s.sessionId.Some? && s.sessionNotes.Some? ==>
      var r := Apply(ProcessBatchNode, s, freshId);
      var prior := if s.articlesProcessed.Some? then s.articlesProcessed.value else [];
      && r.Success?
      && r.value.sessionId == s.sessionId
      && r.value.currentStep == Some("batch_processed")
      && r.value.articlesProcessed == Some(prior + ["article_0", "article_1", "article_2"])
      && r.value.totalCount == Some(|prior| + 3)
      && CountMatches(r.value)
      && r.value.sessionNotes == Some(s.sessionNotes.value + [BatchNote(3)])
  {
    NewArticlesAre();
    assert |NewArticles()| == 3;
  }

  /**
   * `finalize_session` changes only `current_step` and `session_notes`, and
   * its one new note embeds the current `total_count`; it raises on a
   * missing `session_id`, `session_notes` or `total_count`, in that order.
   */
  lemma FinalizeSessionEffect(s: State, freshId: string)
    ensures s.sessionId.None? ==> Apply(FinalizeSessionNode, s, freshId) == Failure(KeyError("session_id"))
    ensures s.sessionId.Some? && s.sessionNotes.None? ==> Apply(FinalizeSessionNode, s, freshId) == Failure(KeyError("session_notes"))
    ensures s.sessionId.Some? && s.sessionNotes.Some? && s.totalCount.None? ==>
      Apply(FinalizeSessionNode, s, freshId) == Failure(KeyError("total_count"))
    ensures s.sessionId.Some? && s.sessionNotes.Some? && s.totalCount.Some? ==>
      var r := Apply(FinalizeSessionNode, s, freshId);
      && r.Success?
      && r.value == s.(currentStep := Some("session_completed"),
                       sessionNotes := Some(s.sessionNotes.value + [CompletionNote(s.totalCount.value)]))
  {
  }

  /** No step but `process_batch` touches the count or the list, so every completed step keeps them in step. */
  lemma StepsKeepCountMatches(n: Node, s: State, freshId: string)
    requires n != ProcessBatchNode ==> CountMatches(s)
    ensures Apply(n, s, freshId).Success? ==> CountMatches(Apply(n, s, freshId).value)
  {
  }

  /** The states after `process_batch` and after `finalize_session`, run from `s`. */
  function AfterBatch(s: State): State
    requires s.sessionNotes.Some?
  {
    var prior := s.articlesProcessed.GetOr([]);
    s.(currentStep := Some("batch_processed"),
       articlesProcessed := Some(prior + ["article_0", "article_1", "article_2"]),
       totalCount := Some(|prior| + 3),
       sessionNotes := Some(s.sessionNotes.value + [BatchNote(3)]))
  }

  function AfterFinalize(s: State): State
    requires s.sessionNotes.Some? && s.totalCount.Some?
  {
    s.(currentStep := Some("session_completed"),
       sessionNotes := Some(s.sessionNotes.value + [CompletionNote(s.totalCount.value)]))
  }

  /** Once a session is started, `process_batch` then `finalize_session` complete. */
  lemma BatchThenFinalize(s: State, freshId: string)
    requires s.sessionId.Some? && s.sessionNotes.Some?
    ensures Execute(Order[1..], Stepper(freshId), s) == Trace([AfterBatch(s), AfterFinalize(AfterBatch(s))], None)
  {
    var step, rest := Stepper(freshId), Order[1..];
    var s2 := AfterBatch(s);
    ProcessBatchEffect(s, freshId);
    assert step(ProcessBatchNode, s) == Apply(ProcessBatchNode, s, freshId) == Success(s2);
    FinalizeSessionEffect(s2, freshId);
    assert step(FinalizeSessionNode, s2) == Apply(FinalizeSessionNode, s2, freshId) == Success(AfterFinalize(s2));
    assert rest[0] == ProcessBatchNode && rest[1..][0] == FinalizeSessionNode && rest[1..][1..] == [];
    ExecuteFirst(rest[1..], step, s2);
    ExecuteFirst(rest, step, s);
  }

  /** The state the three steps leave behind, field by field. */
  lemma ThreeSteps(s: State, freshId: string)
    ensures var s1 := Merge(s, StartSession(s, freshId));
      var id := s.sessionId.GetOr(freshId);
      var notes := s.sessionNotes.GetOr([]);
      var prior := s.articlesProcessed.GetOr([]);
      AfterFinalize(AfterBatch(s1)) == State(
        Some(id),
        Some("session_completed"),
        Some(prior + ["article_0", "article_1", "article_2"]),
        Some(|prior| + 3),
        Some(notes + [StartNote(id), BatchNote(3), CompletionNote(|prior| + 3)]))
  {
    var s1 := Merge(s, StartSession(s, freshId));
    var id := s.sessionId.GetOr(freshId);
    var notes := s.sessionNotes.GetOr([]);
    var prior := s.articlesProcessed.GetOr([]);
    assert s1.sessionNotes == Some(notes + [StartNote(id)]);
    assert notes + [StartNote(id)] + [BatchNote(3)] + [CompletionNote(|prior| + 3)]
        == notes + [StartNote(id), BatchNote(3), CompletionNote(|prior| + 3)];
  }

  /**
   * From any state the workflow completes: `start_session` supplies the
   * `session_id` and `session_notes` the later steps read, and
   * `process_batch` the `total_count` that `finalize_session` reads. One
   * snapshot is recorded per node, and the result is the last one.
   */
  lemma RunOutcome(s: State, freshId: string)
    ensures var t := Execute(Order, Stepper(freshId), s);
      var id := s.sessionId.GetOr(freshId);
      var notes := s.sessionNotes.GetOr([]);
      var prior := s.articlesProcessed.GetOr([]);
      && t.failure.None?
      && |t.snapshots| == 3
      && Final(t, s) == Success(State(
           Some(id),
           Some("session_completed"),
           Some(prior + ["article_0", "article_1", "article_2"]),
           Some(|prior| + 3),
           Some(notes + [StartNote(id), BatchNote(3), CompletionNote(|prior| + 3)])))
  {
    var step := Stepper(freshId);
    var s1 := Merge(s, StartSession(s, freshId));
    assert step(StartSessionNode, s) == Apply(StartSessionNode, s, freshId) == Success(s1);
    BatchThenFinalize(s1, freshId);
    ExecuteFirst(Order, step, s);
    var s3 := AfterFinalize(AfterBatch(s1));
    assert Execute(Order, step, s) == Trace([s1] + [AfterBatch(s1), s3], None);
    ThreeSteps(s, freshId);
  }

  /**
   * From the script's initial state the empty session id is kept, so the
   * first note reads "Session  started"; the run ends with three articles,
   * `total_count` 3 and three notes.
   */
  lemma InitialRun(freshId: string)
    ensures var t := Execute(Order, Stepper(freshId), InitialState);
      && t.failure.None?
      && |t.snapshots| == 3
      && Final(t, InitialState) == Success(State(
           Some(""),
           Some("session_completed"),
           Some(["article_0", "article_1", "article_2"]),
           Some(3),
           Some(["Session  started", BatchNote(3), CompletionNote(3)])))
  {
    RunOutcome(InitialState, freshId);
    NoteTexts();
    assert [] + ["article_0", "article_1", "article_2"] == ["article_0", "article_1", "article_2"];
    assert [] + ["Session  started", BatchNote(3), CompletionNote(3)]
        == ["Session  started", BatchNote(3), CompletionNote(3)];
  }
}
