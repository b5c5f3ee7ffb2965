/**
 * The persistent workflow compiled with a `MemorySaver` checkpointer, as
 * `demonstrate_checkpointing` and `demonstrate_state_updates` use it. The
 * checkpointer keeps, per thread id, a log of snapshots that only grows:
 * `invoke` appends the merged state after every node it runs,
 * `update_state` appends the newest snapshot with overrides merged in,
 * `get_state` reads the newest snapshot and `get_state_history` lists them
 * newest first. This is LangGraph behaviour outside the repository, kept to
 * what the scripts rely on; checkpoint ids, `next` and metadata beyond the
 * writing node are not modelled.
 */
module CheckpointSaver {
  import opened Results
  import opened Engine
  import C = Checkpointing

  /** Who wrote a snapshot: a node the runtime ran, or `update_state` acting as a node. */
  datatype Writer = Ran(node: C.Node) | UpdatedAs(node: C.Node)

  /** One snapshot of a thread: the fully merged state and its writer. */
  datatype Checkpoint = Checkpoint(values: C.State, writer: Writer)

  /** `update_state` refuses an `as_node` that names no node of the graph. */
  datatype UpdateError = InvalidUpdate(asNode: string)

  /** The snapshots a run records: one per completed node, attributed to that node. */
  function Recorded(nodes: seq<C.Node>, snapshots: seq<C.State>): (cps: seq<Checkpoint>)
    requires |snapshots| <= |nodes|
  {
    seq(|snapshots|, i requires 0 <= i < |snapshots| => Checkpoint(snapshots[i], Ran(nodes[i])))
  }

  /** Loop state of a recorded run: `i` nodes done, reaching `cur`, on the way to trace `t`. */
  ghost predicate Running(nodes: seq<C.Node>, step: (C.Node, C.State) -> Result<C.State, StepError>,
                          start: C.State, t: Trace<C.State, C.Node>, i: nat, cur: C.State)
  {
    && i <= |t.snapshots| <= |nodes|
    && Execute(nodes[i..], step, cur) == Trace(t.snapshots[i..], t.failure)
    && cur == Before(start, t.snapshots, i)
  }

  /** One iteration: a failing node ends the trace there; a completing one adds snapshot `i`. */
  lemma RunningStep(nodes: seq<C.Node>, step: (C.Node, C.State) -> Result<C.State, StepError>,
                    start: C.State, t: Trace<C.State, C.Node>, i: nat, cur: C.State)
    requires Running(nodes, step, start, t, i, cur) && i < |nodes|
    ensures step(nodes[i], cur).Failure? ==>
      t.snapshots[..i] == t.snapshots && t.failure == Some(StepFailed(nodes[i], step(nodes[i], cur).error))
    ensures step(nodes[i], cur).Success? ==>
      && i < |t.snapshots| && t.snapshots[i] == step(nodes[i], cur).value
      && Running(nodes, step, start, t, i + 1, step(nodes[i], cur).value)
      && Recorded(nodes, t.snapshots[..i + 1]) == Recorded(nodes, t.snapshots[..i]) + [Checkpoint(t.snapshots[i], Ran(nodes[i]))]
  {
  }

  /** The loop ran every node: the whole trace is recorded and `cur` is its result. */
  lemma RunningDone(nodes: seq<C.Node>, step: (C.Node, C.State) -> Result<C.State, StepError>,
                    start: C.State, t: Trace<C.State, C.Node>, i: nat, cur: C.State)
    requires Running(nodes, step, start, t, i, cur) && i == |nodes|
    requires t == Execute(nodes, step, start)
    ensures t.snapshots[..i] == t.snapshots && Final(t, start) == Success(cur)
  {
  }

  /** A compiled persistent workflow with its in-memory checkpointer. */
  class CompiledGraph {
    /** Each thread's snapshots, oldest first. */
    var threads: map<string, seq<Checkpoint>>

    constructor ()
      ensures threads == map[]
    {
      threads := map[];
    }

    /** The snapshots of `thread`, oldest first; none for a thread never run. */
    function Log(thread: string): seq<Checkpoint>
      reads this
    {
      if thread in threads then threads[thread] else []
    }

    /** The values of the newest snapshot; an empty state for a thread never run. */
    function Latest(thread: string): C.State
      reads this
    {
      var log := Log(thread);
      if log == [] then C.Empty else log[|log| - 1].values
    }

    /** `graph.get_state(config)`: the values of the thread's newest snapshot. */
    method GetState(thread: string) returns (values: C.State)
      ensures Log(thread) == [] ==> values == C.Empty
      ensures Log(thread) != [] ==> values == Log(thread)[|Log(thread)| - 1].values
    {
      values := Latest(thread);
    }

    /** `graph.get_state_history(config)`: every snapshot of the thread, newest first. */
    method GetStateHistory(thread: string) returns (history: seq<Checkpoint>)
      ensures |history| == |Log(thread)|
      ensures forall i :: 0 <= i < |history| ==> history[i] == Log(thread)[|Log(thread)| - 1 - i]
    {
      var log := Log(thread);
      history := seq(|log|, i requires 0 <= i < |log| => log[|log| - 1 - i]);
    }

    /**
     * `graph.invoke(input, config)`: the input is merged over the thread's
     * newest snapshot, the nodes run in edge order, and the merged state
     * after each completed node is appended to the thread's log. A node that
     * raises stops the run; the snapshots before it stay. Other threads are
     * untouched.
     */
    method Invoke(thread: string, input: C.State, freshId: string) returns (r: Result<C.State, Failure<C.Node>>)
      modifies this
      ensures var start := C.Merge(old(Latest(thread)), input);
        var t := Execute(C.Order, C.Stepper(freshId), start);
        && Log(thread) == old(Log(thread)) + Recorded(C.Order, t.snapshots)
        && r == Final(t, start)
      ensures forall other :: other != thread ==> Log(other) == old(Log(other))
    {
      var start := C.Merge(Latest(thread), input);
      r := RunRecorded(thread, C.Order, C.Stepper(freshId), start);
    }

    /** The runtime loop of `invoke`: runs `nodes` from `start`, appending a snapshot after each. */
    method RunRecorded(thread: string, nodes: seq<C.Node>, step: (C.Node, C.State) -> Result<C.State, StepError>, start: C.State)
      returns (r: Result<C.State, Failure<C.Node>>)
      modifies this
      ensures var t := Execute(nodes, step, start);
        && Log(thread) == old(Log(thread)) + Recorded(nodes, t.snapshots)
        && r == Final(t, start)
      ensures forall other :: other != thread ==> Log(other) == old(Log(other))
    {
      ghost var t := Execute(nodes, step, start);
      var others, log := threads, Log(thread);
      threads := others[thread := log];
      var cur := start;
      var i := 0;
      while i < |nodes|
        invariant Running(nodes, step, start, t, i, cur)
        invariant log == old(Log(thread)) + Recorded(nodes, t.snapshots[..i])
        invariant threads == others[thread := log]
      {
        var node := nodes[i];
        var next := step(node, cur);
        RunningStep(nodes, step, start, t, i, cur);
        if next.Failure? {
          return Failure(StepFailed(node, next.error));
        }
        log := log + [Checkpoint(next.value, Ran(node))];
        threads := others[thread := log];
        cur := next.value;
        i := i + 1;
      }
      RunningDone(nodes, step, start, t, i, cur);
      return Success(cur);
    }

    /**
     * `graph.update_state(config, values, as_node)`: the overrides are
     * merged over the newest snapshot, each key replaced whole, and the
     * result is appended as a snapshot attributed to `as_node`, without
     * running that node. Returns the position of the new snapshot.
     */
    method UpdateState(thread: string, values: C.State, asNode: string) returns (r: Result<nat, UpdateError>)
      modifies this
      ensures C.NodeNamed(asNode).None? ==> r == Failure(InvalidUpdate(asNode)) && threads == old(threads)
      ensures C.NodeNamed(asNode).Some? ==>
        && r == Success(|old(Log(thread))|)
        && Log(thread) == old(Log(thread)) + [Checkpoint(C.Merge(old(Latest(thread)), values), UpdatedAs(C.NodeNamed(asNode).value))]
      ensures forall other :: other != thread ==> Log(other) == old(Log(other))
    {
      var node := C.NodeNamed(asNode);
      if node.None? {
        return Failure(InvalidUpdate(asNode));
      }
      var log := Log(thread);
      threads := threads[thread := log + [Checkpoint(C.Merge(Latest(thread), values), UpdatedAs(node.value))]];
      r := Success(|log|);
    }
  }

  /**
   * `demonstrate_checkpointing` on a fresh checkpointer: `get_state` finds
   * no state before the run (`before` is empty, so the script's branch that
   * lists the history of an existing thread is not taken), the run
   * completes from the script's initial state, and afterwards `get_state`
   * shows its result.
   *
   * The script lists no history after the run; `history` is an observation
   * the model adds: the thread's log then holds three snapshots, the newest
   * written by `finalize_session`.
   */
  method DemonstrateCheckpointing(freshId: string)
    returns (before: C.State, result: Result<C.State, Failure<C.Node>>, after: C.State, history: seq<Checkpoint>)
    ensures before == C.Empty
    ensures result == Success(C.State(
      Some(""),
      Some("session_completed"),
      Some(["article_0", "article_1", "article_2"]),
      Some(3),
      Some(["Session  started", "Processed batch of 3 articles", "Session completed with 3 articles"])))
    ensures after == result.value
    ensures |history| == 3
    ensures history[0] == Checkpoint(after, Ran(C.FinalizeSessionNode))
    ensures history[1].writer == Ran(C.ProcessBatchNode) && history[2].writer == Ran(C.StartSessionNode)
  {
    var graph := new CompiledGraph();
    var thread := "news_processing_session_1";
    before := graph.GetState(thread);
    C.MergeLaws(C.InitialState, C.InitialState, C.Empty);
    C.InitialRun(freshId);
    C.NoteTexts();
    result := graph.Invoke(thread, C.InitialState, freshId);
    after := graph.GetState(thread);
    history := graph.GetStateHistory(thread);
  }

  /**
   * `demonstrate_state_updates`: after one run from its initial state,
   * `update_state` with `total_count` 5 and two notes as `process_batch`
   * appends a fourth snapshot in which those two keys are replaced whole and
   * every other key is as the run left it. `get_state` then shows
   * `total_count` 5 and the last note "Added 4 more articles"; the count no
   * longer matches the four processed articles.
   *
   * The script never lists the history; `history` is an observation the
   * model adds: the thread's log then holds four snapshots, the newest the
   * manual one.
   */
  method DemonstrateStateUpdates(freshId: string)
    returns (config: Result<nat, UpdateError>, updated: C.State, history: seq<Checkpoint>)
    ensures config == Success(3)
    ensures updated == C.State(
      Some("demo_session"),
      Some("session_completed"),
      Some(["article_1", "article_0", "article_1", "article_2"]),
      Some(5),
      Some(["State updated manually", "Added 4 more articles"]))
    ensures updated.totalCount.value == 5 && updated.sessionNotes.value[|updated.sessionNotes.value| - 1] == "Added 4 more articles"
    ensures !C.CountMatches(updated)
    ensures |history| == 4 && history[0] == Checkpoint(updated, UpdatedAs(C.ProcessBatchNode))
  {
    var graph := new CompiledGraph();
    var thread := "state_update_demo";
    var initial := C.State(Some("demo_session"), Some("manual_update_test"), Some(["article_1"]), Some(1), Some(["Initial state created"]));
    C.MergeLaws(initial, initial, C.Empty);
    C.RunOutcome(initial, freshId);
    var _ := graph.Invoke(thread, initial, freshId);
    ghost var t := Execute(C.Order, C.Stepper(freshId), initial);
    assert graph.Log(thread) == Recorded(C.Order, t.snapshots);
    assert |t.snapshots| == 3 && Final(t, initial) == Success(t.snapshots[2]);
    assert graph.Latest(thread) == t.snapshots[2];
    assert ["Initial state created"] + [C.StartNote("demo_session"), C.BatchNote(3), C.CompletionNote(1 + 3)]
        == ["Initial state created", C.StartNote("demo_session"), C.BatchNote(3), C.CompletionNote(4)];
    assert ["article_1"] + ["article_0", "article_1", "article_2"] == ["article_1", "article_0", "article_1", "article_2"];
    assert graph.Latest(thread) == C.State(
      Some("demo_session"),
      Some("session_completed"),
      Some(["article_1", "article_0", "article_1", "article_2"]),
      Some(4),
      Some(["Initial state created", C.StartNote("demo_session"), C.BatchNote(3), C.CompletionNote(4)]));
    var overrides := C.State(None, None, None, Some(5), Some(["State updated manually", "Added 4 more articles"]));
    assert C.NodeNamed("process_batch") == Some(C.ProcessBatchNode);
    config := graph.UpdateState(thread, overrides, "process_batch");
    updated := graph.GetState(thread);
    history := graph.GetStateHistory(thread);
  }
}
