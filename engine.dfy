/**
 * How the LangGraph runtime drives a linear graph, as far as the scripts
 * depend on it: each node reads the whole current state and returns a
 * partial update, the runtime merges that update into the state and, when a
 * checkpointer is attached, records the merged state after every node. A
 * node that raises ends the run; the snapshots of the nodes before it stay
 * recorded. The runtime itself is a library outside this repository; this is
 * the minimal abstraction of it the scripts need.
 */
module Engine {
  import opened Results

  /** The one way a step of these scripts fails: `state[key]` on a missing key. */
  datatype StepError = KeyError(key: string)

  /** The node that raised, and what it raised. */
  datatype Failure<N> = StepFailed(node: N, error: StepError)

  /** The merged state after each node that completed, and the failure that stopped the run, if any. */
  datatype Trace<S, N> = Trace(snapshots: seq<S>, failure: Option<Failure<N>>)

  /** The state a node of the run sees: the initial state or the previous node's snapshot. */
  function Before<S>(s: S, snapshots: seq<S>, i: nat): S
    requires i <= |snapshots|
  {
    if i == 0 then s else snapshots[i - 1]
  }

  /**
   * Runs `nodes` in order from `s`; `exec` is one node's step function
   * followed by the merge of its update. Records one snapshot per node that
   * completed.
   */
  function Execute<N, S>(nodes: seq<N>, exec: (N, S) -> Result<S, StepError>, s: S): (t: Trace<S, N>)
    ensures |t.snapshots| <= |nodes|
    ensures t.failure.None? <==> |t.snapshots| == |nodes|
    ensures t.failure.Some? ==> t.failure.value.node == nodes[|t.snapshots|]
    decreases |nodes|
  {
    if nodes == [] then Trace([], None)
    else
      match exec(nodes[0], s)
      case Failure(e) => Trace([], Some(StepFailed(nodes[0], e)))
      case Success(s') =>
        var rest := Execute(nodes[1..], exec, s');
        Trace([s'] + rest.snapshots, rest.failure)
  }

  /** What `invoke` returns: the final merged state, or the failure that stopped the run. */
  function Final<S, N>(t: Trace<S, N>, s: S): Result<S, Failure<N>> {
    if t.failure.Some? then Failure(t.failure.value)
    else if t.snapshots == [] then Success(s)
    else Success(t.snapshots[|t.snapshots| - 1])
  }

  /** One step of `Execute`: the first node either fails, or its snapshot heads the rest of the run. */
  lemma ExecuteFirst<N, S>(nodes: seq<N>, exec: (N, S) -> Result<S, StepError>, s: S)
    requires nodes != []
    ensures exec(nodes[0], s).Failure? ==>
      Execute(nodes, exec, s) == Trace([], Some(StepFailed(nodes[0], exec(nodes[0], s).error)))
    ensures exec(nodes[0], s).Success? ==>
      var rest := Execute(nodes[1..], exec, exec(nodes[0], s).value);
      Execute(nodes, exec, s) == Trace([exec(nodes[0], s).value] + rest.snapshots, rest.failure)
  {
  }

  /** The run as a plain left fold of the nodes over the state, with no record kept. */
  function Run<N, S>(nodes: seq<N>, exec: (N, S) -> Result<S, StepError>, s: S): Result<S, Failure<N>>
    decreases |nodes|
  {
    if nodes == [] then Success(s)
    else
      match exec(nodes[0], s)
      case Failure(e) => Failure(StepFailed(nodes[0], e))
      case Success(s') => Run(nodes[1..], exec, s')
  }

  /**
   * Each recorded snapshot is exactly what the node at that position made of
   * the snapshot before it, and the node that failed raised on the newest one.
   */
  lemma {:induction false} ExecuteSteps<N, S>(nodes: seq<N>, exec: (N, S) -> Result<S, StepError>, s: S, i: nat)
    requires i <= |Execute(nodes, exec, s).snapshots|
    ensures var t := Execute(nodes, exec, s);
      && (i < |t.snapshots| ==> exec(nodes[i], Before(s, t.snapshots, i)) == Success(t.snapshots[i]))
      && (i == |t.snapshots| && t.failure.Some? ==>
            exec(nodes[i], Before(s, t.snapshots, i)) == Failure(t.failure.value.error))
    decreases i
  {
    var t := Execute(nodes, exec, s);
    if nodes != [] && exec(nodes[0], s).Success? && i > 0 {
      var s' := exec(nodes[0], s).value;
      var rest := Execute(nodes[1..], exec, s');
      assert t.snapshots == [s'] + rest.snapshots;
      ExecuteSteps(nodes[1..], exec, s', i - 1);
      assert Before(s, t.snapshots, i) == Before(s', rest.snapshots, i - 1);
    }
  }

  /** The checkpointed run and the plain fold agree: the last snapshot is the result. */
  lemma {:induction false} FinalIsRun<N, S>(nodes: seq<N>, exec: (N, S) -> Result<S, StepError>, s: S)
    ensures Final(Execute(nodes, exec, s), s) == Run(nodes, exec, s)
    decreases |nodes|
  {
    if nodes != [] && exec(nodes[0], s).Success? {
      var s' := exec(nodes[0], s).value;
      FinalIsRun(nodes[1..], exec, s');
    }
  }
}
