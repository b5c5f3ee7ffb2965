/**
 * The topology of a LangGraph `StateGraph` as the two scripts build it:
 * `add_edge(a, b)` calls between the `START` and `END` markers and named
 * nodes. The runtime executes the nodes in the order those edges fix; for
 * the linear graphs here that order is the unique path from `START` to `END`.
 * Graph compilation and its validation are LangGraph's and are not modelled;
 * only the order is.
 */
module Graph {
  import opened Results

  datatype Endpoint<N> = Start | End | Node(name: N)

  type Edge<N> = (Endpoint<N>, Endpoint<N>)

  /** Why the edges do not describe a single linear path. */
  datatype OrderError<N> =
    | DeadEnd(at: Endpoint<N>)     // no edge leaves this endpoint
    | Branching(at: Endpoint<N>)   // more than one edge leaves it
    | EdgeIntoStart(at: Endpoint<N>)
    | Cyclic                       // the path never reaches END

  /** The targets of the edges leaving `from`, in the order they were added. */
  function Targets<N(==)>(edges: seq<Edge<N>>, from: Endpoint<N>): (ts: seq<Endpoint<N>>)
    ensures |ts| <= |edges|
  {
    if edges == [] then []
    else (if edges[0].0 == from then [edges[0].1] else []) + Targets(edges[1..], from)
  }

  /** The targets of `from` are exactly the ends of the edges that leave it. */
  lemma {:induction false} TargetsExact<N>(edges: seq<Edge<N>>, from: Endpoint<N>)
    ensures forall i :: 0 <= i < |Targets(edges, from)| ==> (from, Targets(edges, from)[i]) in edges
    ensures forall j :: 0 <= j < |edges| && edges[j].0 == from ==> edges[j].1 in Targets(edges, from)
    decreases |edges|
  {
    if edges != [] {
      TargetsExact(edges[1..], from);
      var ts, rest := Targets(edges, from), Targets(edges[1..], from);
      var head: seq<Endpoint<N>> := if edges[0].0 == from then [edges[0].1] else [];
      assert ts == head + rest;
      forall i | 0 <= i < |ts|
        ensures (from, ts[i]) in edges
      {
        if i < |head| {
          assert edges[0] == (from, ts[i]);
        } else {
          assert ts[i] == rest[i - |head|];
          assert (from, ts[i]) in edges[1..];
        }
      }
      forall j | 0 <= j < |edges| && edges[j].0 == from
        ensures edges[j].1 in ts
      {
        if j > 0 {
          assert edges[1..][j - 1] == edges[j];
        }
      }
    }
  }

  /** `p` leads from `from` along edges, one node at a time, to `END`. */
  ghost predicate IsPath<N>(edges: seq<Edge<N>>, from: Endpoint<N>, p: seq<N>)
    decreases |p|
  {
    if p == [] then (from, End) in edges
    else (from, Node(p[0])) in edges && IsPath(edges, Node(p[0]), p[1..])
  }

  /** Every endpoint on the path, `from` included, has exactly one outgoing edge. */
  ghost predicate Unbranched<N>(edges: seq<Edge<N>>, from: Endpoint<N>, p: seq<N>)
  {
    && |Targets(edges, from)| == 1
    && forall i :: 0 <= i < |p| ==> |Targets(edges, Node(p[i]))| == 1
  }

  /** Follows the single outgoing edge from `from` at most `fuel` times before `END`. */
  function Walk<N(==)>(edges: seq<Edge<N>>, from: Endpoint<N>, fuel: nat): (r: Result<seq<N>, OrderError<N>>)
    ensures r.Success? ==> IsPath(edges, from, r.value) && Unbranched(edges, from, r.value)
    ensures r.Success? ==> |r.value| <= fuel
    decreases fuel
  {
    TargetsExact(edges, from);
    var ts := Targets(edges, from);
    if |ts| == 0 then Failure(DeadEnd(from))
    else if |ts| > 1 then Failure(Branching(from))
    else
      match ts[0]
      case End => Success([])
      case Start => Failure(EdgeIntoStart(from))
      case Node(n) =>
        if fuel == 0 then Failure(Cyclic)
        else
          match Walk(edges, Node(n), fuel - 1)
          case Failure(e) => Failure(e)
          case Success(p) =>
            assert ([n] + p)[1..] == p;
            Success([n] + p)
  }

  /**
   * The order in which the runtime executes the nodes: the path from `START`
   * to `END`. A path through `k` nodes uses `k + 1` edges, so `|edges|` steps
   * suffice for every acyclic linear graph.
   */
  function StepOrder<N(==)>(edges: seq<Edge<N>>): Result<seq<N>, OrderError<N>> {
    Walk(edges, Start, |edges|)
  }

  /** The endpoint the `j`-th edge of a chain leaves: `START`, then each node in turn. */
  function Source<N>(nodes: seq<N>, j: nat): Endpoint<N>
    requires j <= |nodes|
  {
    if j == 0 then Start else Node(nodes[j - 1])
  }

  /** The endpoint the `j`-th edge of a chain enters: each node in turn, then `END`. */
  function Target<N>(nodes: seq<N>, j: nat): Endpoint<N>
    requires j <= |nodes|
  {
    if j == |nodes| then End else Node(nodes[j])
  }

  /** The `add_edge` calls of a linear workflow: `START`, the nodes in order, `END`. */
  function Chain<N>(nodes: seq<N>): (edges: seq<Edge<N>>)
    ensures |edges| == |nodes| + 1
  {
    seq(|nodes| + 1, j requires 0 <= j <= |nodes| => (Source(nodes, j), Target(nodes, j)))
  }

  ghost predicate Distinct<N>(nodes: seq<N>) {
    forall i, j :: 0 <= i < j < |nodes| ==> nodes[i] != nodes[j]
  }

  lemma {:induction false} TargetsNone<N>(edges: seq<Edge<N>>, from: Endpoint<N>)
    requires forall j :: 0 <= j < |edges| ==> edges[j].0 != from
    ensures Targets(edges, from) == []
    decreases |edges|
  {
    if edges != [] {
      TargetsNone(edges[1..], from);
    }
  }

  /** An endpoint that exactly one edge leaves has that edge's target as its only target. */
  lemma {:induction false} TargetsOne<N>(edges: seq<Edge<N>>, from: Endpoint<N>, k: nat)
    requires k < |edges| && edges[k].0 == from
    requires forall j :: 0 <= j < |edges| && j != k ==> edges[j].0 != from
    ensures Targets(edges, from) == [edges[k].1]
    decreases k
  {
    if k == 0 {
      TargetsNone(edges[1..], from);
    } else {
      TargetsOne(edges[1..], from, k - 1);
    }
  }

  /** In a chain of distinct nodes, each source is left by exactly the edge to the next endpoint. */
  lemma ChainTargets<N>(nodes: seq<N>, j: nat)
    requires Distinct(nodes) && j <= |nodes|
    ensures Targets(Chain(nodes), Source(nodes, j)) == [Target(nodes, j)]
  {
    var edges := Chain(nodes);
    forall i | 0 <= i < |edges| && i != j
      ensures edges[i].0 != Source(nodes, j)
    {
      assert edges[i].0 == Source(nodes, i);
    }
    TargetsOne(edges, Source(nodes, j), j);
  }

  /** The walk from an endpoint whose only edge enters `END` is empty. */
  lemma WalkToEnd<N>(edges: seq<Edge<N>>, from: Endpoint<N>, fuel: nat)
    requires Targets(edges, from) == [End]
    ensures Walk(edges, from, fuel) == Success([])
  {
  }

  /** The walk from an endpoint whose only edge enters node `n` is `n` and then the walk from `n`. */
  lemma WalkThrough<N>(edges: seq<Edge<N>>, from: Endpoint<N>, to: Endpoint<N>, fuel: nat, p: seq<N>)
    requires Targets(edges, from) == [to] && to.Node? && fuel > 0
    requires Walk(edges, to, fuel - 1) == Success(p)
    ensures Walk(edges, from, fuel) == Success([to.name] + p)
  {
  }

  /**
   * From the `j`-th of the endpoints `START`, `nodes[0]`, ... onwards, each
   * one's only edge is the one to the next endpoint, the last to `END`.
   */
  ghost predicate Linked<N>(edges: seq<Edge<N>>, nodes: seq<N>, j: nat)
    requires j <= |nodes|
    decreases |nodes| - j
  {
    && Targets(edges, Source(nodes, j)) == [Target(nodes, j)]
    && (j < |nodes| ==> Linked(edges, nodes, j + 1))
  }

  /** One step along linked endpoints: the walk from the `j`-th is its node, then the walk from the next. */
  lemma WalkAlongStep<N>(edges: seq<Edge<N>>, nodes: seq<N>, j: nat, fuel: nat)
    requires j < |nodes| && fuel > 0
    requires Targets(edges, Source(nodes, j)) == [Target(nodes, j)]
    requires Walk(edges, Source(nodes, j + 1), fuel - 1) == Success(nodes[j + 1..])
    ensures Walk(edges, Source(nodes, j), fuel) == Success(nodes[j..])
  {
    var to := Source(nodes, j + 1);
    assert Target(nodes, j) == to && to.Node? && to.name == nodes[j];
    WalkThrough(edges, Source(nodes, j), to, fuel, nodes[j + 1..]);
    assert [nodes[j]] + nodes[j + 1..] == nodes[j..];
  }

  /** Walking linked endpoints from the `j`-th visits the remaining nodes in order. */
  lemma {:induction false} WalkAlong<N>(edges: seq<Edge<N>>, nodes: seq<N>, j: nat, fuel: nat)
    requires j <= |nodes| && |nodes| - j <= fuel
    requires Linked(edges, nodes, j)
    ensures Walk(edges, Source(nodes, j), fuel) == Success(nodes[j..])
    decreases |nodes| - j
  {
    if j < |nodes| {
      WalkAlong(edges, nodes, j + 1, fuel - 1);
      WalkAlongStep(edges, nodes, j, fuel);
    } else {
      WalkToEnd(edges, Source(nodes, j), fuel);
      assert nodes[j..] == [];
    }
  }

  /** A chain of distinct nodes is linked from every position. */
  lemma {:induction false} ChainLinked<N>(nodes: seq<N>, j: nat)
    requires Distinct(nodes) && j <= |nodes|
    ensures Linked(Chain(nodes), nodes, j)
    decreases |nodes| - j
  {
    ChainTargets(nodes, j);
    if j < |nodes| {
      ChainLinked(nodes, j + 1);
    }
  }

  /**
   * A workflow whose edges run from `START` through distinct nodes to `END`,
   * one `add_edge` per step, executes exactly those nodes in that order.
   */
  lemma ChainOrder<N>(nodes: seq<N>)
    requires Distinct(nodes)
    ensures StepOrder(Chain(nodes)) == Success(nodes)
  {
    ChainLinked(nodes, 0);
    WalkAlong(Chain(nodes), nodes, 0, |nodes| + 1);
  }
}
