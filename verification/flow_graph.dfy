/** The graph runner of backend/flow_nodes.py: nodes with a default successor and labelled
    branches, `link`, `branch`, and `Flow.run`. `RunFrom` is the run as a function over the graph
    the nodes form; `Flow.Run` is the loop itself, proved to compute it. */
module FlowGraph {
  import opened Wrappers
  import opened FlowNodes

  /** What a node is at run time: its step, its `_next` and its `_branches`. */
  datatype NodeInfo<N> = NodeInfo(kind: StepKind, next: Option<N>, branches: map<string, N>)

  datatype Graph<N> = Graph(nodes: map<N, NodeInfo<N>>)

  /** The nodes a node can hand over to. */
  function Targets<N>(info: NodeInfo<N>): set<N> {
    (if info.next.Some? then {info.next.value} else {}) + info.branches.Values
  }

  /** Every successor of every node is itself a node of the graph. */
  ghost predicate Closed<N>(g: Graph<N>) {
    forall n {:trigger Targets(g.nodes[n])} | n in g.nodes :: Targets(g.nodes[n]) <= g.nodes.Keys
  }

  /** The node the runner moves to after a post that returned `route`: the branch registered
      under that tag when there is one, otherwise the default successor (None ends the run). */
  function Successor<N>(info: NodeInfo<N>, route: Option<string>): (next: Option<N>)
    ensures next.Some? ==> next.value in Targets(info)
    ensures route.Some? && route.value in info.branches ==> next == Some(info.branches[route.value])
    ensures route.None? || route.value !in info.branches ==> next == info.next
  {
    if route.Some? && route.value in info.branches then Some(info.branches[route.value]) else info.next
  }

  /** How a run ends: no successor left, an exception out of a step (the dictionary as that step
      found it), or, for the bounded function only, the step budget spent. */
  datatype End = Finished(shared: Shared) | Aborted(exc: Exc, shared: Shared) | OutOfFuel(shared: Shared)

  /** A run: how it ended and the steps it invoked, in order. */
  datatype Run = Run(end: End, trace: seq<StepKind>)

  function Then(kind: StepKind, rest: Run): Run {
    Run(rest.end, [kind] + rest.trace)
  }

  /** `Flow.run` from `node`, taking at most `fuel` steps. */
  function RunFrom<N>(g: Graph<N>, node: Option<N>, s: Shared, env: Env, fuel: nat): (r: Run)
    requires Closed(g) && (node.Some? ==> node.value in g.nodes)
    ensures |r.trace| <= fuel
    ensures r.end.OutOfFuel? ==> |r.trace| == fuel
    decreases fuel
  {
    if node.None? then Run(Finished(s), [])
    else if fuel == 0 then Run(OutOfFuel(s), [])
    else
      var info := g.nodes[node.value];
      match Step(info.kind, s, env)
      case Failure(e) => Run(Aborted(e, s), [info.kind])
      case Success(t) => Then(info.kind, RunFrom(g, Successor(info, t.route), t.shared, env, fuel - 1))
  }

  /** One step of the bounded run from a node of the graph. */
  lemma RunFromUnfold<N>(g: Graph<N>, n: N, s: Shared, env: Env, fuel: nat)
    requires Closed(g) && n in g.nodes && fuel > 0
    ensures match Step(g.nodes[n].kind, s, env)
      case Failure(e) => RunFrom(g, Some(n), s, env, fuel).end == Aborted(e, s)
      case Success(t) =>
        RunFrom(g, Some(n), s, env, fuel).end == RunFrom(g, Successor(g.nodes[n], t.route), t.shared, env, fuel - 1).end
  {
  }

  /** A node object: its step is fixed at construction, `link` and `branch` update the rest. */
  class Node {
    const kind: StepKind
    var next: Node?
    var branches: map<string, Node>

    constructor (kind: StepKind)
      ensures this.kind == kind && next == null && branches == map[]
    {
      this.kind := kind;
      next := null;
      branches := map[];
    }
  }

  /** `link(a, b)`. */
  method Link(a: Node, b: Node)
    modifies a
    ensures a.next == b && a.branches == old(a.branches)
  {
    a.next := b;
  }

  /** `branch(a, tag, b)`. */
  method Branch(a: Node, tag: string, b: Node)
    modifies a
    ensures a.branches == old(a.branches)[tag := b] && a.next == old(a.next)
  {
    a.branches := a.branches[tag := b];
  }

  /** What a node object currently is. */
  ghost function Info(n: Node): NodeInfo<Node>
    reads n
  {
    var next: Option<Node> := if n.next == null then None else Some(n.next as Node);
    NodeInfo(n.kind, next, n.branches)
  }

  /** The graph a set of node objects currently forms. */
  ghost function Abstract(nodes: set<Node>): Graph<Node>
    reads nodes
  {
    Graph(map n | n in nodes :: Info(n))
  }

  /** One pass of prep, exec and post on the node's step, the post updating `ctx` in place. */
  method RunStep(kind: StepKind, ctx: Context, env: Env) returns (r: Reply<Option<string>>)
    modifies ctx
    ensures match Step(kind, old(ctx.State()), env)
      case Failure(e) => r == Failure(e) && ctx.State() == old(ctx.State())
      case Success(t) => r == Success(t.route) && ctx.State() == t.shared
  {
    match kind
    case GetSchema =>
      var dbUrl :- PrepGetSchema(ctx.State());
      var schema :- ExecGetSchema(dbUrl, env);
      ctx.RecordSchema(schema);
      r := Success(None);
    case GenerateSQL =>
      var inputs :- PrepGenerate(ctx.State());
      var sql :- ExecGenerate(inputs.0, inputs.1, env);
      ctx.RecordSql(sql);
      r := Success(None);
    case ExecuteSQL =>
      var inputs :- PrepExecute(ctx.State());
      var res :- ExecExecute(inputs.0, inputs.1, env);
      var route := ctx.RecordExecution(res);
      r := Success(route);
    case DebugSQL =>
      var inputs :- PrepDebug(ctx.State());
      var fixedSql :- ExecDebug(inputs.0, inputs.1, inputs.2, inputs.3, env);
      ctx.RecordRepair(fixedSql);
      r := Success(None);
  }

  /** One iteration of the loop of `Flow.run`: run the node's step, then follow the branch
      registered under the returned tag, or else the default successor. */
  method Advance(ghost g: Graph<Node>, node: Node, ctx: Context, env: Env, ghost left: nat)
    returns (next: Node?, exc: Option<Exc>, ghost left': nat)
    requires Closed(g) && node in g.nodes && g.nodes[node] == Info(node)
    requires !RunFrom(g, Some(node), ctx.State(), env, left).end.OutOfFuel?
    modifies ctx
    ensures left' < left
    ensures next != null ==> next in g.nodes
    ensures var spec := RunFrom(g, Some(node), old(ctx.State()), env, left).end;
      if exc.Some? then spec == Aborted(exc.value, ctx.State())
      else spec == RunFrom(g, if next == null then None else Some(next), ctx.State(), env, left').end
  {
    ghost var before := ctx.State();
    RunFromUnfold(g, node, before, env, left);
    var step := RunStep(node.kind, ctx, env);
    left' := left - 1;
    if step.Failure? {
      return null, Some(step.error), left';
    }
    exc := None;
    var route := step.value;
    if route.Some? && route.value in node.branches {
      next := node.branches[route.value];
      return;
    }
    next := node.next;
  }

  class Flow {
    const start: Node

    constructor (start: Node)
      ensures this.start == start
    {
      this.start := start;
    }

    /** `Flow.run(shared)`. The loop has no bound of its own; it is run here on graphs and
        dictionaries for which the bounded run does not spend all of `fuel`, and then it ends
        as that run does: with the same dictionary, and raising what that run raised. */
    method Run(ghost nodes: set<Node>, ctx: Context, env: Env, ghost fuel: nat) returns (r: Outcome<Exc>)
      requires start in nodes && Closed(Abstract(nodes))
      requires !RunFrom(Abstract(nodes), Some(start), ctx.State(), env, fuel).end.OutOfFuel?
      modifies ctx
      ensures var spec := RunFrom(Abstract(nodes), Some(start), old(ctx.State()), env, fuel).end;
        && ctx.State() == spec.shared
        && (r.Pass? <==> spec.Finished?)
        && (spec.Aborted? ==> r == Fail(spec.exc))
    {
      ghost var g := Abstract(nodes);
      ghost var goal := RunFrom(g, Some(start), ctx.State(), env, fuel).end;
      ghost var left := fuel;
      var node: Node? := start;
      while node != null
        invariant g == Abstract(nodes)
        invariant node != null ==> node in nodes
        invariant RunFrom(g, if node == null then None else Some(node), ctx.State(), env, left).end == goal
        invariant !goal.OutOfFuel?
        decreases left
      {
        var exc;
        node, exc, left := Advance(g, node, ctx, env, left);
        if exc.Some? {
          return Fail(exc.value);
        }
      }
      r := Pass;
    }
  }
}
