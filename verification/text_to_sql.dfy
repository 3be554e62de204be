/** The text-to-SQL flow as `build_text_to_sql_flow` wires it and `run_text_to_sql` runs it
    (backend/flow_nodes.py): the wiring, a direct definition of the run it produces (schema,
    generation, then the execute/repair loop), the proof that the wired graph runs exactly that,
    and what the loop guarantees about attempts, repairs and the reported outcome. */
module TextToSql {
  import opened Wrappers
  import opened PyStr
  import opened DbAdapters
  import opened FlowNodes
  import opened FlowGraph

  // ---------------- the wiring ----------------

  /** The four nodes, distinct, with GetSchema -> GenerateSQL -> ExecuteSQL, ExecuteSQL branching
      to DebugSQL on "error_retry" and DebugSQL leading back to ExecuteSQL. */
  ghost predicate IsTextToSqlGraph<N>(g: Graph<N>, schema: N, generate: N, execute: N, debug: N) {
    && schema != generate && schema != execute && schema != debug
    && generate != execute && generate != debug && execute != debug
    && g.nodes == map[
         schema := NodeInfo(GetSchema, Some(generate), map[]),
         generate := NodeInfo(GenerateSQL, Some(execute), map[]),
         execute := NodeInfo(ExecuteSQL, None, map[ErrorRetry := debug]),
         debug := NodeInfo(DebugSQL, Some(execute), map[])]
  }

  lemma WiredGraphClosed<N>(g: Graph<N>, schema: N, generate: N, execute: N, debug: N)
    requires IsTextToSqlGraph(g, schema, generate, execute, debug)
    ensures Closed(g)
  {
    assert g.nodes.Keys == {schema, generate, execute, debug};
  }

  /** The graph four distinct node objects form is their four current descriptions. */
  lemma AbstractOfFour(a: Node, b: Node, c: Node, d: Node)
    requires a != b && a != c && a != d && b != c && b != d && c != d
    ensures Abstract({a, b, c, d}).nodes == map[a := Info(a), b := Info(b), c := Info(c), d := Info(d)]
  {
    var m := map[a := Info(a), b := Info(b), c := Info(c), d := Info(d)];
    assert Abstract({a, b, c, d}).nodes.Keys == m.Keys;
  }

  /** `build_text_to_sql_flow()`: four fresh nodes, linked and branched as above, and a flow that
      starts at the schema node. */
  method BuildTextToSqlFlow() returns (flow: Flow, ghost nodes: set<Node>, ghost generate: Node,
                                       ghost execute: Node, ghost debug: Node)
    ensures fresh(flow) && fresh(nodes)
    ensures nodes == {flow.start, generate, execute, debug}
    ensures IsTextToSqlGraph(Abstract(nodes), flow.start, generate, execute, debug)
  {
    var getSchema := new Node(GetSchema);
    var genSql := new Node(GenerateSQL);
    var execSql := new Node(ExecuteSQL);
    var debugSql := new Node(DebugSQL);
    Link(getSchema, genSql);
    Link(genSql, execSql);
    Branch(execSql, ErrorRetry, debugSql);
    Link(debugSql, execSql);
    flow := new Flow(getSchema);
    nodes, generate, execute, debug := {getSchema, genSql, execSql, debugSql}, genSql, execSql, debugSql;
    AbstractOfFour(getSchema, genSql, execSql, debugSql);
    assert Info(getSchema) == NodeInfo(GetSchema, Some(genSql), map[]);
    assert Info(genSql) == NodeInfo(GenerateSQL, Some(execSql), map[]);
    assert Info(execSql) == NodeInfo(ExecuteSQL, None, map[ErrorRetry := debugSql]);
    assert Info(debugSql) == NodeInfo(DebugSQL, Some(execSql), map[]);
  }

  // ---------------- the run, defined directly ----------------

  /** The attempt count at which a run of failed executions stops asking for repairs: the
      maximum, or one more than the current count when that is already reached. */
  function GiveUpAt(s: Shared): int {
    if MaxAttempts(s) > Attempts(s) + 1 then MaxAttempts(s) else Attempts(s) + 1
  }

  /** How many more executions the loop can make from `s`. */
  function ExecBudget(s: Shared): (b: nat)
    ensures b >= 1
  {
    GiveUpAt(s) - Attempts(s)
  }

  /** ExecuteSQL's step is its post applied to what its exec returned. */
  lemma ExecuteStepPost(s: Shared, env: Env) returns (res: ExecResult)
    requires Step(ExecuteSQL, s, env).Success?
    ensures Step(ExecuteSQL, s, env).value == PostExecute(s, res)
  {
    var inputs := PrepExecute(s).value;
    res := ExecExecute(inputs.0, inputs.1, env).value;
  }

  /** DebugSQL's step is its post applied to the repaired statement. */
  lemma DebugStepPost(s: Shared, env: Env) returns (fixedSql: string)
    requires Step(DebugSQL, s, env).Success?
    ensures Step(DebugSQL, s, env).value == PostDebug(s, fixedSql)
  {
    var inputs := PrepDebug(s).value;
    fixedSql := ExecDebug(inputs.0, inputs.1, inputs.2, inputs.3, env).value;
  }

  /** A retry happens only below the give-up count, and one execution plus one repair spend
      exactly one unit of the budget. */
  lemma RetryShrinksBudget(s: Shared, env: Env)
    requires Step(ExecuteSQL, s, env).Success? && Step(ExecuteSQL, s, env).value.route == Some(ErrorRetry)
    ensures ExecBudget(s) >= 2
    ensures var t := Step(ExecuteSQL, s, env).value.shared;
      Step(DebugSQL, t, env).Success? ==> ExecBudget(Step(DebugSQL, t, env).value.shared) == ExecBudget(s) - 1
  {
    var res := ExecuteStepPost(s, env);
    PostExecuteCounts(s, res);
    var t := Step(ExecuteSQL, s, env).value.shared;
    if Step(DebugSQL, t, env).Success? {
      var fixedSql := DebugStepPost(t, env);
    }
  }

  /** The execute/repair loop, entered at ExecuteSQL: execute; on "error_retry" repair and loop;
      otherwise stop. An exception ends the run with the dictionary as the failing step found it. */
  function RepairLoop(s: Shared, env: Env): Run
    decreases ExecBudget(s)
  {
    match Step(ExecuteSQL, s, env)
    case Failure(e) => Run(Aborted(e, s), [ExecuteSQL])
    case Success(t1) =>
      if t1.route == Some(ErrorRetry) then
        match Step(DebugSQL, t1.shared, env)
        case Failure(e) => Run(Aborted(e, t1.shared), [ExecuteSQL, DebugSQL])
        case Success(t2) =>
          RetryShrinksBudget(s, env);
          Then(ExecuteSQL, Then(DebugSQL, RepairLoop(t2.shared, env)))
      else Run(Finished(t1.shared), [ExecuteSQL])
  }

  /** The whole run from the start node: schema, generation, then the loop. */
  function Pipeline(s: Shared, env: Env): Run {
    match Step(GetSchema, s, env)
    case Failure(e) => Run(Aborted(e, s), [GetSchema])
    case Success(t1) =>
      match Step(GenerateSQL, t1.shared, env)
      case Failure(e) => Run(Aborted(e, t1.shared), [GetSchema, GenerateSQL])
      case Success(t2) => Then(GetSchema, Then(GenerateSQL, RepairLoop(t2.shared, env)))
  }

  /** The number of steps the run from the start node can take. */
  function PipelineFuel(s: Shared): nat {
    2 * ExecBudget(s) + 1
  }

  // ---------------- the wired graph runs the direct definition ----------------

  /** The execute node branching to the debug node on "error_retry", the debug node leading
      back to the execute node, in a closed graph. */
  ghost predicate LoopWired<N>(g: Graph<N>, execute: N, debug: N) {
    && Closed(g) && execute in g.nodes && debug in g.nodes
    && g.nodes[execute] == NodeInfo(ExecuteSQL, None, map[ErrorRetry := debug])
    && g.nodes[debug] == NodeInfo(DebugSQL, Some(execute), map[])
  }

  /** The dictionary one round of the loop hands to the next: present exactly when the execution
      asked for a retry and the repair raised nothing. */
  function LoopNext(s: Shared, env: Env): Option<Shared> {
    match Step(ExecuteSQL, s, env)
    case Failure(_) => None
    case Success(t1) =>
      if t1.route != Some(ErrorRetry) then None
      else
        match Step(DebugSQL, t1.shared, env)
        case Failure(_) => None
        case Success(t2) => Some(t2.shared)
  }

  // RoundAgrees, AgreeByRounds, LoopSetting, WiredRun, LoopIn, NextIn, WiredRoundIn and
  // WiredRoundAgrees model nothing in the source: they only split the proof of
  // `WiredLoopMatches` into rounds, so that no single proof obligation unfolds the whole loop.

  /** One round, from `t` with `f` steps: `run` and `loop` stop with the same result, or both
      continue from `next(t)`, which has a smaller `budget` and leaves the run two steps fewer. */
  ghost predicate RoundAgrees<C, S>(run: (C, S, nat) -> Run, loop: (C, S) -> Run, next: (C, S) -> Option<S>,
                                    budget: S -> nat, c: C, t: S, f: nat)
  {
    f >= 2 * budget(t) - 1 ==>
      if next(c, t).None? then run(c, t, f) == loop(c, t)
      else
        && budget(next(c, t).value) < budget(t) && f >= 2
        && (run(c, next(c, t).value, f - 2) == loop(c, next(c, t).value) ==> run(c, t, f) == loop(c, t))
  }

  /** Induction by rounds: a bounded run and a loop agree from every state with enough steps
      when they agree round by round. */
  lemma {:induction false} AgreeByRounds<C, S>(run: (C, S, nat) -> Run, loop: (C, S) -> Run,
                                               next: (C, S) -> Option<S>, budget: S -> nat,
                                               c: C, s: S, fuel: nat)
    requires forall t, f: nat :: RoundAgrees(run, loop, next, budget, c, t, f)
    requires fuel >= 2 * budget(s) - 1
    ensures run(c, s, fuel) == loop(c, s)
    decreases budget(s)
  {
    assert RoundAgrees(run, loop, next, budget, c, s, fuel);
    if next(c, s).Some? {
      assert RoundAgrees(run, loop, next, budget, c, next(c, s).value, fuel - 2);
      AgreeByRounds(run, loop, next, budget, c, next(c, s).value, fuel - 2);
    }
  }

  /** A graph with its execute and debug nodes, and the environment, for running the loop. */
  datatype LoopSetting<N> = LoopSetting(g: Graph<N>, execute: N, debug: N, env: Env)

  /** The runner of `Flow.run` from the execute node of a wired setting. */
  ghost function WiredRun<N>(c: LoopSetting<N>, t: Shared, f: nat): Run {
    if LoopWired(c.g, c.execute, c.debug) then RunFrom(c.g, Some(c.execute), t, c.env, f)
    else Run(Finished(t), [])
  }

  function LoopIn<N>(c: LoopSetting<N>, t: Shared): Run {
    RepairLoop(t, c.env)
  }

  function NextIn<N>(c: LoopSetting<N>, t: Shared): Option<Shared> {
    LoopNext(t, c.env)
  }

  /** One round of the runner from the execute node, side by side with one round of the loop:
      both stop with the same run, or both go on from the same repaired dictionary, which has one
      unit of budget less, after one execution and one repair. */
  lemma WiredRound<N>(g: Graph<N>, execute: N, debug: N, s: Shared, env: Env, fuel: nat)
    requires LoopWired(g, execute, debug)
    requires fuel >= 2 * ExecBudget(s) - 1
    ensures LoopNext(s, env).None? ==> RunFrom(g, Some(execute), s, env, fuel) == RepairLoop(s, env)
    ensures LoopNext(s, env).Some? ==>
      && ExecBudget(LoopNext(s, env).value) < ExecBudget(s) && fuel >= 2
      && (RunFrom(g, Some(execute), LoopNext(s, env).value, env, fuel - 2) == RepairLoop(LoopNext(s, env).value, env)
          ==> RunFrom(g, Some(execute), s, env, fuel) == RepairLoop(s, env))
  {
    match Step(ExecuteSQL, s, env)
    case Failure(e) =>
    case Success(t1) =>
      if t1.route == Some(ErrorRetry) {
        RetryShrinksBudget(s, env);
        assert Successor(g.nodes[execute], t1.route) == Some(debug);
        match Step(DebugSQL, t1.shared, env)
        case Failure(e) =>
        case Success(t2) =>
          assert RunFrom(g, Some(execute), s, env, fuel)
            == Then(ExecuteSQL, Then(DebugSQL, RunFrom(g, Some(execute), t2.shared, env, fuel - 2)));
          assert RepairLoop(s, env) == Then(ExecuteSQL, Then(DebugSQL, RepairLoop(t2.shared, env)));
      } else {
        assert Successor(g.nodes[execute], t1.route) == None;
      }
  }

  /** `WiredRound`, said of the setting through its named functions. */
  lemma WiredRoundIn<N>(c: LoopSetting<N>, t: Shared, f: nat)
    requires LoopWired(c.g, c.execute, c.debug)
    requires f >= 2 * ExecBudget(t) - 1
    ensures NextIn(c, t).None? ==> WiredRun(c, t, f) == LoopIn(c, t)
    ensures NextIn(c, t).Some? ==>
      && ExecBudget(NextIn(c, t).value) < ExecBudget(t) && f >= 2
      && (WiredRun(c, NextIn(c, t).value, f - 2) == LoopIn(c, NextIn(c, t).value) ==> WiredRun(c, t, f) == LoopIn(c, t))
  {
    WiredRound(c.g, c.execute, c.debug, t, c.env, f);
  }

  /** `WiredRound`, as the round-by-round hypothesis of `AgreeByRounds`. */
  lemma WiredRoundAgrees<N>(c: LoopSetting<N>, t: Shared, f: nat)
    requires LoopWired(c.g, c.execute, c.debug)
    ensures RoundAgrees(WiredRun, LoopIn, NextIn, ExecBudget, c, t, f)
  {
    if f >= 2 * ExecBudget(t) - 1 {
      WiredRoundIn(c, t, f);
    }
  }

  /** From the execute node of a graph wired as above, the runner of `Flow.run` does exactly
      the loop, given steps for at least every execution and repair the loop can make. */
  lemma WiredLoopMatches<N>(g: Graph<N>, execute: N, debug: N, s: Shared, env: Env, fuel: nat)
    requires LoopWired(g, execute, debug)
    requires fuel >= 2 * ExecBudget(s) - 1
    ensures RunFrom(g, Some(execute), s, env, fuel) == RepairLoop(s, env)
  {
    var c := LoopSetting(g, execute, debug, env);
    forall t, f: nat
      ensures RoundAgrees(WiredRun, LoopIn, NextIn, ExecBudget, c, t, f)
    {
      WiredRoundAgrees(c, t, f);
    }
    AgreeByRounds(WiredRun, LoopIn, NextIn, ExecBudget, c, s, fuel);
  }

  /** The wired graph, run from the schema node with `PipelineFuel` steps or more, does exactly
      the pipeline: the same end, the same dictionary, the same sequence of steps. */
  lemma WiredGraphRunsPipeline<N>(g: Graph<N>, schema: N, generate: N, execute: N, debug: N,
                                      s: Shared, env: Env, fuel: nat)
    requires IsTextToSqlGraph(g, schema, generate, execute, debug)
    requires fuel >= PipelineFuel(s)
    ensures Closed(g)
    ensures RunFrom(g, Some(schema), s, env, fuel) == Pipeline(s, env)
  {
    WiredGraphClosed(g, schema, generate, execute, debug);
    match Step(GetSchema, s, env)
    case Failure(e) =>
    case Success(t1) =>
      StepKeepsCounter(GetSchema, s, env);
      match Step(GenerateSQL, t1.shared, env)
      case Failure(e) =>
      case Success(t2) =>
        StepKeepsCounter(GenerateSQL, t1.shared, env);
        assert ExecBudget(t2.shared) == ExecBudget(s);
        WiredLoopMatches(g, execute, debug, t2.shared, env, fuel - 2);
  }

  // ---------------- what the loop guarantees ----------------

  /** The steps of the loop alternate, starting with an execution. */
  predicate Alternates(trace: seq<StepKind>) {
    forall i | 0 <= i < |trace| :: trace[i] == if i % 2 == 0 then ExecuteSQL else DebugSQL
  }

  /** Prefixing one execution and one repair keeps the alternation and adds one of each step. */
  lemma AlternatesPrefix(rest: seq<StepKind>)
    requires Alternates(rest)
    ensures Alternates([ExecuteSQL, DebugSQL] + rest)
    ensures multiset([ExecuteSQL, DebugSQL] + rest)[ExecuteSQL] == multiset(rest)[ExecuteSQL] + 1
    ensures multiset([ExecuteSQL, DebugSQL] + rest)[DebugSQL] == multiset(rest)[DebugSQL] + 1
  {
    var trace := [ExecuteSQL, DebugSQL] + rest;
    assert multiset(trace) == multiset([ExecuteSQL, DebugSQL]) + multiset(rest);
    forall i | 2 <= i < |trace|
      ensures trace[i] == if i % 2 == 0 then ExecuteSQL else DebugSQL
    {
      assert trace[i] == rest[i - 2];
    }
  }

  /** The traces of a single round that stops. */
  lemma AlternatesShort()
    ensures Alternates([ExecuteSQL]) && Alternates([ExecuteSQL, DebugSQL])
  {
    assert [ExecuteSQL, DebugSQL][1] == DebugSQL;
  }

  /** Two steps in front of a run are the two-element prefix of its trace. */
  lemma ThenThen(first: StepKind, second: StepKind, rest: Run)
    ensures Then(first, Then(second, rest)) == Run(rest.end, [first, second] + rest.trace)
  {
    assert [first] + ([second] + rest.trace) == [first, second] + rest.trace;
  }

  /** One round of the loop: either it stops after the execution (or after a repair that
      raised), or it goes on from the repaired dictionary with one unit of budget less. */
  lemma LoopUnfold(s: Shared, env: Env) returns (next: Option<Shared>)
    ensures var r := RepairLoop(s, env);
      && (next.Some? ==>
            && ExecBudget(next.value) == ExecBudget(s) - 1
            && r.end == RepairLoop(next.value, env).end
            && r.trace == [ExecuteSQL, DebugSQL] + RepairLoop(next.value, env).trace)
      && (next.None? ==>
            && !r.end.OutOfFuel?
            && (r.trace == [ExecuteSQL] || (r.trace == [ExecuteSQL, DebugSQL] && r.end.Aborted?)))
  {
    next := None;
    match Step(ExecuteSQL, s, env)
    case Failure(e) =>
      assert RepairLoop(s, env) == Run(Aborted(e, s), [ExecuteSQL]);
    case Success(t1) =>
      if t1.route == Some(ErrorRetry) {
        RetryShrinksBudget(s, env);
        match Step(DebugSQL, t1.shared, env)
        case Failure(e) =>
          assert RepairLoop(s, env) == Run(Aborted(e, t1.shared), [ExecuteSQL, DebugSQL]);
        case Success(t2) =>
          next := Some(t2.shared);
          var rest := RepairLoop(t2.shared, env);
          assert RepairLoop(s, env) == Then(ExecuteSQL, Then(DebugSQL, rest));
          ThenThen(ExecuteSQL, DebugSQL, rest);
      } else {
        assert RepairLoop(s, env) == Run(Finished(t1.shared), [ExecuteSQL]);
      }
  }

  /** The loop always ends; it executes at least once and at most `ExecBudget` times, repairs
      at most one time fewer, and alternates execution and repair, so that it holds as many
      repairs as executions or one fewer; a loop that finishes ends on an execution. */
  lemma {:induction false} RepairLoopShape(s: Shared, env: Env)
    ensures var r := RepairLoop(s, env);
      var executions := multiset(r.trace)[ExecuteSQL];
      var repairs := multiset(r.trace)[DebugSQL];
      && !r.end.OutOfFuel?
      && 1 <= |r.trace| <= 2 * ExecBudget(s) - 1
      && Alternates(r.trace)
      && |r.trace| == executions + repairs
      && repairs <= executions <= repairs + 1
      && executions <= ExecBudget(s)
      && repairs <= ExecBudget(s) - 1
      && (r.end.Finished? ==> executions == repairs + 1)
    decreases ExecBudget(s)
  {
    var next := LoopUnfold(s, env);
    if next.Some? {
      RepairLoopShape(next.value, env);
      AlternatesPrefix(RepairLoop(next.value, env).trace);
    } else {
      AlternatesShort();
    }
  }

  /** No final entry yet. */
  predicate Unsettled(s: Shared) {
    s.finalResult.None? && s.finalError.None?
  }

  /** Attempt accounting of a run `r` of the loop started from `s`: the maximum is never
      changed; the counter grows by one per repair plus one for a final failure; an aborted run
      leaves no final entry; a finished run holds exactly one of the final result and the final
      error; a final error is the last error and leaves the count at the give-up count; a final
      result comes strictly below it. */
  predicate Accounted(s: Shared, r: Run) {
    var e := r.end.shared;
    && MaxAttempts(e) == MaxAttempts(s)
    && Attempts(e) == Attempts(s) + multiset(r.trace)[DebugSQL]
                      + (if r.end.Finished? && e.finalError.Some? then 1 else 0)
    && (r.end.Aborted? ==> Unsettled(e))
    && (r.end.Finished? ==> (e.finalResult.Some? <==> e.finalError.None?))
    && (r.end.Finished? && e.finalError.Some? ==> e.finalError == e.err && Attempts(e) == GiveUpAt(s))
    && (r.end.Finished? && e.finalResult.Some? ==> Attempts(e) < GiveUpAt(s))
  }

  /** One round of the loop started with no final entry: a round that stops is accounted for;
      one that goes on hands over a dictionary still without a final entry, one attempt further,
      with the same maximum and give-up count. */
  lemma AccountingRound(s: Shared, env: Env) returns (next: Option<Shared>)
    requires Unsettled(s)
    ensures next.None? ==> Accounted(s, RepairLoop(s, env))
    ensures next.Some? ==>
      && Unsettled(next.value)
      && MaxAttempts(next.value) == MaxAttempts(s) && Attempts(next.value) == Attempts(s) + 1
      && GiveUpAt(next.value) == GiveUpAt(s)
      && RepairLoop(s, env) == Then(ExecuteSQL, Then(DebugSQL, RepairLoop(next.value, env)))
  {
    next := None;
    match Step(ExecuteSQL, s, env)
    case Failure(e) =>
    case Success(t1) =>
      var res := ExecuteStepPost(s, env);
      PostExecuteCounts(s, res);
      if t1.route == Some(ErrorRetry) {
        RetryShrinksBudget(s, env);
        match Step(DebugSQL, t1.shared, env)
        case Failure(e) =>
        case Success(t2) =>
          var fixedSql := DebugStepPost(t1.shared, env);
          next := Some(t2.shared);
      }
  }

  /** Accounting survives one more round in front: one repair more, one attempt more. */
  lemma AccountedPrefix(s: Shared, n: Shared, rest: Run)
    requires Accounted(n, rest)
    requires MaxAttempts(n) == MaxAttempts(s) && Attempts(n) == Attempts(s) + 1 && GiveUpAt(n) == GiveUpAt(s)
    ensures Accounted(s, Then(ExecuteSQL, Then(DebugSQL, rest)))
  {
    ThenThen(ExecuteSQL, DebugSQL, rest);
    PrefixCounts(ExecuteSQL, DebugSQL, rest.trace);
  }

  /** The loop started with no final entry keeps the accounting above. */
  lemma {:induction false} RepairLoopAccounting(s: Shared, env: Env)
    requires Unsettled(s)
    ensures Accounted(s, RepairLoop(s, env))
    decreases ExecBudget(s)
  {
    var next := AccountingRound(s, env);
    if next.Some? {
      RepairLoopAccounting(next.value, env);
      AccountedPrefix(s, next.value, RepairLoop(next.value, env));
    }
  }

  /** The keys the first two steps fill and the loop only reads. */
  predicate Ready(s: Shared) {
    s.dbUrl.Some? && s.naturalQuery.Some? && s.schema.Some? && s.generatedSql.Some?
  }

  /** What a run `r` of the loop entered at `s` with its keys present guarantees: no `shared[key]`
      ever fails, so an execution can only raise NotImplementedError and a repair only what the
      model raised on the repair prompt built from the question, the schema, the failing
      statement and its error; the locator, the question and the schema stay as they were. */
  predicate KeysKept(s: Shared, r: Run, env: Env) {
    var e := r.end.shared;
    && Ready(e)
    && e.dbUrl == s.dbUrl && e.naturalQuery == s.naturalQuery && e.schema == s.schema
    && (r.end.Aborted? ==>
          && r.trace != []
          && ((r.trace[|r.trace| - 1] == ExecuteSQL && r.end.exc.NotImplemented?)
              || (&& r.trace[|r.trace| - 1] == DebugSQL
                  && e.err.Some?
                  && env.llm(RepairPrompt(e.naturalQuery.value, e.schema.value, e.generatedSql.value, e.err.value))
                       == Failure(r.end.exc))))
  }

  /** One round of the loop entered with its keys present: a round that stops keeps them as
      above; one that goes on hands over a dictionary with the same keys and less budget. */
  lemma KeysRound(s: Shared, env: Env) returns (next: Option<Shared>)
    requires Ready(s)
    ensures next.None? ==> KeysKept(s, RepairLoop(s, env), env)
    ensures next.Some? ==>
      && Ready(next.value) && ExecBudget(next.value) < ExecBudget(s)
      && next.value.dbUrl == s.dbUrl && next.value.naturalQuery == s.naturalQuery && next.value.schema == s.schema
      && RepairLoop(s, env) == Then(ExecuteSQL, Then(DebugSQL, RepairLoop(next.value, env)))
  {
    next := None;
    match Step(ExecuteSQL, s, env)
    case Failure(e) =>
    case Success(t1) =>
      var res := ExecuteStepPost(s, env);
      PostExecuteCounts(s, res);
      if t1.route == Some(ErrorRetry) {
        RetryShrinksBudget(s, env);
        match Step(DebugSQL, t1.shared, env)
        case Failure(e) =>
        case Success(t2) =>
          var fixedSql := DebugStepPost(t1.shared, env);
          next := Some(t2.shared);
      }
  }

  /** The guarantees survive one more round in front, when that round keeps the keys. */
  lemma KeysKeptPrefix(s: Shared, n: Shared, rest: Run, env: Env)
    requires KeysKept(n, rest, env)
    requires n.dbUrl == s.dbUrl && n.naturalQuery == s.naturalQuery && n.schema == s.schema
    ensures KeysKept(s, Then(ExecuteSQL, Then(DebugSQL, rest)), env)
  {
    ThenThen(ExecuteSQL, DebugSQL, rest);
  }

  /** The loop entered with its keys present keeps the guarantees of `KeysKept`. */
  lemma {:induction false} RepairLoopKeepsKeys(s: Shared, env: Env)
    requires Ready(s)
    ensures KeysKept(s, RepairLoop(s, env), env)
    decreases ExecBudget(s)
  {
    var next := KeysRound(s, env);
    if next.Some? {
      RepairLoopKeepsKeys(next.value, env);
      KeysKeptPrefix(s, next.value, RepairLoop(next.value, env), env);
    }
  }

  /** What a loop that finished reports came from its last execution: the statement it leaves,
      run against the locator it leaves, gives the final result it holds, or fails with the final
      error it holds. */
  predicate ReportsLastExecution(e: Shared, env: Env) {
    && e.dbUrl.Some? && e.generatedSql.Some?
    && (e.finalResult.Some? ==>
          ExecExecute(e.dbUrl.value, e.generatedSql.value, env) == Success(ExecOk(e.finalResult.value)))
    && (e.finalError.Some? ==>
          ExecExecute(e.dbUrl.value, e.generatedSql.value, env) == Success(ExecFailed(e.finalError.value)))
  }

  /** One round of the loop entered with its keys and no final entry: a round that finishes
      reports its own execution; one that goes on hands over a dictionary of the same kind with
      less budget, from which the loop ends the same way. */
  lemma ReportRound(s: Shared, env: Env) returns (next: Option<Shared>)
    requires Ready(s) && Unsettled(s)
    ensures next.None? && RepairLoop(s, env).end.Finished? ==>
      ReportsLastExecution(RepairLoop(s, env).end.shared, env)
    ensures next.Some? ==>
      && Ready(next.value) && Unsettled(next.value) && ExecBudget(next.value) < ExecBudget(s)
      && RepairLoop(s, env).end == RepairLoop(next.value, env).end
  {
    next := None;
    match Step(ExecuteSQL, s, env)
    case Failure(e) =>
    case Success(t1) =>
      var res := ExecExecute(s.dbUrl.value, s.generatedSql.value, env).value;
      assert t1 == PostExecute(s, res);
      PostExecuteCounts(s, res);
      if t1.route == Some(ErrorRetry) {
        RetryShrinksBudget(s, env);
        match Step(DebugSQL, t1.shared, env)
        case Failure(e) =>
        case Success(t2) =>
          next := Some(t2.shared);
      } else {
        assert RepairLoop(s, env).end == Finished(t1.shared);
      }
  }

  /** Every loop entered with its keys and no final entry that finishes reports its last
      execution (see `ReportsLastExecution`). */
  lemma {:induction false} RepairLoopReportsLastExecution(s: Shared, env: Env)
    requires Ready(s) && Unsettled(s)
    ensures RepairLoop(s, env).end.Finished? ==> ReportsLastExecution(RepairLoop(s, env).end.shared, env)
    decreases ExecBudget(s)
  {
    var next := ReportRound(s, env);
    if next.Some? {
      RepairLoopReportsLastExecution(next.value, env);
    }
  }

  // ---------------- run_text_to_sql ----------------

  /** The dictionary `run_text_to_sql` returns. */
  datatype QueryOutcome = QueryOutcome(
    ok: bool,
    data: Option<Rows>,
    err: Option<string>,
    sql: Option<string>,
    attempts: int,
    schema: Option<string>)

  /** Python's `a or b` on two optional strings: `a` unless it is None or empty. */
  function OrElse(a: Option<string>, b: Option<string>): Option<string> {
    if a.Some? && a.value != "" then a else b
  }

  /** The result dictionary built from the final shared dictionary. */
  function Project(s: Shared, includeSchema: bool): QueryOutcome {
    var ok := s.finalResult.Some?;
    QueryOutcome(
      ok,
      if ok then s.finalResult else None,
      if ok then None else OrElse(s.finalError, s.err),
      s.generatedSql,
      Attempts(s),
      if includeSchema then s.schema else None)
  }

  /** `run_text_to_sql(...)`: the outcome dictionary, or the exception the flow raised. */
  function TextToSql(naturalQuery: string, dbUrl: string, maxDebugAttempts: int, includeSchema: bool, env: Env)
    : Reply<QueryOutcome>
  {
    var run := Pipeline(Initial(naturalQuery, dbUrl, maxDebugAttempts), env);
    if run.end.Aborted? then Failure(run.end.exc) else Success(Project(run.end.shared, includeSchema))
  }

  /** The loop budget from the initial dictionary: the maximum, or 1 when the maximum is below 1. */
  function EffectiveMax(maxDebugAttempts: int): int {
    if maxDebugAttempts >= 1 then maxDebugAttempts else 1
  }

  /** The pipeline either raises in its schema or generation step, or runs the loop from the
      dictionary it started with plus a schema and a generated statement, after exactly those
      two steps. */
  lemma PipelineUnfold(s: Shared, env: Env) returns (entry: Option<Shared>)
    ensures var r := Pipeline(s, env);
      && (entry.None? ==> r.end.Aborted? && (r.trace == [GetSchema] || r.trace == [GetSchema, GenerateSQL]))
      && (entry.Some? ==>
            && entry.value.schema.Some? && entry.value.generatedSql.Some?
            && entry.value == s.(schema := entry.value.schema, generatedSql := entry.value.generatedSql)
            && r.end == RepairLoop(entry.value, env).end
            && r.trace == [GetSchema, GenerateSQL] + RepairLoop(entry.value, env).trace)
  {
    entry := None;
    match Step(GetSchema, s, env)
    case Failure(e) =>
      assert Pipeline(s, env) == Run(Aborted(e, s), [GetSchema]);
    case Success(t1) =>
      var schema :| Step(GetSchema, s, env).value == PostGetSchema(s, schema);
      match Step(GenerateSQL, t1.shared, env)
      case Failure(e) =>
        assert Pipeline(s, env) == Run(Aborted(e, t1.shared), [GetSchema, GenerateSQL]);
      case Success(t2) =>
        var sql :| Step(GenerateSQL, t1.shared, env).value == PostGenerate(t1.shared, sql);
        entry := Some(t2.shared);
        var rest := RepairLoop(t2.shared, env);
        assert Pipeline(s, env) == Then(GetSchema, Then(GenerateSQL, rest));
        ThenThen(GetSchema, GenerateSQL, rest);
  }

  /** Counting and slicing a trace behind a two-step prefix. */
  lemma PrefixCounts(first: StepKind, second: StepKind, rest: seq<StepKind>)
    ensures ([first, second] + rest)[2..] == rest
    ensures forall k :: multiset([first, second] + rest)[k] == multiset([first, second])[k] + multiset(rest)[k]
  {
    assert ([first, second] + rest)[2..] == rest;
    assert multiset([first, second] + rest) == multiset([first, second]) + multiset(rest);
  }

  /** The pipeline never runs out of steps, and the flow it runs starts with the schema and
      generation steps and then alternates execution and repair, executing at most
      `EffectiveMax` times and repairing at most one time fewer. */
  lemma PipelineShape(naturalQuery: string, dbUrl: string, maxDebugAttempts: int, env: Env)
    ensures var s := Initial(naturalQuery, dbUrl, maxDebugAttempts); var r := Pipeline(s, env);
      && !r.end.OutOfFuel?
      && |r.trace| <= PipelineFuel(s) == 2 * EffectiveMax(maxDebugAttempts) + 1
      && 1 <= |r.trace|
      && r.trace[0] == GetSchema
      && (|r.trace| >= 2 ==> r.trace[1] == GenerateSQL && Alternates(r.trace[2..]))
      && multiset(r.trace)[ExecuteSQL] <= EffectiveMax(maxDebugAttempts)
      && multiset(r.trace)[DebugSQL] <= EffectiveMax(maxDebugAttempts) - 1
  {
    var s := Initial(naturalQuery, dbUrl, maxDebugAttempts);
    var entry := PipelineUnfold(s, env);
    if entry.Some? {
      RepairLoopShape(entry.value, env);
      PrefixCounts(GetSchema, GenerateSQL, RepairLoop(entry.value, env).trace);
    }
  }

  /** The report of a loop that finished, entered with every key it reads, no final entry and
      no attempt yet; the reported statement is the one whose execution gave the reported rows
      or error. */
  lemma LoopOutcome(s: Shared, includeSchema: bool, env: Env)
    requires Ready(s) && Unsettled(s) && Attempts(s) == 0 && RepairLoop(s, env).end.Finished?
    ensures var o := Project(RepairLoop(s, env).end.shared, includeSchema);
      && (o.ok <==> o.data.Some?)
      && (o.ok <==> o.err.None?)
      && o.sql.Some?
      && (o.schema.Some? <==> includeSchema)
      && 0 <= o.attempts <= GiveUpAt(s)
      && (o.ok ==> o.attempts < GiveUpAt(s))
      && (!o.ok ==> o.attempts == GiveUpAt(s))
      && (o.ok ==> ExecExecute(s.dbUrl.value, o.sql.value, env) == Success(ExecOk(o.data.value)))
      && (!o.ok ==> ExecExecute(s.dbUrl.value, o.sql.value, env) == Success(ExecFailed(o.err.value)))
  {
    RepairLoopAccounting(s, env);
    RepairLoopKeepsKeys(s, env);
    RepairLoopReportsLastExecution(s, env);
  }

  /** What `run_text_to_sql` reports when the flow raises nothing: `ok` exactly when rows are
      returned and exactly when no error is; a failure reports `EffectiveMax` attempts, a success
      fewer; the generated statement is always present and the schema exactly when it was asked for;
      and the reported statement, run against the given locator, gives exactly the reported rows
      or the reported error. */
  lemma TextToSqlOutcome(naturalQuery: string, dbUrl: string, maxDebugAttempts: int, includeSchema: bool, env: Env)
    requires TextToSql(naturalQuery, dbUrl, maxDebugAttempts, includeSchema, env).Success?
    ensures var o := TextToSql(naturalQuery, dbUrl, maxDebugAttempts, includeSchema, env).value;
      && (o.ok <==> o.data.Some?)
      && (o.ok <==> o.err.None?)
      && o.sql.Some?
      && (o.schema.Some? <==> includeSchema)
      && 0 <= o.attempts <= EffectiveMax(maxDebugAttempts)
      && (o.ok ==> o.attempts < EffectiveMax(maxDebugAttempts))
      && (!o.ok ==> o.attempts == EffectiveMax(maxDebugAttempts))
      && (o.ok ==> ExecExecute(dbUrl, o.sql.value, env) == Success(ExecOk(o.data.value)))
      && (!o.ok ==> ExecExecute(dbUrl, o.sql.value, env) == Success(ExecFailed(o.err.value)))
  {
    var s := Initial(naturalQuery, dbUrl, maxDebugAttempts);
    var entry := PipelineUnfold(s, env);
    RepairLoopShape(entry.value, env);
    LoopOutcome(entry.value, includeSchema, env);
  }

  /** The wired graph, run from the initial dictionary with `PipelineFuel` steps, ends without
      running out of steps, and `run_text_to_sql` reports exactly what that run leaves. */
  lemma WiredFlowComputesTextToSql<N>(g: Graph<N>, schema: N, generate: N, execute: N, debug: N,
                                      naturalQuery: string, dbUrl: string, maxDebugAttempts: int,
                                      includeSchema: bool, env: Env)
    requires IsTextToSqlGraph(g, schema, generate, execute, debug)
    ensures Closed(g)
    ensures var s := Initial(naturalQuery, dbUrl, maxDebugAttempts);
      var end := RunFrom(g, Some(schema), s, env, PipelineFuel(s)).end;
      && !end.OutOfFuel?
      && TextToSql(naturalQuery, dbUrl, maxDebugAttempts, includeSchema, env)
           == if end.Aborted? then Failure(end.exc) else Success(Project(end.shared, includeSchema))
  {
    var s := Initial(naturalQuery, dbUrl, maxDebugAttempts);
    WiredGraphRunsPipeline(g, schema, generate, execute, debug, s, env, PipelineFuel(s));
    PipelineShape(naturalQuery, dbUrl, maxDebugAttempts, env);
  }

  /** `run_text_to_sql(natural_query, db_url, max_debug_attempts, include_schema)`: the initial
      dictionary, the wired flow run on it, and the report built from what the run left; an
      exception from the flow propagates. */
  method RunTextToSql(naturalQuery: string, dbUrl: string, maxDebugAttempts: int, includeSchema: bool, env: Env)
    returns (r: Reply<QueryOutcome>)
    ensures r == TextToSql(naturalQuery, dbUrl, maxDebugAttempts, includeSchema, env)
  {
    var shared := new Context(dbUrl, naturalQuery, maxDebugAttempts);
    var flow, nodes, generate, execute, debug := BuildTextToSqlFlow();
    ghost var s0 := shared.State();
    ghost var fuel := PipelineFuel(s0);
    WiredFlowComputesTextToSql(Abstract(nodes), flow.start, generate, execute, debug,
                               naturalQuery, dbUrl, maxDebugAttempts, includeSchema, env);
    var outcome := flow.Run(nodes, shared, env, fuel);
    if outcome.Fail? {
      return Failure(outcome.error);
    }
    r := Success(Project(shared.State(), includeSchema));
  }

  // ---------------- scenarios ----------------

  /** The reported schema entry. */
  function SchemaReport(includeSchema: bool, schemaText: string): Option<string> {
    if includeSchema then Some(schemaText) else None
  }

  /** A statement that runs on the first try: no repair, no attempt on record, the stripped
      statement and its rows reported. */
  lemma FirstTrySuccess(naturalQuery: string, dbUrl: string, maxDebugAttempts: int, includeSchema: bool, env: Env,
                        adapter: Adapter, schemaText: string, reply: string, rows: Rows)
    requires GetAdapterFor(env.registry, NormalizeToUrl(dbUrl), env.urlparse) == Success(adapter)
    requires env.fetchSchema(adapter, NormalizeToUrl(dbUrl)) == Success(schemaText)
    requires env.llm(GenerationPrompt(schemaText, naturalQuery)) == Success(reply)
    requires env.execute(adapter, NormalizeToUrl(dbUrl), Strip(reply)) == Success(rows)
    ensures Pipeline(Initial(naturalQuery, dbUrl, maxDebugAttempts), env).trace == [GetSchema, GenerateSQL, ExecuteSQL]
    ensures TextToSql(naturalQuery, dbUrl, maxDebugAttempts, includeSchema, env)
      == Success(QueryOutcome(true, Some(rows), None, Some(Strip(reply)), 0, SchemaReport(includeSchema, schemaText)))
  {
  }

  /** With a maximum of 1 or less, a failing statement is reported at once: no repair, one
      attempt, the error text as the error. */
  lemma NoRepairBelowTwo(naturalQuery: string, dbUrl: string, maxDebugAttempts: int, includeSchema: bool, env: Env,
                         adapter: Adapter, schemaText: string, reply: string, failure: Exc)
    requires maxDebugAttempts <= 1
    requires GetAdapterFor(env.registry, NormalizeToUrl(dbUrl), env.urlparse) == Success(adapter)
    requires env.fetchSchema(adapter, NormalizeToUrl(dbUrl)) == Success(schemaText)
    requires env.llm(GenerationPrompt(schemaText, naturalQuery)) == Success(reply)
    requires env.execute(adapter, NormalizeToUrl(dbUrl), Strip(reply)) == Failure(failure) && !failure.NotImplemented?
    ensures Pipeline(Initial(naturalQuery, dbUrl, maxDebugAttempts), env).trace == [GetSchema, GenerateSQL, ExecuteSQL]
    ensures TextToSql(naturalQuery, dbUrl, maxDebugAttempts, includeSchema, env)
      == Success(QueryOutcome(false, None, Some(failure.Text()), Some(Strip(reply)), 1,
                              SchemaReport(includeSchema, schemaText)))
  {
  }

  /** With a maximum of 2 or more, a failing statement is repaired once; when the repaired
      statement runs, its rows are reported with the repaired statement and one attempt. */
  lemma RepairThenSuccess(naturalQuery: string, dbUrl: string, maxDebugAttempts: int, includeSchema: bool, env: Env,
                          adapter: Adapter, schemaText: string, reply: string, failure: Exc,
                          fixedReply: string, rows: Rows)
    requires maxDebugAttempts >= 2
    requires GetAdapterFor(env.registry, NormalizeToUrl(dbUrl), env.urlparse) == Success(adapter)
    requires env.fetchSchema(adapter, NormalizeToUrl(dbUrl)) == Success(schemaText)
    requires env.llm(GenerationPrompt(schemaText, naturalQuery)) == Success(reply)
    requires env.execute(adapter, NormalizeToUrl(dbUrl), Strip(reply)) == Failure(failure) && !failure.NotImplemented?
    requires env.llm(RepairPrompt(naturalQuery, schemaText, Strip(reply), failure.Text())) == Success(fixedReply)
    requires env.execute(adapter, NormalizeToUrl(dbUrl), Strip(fixedReply)) == Success(rows)
    ensures Pipeline(Initial(naturalQuery, dbUrl, maxDebugAttempts), env).trace
      == [GetSchema, GenerateSQL, ExecuteSQL, DebugSQL, ExecuteSQL]
    ensures TextToSql(naturalQuery, dbUrl, maxDebugAttempts, includeSchema, env)
      == Success(QueryOutcome(true, Some(rows), None, Some(Strip(fixedReply)), 1,
                              SchemaReport(includeSchema, schemaText)))
  {
    var s2 := EntrySteps(naturalQuery, dbUrl, maxDebugAttempts, env, adapter, schemaText, reply);
    RepairedOnce(s2, env, adapter, failure, fixedReply, rows);
    ThenThen(GetSchema, GenerateSQL, RepairLoop(s2, env));
  }

  /** The schema and generation steps of a scenario: the loop is entered with the fetched schema
      and the stripped reply. */
  lemma EntrySteps(naturalQuery: string, dbUrl: string, maxDebugAttempts: int, env: Env,
                   adapter: Adapter, schemaText: string, reply: string) returns (entry: Shared)
    requires GetAdapterFor(env.registry, NormalizeToUrl(dbUrl), env.urlparse) == Success(adapter)
    requires env.fetchSchema(adapter, NormalizeToUrl(dbUrl)) == Success(schemaText)
    requires env.llm(GenerationPrompt(schemaText, naturalQuery)) == Success(reply)
    ensures entry == Initial(naturalQuery, dbUrl, maxDebugAttempts).(schema := Some(schemaText),
                                                                     generatedSql := Some(Strip(reply)))
    ensures Pipeline(Initial(naturalQuery, dbUrl, maxDebugAttempts), env)
      == Then(GetSchema, Then(GenerateSQL, RepairLoop(entry, env)))
  {
    var s0 := Initial(naturalQuery, dbUrl, maxDebugAttempts);
    var s1 := s0.(schema := Some(schemaText));
    entry := s1.(generatedSql := Some(Strip(reply)));
    assert Step(GetSchema, s0, env) == Success(Transition(s1, None));
    assert Step(GenerateSQL, s1, env) == Success(Transition(entry, None));
  }

  /** The loop part of `RepairThenSuccess`: a failing execution, one repair, a working one. */
  lemma RepairedOnce(s: Shared, env: Env, adapter: Adapter, failure: Exc, fixedReply: string, rows: Rows)
    requires Ready(s) && Unsettled(s) && s.debugAttempts.None?
    requires s.maxDebugAttempts.Some? && s.maxDebugAttempts.value >= 2
    requires GetAdapterFor(env.registry, NormalizeToUrl(s.dbUrl.value), env.urlparse) == Success(adapter)
    requires env.execute(adapter, NormalizeToUrl(s.dbUrl.value), s.generatedSql.value) == Failure(failure)
    requires !failure.NotImplemented?
    requires env.llm(RepairPrompt(s.naturalQuery.value, s.schema.value, s.generatedSql.value, failure.Text()))
             == Success(fixedReply)
    requires env.execute(adapter, NormalizeToUrl(s.dbUrl.value), Strip(fixedReply)) == Success(rows)
    ensures RepairLoop(s, env) == Run(Finished(s.(generatedSql := Some(Strip(fixedReply)), err := None,
                                                  debugAttempts := Some(1), finalResult := Some(rows))),
                                      [ExecuteSQL, DebugSQL, ExecuteSQL])
  {
    var s3 := s.(err := Some(failure.Text()), debugAttempts := Some(1));
    var s4 := s3.(generatedSql := Some(Strip(fixedReply)), err := None);
    var s5 := s4.(finalResult := Some(rows));
    assert Step(ExecuteSQL, s, env) == Success(Transition(s3, Some(ErrorRetry)));
    assert Step(DebugSQL, s3, env) == Success(Transition(s4, None));
    assert Step(ExecuteSQL, s4, env) == Success(Transition(s5, None));
    assert RepairLoop(s4, env) == Run(Finished(s5), [ExecuteSQL]);
    ThenThen(ExecuteSQL, DebugSQL, RepairLoop(s4, env));
  }

  /** An unconfigured model raises NotImplementedError at generation, and the whole call raises it. */
  lemma ModelUnavailable(naturalQuery: string, dbUrl: string, maxDebugAttempts: int, includeSchema: bool, env: Env,
                         adapter: Adapter, schemaText: string, message: string)
    requires GetAdapterFor(env.registry, NormalizeToUrl(dbUrl), env.urlparse) == Success(adapter)
    requires env.fetchSchema(adapter, NormalizeToUrl(dbUrl)) == Success(schemaText)
    requires env.llm(GenerationPrompt(schemaText, naturalQuery)) == Failure(NotImplemented(message))
    ensures TextToSql(naturalQuery, dbUrl, maxDebugAttempts, includeSchema, env) == Failure(NotImplemented(message))
  {
  }

  /** A locator the lookup rejects (malformed, without a scheme, or with a scheme no adapter is
      registered for) makes the schema step, and the whole call, raise the lookup's ValueError. */
  lemma SchemaLookupFails(naturalQuery: string, dbUrl: string, maxDebugAttempts: int, includeSchema: bool, env: Env)
    requires GetAdapterFor(env.registry, NormalizeToUrl(dbUrl), env.urlparse).Failure?
    ensures TextToSql(naturalQuery, dbUrl, maxDebugAttempts, includeSchema, env)
      == Failure(ValueError(GetAdapterFor(env.registry, NormalizeToUrl(dbUrl), env.urlparse).error.Message()))
  {
  }
}
