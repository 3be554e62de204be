/** The four steps of the text-to-SQL flow and the shared dictionary they read and update
    (backend/flow_nodes.py). Each step is its `prep`, `exec` and `post` as functions over the
    value of the shared dictionary; `Context` is that dictionary as the object the posts update
    in place. */
module FlowNodes {
  import opened Wrappers
  import opened PyStr
  import opened DbAdapters

  /** The exceptions that can leave a step. */
  datatype Exc =
    | NotImplemented(message: string)  // NotImplementedError, e.g. from the unconfigured call_llm
    | KeyError(key: string)            // a `shared[key]` on a missing key
    | ValueError(message: string)      // get_adapter_for's lookup errors
    | OtherError(message: string)      // anything else a collaborator raises
  {
    /** `str(e)`. */
    function Text(): string {
      match this
      case NotImplemented(m) => m
      case KeyError(k) => "'" + k + "'"
      case ValueError(m) => m
      case OtherError(m) => m
    }
  }

  /** What a call returned, or what it raised. */
  type Reply<T> = Result<T, Exc>

  /** The collaborators the steps call: the language model, URL parsing, the adapter registry
      as it stands, and the adapters' database operations. */
  datatype Env = Env(
    llm: string -> Reply<string>,
    urlparse: UrlParser,
    registry: map<string, Adapter>,
    fetchSchema: (Adapter, string) -> Reply<string>,
    execute: (Adapter, string, string) -> Reply<Rows>)

  /** The shared dictionary: one optional entry per key the flow uses. */
  datatype Shared = Shared(
    dbUrl: Option<string>,            // "db_url"
    naturalQuery: Option<string>,     // "natural_query"
    maxDebugAttempts: Option<int>,    // "max_debug_attempts"
    schema: Option<string>,           // "schema"
    generatedSql: Option<string>,     // "generated_sql"
    err: Option<string>,              // "err"
    debugAttempts: Option<int>,       // "debug_attempts"
    finalResult: Option<Rows>,        // "final_result"
    finalError: Option<string>)       // "final_error"

  /** The dictionary `run_text_to_sql` starts from. */
  function Initial(naturalQuery: string, dbUrl: string, maxDebugAttempts: int): Shared {
    Shared(Some(dbUrl), Some(naturalQuery), Some(maxDebugAttempts), None, None, None, None, None, None)
  }

  /** `shared.get("debug_attempts", 0)`. */
  function Attempts(s: Shared): int {
    s.debugAttempts.GetOr(0)
  }

  /** `shared.get("max_debug_attempts", 3)`. */
  function MaxAttempts(s: Shared): int {
    s.maxDebugAttempts.GetOr(3)
  }

  /** `shared[key]`, raising KeyError when the entry is absent. */
  function Get<T>(entry: Option<T>, key: string): (r: Reply<T>)
    ensures r.Success? <==> entry.Some?
    ensures r.Success? ==> r.value == entry.value
    ensures r.Failure? ==> r.error == KeyError(key)
  {
    match entry
    case Some(v) => Success(v)
    case None => Failure(KeyError(key))
  }

  datatype StepKind = GetSchema | GenerateSQL | ExecuteSQL | DebugSQL

  /** The tag ExecuteSQL's post returns to ask for a repair. */
  const ErrorRetry := "error_retry"

  /** What a post leaves behind: the new dictionary and the route it returned. */
  datatype Transition = Transition(shared: Shared, route: Option<string>)

  // ---------------- GetSchema ----------------

  function PrepGetSchema(s: Shared): Reply<string> {
    Get(s.dbUrl, "db_url")
  }

  /** Normalise the locator, look up its adapter (lookup errors propagate) and fetch the schema. */
  function ExecGetSchema(dbUrlOrPath: string, env: Env): Reply<string> {
    var url := NormalizeToUrl(dbUrlOrPath);
    match GetAdapterFor(env.registry, url, env.urlparse)
    case Failure(e) => Failure(ValueError(e.Message()))
    case Success(adapter) => env.fetchSchema(adapter, url)
  }

  function PostGetSchema(s: Shared, schema: string): Transition {
    Transition(s.(schema := Some(schema)), None)
  }

  /** GetSchema's exec catches nothing: it raises exactly when the adapter lookup fails (as a
      ValueError carrying the lookup's message) or the adapter's schema fetch raises (with that
      exception); otherwise it returns the fetched text for the normalised URL. */
  lemma GetSchemaErrors(dbUrlOrPath: string, env: Env)
    ensures var url := NormalizeToUrl(dbUrlOrPath);
      var lookup := GetAdapterFor(env.registry, url, env.urlparse);
      var r := ExecGetSchema(dbUrlOrPath, env);
      && (r.Failure? <==> lookup.Failure? || env.fetchSchema(lookup.value, url).Failure?)
      && (lookup.Failure? ==> r == Failure(ValueError(lookup.error.Message())))
      && (lookup.Success? ==> r == env.fetchSchema(lookup.value, url))
  {
  }

  // ---------------- GenerateSQL ----------------

  function PrepGenerate(s: Shared): Reply<(string, string)> {
    var question :- Get(s.naturalQuery, "natural_query");
    var schema :- Get(s.schema, "schema");
    Success((question, schema))
  }

  /** The generation prompt, as the f-string at backend/flow_nodes.py:76 builds it. */
  function GenerationPrompt(schema: string, question: string): string {
    "Given schema:\n" + schema + "\n\nGenerate SQLite query for: " + question + "\nSQL:"
  }

  /** Ask the model and strip its answer; whatever the model raises propagates. */
  function ExecGenerate(question: string, schema: string, env: Env): Reply<string> {
    var reply :- env.llm(GenerationPrompt(schema, question));
    Success(Strip(reply))
  }

  /** The model's exceptions, NotImplementedError included, leave generation unchanged; a
      reply becomes exactly the reply stripped, a statement that no further stripping changes
      and that is no longer than the reply. */
  lemma GenerateStrips(question: string, schema: string, env: Env)
    ensures var reply := env.llm(GenerationPrompt(schema, question));
      var r := ExecGenerate(question, schema, env);
      && (r.Failure? <==> reply.Failure?)
      && (r.Failure? ==> r.error == reply.error)
      && (r.Success? ==> r.value == Strip(reply.value))
      && (r.Success? ==> Strip(r.value) == r.value && |r.value| <= |reply.value|)
  {
    var reply := env.llm(GenerationPrompt(schema, question));
    if reply.Success? {
      StripIdempotent(reply.value);
    }
  }

  function PostGenerate(s: Shared, sql: string): Transition {
    Transition(s.(generatedSql := Some(sql)), None)
  }

  // ---------------- ExecuteSQL ----------------

  function PrepExecute(s: Shared): Reply<(string, string)> {
    var dbUrl :- Get(s.dbUrl, "db_url");
    var sql :- Get(s.generatedSql, "generated_sql");
    Success((dbUrl, sql))
  }

  /** The dictionary `ExecuteSQL.exec` returns: `{"ok": True, "data": ...}` or `{"ok": False, "err": ...}`. */
  datatype ExecResult = ExecOk(data: Rows) | ExecFailed(err: string)

  /** Run the statement. NotImplementedError propagates; every other exception, the adapter
      lookup errors included, becomes a failed result carrying `str(e)`. */
  function ExecExecute(dbUrlOrPath: string, sql: string, env: Env): (r: Reply<ExecResult>)
    ensures r.Failure? ==> r.error.NotImplemented?
  {
    var url := NormalizeToUrl(dbUrlOrPath);
    match GetAdapterFor(env.registry, url, env.urlparse)
    case Failure(e) => Success(ExecFailed(e.Message()))
    case Success(adapter) =>
      match env.execute(adapter, url, sql)
      case Success(rows) => Success(ExecOk(rows))
      case Failure(NotImplemented(m)) => Failure(NotImplemented(m))
      case Failure(e) => Success(ExecFailed(e.Text()))
  }

  /** How ExecuteSQL's exec routes errors: NotImplementedError from the adapter propagates and
      is the only way it raises; rows become an ok result; a lookup failure or any other
      exception becomes a failed result carrying its text. */
  lemma ExecuteErrorRouting(dbUrlOrPath: string, sql: string, env: Env)
    ensures var url := NormalizeToUrl(dbUrlOrPath);
      var lookup := GetAdapterFor(env.registry, url, env.urlparse);
      var r := ExecExecute(dbUrlOrPath, sql, env);
      && (r.Failure? <==> lookup.Success? && env.execute(lookup.value, url, sql).Failure?
                          && env.execute(lookup.value, url, sql).error.NotImplemented?)
      && (r.Failure? ==> r.error == env.execute(lookup.value, url, sql).error)
      && (lookup.Failure? ==> r == Success(ExecFailed(lookup.error.Message())))
      && (lookup.Success? && env.execute(lookup.value, url, sql).Success? ==>
            r == Success(ExecOk(env.execute(lookup.value, url, sql).value)))
      && (lookup.Success? && env.execute(lookup.value, url, sql).Failure?
          && !env.execute(lookup.value, url, sql).error.NotImplemented? ==>
            r == Success(ExecFailed(env.execute(lookup.value, url, sql).error.Text())))
  {
  }

  /** The retry controller. */
  function PostExecute(s: Shared, res: ExecResult): Transition {
    match res
    case ExecOk(rows) => Transition(s.(finalResult := Some(rows)), None)
    case ExecFailed(msg) =>
      var attempts := Attempts(s) + 1;
      var s' := s.(err := Some(msg), debugAttempts := Some(attempts));
      if attempts >= MaxAttempts(s') then Transition(s'.(finalError := Some(msg)), None)
      else Transition(s', Some(ErrorRetry))
  }

  /** A failed execution records its error and raises the attempt count by exactly one from its
      previous value (0 when absent); it asks for a repair exactly when the new count is below the
      maximum (3 when absent) and otherwise records the error as final. A success records the rows,
      leaves the count and returns no route. */
  lemma PostExecuteCounts(s: Shared, res: ExecResult)
    ensures var t := PostExecute(s, res);
      && MaxAttempts(t.shared) == MaxAttempts(s)
      && (res.ExecFailed? ==>
            && t.shared.err == Some(res.err)
            && Attempts(t.shared) == Attempts(s) + 1
            && (t.route == Some(ErrorRetry) <==> Attempts(s) + 1 < MaxAttempts(s))
            && (t.route.None? ==> t.shared.finalError == Some(res.err))
            && (t.route.None? || t.shared.finalError == s.finalError)
            && (Attempts(s) + 1 >= MaxAttempts(s) ==> t.route.None? && t.shared.finalError == Some(res.err))
            && t.shared.finalResult == s.finalResult
            && t.shared == s.(err := Some(res.err), debugAttempts := Some(Attempts(s) + 1),
                              finalError := t.shared.finalError))
      && (res.ExecOk? ==>
            && t.shared == s.(finalResult := Some(res.data))
            && t.route.None?)
  {
  }

  /** With a maximum of 0, the first failure is final and leaves one attempt on record. */
  lemma ZeroMaximumFailsAtOnce(s: Shared, msg: string)
    requires s.maxDebugAttempts == Some(0) && s.debugAttempts.None?
    ensures PostExecute(s, ExecFailed(msg)).route.None?
    ensures PostExecute(s, ExecFailed(msg)).shared.finalError == Some(msg)
    ensures Attempts(PostExecute(s, ExecFailed(msg)).shared) == 1
  {
  }

  // ---------------- DebugSQL ----------------

  function PrepDebug(s: Shared): Reply<(string, string, string, string)> {
    var question :- Get(s.naturalQuery, "natural_query");
    var schema :- Get(s.schema, "schema");
    var badSql :- Get(s.generatedSql, "generated_sql");
    var err :- Get(s.err, "err");
    Success((question, schema, badSql, err))
  }

  /** Every prep reads its keys in order with `shared[key]`: it raises exactly when one is
      missing, with a KeyError naming the first missing one, and otherwise returns their values. */
  lemma PrepKeyErrors(s: Shared)
    ensures PrepGetSchema(s).Failure? <==> s.dbUrl.None?
    ensures PrepGetSchema(s).Failure? ==> PrepGetSchema(s).error == KeyError("db_url")
    ensures PrepGetSchema(s).Success? ==> PrepGetSchema(s).value == s.dbUrl.value
    ensures PrepGenerate(s).Failure? <==> s.naturalQuery.None? || s.schema.None?
    ensures PrepGenerate(s).Failure? ==>
      PrepGenerate(s).error == KeyError(if s.naturalQuery.None? then "natural_query" else "schema")
    ensures PrepGenerate(s).Success? ==> PrepGenerate(s).value == (s.naturalQuery.value, s.schema.value)
    ensures PrepExecute(s).Failure? <==> s.dbUrl.None? || s.generatedSql.None?
    ensures PrepExecute(s).Failure? ==>
      PrepExecute(s).error == KeyError(if s.dbUrl.None? then "db_url" else "generated_sql")
    ensures PrepExecute(s).Success? ==> PrepExecute(s).value == (s.dbUrl.value, s.generatedSql.value)
    ensures PrepDebug(s).Failure? <==>
      s.naturalQuery.None? || s.schema.None? || s.generatedSql.None? || s.err.None?
    ensures PrepDebug(s).Failure? ==>
      PrepDebug(s).error == KeyError(
        if s.naturalQuery.None? then "natural_query"
        else if s.schema.None? then "schema"
        else if s.generatedSql.None? then "generated_sql"
        else "err")
    ensures PrepDebug(s).Success? ==>
      PrepDebug(s).value == (s.naturalQuery.value, s.schema.value, s.generatedSql.value, s.err.value)
  {
  }

  /** A retry leaves everything the repair reads in place: its prep finds the question, the
      schema, the statement that just failed and the error it caused. */
  lemma RetryFindsError(s: Shared, res: ExecResult)
    requires s.naturalQuery.Some? && s.schema.Some? && s.generatedSql.Some?
    requires PostExecute(s, res).route == Some(ErrorRetry)
    ensures res.ExecFailed?
    ensures PrepDebug(PostExecute(s, res).shared)
      == Success((s.naturalQuery.value, s.schema.value, s.generatedSql.value, res.err))
  {
  }

  /** The repair prompt, as the f-string at backend/flow_nodes.py:130-141 builds it. */
  function RepairPrompt(question: string, schema: string, badSql: string, err: string): string {
    "Original Question: " + question + "\nSchema:\n" + schema + "\n\nFailed SQL:\n" + badSql
    + "\n\nError: " + err + "\n\nProvide the corrected SQLite query:\nSQL:\n"
  }

  /** The repair prompt shows the model the failing statement and the error it caused. */
  lemma RepairPromptShowsFailure(question: string, schema: string, badSql: string, err: string)
    ensures Contains(RepairPrompt(question, schema, badSql, err), badSql)
    ensures Contains(RepairPrompt(question, schema, badSql, err), err)
  {
    var before := "Original Question: " + question + "\nSchema:\n" + schema + "\n\nFailed SQL:\n";
    var after := "\n\nError: " + err + "\n\nProvide the corrected SQLite query:\nSQL:\n";
    ContainsSuffix(before, badSql, after);
    assert before + badSql + after == RepairPrompt(question, schema, badSql, err);
    var before' := before + badSql + "\n\nError: ";
    var after' := "\n\nProvide the corrected SQLite query:\nSQL:\n";
    ContainsSuffix(before', err, after');
    assert before' + err + after' == RepairPrompt(question, schema, badSql, err);
  }

  function ExecDebug(question: string, schema: string, badSql: string, err: string, env: Env): Reply<string> {
    var reply :- env.llm(RepairPrompt(question, schema, badSql, err));
    Success(Strip(reply))
  }

  /** Repair treats the model as generation does: its exceptions propagate unchanged and a
      reply becomes exactly the reply stripped, which no further stripping changes. */
  lemma RepairStrips(question: string, schema: string, badSql: string, err: string, env: Env)
    ensures var reply := env.llm(RepairPrompt(question, schema, badSql, err));
      var r := ExecDebug(question, schema, badSql, err, env);
      && (r.Failure? <==> reply.Failure?)
      && (r.Failure? ==> r.error == reply.error)
      && (r.Success? ==> r.value == Strip(reply.value))
      && (r.Success? ==> Strip(r.value) == r.value && |r.value| <= |reply.value|)
  {
    var reply := env.llm(RepairPrompt(question, schema, badSql, err));
    if reply.Success? {
      StripIdempotent(reply.value);
    }
  }

  function PostDebug(s: Shared, fixedSql: string): Transition {
    Transition(s.(generatedSql := Some(fixedSql), err := None), None)
  }

  // ---------------- one step ----------------

  /** Each node's run: prep, exec, post; an exception in prep or exec leaves the dictionary
      as it was. */
  function RunGetSchema(s: Shared, env: Env): Reply<Transition> {
    var dbUrl :- PrepGetSchema(s);
    var schema :- ExecGetSchema(dbUrl, env);
    Success(PostGetSchema(s, schema))
  }

  function RunGenerate(s: Shared, env: Env): Reply<Transition> {
    var inputs :- PrepGenerate(s);
    var sql :- ExecGenerate(inputs.0, inputs.1, env);
    Success(PostGenerate(s, sql))
  }

  function RunExecute(s: Shared, env: Env): Reply<Transition> {
    var inputs :- PrepExecute(s);
    var res :- ExecExecute(inputs.0, inputs.1, env);
    Success(PostExecute(s, res))
  }

  function RunDebug(s: Shared, env: Env): Reply<Transition> {
    var inputs :- PrepDebug(s);
    var fixedSql :- ExecDebug(inputs.0, inputs.1, inputs.2, inputs.3, env);
    Success(PostDebug(s, fixedSql))
  }

  /** One step of the runner on a node of the given kind. */
  function Step(kind: StepKind, s: Shared, env: Env): Reply<Transition> {
    match kind
    case GetSchema => RunGetSchema(s, env)
    case GenerateSQL => RunGenerate(s, env)
    case ExecuteSQL => RunExecute(s, env)
    case DebugSQL => RunDebug(s, env)
  }

  /** No step lowers the attempt count or touches the maximum; only ExecuteSQL changes the
      count, and then by exactly one, on a failure it records in `err`. */
  lemma StepKeepsCounter(kind: StepKind, s: Shared, env: Env)
    requires Step(kind, s, env).Success?
    ensures var s' := Step(kind, s, env).value.shared;
      && s'.maxDebugAttempts == s.maxDebugAttempts
      && (kind != ExecuteSQL ==> s'.debugAttempts == s.debugAttempts)
      && (kind == ExecuteSQL ==>
            (s'.debugAttempts == s.debugAttempts && s'.finalResult.Some?)
            || (Attempts(s') == Attempts(s) + 1 && s'.err.Some?))
      && Attempts(s') >= Attempts(s)
  {
    if kind == ExecuteSQL {
      var inputs := PrepExecute(s).value;
      PostExecuteCounts(s, ExecExecute(inputs.0, inputs.1, env).value);
    }
  }

  /** The shared dictionary as the object the posts update in place. */
  class Context {
    var dbUrl: Option<string>
    var naturalQuery: Option<string>
    var maxDebugAttempts: Option<int>
    var schema: Option<string>
    var generatedSql: Option<string>
    var err: Option<string>
    var debugAttempts: Option<int>
    var finalResult: Option<Rows>
    var finalError: Option<string>

    /** The dictionary literal of `run_text_to_sql`. */
    constructor (dbUrl: string, naturalQuery: string, maxDebugAttempts: int)
      ensures State() == Initial(naturalQuery, dbUrl, maxDebugAttempts)
    {
      this.dbUrl := Some(dbUrl);
      this.naturalQuery := Some(naturalQuery);
      this.maxDebugAttempts := Some(maxDebugAttempts);
      schema, generatedSql, err, debugAttempts := None, None, None, None;
      finalResult, finalError := None, None;
    }

    function State(): Shared
      reads this
    {
      Shared(dbUrl, naturalQuery, maxDebugAttempts, schema, generatedSql, err, debugAttempts,
             finalResult, finalError)
    }

    /** `GetSchema.post`. */
    method RecordSchema(text: string)
      modifies this
      ensures State() == PostGetSchema(old(State()), text).shared
    {
      schema := Some(text);
    }

    /** `GenerateSQL.post`. */
    method RecordSql(sql: string)
      modifies this
      ensures State() == PostGenerate(old(State()), sql).shared
    {
      generatedSql := Some(sql);
    }

    /** `ExecuteSQL.post`: the retry controller. */
    method RecordExecution(res: ExecResult) returns (route: Option<string>)
      modifies this
      ensures Transition(State(), route) == PostExecute(old(State()), res)
    {
      if res.ExecOk? {
        finalResult := Some(res.data);
        route := None;
      } else {
        err := Some(res.err);
        debugAttempts := Some(debugAttempts.GetOr(0) + 1);
        if debugAttempts.value >= maxDebugAttempts.GetOr(3) {
          finalError := Some(res.err);
          route := None;
        } else {
          route := Some(ErrorRetry);
        }
      }
    }

    /** `DebugSQL.post`: the repaired statement replaces the failing one and `err` is popped. */
    method RecordRepair(fixedSql: string)
      modifies this
      ensures State() == PostDebug(old(State()), fixedSql).shared
    {
      generatedSql := Some(fixedSql);
      err := None;
    }
  }
}
