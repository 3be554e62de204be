# Text-to-SQL repair loop, modelled in Dafny

This project models the core of a small text-to-SQL service. A natural-language question is
turned into SQL by a language model, run against a SQLite database, and, when it fails, handed
back to the model together with the error for a repaired statement, up to a configurable number
of attempts. The core is two Python files:

- `backend/flow_nodes.py`: a minimal graph runner (`Node`, `link`, `branch`, `Flow.run`), the
  four steps `GetSchema`, `GenerateSQL`, `ExecuteSQL` and `DebugSQL` with their
  `prep`/`exec`/`post` over one shared dictionary, the retry controller in `ExecuteSQL.post`,
  the wiring in `build_text_to_sql_flow`, and the report built by `run_text_to_sql`;
- `backend/db_adapters.py`: locator normalisation (`normalize_to_url`), the scheme-to-adapter
  registry (`register`, `get_adapter_for`), the file-name computation of
  `SQLiteAdapter._connect` and the schema text of `get_schema`.

Modules, one file each:

- `Wrappers` (`wrappers.dfy`): `Option`, `Result` (usable with `:-`) and `Outcome`.
- `PyStr` (`py_str.dfy`): the Python string built-ins the core relies on: `isspace`, `strip()`,
  `in`, `startswith` and `join`.
- `DbAdapters` (`db_adapters.dfy`): the registry as a class whose `Register` method updates its
  map in place, `GetAdapterFor` with its two distinct `ValueError`s, `NormalizeToUrl`,
  `ConnectPath` and `SchemaText`.
- `FlowNodes` (`flow_nodes.dfy`): the shared dictionary as the value `Shared` (one `Option`
  per key, so that "key present" and `pop` keep their meaning) and as the class `Context`,
  whose methods are the `post`s updating it in place. Also each step's `prep`, `exec` and `post`
  as functions, and `Step`, one pass of a node.
- `FlowGraph` (`flow_graph.dfy`): node objects with a default successor and labelled branches,
  `Link` and `Branch`, the run as a function `RunFrom` over the graph the nodes form, and
  `Flow.Run`, the `while` loop of `Flow.run`, proved to compute it.
- `TextToSql` (`text_to_sql.dfy`): the wiring, a direct definition of the run it produces
  (`Pipeline`: schema, generation, then `RepairLoop`), the proof that the wired graph runs
  exactly that, the attempt accounting of the loop, `run_text_to_sql` as a method proved equal
  to the function `TextToSql`, and end-to-end scenarios.

The language model, the database operations, the registry contents as the steps see them, and
`urllib.parse.urlparse` are fields of an `Env` value passed to every step. They are
deterministic functions: the same prompt gets the same reply. An exception is a value of
`Exc`. A call that may raise returns `Reply<T> = Result<T, Exc>`.

Consequences of the code that a reader might not expect:

- The retry check in `ExecuteSQL.post` (backend/flow_nodes.py:111-112) compares the attempt
  count with the maximum after incrementing it. With a maximum of `n`, a run therefore executes
  the statement at most `max(n, 1)` times and repairs it at most `max(n, 1) - 1` times
  (`TextToSql.PipelineShape`). For `n >= 0` this is within `n + 1` executions and `n` repairs.
- A maximum of 0 or 1 allows no repair at all (`TextToSql.NoRepairBelowTwo`). A repair needs a
  maximum of 2 or more (`TextToSql.RepairThenSuccess`).
- `normalize_to_url` gives a relative path `a.db` and the absolute path `/a.db` the same URL
  (`DbAdapters.RelativeAndAbsoluteCollide`). `_connect` keeps the leading slash of
  `sqlite:///a.db` unless the path is a slash, any one character and a ':'
  (`DbAdapters.ConnectKeepsPlainPath`). Given that `urlparse("sqlite:///a.db")` has the path
  `/a.db`, which this model takes from `urlparse` and does not derive, a relative legacy path is
  therefore opened from the filesystem root, although the comment at backend/db_adapters.py:65 describes it as relative to the
  working directory.

## Model

| member | source | states |
|---|---|---|
| PyStr.Strip | backend/flow_nodes.py:78 | `s.strip()` is the slice of the input that starts right after its leading whitespace. It is empty, or it starts and ends with a non-whitespace character. |
| PyStr.StripRemovesOnlySpace | backend/flow_nodes.py:78 | Everything `strip()` removes, before and after the kept slice, is whitespace. |
| PyStr.IsSpace | backend/flow_nodes.py:78 | The characters `str.isspace` accepts, as `strip()` removes them: the ASCII whitespace, the separators \x1c-\x1f, and the Unicode space characters. |
| PyStr.Contains | backend/db_adapters.py:35 | `needle in s` holds exactly when some suffix of `s` starts with `needle`. |
| PyStr.StartsWith | backend/db_adapters.py:41 | `s.startswith(prefix)`: the prefix is an initial segment of `s`. `NormalizeToUrl` branches on it. |
| PyStr.Join | backend/db_adapters.py:83 | `sep.join(parts)` of a single part is that part. Its emptiness and its behaviour on concatenated lists are proved in `JoinEmpty` and `JoinAppend`. |
| PyStr.StripIdempotent | backend/flow_nodes.py:143 | Stripping a stripped statement changes nothing. |
| PyStr.JoinEmpty | backend/db_adapters.py:83 | Joining non-empty pieces gives the empty string exactly when there are no pieces. |
| PyStr.JoinAppend | backend/db_adapters.py:83 | Joining two non-empty lists is joining each one and gluing the results with a single separator. |
| DbAdapters.Registry.constructor | backend/db_adapters.py:16 | The registry starts empty. |
| DbAdapters.Registry.Register | backend/db_adapters.py:19-21 | Each scheme of the adapter now maps to it, overwriting any earlier entry. Every other scheme keeps its entry or its absence. The loop proves this scheme by scheme. |
| DbAdapters.LoadModule | backend/db_adapters.py:99-100 | After module load, the registry maps exactly "sqlite" and "file" to the SQLite adapter. |
| DbAdapters.ParseScheme | backend/db_adapters.py:24-26 | The result is the scheme urlparse finds, or None when it is empty. A ValueError from urlparse propagates with its message. |
| DbAdapters.GetAdapterFor | backend/db_adapters.py:47-54 | It fails with urlparse's own ValueError exactly when urlparse raises. It fails with "missing scheme" exactly when the scheme is empty. It fails with "no adapter", naming the scheme, exactly when the scheme is non-empty and unregistered. Otherwise it returns exactly the registry entry. |
| DbAdapters.LookupError.Message | backend/db_adapters.py:50-53 | The text of each lookup ValueError: "Database URL missing scheme: " and the URL, "No adapter registered for scheme '" with the scheme and a closing quote, or urlparse's own message. |
| DbAdapters.DefaultSchemesResolveToSQLite | backend/db_adapters.py:58-60 | Under the default registry, a URL resolves exactly when urlparse accepts it and its scheme is "sqlite" or "file". It then resolves to the SQLite adapter. |
| DbAdapters.NormalizeToUrl | backend/db_adapters.py:29-44 | The result always contains "://". A locator that already contains it is returned unchanged. A path becomes "sqlite:///" followed by the path minus a leading slash, or "sqlite://" + path when the path starts with "/". |
| DbAdapters.NormalizeIdempotent | backend/db_adapters.py:35-44 | Normalising twice is normalising once. |
| DbAdapters.RelativeAndAbsoluteCollide | backend/db_adapters.py:41-44 | A relative path and the same path with a leading slash normalise to the same URL. |
| DbAdapters.ConnectPath | backend/db_adapters.py:68-74 | The file name is the netloc-rooted path (`//netloc` + path when a netloc is present) with at most one leading slash dropped. It is dropped exactly when the name has the shape `/X:...`. |
| DbAdapters.ConnectKeepsPlainPath | backend/db_adapters.py:68-74 | Without a netloc, a path that is not a drive path is opened unchanged, leading slash included. |
| DbAdapters.ConnectDriveAndNetloc | backend/db_adapters.py:69-74 | A drive path loses exactly its leading slash. A netloc not starting with ':' gives `//netloc` + path. |
| DbAdapters.IsDrivePath | backend/db_adapters.py:73 | A name of at least three characters with '/' first and ':' third. Any character may stand between them. |
| DbAdapters.ConnectBase | backend/db_adapters.py:68-71 | The file name before the drive fix: `//` + netloc + path when a netloc is present, the path otherwise. `ConnectPath` and `ConnectDriveAndNetloc` state its consequences. |
| DbAdapters.SchemaEntries | backend/db_adapters.py:83 | The kept first columns are non-empty, and there are no more of them than rows. There are none exactly when no row has a non-empty first column. |
| DbAdapters.SchemaEntriesAppend | backend/db_adapters.py:83 | The entries of a concatenation of rows are the entries of each part, in order. |
| DbAdapters.SchemaEntriesOne | backend/db_adapters.py:83 | A single row contributes exactly its first column when `row and row[0]` holds, and nothing otherwise. With `SchemaEntriesAppend`, this fixes the entries of every list of rows. |
| DbAdapters.Defines | backend/db_adapters.py:83 | `row and row[0]`: the row is non-empty and its first column is a non-empty string. |
| DbAdapters.SchemaText | backend/db_adapters.py:83 | The schema text is empty exactly when no row has a non-empty first column. |
| DbAdapters.SchemaTextAppend | backend/db_adapters.py:83 | The text of more rows is the text of fewer rows plus one newline and the new entries. |
| FlowNodes.GetSchemaErrors | backend/flow_nodes.py:60-63 | GetSchema's exec raises exactly when the lookup fails (a ValueError with the lookup's message) or the schema fetch raises. Otherwise it returns the fetched text. |
| FlowNodes.GenerateStrips | backend/flow_nodes.py:74-81 | Exceptions from the model, NotImplementedError included, propagate unchanged. A reply becomes exactly the reply stripped, which further stripping leaves unchanged. |
| FlowNodes.ExecExecute | backend/flow_nodes.py:92-103 | The only exception ExecuteSQL's exec raises is NotImplementedError. |
| FlowNodes.ExecuteErrorRouting | backend/flow_nodes.py:92-103 | NotImplementedError from the adapter propagates. Rows give an ok result. A lookup error or any other exception gives a failed result carrying its text. |
| FlowNodes.PostExecuteCounts | backend/flow_nodes.py:105-116 | A failure records `err` and raises the count by exactly 1 from its previous value (default 0). It routes "error_retry" exactly when the new count is below the maximum (default 3). Otherwise it returns None and records the error as final. Nothing else in the dictionary changes. A success records the rows, leaves the count and returns None. |
| FlowNodes.ZeroMaximumFailsAtOnce | backend/flow_nodes.py:110-114 | With a maximum of 0, the first failure is final and leaves 1 attempt on record. |
| FlowNodes.PrepKeyErrors | backend/flow_nodes.py:57-126 | Each prep raises KeyError exactly when one of its keys is missing, naming the first missing key in the order the prep reads them. Otherwise it returns the keys' values. |
| FlowNodes.RetryFindsError | backend/flow_nodes.py:110-126 | After a retry, DebugSQL's prep finds the question, the schema, the statement that just failed and its error. |
| FlowNodes.RepairPromptShowsFailure | backend/flow_nodes.py:130-141 | The repair prompt contains the failing statement and the error text. |
| FlowNodes.RepairStrips | backend/flow_nodes.py:128-146 | Exceptions from the model propagate unchanged from repair. A reply becomes exactly the reply stripped, which further stripping leaves unchanged. |
| FlowNodes.StepKeepsCounter | backend/flow_nodes.py:110-111 | No step lowers the attempt count or changes the maximum. Only ExecuteSQL changes the count, and then by exactly one, on a failure it records. |
| FlowNodes.Initial | backend/flow_nodes.py:177-181 | The starting dictionary holds exactly `db_url`, `natural_query` and `max_debug_attempts`. |
| FlowNodes.Attempts | backend/flow_nodes.py:111 | `shared.get("debug_attempts", 0)`. |
| FlowNodes.MaxAttempts | backend/flow_nodes.py:112 | `shared.get("max_debug_attempts", 3)`. |
| FlowNodes.Get | backend/flow_nodes.py:58 | `shared[key]` returns the entry's value when it is present, and otherwise raises KeyError naming the key. |
| FlowNodes.Exc.Text | backend/flow_nodes.py:103 | `str(e)` of each exception kind: its message, or for a KeyError the key in single quotes (see Left out). |
| FlowNodes.PrepGetSchema | backend/flow_nodes.py:57-58 | Reads `db_url`. Its KeyError and its value are given by `PrepKeyErrors`. |
| FlowNodes.ExecGetSchema | backend/flow_nodes.py:60-63 | Normalises the locator, looks up the adapter and fetches the schema. What it raises and returns is given by `GetSchemaErrors`. |
| FlowNodes.PostGetSchema | backend/flow_nodes.py:65-67 | Stores the schema and returns no route. `Context.RecordSchema` is this post done in place. |
| FlowNodes.PrepGenerate | backend/flow_nodes.py:71-72 | Reads `natural_query`, then `schema`. Its KeyError and its values are given by `PrepKeyErrors`. |
| FlowNodes.GenerationPrompt | backend/flow_nodes.py:76 | The generation prompt with the schema and the question in their places. |
| FlowNodes.ExecGenerate | backend/flow_nodes.py:74-81 | Asks the model with the generation prompt. `GenerateStrips` gives its result. |
| FlowNodes.PostGenerate | backend/flow_nodes.py:83-85 | Stores the statement and returns no route. `Context.RecordSql` is this post done in place. |
| FlowNodes.PrepExecute | backend/flow_nodes.py:89-90 | Reads `db_url`, then `generated_sql`. Its KeyError and its values are given by `PrepKeyErrors`. |
| FlowNodes.PostExecute | backend/flow_nodes.py:105-116 | The retry controller. What it records and when it routes to a repair is given by `PostExecuteCounts` and `ZeroMaximumFailsAtOnce`. `Context.RecordExecution` is this post done in place. |
| FlowNodes.PrepDebug | backend/flow_nodes.py:120-126 | Reads `natural_query`, `schema`, `generated_sql` and `err`, in that order. Its KeyError and its values are given by `PrepKeyErrors`. |
| FlowNodes.RepairPrompt | backend/flow_nodes.py:130-141 | The repair prompt with the question, the schema, the failing statement and the error in their places. `RepairPromptShowsFailure` proves that the last two appear in it. |
| FlowNodes.ExecDebug | backend/flow_nodes.py:128-146 | Asks the model with the repair prompt. `RepairStrips` gives its result. |
| FlowNodes.PostDebug | backend/flow_nodes.py:148-151 | Replaces the statement, pops `err` and returns no route. `Context.RecordRepair` is this post done in place. |
| FlowNodes.RunGetSchema | backend/flow_nodes.py:56-67 | GetSchema's prep, exec and post. An exception from prep or exec leaves the dictionary as it was. |
| FlowNodes.RunGenerate | backend/flow_nodes.py:70-85 | GenerateSQL's prep, exec and post, as above. |
| FlowNodes.RunExecute | backend/flow_nodes.py:88-116 | ExecuteSQL's prep, exec and post, as above. |
| FlowNodes.RunDebug | backend/flow_nodes.py:119-151 | DebugSQL's prep, exec and post, as above. |
| FlowNodes.Step | backend/flow_nodes.py:43-45 | One pass of a node of the given kind. `StepKeepsCounter` states what every step keeps, and `FlowGraph.RunStep` performs it in place. |
| FlowNodes.Context.constructor | backend/flow_nodes.py:177-181 | The dictionary starts with exactly the locator, the question and the maximum. |
| FlowNodes.Context.RecordSchema | backend/flow_nodes.py:65-67 | GetSchema's post stores the schema and changes nothing else. |
| FlowNodes.Context.RecordSql | backend/flow_nodes.py:83-85 | GenerateSQL's post stores the statement and changes nothing else. |
| FlowNodes.Context.RecordExecution | backend/flow_nodes.py:105-116 | The in-place post yields the dictionary and the route of the retry controller. |
| FlowNodes.Context.RecordRepair | backend/flow_nodes.py:148-151 | DebugSQL's post replaces the statement with the repaired one and removes `err`. |
| FlowGraph.Successor | backend/flow_nodes.py:47-53 | The runner follows the branch registered under the route when there is one, and otherwise the default successor. |
| FlowGraph.RunFrom | backend/flow_nodes.py:40-53 | A run of at most `fuel` steps runs out only after exactly `fuel` steps. |
| FlowGraph.Node.constructor | backend/flow_nodes.py:14-16 | A new node has no successor and no branches. |
| FlowGraph.Link | backend/flow_nodes.py:28-29 | `link(a, b)` sets a's successor and keeps its branches. |
| FlowGraph.Branch | backend/flow_nodes.py:32-33 | `branch(a, tag, b)` adds or overwrites one branch and keeps the successor. |
| FlowGraph.RunStep | backend/flow_nodes.py:43-45 | prep, exec and post on a node update the dictionary in place as `Step` says, or leave it untouched when prep or exec raises. |
| FlowGraph.Advance | backend/flow_nodes.py:42-53 | One iteration of the loop moves to the node at which the rest of the bounded run continues, or stops with the exception the run raises. |
| FlowGraph.Flow.constructor | backend/flow_nodes.py:37-38 | The flow starts at the given node. |
| FlowGraph.Flow.Run | backend/flow_nodes.py:40-53 | The loop ends as the bounded run does: with the same dictionary, passing exactly when the run finishes, and raising what the run raises. |
| TextToSql.BuildTextToSqlFlow | backend/flow_nodes.py:154-168 | There are four fresh nodes wired GetSchema → GenerateSQL → ExecuteSQL, with ExecuteSQL branching to DebugSQL on "error_retry" and DebugSQL leading back to ExecuteSQL. |
| TextToSql.RepairLoop | backend/flow_nodes.py:161-166 | The execute/repair cycle defined directly: execute, then repair and loop on "error_retry", otherwise stop. `RepairLoopShape`, `RepairLoopAccounting`, `RepairLoopKeepsKeys` and `RepairLoopReportsLastExecution` state what it does, and `WiredLoopMatches` shows the wired graph runs it. |
| TextToSql.Pipeline | backend/flow_nodes.py:154-168 | The schema step, the generation step, then the cycle, defined directly. `WiredGraphRunsPipeline` shows the wired graph runs it. |
| TextToSql.WiredGraphClosed | backend/flow_nodes.py:161-166 | Every edge of the wired graph leads to one of its four nodes. |
| TextToSql.RetryShrinksBudget | backend/flow_nodes.py:110-116 | A retry happens only while at least two executions remain. One execution plus one repair spend exactly one unit of that budget. |
| TextToSql.LoopUnfold | backend/flow_nodes.py:161-166 | One round of the cycle either stops after the execution (or after a repair that raised), or continues with a budget one unit smaller. |
| TextToSql.WiredRound | backend/flow_nodes.py:161-166 | One round of the runner from the execute node and one round of the loop either both stop with the same run, or both continue from the same repaired dictionary, with one unit of budget less and two steps spent. |
| TextToSql.WiredLoopMatches | backend/flow_nodes.py:161-166 | From the execute node, the runner performs exactly the execute/repair loop, given steps for every execution and repair. |
| TextToSql.WiredGraphRunsPipeline | backend/flow_nodes.py:154-168 | From the start node, the wired graph runs exactly the schema step, the generation step and then the loop: same end, same dictionary, same steps. |
| TextToSql.RepairLoopShape | backend/flow_nodes.py:112-116 | The loop always ends. It executes at least once and at most its budget, and repairs at most one time fewer. It alternates the two, starting with an execution, so every repair that returns is followed by an execution. A finished loop ends on an execution. |
| TextToSql.RepairLoopAccounting | backend/flow_nodes.py:105-116 | Started with no final entry, the loop never changes the maximum. The count grows by one per repair plus one for a final failure. An aborted loop leaves no final entry. A finished loop holds exactly one of the final result and the final error. The final error is the last error, with the count at the give-up count. A success comes below it. |
| TextToSql.RepairLoopKeepsKeys | backend/flow_nodes.py:119-146 | Within the loop no `shared[key]` raises. An execution can only raise NotImplementedError. A repair can only raise what the model raised on the repair prompt built from the question, the schema, the failing statement and its error. The locator, the question and the schema are untouched. |
| TextToSql.RepairLoopReportsLastExecution | backend/flow_nodes.py:97-116 | Entered with its keys and no final entry, a loop that finishes leaves a statement which, run against the locator, gives exactly the final result it holds, or fails with exactly the final error it holds. |
| TextToSql.PipelineUnfold | backend/flow_nodes.py:56-85 | Either the schema or generation step raises, or the loop starts from the initial dictionary plus a schema and a statement. |
| TextToSql.Project | backend/flow_nodes.py:186-195 | The result dictionary built from what the run left. `LoopOutcome` and `TextToSqlOutcome` state its properties. |
| TextToSql.OrElse | backend/flow_nodes.py:191 | Python's `a or b` on optional strings: `a` unless it is None or empty, `b` otherwise. |
| TextToSql.TextToSql | backend/flow_nodes.py:171-195 | `run_text_to_sql` as a function: the pipeline from the initial dictionary, then the report, or the exception the flow raised. `TextToSqlOutcome` and `RunTextToSql` are its partners. |
| TextToSql.PipelineShape | backend/flow_nodes.py:154-168 | From the initial dictionary with maximum n, the run never needs more than 2·max(n,1)+1 steps. It starts with schema and generation, executes at most max(n,1) times and repairs at most max(n,1)-1 times. |
| TextToSql.LoopOutcome | backend/flow_nodes.py:186-194 | The report of a finished loop: ok exactly when rows are present and exactly when no error is. The attempts count is below the give-up count on success and equal to it on failure. The schema appears exactly when asked for. The reported statement, run against the locator, gives exactly the reported rows or the reported error. |
| TextToSql.TextToSqlOutcome | backend/flow_nodes.py:171-195 | When nothing is raised: `ok` is true exactly when `data` is present and exactly when `err` is absent, and `sql` is present. `schema` is present exactly when requested. `attempts` lies in 0..max(n,1), is below that on success and equal to it on failure. Running the reported `sql` against `db_url` gives exactly the reported `data`, or fails with exactly the reported `err`. |
| TextToSql.WiredFlowComputesTextToSql | backend/flow_nodes.py:171-184 | The wired flow, run on the initial dictionary, never runs out of steps, and the report is built from what it leaves. |
| TextToSql.RunTextToSql | backend/flow_nodes.py:171-195 | The imperative `run_text_to_sql` (dictionary object, node objects, `Flow.Run`) returns exactly `TextToSql`. |
| TextToSql.FirstTrySuccess | backend/flow_nodes.py:186-195 | A statement that runs at once gives ok, the rows, the stripped statement and 0 attempts, without any repair. |
| TextToSql.NoRepairBelowTwo | backend/flow_nodes.py:110-114 | With a maximum of at most 1, a failing statement is reported at once with 1 attempt and its error text, without any repair. |
| TextToSql.RepairThenSuccess | backend/flow_nodes.py:148-151 | With a maximum of at least 2, one repair that works gives ok, the rows, the repaired statement (not the original) and 1 attempt. |
| TextToSql.ModelUnavailable | backend/flow_nodes.py:77-81 | An unconfigured model makes the whole call raise NotImplementedError. |
| TextToSql.SchemaLookupFails | backend/flow_nodes.py:60-63 | A locator the lookup rejects (urlparse raises, no scheme, or no adapter for the scheme) makes the whole call raise the lookup's ValueError. |

## Left out

- Database I/O is left out: `sqlite3.connect`, `cursor.execute` and `fetchall`. The adapters' `execute` and `get_schema` are the oracles `Env.execute` and `Env.fetchSchema`. The pure parts inside them are modelled separately: the file-name computation of `_connect` (`ConnectPath`) and the schema join (`SchemaText` over rows given as values).
- `urllib.parse.urlparse` is an uninterpreted function that returns scheme, netloc and path or raises a ValueError with a message. Which strings it rejects, and how it splits the rest, is not derived. Its ValueError propagates out of `get_adapter_for`: the schema step raises it, and the execute step turns it into a failed result. The same call inside `_connect` belongs to the adapters' database oracles.
- `call_llm` (backend/deps.py) is the oracle `Env.llm`, so the model is deterministic per prompt. A real model that answers the same prompt differently on a second call is not captured.
- `Env.registry` is the registry contents the steps see. `Registry.Register` models how those contents are built, but the flow does not model registrations made while a run is in progress.
- `FlowGraph.Flow.Run`: `Flow.run` has no bound of its own. The method takes a ghost step budget and requires that the bounded run does not exhaust it. For the wired text-to-SQL graph, this is discharged for every input with 2·max(n,1)+1 steps (`TextToSql.WiredFlowComputesTextToSql`). A graph whose run never ends is not modelled.
- Nodes are limited to the four step kinds. The base `Node` whose `prep`, `exec` and `post` all return None (backend/flow_nodes.py:18-25) is not a step kind.
- Exceptions are reduced to four kinds: NotImplementedError, KeyError, ValueError and a generic remainder. The exception classes' hierarchy is not modelled.
- FlowNodes.Exc.Text: `str(e)` of a KeyError is modelled as the key between single quotes. Python prints `repr(key)`, which uses double quotes for a key containing a single quote and escapes backslashes and control characters; those cases are not modelled.
- The pydantic bound 0..10 on `max_debug_attempts` (backend/models.py:9) is not required. The model accepts any integer, negative ones included.
- Out of scope: the HTTP layer (`backend/app.py`, `backend/models.py`, `backend/settings.py`), the frontend, the developer tools, `flow.py` (wiring for an external library that is not part of this model), and the tests.
- Concurrency is not modelled: each run owns its dictionary and nothing is shared between runs.
