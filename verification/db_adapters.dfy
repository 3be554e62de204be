/** Database locators and the scheme-to-adapter registry (backend/db_adapters.py). */
module DbAdapters {
  import opened Wrappers
  import opened PyStr

  /** One column value of a result row as sqlite3 returns it. */
  datatype SqlValue = Null | Integer(i: int) | Real(r: real) | Text(s: string) | Blob(bytes: seq<bv8>)

  type Row = seq<SqlValue>
  type Rows = seq<Row>

  /** An adapter is known by its name and the URL schemes it serves; what its `get_schema`
      and `execute` do against a live database is left to the caller's environment. */
  datatype Adapter = Adapter(name: string, schemes: seq<string>)

  /** `SQLiteAdapter()` with its default fields. */
  const SQLite := Adapter("sqlite", ["sqlite", "file"])

  /** The parts of `urllib.parse.urlparse(url)` the module reads. */
  datatype UrlParts = UrlParts(scheme: string, netloc: string, path: string)

  /** `urllib.parse.urlparse`: the parts of a URL, or the message of the ValueError it raises
      on a malformed one (such as an unclosed IPv6 bracket in the netloc). */
  type UrlParser = string -> Result<UrlParts, string>

  /** The module-level `_REGISTRY` dictionary, updated in place by `register`. */
  class Registry {
    var adapters: map<string, Adapter>

    constructor ()
      ensures adapters == map[]
    {
      adapters := map[];
    }

    /** `register(adapter)`: every scheme of the adapter now maps to it, whatever it mapped to
        before; every other scheme keeps its entry or its absence. */
    method Register(adapter: Adapter)
      modifies this
      ensures adapters.Keys == old(adapters).Keys + (set s | s in adapter.schemes)
      ensures forall s :: s in adapter.schemes ==> adapters[s] == adapter
      ensures forall s :: s in old(adapters) && s !in adapter.schemes ==> adapters[s] == old(adapters)[s]
    {
      for i := 0 to |adapter.schemes|
        invariant adapters.Keys == old(adapters).Keys + (set s | s in adapter.schemes[..i])
        invariant forall s :: s in adapter.schemes[..i] ==> adapters[s] == adapter
        invariant forall s :: s in old(adapters) && s !in adapter.schemes[..i] ==> adapters[s] == old(adapters)[s]
      {
        assert adapter.schemes[..i + 1] == adapter.schemes[..i] + [adapter.schemes[i]];
        adapters := adapters[adapter.schemes[i] := adapter];
      }
      assert adapter.schemes[..|adapter.schemes|] == adapter.schemes;
    }
  }

  /** The registry as module load leaves it: `register(SQLiteAdapter())` on an empty table. */
  const DefaultAdapters: map<string, Adapter> := map["sqlite" := SQLite, "file" := SQLite]

  method LoadModule() returns (registry: Registry)
    ensures fresh(registry) && registry.adapters == DefaultAdapters
  {
    registry := new Registry();
    registry.Register(SQLite);
  }

  /** `parse_scheme(url)`: the scheme urlparse finds, or None when it is empty; a ValueError
      from urlparse propagates. */
  function ParseScheme(url: string, urlparse: UrlParser): (r: Result<Option<string>, string>)
    ensures r.Failure? <==> urlparse(url).Failure?
    ensures r.Failure? ==> r.error == urlparse(url).error
    ensures r.Success? ==> (r.value.None? <==> urlparse(url).value.scheme == "")
    ensures r.Success? && r.value.Some? ==> r.value.value == urlparse(url).value.scheme
  {
    var parts :- urlparse(url);
    Success(if parts.scheme == "" then None else Some(parts.scheme))
  }

  /** The `ValueError`s of `get_adapter_for`: the two it raises itself, and the one urlparse
      raises inside `parse_scheme`. */
  datatype LookupError = MissingScheme(url: string) | NoAdapter(scheme: string) | BadUrl(message: string) {
    /** `str(e)` of the raised `ValueError`. */
    function Message(): string {
      match this
      case MissingScheme(url) => "Database URL missing scheme: " + url
      case NoAdapter(scheme) => "No adapter registered for scheme '" + scheme + "'"
      case BadUrl(message) => message
    }
  }

  /** `get_adapter_for(url)` against the registry contents `registry`. */
  function GetAdapterFor(registry: map<string, Adapter>, url: string, urlparse: UrlParser)
    : (r: Result<Adapter, LookupError>)
    ensures r.Failure? && r.error.BadUrl? <==> urlparse(url).Failure?
    ensures urlparse(url).Failure? ==> r == Failure(BadUrl(urlparse(url).error))
    ensures r == Failure(MissingScheme(url)) <==> urlparse(url).Success? && urlparse(url).value.scheme == ""
    ensures r.Failure? && r.error.NoAdapter?
            <==> urlparse(url).Success? && urlparse(url).value.scheme != ""
                 && urlparse(url).value.scheme !in registry
    ensures r.Failure? && r.error.NoAdapter? ==> r.error.scheme == urlparse(url).value.scheme
    ensures r.Success? <==>
              urlparse(url).Success? && urlparse(url).value.scheme in registry && urlparse(url).value.scheme != ""
    ensures r.Success? ==> r.value == registry[urlparse(url).value.scheme]
  {
    match ParseScheme(url, urlparse)
    case Failure(message) => Failure(BadUrl(message))
    case Success(None) => Failure(MissingScheme(url))
    case Success(Some(scheme)) =>
      if scheme in registry then Success(registry[scheme]) else Failure(NoAdapter(scheme))
  }

  /** After module load, both default schemes resolve to the SQLite adapter and nothing else resolves. */
  lemma DefaultSchemesResolveToSQLite(url: string, urlparse: UrlParser)
    ensures GetAdapterFor(DefaultAdapters, url, urlparse).Success?
            <==> urlparse(url).Success? && (urlparse(url).value.scheme == "sqlite" || urlparse(url).value.scheme == "file")
    ensures GetAdapterFor(DefaultAdapters, url, urlparse).Success?
            ==> GetAdapterFor(DefaultAdapters, url, urlparse).value == SQLite
  {
  }

  /** Prefixes every legacy path receives. */
  const SqlitePrefix := "sqlite://"

  lemma SqliteUrlIsUrl(path: string)
    ensures Contains(SqlitePrefix + path, "://")
  {
    ContainsSuffix("sqlite", "://", path);
    assert "sqlite" + "://" + path == SqlitePrefix + path;
  }

  /** `normalize_to_url`: a locator that already holds "://" is kept; a filesystem path becomes
      a `sqlite://` URL whose path part is absolute and gives back the input with at most its
      one added leading slash removed. */
  function NormalizeToUrl(pathOrUrl: string): (url: string)
    ensures Contains(url, "://")
    ensures Contains(pathOrUrl, "://") ==> url == pathOrUrl
    ensures !Contains(pathOrUrl, "://") ==>
              |url| >= 10 && url[..10] == "sqlite:///"
              && (url[9..] == pathOrUrl || url[10..] == pathOrUrl)
              && (url[9..] == pathOrUrl <==> StartsWith(pathOrUrl, "/"))
  {
    if Contains(pathOrUrl, "://") then pathOrUrl
    else if StartsWith(pathOrUrl, "/") then (SqliteUrlIsUrl(pathOrUrl); SqlitePrefix + pathOrUrl)
    else (
      SqliteUrlIsUrl("/" + pathOrUrl);
      assert SqlitePrefix + ("/" + pathOrUrl) == "sqlite:///" + pathOrUrl;
      "sqlite:///" + pathOrUrl)
  }

  /** Normalising is idempotent. */
  lemma NormalizeIdempotent(pathOrUrl: string)
    ensures NormalizeToUrl(NormalizeToUrl(pathOrUrl)) == NormalizeToUrl(pathOrUrl)
  {
  }

  /** A relative path and the absolute path of the same name normalise to the same URL:
      the URL alone no longer tells which file was meant. */
  lemma {:induction false} RelativeAndAbsoluteCollide(path: string)
    requires !Contains(path, "://") && !StartsWith(path, "/")
    ensures NormalizeToUrl(path) == NormalizeToUrl("/" + path)
  {
    forall i | 0 <= i <= |"/" + path|
      ensures !("://" <= ("/" + path)[i..])
    {
      if i > 0 {
        assert ("/" + path)[i..] == path[i - 1..];
        assert !("://" <= path[i - 1..]);
      } else {
        assert ("/" + path)[0] == '/';
      }
    }
    assert StartsWith("/" + path, "/");
    assert SqlitePrefix + ("/" + path) == "sqlite:///" + path;
  }

  /** A locator path of the form `/X:...`: a leading slash, any character, then ':' (meant for
      a Windows drive letter, but any character passes). */
  predicate IsDrivePath(path: string) {
    |path| >= 3 && path[0] == '/' && path[2] == ':'
  }

  /** The file name before the drive-letter fix: the netloc, when present, becomes a `//host` root. */
  function ConnectBase(netloc: string, path: string): string {
    if netloc != "" then "//" + netloc + path else path
  }

  /** The file name `SQLiteAdapter._connect` passes to `sqlite3.connect`, from the netloc and path
      urlparse found: the base name with at most one leading slash dropped, and dropped exactly
      when the base name is a drive path. */
  function ConnectPath(netloc: string, path: string): (dbFile: string)
    ensures dbFile == ConnectBase(netloc, path) || "/" + dbFile == ConnectBase(netloc, path)
    ensures "/" + dbFile == ConnectBase(netloc, path) <==> IsDrivePath(ConnectBase(netloc, path))
  {
    var dbFile := ConnectBase(netloc, path);
    if IsDrivePath(dbFile) then
      assert "/" + dbFile[1..] == dbFile;
      dbFile[1..]
    else dbFile
  }

  /** Without a netloc, a path that is not a drive path is opened as it is: in particular the
      leading slash of `sqlite:///name.db` is kept and the file is looked up at the root. */
  lemma ConnectKeepsPlainPath(path: string)
    requires !IsDrivePath(path)
    ensures ConnectPath("", path) == path
  {
  }

  /** A drive path loses exactly its leading slash; a netloc whose first character is not ':'
      always yields a `//netloc` UNC-style name. */
  lemma ConnectDriveAndNetloc(netloc: string, path: string)
    ensures netloc == "" && IsDrivePath(path) ==> ConnectPath(netloc, path) == path[1..]
    ensures netloc != "" && netloc[0] != ':' ==> ConnectPath(netloc, path) == "//" + netloc + path
  {
    if netloc != "" && netloc[0] != ':' {
      assert ("//" + netloc + path)[2] == netloc[0];
    }
  }

  /** One row of `SELECT sql FROM sqlite_master WHERE type='table'`: the `sql` column is text or NULL. */
  type SchemaRow = seq<Option<string>>

  /** Whether `row and row[0]` holds: the row has a first column that is a non-empty string. */
  predicate Defines(row: SchemaRow) {
    |row| > 0 && row[0].Some? && row[0].value != ""
  }

  /** The first columns the generator in `get_schema` keeps, in row order. */
  function SchemaEntries(rows: seq<SchemaRow>): (entries: seq<string>)
    ensures |entries| <= |rows|
    ensures forall k :: 0 <= k < |entries| ==> entries[k] != ""
    ensures entries == [] <==> forall k | 0 <= k < |rows| :: !Defines(rows[k])
  {
    if rows == [] then []
    else (if Defines(rows[0]) then [rows[0][0].value] else []) + SchemaEntries(rows[1..])
  }

  /** Entries of a concatenation are the entries of each part, in order: every kept row
      contributes its first column once, every skipped row nothing. */
  lemma {:induction false} SchemaEntriesAppend(a: seq<SchemaRow>, b: seq<SchemaRow>)
    ensures SchemaEntries(a + b) == SchemaEntries(a) + SchemaEntries(b)
  {
    if a == [] {
      assert a + b == b;
    } else {
      assert (a + b)[1..] == a[1..] + b;
      SchemaEntriesAppend(a[1..], b);
    }
  }

  /** A single row contributes its first column exactly when `row and row[0]` holds. With
      `SchemaEntriesAppend` this fixes the entries of every list of rows. */
  lemma SchemaEntriesOne(row: SchemaRow)
    ensures SchemaEntries([row]) == if Defines(row) then [row[0].value] else []
  {
    assert [row][1..] == [];
  }

  /** The text `get_schema` returns: the kept first columns joined by newlines. */
  function SchemaText(rows: seq<SchemaRow>): (text: string)
    ensures text == "" <==> SchemaEntries(rows) == []
    ensures text == "" <==> forall k | 0 <= k < |rows| :: !Defines(rows[k])
  {
    JoinEmpty("\n", SchemaEntries(rows));
    Join("\n", SchemaEntries(rows))
  }

  /** The schema text of more rows extends the text of fewer by one newline and the new entries. */
  lemma SchemaTextAppend(a: seq<SchemaRow>, b: seq<SchemaRow>)
    ensures SchemaText(a + b) ==
      if SchemaText(a) == "" then SchemaText(b)
      else if SchemaText(b) == "" then SchemaText(a)
      else SchemaText(a) + "\n" + SchemaText(b)
  {
    SchemaEntriesAppend(a, b);
    if SchemaEntries(a) != [] && SchemaEntries(b) != [] {
      JoinAppend("\n", SchemaEntries(a), SchemaEntries(b));
    } else if SchemaEntries(a) == [] {
      assert SchemaEntries(a + b) == SchemaEntries(b);
    } else {
      assert SchemaEntries(a + b) == SchemaEntries(a);
    }
  }
}
