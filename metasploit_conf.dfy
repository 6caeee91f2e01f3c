/** Resolution of the Metasploit module database backend configuration:
    environment overrides layered over a prior (file-loaded) record, defaults for
    whatever stays empty, and the decision part of the HTTP health check.

    Go strings are modelled as `string`; the empty string plays the role it plays
    in the Go code: an unset field, or an unset environment variable. */
module MetasploitConfig {

  datatype Option<T> = None | Some(value: T)

  // ---------------------------------------------------------------------------
  // Constants
  // ---------------------------------------------------------------------------

  /** Backend type used when nothing else names one. */
  const DefaultType: string := "sqlite3"
  /** File name of the default SQLite3 database, placed in the working directory. */
  const DefaultFileName: string := "go-msfdb.sqlite3"
  /** The backend type that is served over HTTP. */
  const HTTPType: string := "http"
  /** Path appended to the base URL to probe an HTTP backend. */
  const HealthPath: string := "/health"

  /** Names of the environment variables that override the record. */
  const EnvType: string := "METASPLOITDB_TYPE"
  const EnvURL: string := "METASPLOITDB_URL"
  const EnvPath: string := "METASPLOITDB_SQLITE3_PATH"

  // ---------------------------------------------------------------------------
  // Data model
  // ---------------------------------------------------------------------------

  /** A snapshot of the configuration record. */
  datatype Conf = Conf(Type: string, URL: string, SQLite3Path: string)

  /** The process environment: a variable that is absent reads as "". */
  function Getenv(environ: map<string, string>, name: string): string
  {
    if name in environ then environ[name] else ""
  }

  /** Joins a directory and a file name with the Unix separator; an empty
      directory contributes nothing, as in Go's filepath.Join. */
  function Join(dir: string, elem: string): (p: string)
    ensures elem != "" ==> p != ""
    ensures |p| >= |elem| && p[|p| - |elem|..] == elem
    ensures dir != "" ==> |p| > |dir| && p[..|dir|] == dir
  {
    if dir == "" then elem else dir + "/" + elem
  }

  /** Where the default database lives, for working directory `wd`. */
  function DefaultPath(wd: string): string
  {
    Join(wd, DefaultFileName)
  }

  /** Resolved: a type is known and the backend can be located. */
  predicate IsComplete(c: Conf)
  {
    c.Type != "" && (c.URL != "" || c.SQLite3Path != "")
  }

  // ---------------------------------------------------------------------------
  // Specification of setDefault and Init, on values
  // ---------------------------------------------------------------------------

  /** The record after setDefault. */
  function Defaulted(c: Conf, wd: string): Conf
  {
    var t := if c.Type == "" then DefaultType else c.Type;
    var p := if c.URL == "" && c.SQLite3Path == "" then DefaultPath(wd) else c.SQLite3Path;
    Conf(t, c.URL, p)
  }

  /** The record after Init's three environment overrides, before defaults. */
  function Overlay(c: Conf, environ: map<string, string>): Conf
  {
    var t := if Getenv(environ, EnvType) != "" then Getenv(environ, EnvType) else c.Type;
    var u := if Getenv(environ, EnvURL) != "" then Getenv(environ, EnvURL) else c.URL;
    var p := if Getenv(environ, EnvPath) != "" then Getenv(environ, EnvPath) else c.SQLite3Path;
    Conf(t, u, p)
  }

  /** The record after Init. */
  function Resolution(c: Conf, environ: map<string, string>, wd: string): Conf
  {
    Defaulted(Overlay(c, environ), wd)
  }

  // ---------------------------------------------------------------------------
  // The mutable record
  // ---------------------------------------------------------------------------

  /** The configuration record, updated in place by SetDefault and Init. */
  class MetasploitConf {
    var Type: string
    var URL: string
    var SQLite3Path: string

    /** A record as a configuration loader leaves it (all fields may be ""). */
    constructor (typ: string, url: string, path: string)
      ensures Value() == Conf(typ, url, path)
    {
      Type, URL, SQLite3Path := typ, url, path;
    }

    function Value(): Conf
      reads this
    {
      Conf(Type, URL, SQLite3Path)
    }

    /** Fills the empty fields; `wd` is the working directory ("" when it could not be determined). */
    method SetDefault(wd: string)
      modifies this
      ensures Value() == Defaulted(old(Value()), wd)
      ensures Type != "" && (old(Type) != "" ==> Type == old(Type))
      ensures URL == old(URL)
      ensures old(URL) != "" || old(SQLite3Path) != "" ==> SQLite3Path == old(SQLite3Path)
      ensures old(URL) == "" && old(SQLite3Path) == "" ==> SQLite3Path == DefaultPath(wd)
    {
      if Type == "" {
        Type := DefaultType;
      }
      if URL == "" && SQLite3Path == "" {
        SQLite3Path := Join(wd, DefaultFileName);
      }
    }

    /** Applies the non-empty environment overrides, then the defaults. */
    method Init(environ: map<string, string>, wd: string)
      modifies this
      ensures Value() == Resolution(old(Value()), environ, wd)
      ensures IsComplete(Value())
      ensures Getenv(environ, EnvType) != "" ==> Type == Getenv(environ, EnvType)
      ensures Getenv(environ, EnvURL) != "" ==> URL == Getenv(environ, EnvURL)
      ensures Getenv(environ, EnvPath) != "" ==> SQLite3Path == Getenv(environ, EnvPath)
    {
      if Getenv(environ, EnvType) != "" {
        Type := Getenv(environ, EnvType);
      }
      if Getenv(environ, EnvURL) != "" {
        URL := Getenv(environ, EnvURL);
      }
      if Getenv(environ, EnvPath) != "" {
        SQLite3Path := Getenv(environ, EnvPath);
      }
      SetDefault(wd);
    }
  }

  // ---------------------------------------------------------------------------
  // Properties of setDefault
  // ---------------------------------------------------------------------------

  /** Defaults only fill empty fields, and they leave the record complete. */
  lemma DefaultsFillOnlyEmpty(c: Conf, wd: string)
    ensures Defaulted(c, wd).Type != ""
    ensures c.Type != "" ==> Defaulted(c, wd).Type == c.Type
    ensures c.Type == "" ==> Defaulted(c, wd).Type == DefaultType
    ensures Defaulted(c, wd).URL == c.URL
    ensures c.URL != "" || c.SQLite3Path != "" ==> Defaulted(c, wd).SQLite3Path == c.SQLite3Path
    ensures c.URL == "" && c.SQLite3Path == "" ==> Defaulted(c, wd).SQLite3Path == DefaultPath(wd)
    ensures IsComplete(Defaulted(c, wd))
  {
  }

  /** A second setDefault changes nothing. */
  lemma DefaultsIdempotent(c: Conf, wd: string)
    ensures Defaulted(Defaulted(c, wd), wd) == Defaulted(c, wd)
  {
  }

  /** A complete record is left alone by setDefault whatever the working directory. */
  lemma DefaultsFixComplete(c: Conf, wd: string)
    requires IsComplete(c)
    ensures Defaulted(c, wd) == c
  {
  }

  // ---------------------------------------------------------------------------
  // Properties of Init
  // ---------------------------------------------------------------------------

  /** A non-empty environment variable wins over any prior value. */
  lemma EnvironmentWins(c: Conf, environ: map<string, string>, wd: string)
    ensures Getenv(environ, EnvType) != "" ==> Resolution(c, environ, wd).Type == Getenv(environ, EnvType)
    ensures Getenv(environ, EnvURL) != "" ==> Resolution(c, environ, wd).URL == Getenv(environ, EnvURL)
    ensures Getenv(environ, EnvPath) != "" ==> Resolution(c, environ, wd).SQLite3Path == Getenv(environ, EnvPath)
  {
  }

  /** A field whose variable is unset keeps its prior non-empty value; an empty one
      gets the default, if the field has one. */
  lemma UnsetKeepsPriorOrDefault(c: Conf, environ: map<string, string>, wd: string)
    ensures Getenv(environ, EnvType) == "" && c.Type != "" ==> Resolution(c, environ, wd).Type == c.Type
    ensures Getenv(environ, EnvType) == "" && c.Type == "" ==> Resolution(c, environ, wd).Type == DefaultType
    ensures Getenv(environ, EnvURL) == "" ==> Resolution(c, environ, wd).URL == c.URL
    ensures Getenv(environ, EnvPath) == "" && c.SQLite3Path != "" ==>
      Resolution(c, environ, wd).SQLite3Path == c.SQLite3Path
    ensures Getenv(environ, EnvPath) == "" && c.SQLite3Path == "" && Resolution(c, environ, wd).URL == "" ==>
      Resolution(c, environ, wd).SQLite3Path == DefaultPath(wd)
    ensures Getenv(environ, EnvPath) == "" && c.SQLite3Path == "" && Resolution(c, environ, wd).URL != "" ==>
      Resolution(c, environ, wd).SQLite3Path == ""
  {
  }

  /** After Init a type is known and the backend can be located. */
  lemma ResolutionComplete(c: Conf, environ: map<string, string>, wd: string)
    ensures IsComplete(Resolution(c, environ, wd))
  {
  }

  /** Running Init again under the same environment changes nothing. */
  lemma InitIdempotent(c: Conf, environ: map<string, string>, wd: string)
    ensures Resolution(Resolution(c, environ, wd), environ, wd) == Resolution(c, environ, wd)
  {
  }

  /** Init never empties a field that was set. */
  lemma InitNeverClears(c: Conf, environ: map<string, string>, wd: string)
    ensures c.Type != "" ==> Resolution(c, environ, wd).Type != ""
    ensures c.URL != "" ==> Resolution(c, environ, wd).URL != ""
    ensures c.SQLite3Path != "" ==> Resolution(c, environ, wd).SQLite3Path != ""
  {
  }

  // ---------------------------------------------------------------------------
  // An independent reference definition: layered priority
  // ---------------------------------------------------------------------------

  /** The value of the highest-priority layer that is set, `layers` being listed
      from highest to lowest priority; "" when no layer is set. */
  function FirstSet(layers: seq<string>): (v: string)
    ensures v == "" <==> forall i :: 0 <= i < |layers| ==> layers[i] == ""
    ensures v != "" ==> exists i :: 0 <= i < |layers| && layers[i] == v && forall j :: 0 <= j < i ==> layers[j] == ""
  {
    if layers == [] then ""
    else if layers[0] != "" then layers[0]
    else FirstSet(layers[1..])
  }

  /** Each field by priority: environment, then the prior record, then the default.
      The path default is a layer only while no URL is set. */
  function ByPriority(c: Conf, environ: map<string, string>, wd: string): Conf
  {
    var u := FirstSet([Getenv(environ, EnvURL), c.URL]);
    Conf(FirstSet([Getenv(environ, EnvType), c.Type, DefaultType]),
         u,
         FirstSet([Getenv(environ, EnvPath), c.SQLite3Path, if u == "" then DefaultPath(wd) else ""]))
  }

  /** FirstSet over two and three layers, spelled out. */
  lemma FirstSetSmall(a: string, b: string, d: string)
    ensures FirstSet([a, b]) == if a != "" then a else b
    ensures FirstSet([a, b, d]) == if a != "" then a else if b != "" then b else d
  {
    assert [a, b][1..] == [b];
    assert [b][1..] == [];
    assert FirstSet([b]) == b;
    assert [a, b, d][1..] == [b, d];
    assert [b, d][1..] == [d];
    assert [d][1..] == [];
    assert FirstSet([d]) == d;
    assert FirstSet([b, d]) == if b != "" then b else d;
  }

  /** Init resolves every field by the priority environment > prior record > default. */
  lemma InitFollowsPriority(c: Conf, environ: map<string, string>, wd: string)
    ensures Resolution(c, environ, wd) == ByPriority(c, environ, wd)
  {
    var u := FirstSet([Getenv(environ, EnvURL), c.URL]);
    FirstSetSmall(Getenv(environ, EnvURL), c.URL, "");
    FirstSetSmall(Getenv(environ, EnvType), c.Type, DefaultType);
    FirstSetSmall(Getenv(environ, EnvPath), c.SQLite3Path, if u == "" then DefaultPath(wd) else "");
  }

  // ---------------------------------------------------------------------------
  // The health check
  // ---------------------------------------------------------------------------

  datatype Response = Response(StatusCode: int)

  /** What the HTTP client's GET reports: the response, if any, and the errors it collected. */
  datatype GetOutcome = GetOutcome(resp: Option<Response>, errs: seq<string>)

  /** The failure CheckHTTPHealth returns: the probed URL and the client's errors. */
  datatype HealthError = HealthError(url: string, errs: seq<string>)

  /** One health check: the URLs it requested, in order, and its verdict (None for success). */
  datatype Health = Health(requested: seq<string>, err: Option<HealthError>)

  /** The URL probed for a backend whose base URL is `base`. */
  function HealthURL(base: string): (u: string)
    ensures |u| == |base| + |HealthPath|
    ensures u[..|base|] == base && u[|base|..] == HealthPath
  {
    base + HealthPath
  }

  /** Whether a GET outcome counts as a healthy backend. */
  predicate ProbeSucceeded(o: GetOutcome): (ok: bool)
    ensures ok <==> o.errs == [] && o.resp == Some(Response(200))
  {
    !(0 < |o.errs| || o.resp.None? || o.resp.value.StatusCode != 200)
  }

  /** Whether `typ` names the backend served over HTTP. */
  predicate IsFetchViaHTTP(typ: string): (b: bool)
    ensures b <==> typ == "http"
    ensures typ == DefaultType ==> !b
  {
    typ == HTTPType
  }

  /** The health check of record `cnf`, deciding by the receiver's own type.
      `get` stands for the HTTP client: it maps a URL to the outcome of a GET. */
  function CheckHTTPHealth(cnf: Conf, get: string -> GetOutcome): (h: Health)
    ensures cnf.Type != HTTPType ==> h == Health([], None)
    ensures cnf.Type == HTTPType ==> h.requested == [cnf.URL + HealthPath]
    ensures h.err == None <==>
      cnf.Type != HTTPType ||
      (get(cnf.URL + HealthPath).errs == [] && get(cnf.URL + HealthPath).resp == Some(Response(200)))
    ensures h.err.Some? ==> h.err.value == HealthError(cnf.URL + HealthPath, get(cnf.URL + HealthPath).errs)
  {
    if !IsFetchViaHTTP(cnf.Type) then Health([], None)
    else
      var url := HealthURL(cnf.URL);
      var o := get(url);
      Health([url], if ProbeSucceeded(o) then None else Some(HealthError(url, o.errs)))
  }

  /** The health check as config/metasploitconf.go writes it: the decision to probe reads the
      process-wide record `global`, while the URL comes from the receiver `cnf`. */
  function CheckHTTPHealthAsWritten(global: Conf, cnf: Conf, get: string -> GetOutcome): (h: Health)
    ensures global.Type != HTTPType ==> h == Health([], None)
    ensures global.Type == HTTPType ==> h.requested == [cnf.URL + HealthPath]
    ensures h.err == None <==>
      global.Type != HTTPType ||
      (get(cnf.URL + HealthPath).errs == [] && get(cnf.URL + HealthPath).resp == Some(Response(200)))
    ensures h.err.Some? ==> h.err.value == HealthError(cnf.URL + HealthPath, get(cnf.URL + HealthPath).errs)
  {
    if !IsFetchViaHTTP(global.Type) then Health([], None)
    else
      var url := HealthURL(cnf.URL);
      var o := get(url);
      Health([url], if ProbeSucceeded(o) then None else Some(HealthError(url, o.errs)))
  }

  /** When the receiver is the process-wide record itself, both versions agree. */
  lemma AsWrittenAgreesOnGlobal(cnf: Conf, get: string -> GetOutcome)
    ensures CheckHTTPHealthAsWritten(cnf, cnf, get) == CheckHTTPHealth(cnf, get)
  {
  }

  /** An HTTP receiver checked while the process-wide record says sqlite3: the
      Go code reports success without probing; the receiver's backend is down. */
  lemma AsWrittenSkipsHTTPReceiver()
    ensures
      var global := Conf("sqlite3", "", "/var/lib/go-msfdb.sqlite3");
      var cnf := Conf("http", "http://example.test", "");
      var down := (url: string) => GetOutcome(None, ["connection refused"]);
      CheckHTTPHealthAsWritten(global, cnf, down) == Health([], None) &&
      CheckHTTPHealth(cnf, down) ==
        Health(["http://example.test/health"],
               Some(HealthError("http://example.test/health", ["connection refused"])))
  {
    assert HealthURL("http://example.test") == "http://example.test/health";
  }

  /** The probed URL identifies the configured base URL. */
  lemma HealthURLInjective(a: string, b: string)
    requires HealthURL(a) == HealthURL(b)
    ensures a == b
  {
  }
}
