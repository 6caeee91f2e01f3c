# Metasploit backend configuration resolver

A Dafny model of the configuration record that tells vuls where to find the
Metasploit module database (`config/metasploitconf.go`). The record has three
fields: `Type` (backend kind), `URL` (base URL of an HTTP server, or a database
connection string) and `SQLite3Path` (path of a local SQLite3 file). The model
covers:

- `setDefault`: an empty `Type` becomes `"sqlite3"`. If both `URL` and
  `SQLite3Path` are empty, `SQLite3Path` becomes `<wd>/go-msfdb.sqlite3`.
- `Init`: non-empty values of `METASPLOITDB_TYPE`, `METASPLOITDB_URL` and
  `METASPLOITDB_SQLITE3_PATH` override the fields, then `setDefault` runs.
- `IsFetchViaHTTP` and the decision part of `CheckHTTPHealth`: no request
  unless the type is `"http"`, one GET of `URL + "/health"`, success exactly
  when the client reports no errors, a response, and status 200.

Everything is in `metasploit_conf.dfy`, module `MetasploitConfig`. The record
is a class, `MetasploitConf`, whose methods `SetDefault` and `Init` assign the
fields step by step as the Go pointer-receiver methods do. Each method is
proved equal to a function on the `Conf` value (`Defaulted`, `Resolution`).
The lemmas state the properties of those functions. `ByPriority` is an
independent reference definition of `Init`: each field is the first set value
in the list environment, prior record, default (`FirstSet`).
`InitFollowsPriority` proves the two agree.

The process environment is a `map<string, string>` argument; `Getenv` returns
`""` for an absent variable, as `os.Getenv` does. The working directory is a
`string` argument. The Go code ignores the error of `os.Getwd`, so `wd` may be
`""`. The HTTP client is an argument `get` mapping a URL to the outcome of a
GET. A health check returns the list of URLs it requested and its verdict.

An empty `Type` defaults to `"sqlite3"` (config/metasploitconf.go:26), one of
the kinds listed in the field's comment (line 14).

## Model

| member | source | states |
|---|---|---|
| MetasploitConfig.Join | config/metasploitconf.go:30 | the joined default path is non-empty, ends with the file name and starts with the working directory when that is set |
| MetasploitConfig.MetasploitConf.constructor | config/metasploitconf.go:12-22 | a record holds exactly the three given field values |
| MetasploitConfig.MetasploitConf.SetDefault | config/metasploitconf.go:24-32 | afterwards `Type` is non-empty and a non-empty `Type` is kept; `URL` is never modified; `SQLite3Path` is kept when `URL` or `SQLite3Path` was set, and becomes the default path when both were empty |
| MetasploitConfig.MetasploitConf.Init | config/metasploitconf.go:38-52 | each field whose environment variable is non-empty ends up equal to that value; afterwards the record is complete (type set, and URL or path set); the new state is the environment overlay followed by the defaults |
| MetasploitConfig.DefaultsFillOnlyEmpty | config/metasploitconf.go:24-32 | defaults fill only empty fields: a set `Type` is kept, an empty one becomes `"sqlite3"`, `URL` is unchanged, the path is kept unless both `URL` and path were empty, in which case it is the default path; the result is complete |
| MetasploitConfig.DefaultsIdempotent | config/metasploitconf.go:24-32 | applying the defaults twice gives the same record as once |
| MetasploitConfig.DefaultsFixComplete | config/metasploitconf.go:24-32 | a record with a type and a URL or path is left unchanged by the defaults, whatever the working directory |
| MetasploitConfig.EnvironmentWins | config/metasploitconf.go:42-50 | a non-empty environment variable determines its field after `Init`, whatever the prior value; a set path variable also prevents the path default |
| MetasploitConfig.UnsetKeepsPriorOrDefault | config/metasploitconf.go:42-51 | a field whose variable is unset keeps its prior non-empty value; an empty `Type` becomes `"sqlite3"`; an empty path becomes the default path exactly when the resolved URL is empty, and stays empty otherwise |
| MetasploitConfig.ResolutionComplete | config/metasploitconf.go:41-51 | after `Init`, `Type` is non-empty and at least one of `URL` and `SQLite3Path` is non-empty |
| MetasploitConfig.InitIdempotent | config/metasploitconf.go:41-51 | a second `Init` under the same environment and working directory changes nothing |
| MetasploitConfig.InitNeverClears | config/metasploitconf.go:41-51 | `Init` never empties a field that was set |
| MetasploitConfig.FirstSet | config/metasploitconf.go:38-40 | the priority rule: the result is empty iff every layer is empty, and otherwise it is the value of a set layer that every higher layer leaves unset |
| MetasploitConfig.InitFollowsPriority | config/metasploitconf.go:38-52 | `Init` resolves each field by priority environment, then prior (file-loaded) value, then default, the path default applying only while no URL is set |
| MetasploitConfig.IsFetchViaHTTP | config/metasploitconf.go:54-57 | true exactly when the type is `"http"` (so never for the default `"sqlite3"`); the as-written check applies it to the process-wide record's type, the corrected one to the receiver's |
| MetasploitConfig.ProbeSucceeded | config/metasploitconf.go:69 | success exactly when there are no errors, there is a response, and the status is 200 |
| MetasploitConfig.HealthURL | config/metasploitconf.go:65 | the probed URL is the base URL followed by `/health` |
| MetasploitConfig.HealthURLInjective | config/metasploitconf.go:65 | different base URLs are probed at different URLs |
| MetasploitConfig.CheckHTTPHealth | config/metasploitconf.go:59-73 | deciding by the receiver's type: no request and success unless the type is `"http"`; otherwise exactly one GET of `URL + "/health"`, success iff the client reports no errors and a response with status 200, and a failure carries that URL and the client's errors |
| MetasploitConfig.CheckHTTPHealthAsWritten | config/metasploitconf.go:54-73 | the same check as written: whether to probe is decided by the process-wide record's type, while the URL comes from the receiver; one GET of the receiver's `URL + "/health"` when probing, success iff no errors and status 200, and a failure carries that URL and the client's errors |
| MetasploitConfig.AsWrittenAgreesOnGlobal | config/metasploitconf.go:54-73 | when the receiver is the process-wide record, the written check and the corrected one give the same requests and verdict |
| MetasploitConfig.AsWrittenSkipsHTTPReceiver | config/metasploitconf.go:54-63 | an HTTP receiver checked while the process-wide record says `"sqlite3"` is reported healthy with no request, although its server refuses connections |

## Left out

- The GET itself (`gorequest`) is network I/O; the model takes its outcome (response, status, error list) from the argument `get`. Timeouts, retries, proxies and debug output are not modelled.
- `os.Getenv` and `os.Getwd` are replaced by the `environ` and `wd` arguments; the environment is taken to be the same for both reads of each variable in `Init`.
- MetasploitConfig.Join: models Unix `filepath.Join` as `dir + "/" + elem` (just `elem` for an empty `dir`) and does not model path cleaning (`..`, repeated or trailing separators) or the Windows separator.
- The wording of the error built by `xerrors.Errorf`: the model keeps only the URL and the client's errors it carries.
- The JSON tags on `URL` and `SQLite3Path` only affect serialisation.
- The process-wide `Conf` singleton is an explicit argument (`global`) of `CheckHTTPHealthAsWritten`.
- Concurrent writers to the record are not modelled; `config/metasploitconf.go` does not lock it.

## Findings

| source | as written | input that shows it | evidently intended | confidence | as-written member | corrected member |
|---|---|---|---|---|---|---|
| config/metasploitconf.go:56 | `IsFetchViaHTTP` tests the type of the process-wide `Conf.Metasploit`, not of its receiver, so `CheckHTTPHealth` on a record other than the global one decides by the wrong record | receiver `Type = "http"`, `URL = "http://example.test"` whose server refuses connections, global `Type = "sqlite3"`: the check reports success without a request | decide by the receiver's own `Type` | low: not executed; callers that pass the global record itself see no difference | MetasploitConfig.AsWrittenSkipsHTTPReceiver | MetasploitConfig.CheckHTTPHealth |
