# init-panel: a verified model of the panel's request logic

init-panel is a small administration panel for a Reality proxy host, written
in Go. It comes in two shapes. The single-file `panel.go` has twenty-nine stub
endpoints behind a TLS listener. The packaged server (`internal/...`) has seven
endpoints:

- service restart, service status and systemd logs run `systemctl` or `journalctl`;
- system info reports facts about the host;
- traffic summary and Reality config return constant placeholders;
- firewall rules return the result of a lookup whose source is not part of this model.

This project models its deterministic core in Dafny:

- **Command outcomes** (`internal/utils/exec.go`, module `Utils`):
  - `RunCommand` picks stdout or stderr according to how the process ended.
  - `RunCommandLines` trims stdout and cuts it into lines.
  - The process itself is a `Runner` parameter: a function from the command line to `Exited(stdout, stderr)` or `Failed(stdout, stderr, err)`.
  - `strings.TrimSpace`, `Split` and `Join` are modelled in `GoStrings`, with the round trips between them proved.
- **Core operations** (`internal/core`, module `Core`):
  - `RestartService`, `GetServiceStatus` (including its `is-active` fallback) and `GetSystemdLogs` (whose `limit` is ignored).
  - `GetSystemInfo`, whose host facts are an opaque value returned with a nil error, and the constant stubs for traffic and Reality config.
- **Route handlers and registration** (`internal/routes`, module `Routes`):
  - Each handler is a decision table over the request and the result of its core call.
  - `Serve` plugs in the real core operations, and its lemmas state what the composition answers. For example, the 500 branch of the service-status handler can never be taken.
  - The register functions are methods that take a `ServeMux` object and change it. A `ServeMux` holds its route table as a sequence field that its `Handle` method appends to.
- **The server's mux** (`internal/httpserver/server.go`, module `HttpServer`):
  - `NewServer` resolves and checks the web directory and builds the table: the API routes, then the file server at `/`.
  - A lemma proves that dispatch reaches the right handler.
- **The single-file panel** (`panel.go`, modules `PanelApi` and `Panel`):
  - the 29 handlers with their method policy and constant payloads;
  - `writeJSON`/`writeError` as methods that take a response-writer object and change it;
  - `registerAPIRoutes` as 29 `Handle` calls on the mux, grouped by the source's sections;
  - the mux that `main` builds.
  - `PanelApi` holds the endpoint table. It lists the handlers, gives the path each is registered at and their order, and proves no two share a path.
- **Shared vocabulary**:
  - `Http` (requests, responses, the response writer, `ServeMux` and its dispatch rule: exact pattern first, else longest subtree pattern);
  - `Json` (the values `encoding/json` encodes);
  - `Wrappers` (`Option`).

Go's `(value, error)` pairs are `Outcome(value, err)`, where a nil error is `None`.

Two details of the code matter to what the handlers send:

- `RunCommand` returns stdout exactly as captured, with no trimming.
- A handler's 500 message is `err.Error()` of `cmd.Run`'s error (such as an exit status), not the captured stderr.

## Model

| member | source | states |
|---|---|---|
| Utils.RunCommand | internal/utils/exec.go:9-20 | the error is nil exactly when the process exited successfully; on failure the text is the captured stderr and the error is cmd.Run's; on success the text is stdout as captured, untrimmed |
| Utils.StreamsAreSeparate | internal/utils/exec.go:11-19 | the result of a successful run does not depend on stderr, and the result of a failed run does not depend on stdout |
| Utils.RunCommandLines | internal/utils/exec.go:22-29 | the error is RunCommand's, unchanged; on failure there are no lines; on success there is at least one line, no line holds a newline, and joining the lines with newlines gives TrimSpace(stdout) |
| Utils.LinesAreTrimmed | internal/utils/exec.go:27 | after a success, the result is the single line "" exactly when stdout is all white space; any other stdout gives a non-empty first line with no leading white space and a non-empty last line with no trailing white space, so there is no empty line at either end |
| Utils.LineCount | internal/utils/exec.go:27 | after a success there is one line more than the trimmed stdout has newlines |
| GoStrings.TrimSpace | internal/utils/exec.go:27 | the result is empty exactly when the input is all white space; otherwise it is the input minus its leading and trailing white space, and it neither starts nor ends with white space |
| GoStrings.TrimSpaceIdempotent | internal/utils/exec.go:27 | trimming twice is trimming once |
| GoStrings.Split | internal/utils/exec.go:27 | there is one more piece than the string has separators, and no piece holds the separator |
| GoStrings.JoinSplit | internal/utils/exec.go:27 | joining the pieces of a split gives back the string |
| GoStrings.SplitJoin | internal/utils/exec.go:27 | splitting a join of one or more separator-free pieces gives back the pieces |
| GoStrings.TrimmedLines | internal/utils/exec.go:27 | cutting a trimmed string into lines gives the single empty line exactly for a string of white space alone; any other string gives non-empty first and last lines that start and end without white space |
| Json.Strings | internal/routes/logs.go:29-32 | a Go []string is encoded as an array holding the same strings, in order |
| Core.RestartService | internal/core/service.go:15-18 | runs `systemctl restart <name>`; the error is nil exactly when the run succeeded, and otherwise it is the runner's error unchanged |
| Core.RestartDiscardsOutput | internal/core/service.go:16-17 | what systemctl printed has no bearing on the result |
| Core.ServiceStatusJson | internal/core/service.go:9-13 | a status encodes as an object with exactly the keys name, active and raw, holding the name, the active flag and the raw text |
| Core.GetServiceStatus | internal/core/service.go:20-35 | runs `systemctl is-active <name>` and never errors; the name is echoed; a failed run means inactive, with the untrimmed stderr as the raw text; a successful run is active exactly when the trimmed stdout is "active", and the raw text is that trimmed stdout |
| Core.ActiveMeansRawActive | internal/core/service.go:29-33 | a unit reported active always has raw text "active" |
| Core.GetSystemdLogs | internal/core/logs.go:5-8 | runs `journalctl -u <service> -n 200 --no-pager`; a failure gives no lines and the runner's error; a success gives the trimmed stdout's lines and a nil error |
| Core.LogsIgnoreLimit | internal/core/logs.go:5-6 | every limit gives the same result |
| Core.GetSystemInfo | internal/core/system.go:19-28 | the host's facts with a nil error |
| Core.TrafficSummaryJson | internal/core/traffic.go:3-6 | a summary encodes as an object with exactly the keys inbound_bytes and outbound_bytes, holding the two counters |
| Core.GetTrafficSummary | internal/core/traffic.go:8-14 | never fails; both counters are zero |
| Core.RealityConfigJson | internal/core/reality.go:3-10 | a config encodes as an object with exactly the keys listen, port, private_key, public_key and short_id, holding the matching fields |
| Core.GetRealityConfig | internal/core/reality.go:12-15 | never fails; the config is zero-valued: empty listen address, keys and short ID, port 0 |
| Routes.HandleServiceRestart | internal/routes/service.go:15-30 | 405 exactly for a non-POST; 400 exactly for a POST without a name; 500 with the error text exactly when the restart fails; 200 {"status": "ok"} exactly when it succeeds |
| Routes.RestartOnlyAfterChecks | internal/routes/service.go:16-25 | the restart is consulted only after both checks pass, and only for the queried name |
| Routes.HandleServiceStatus | internal/routes/service.go:32-48 | 405 exactly for a non-GET; 400 exactly for a GET without a name; 500 exactly on a status error; otherwise 200 with the status object |
| Routes.HandleSystemdLogs | internal/routes/logs.go:14-33 | 405, then 400 for a missing name, then 500 on a fetch error, each exactly in its case; otherwise 200 with the name echoed and the lines fetched with limit 200 |
| Routes.HandleSystemInfo | internal/routes/system.go:14-25 | 405 for a non-GET, 500 with the text of a core error, otherwise 200 with the info |
| Routes.HandleTrafficSummary | internal/routes/traffic.go:14-25 | 405 for a non-GET, 500 with the text of a core error, otherwise 200 with the summary |
| Routes.HandleFirewallRules | internal/routes/firewall.go:14-25 | 405 for a non-GET, 500 with the text of a lookup error, otherwise 200 with the rules unchanged |
| Routes.HandleRealityConfig | internal/routes/reality.go:14-26 | GET is the only case; every other method falls to the default and gets 405; a GET gets 500 on a core error and otherwise 200 with the config |
| Routes.Serve | internal/routes/service.go:15-48 | each route's handler applied to the request, with the core operation its file calls plugged in (the service handlers here, and the other route files in the same way): RunCommand through the host's runner for restart, status and logs, the host's facts, the constant stubs, and the firewall lookup's result; what this composition answers is stated by the lemmas after it |
| Routes.NoRestartWithoutPostAndName | internal/routes/service.go:16-24 | without POST and a name, the answer does not depend on the host at all, so no restart is issued |
| Routes.RestartAnswer | internal/routes/service.go:25-29 | a POST with a name gets 500 with the runner's error text when systemctl fails, and 200 {"status": "ok"} when it succeeds |
| Routes.StatusNeverFails | internal/routes/service.go:42-47 | the service-status handler never answers 500; a GET with a name is always a 200, and a failed is-active run is reported inactive with its stderr |
| Routes.MethodCheckedFirst | internal/routes/service.go:33-41 | a wrong method gets 405 even when the name is missing (service status and logs) |
| Routes.LogsAnswer | internal/routes/logs.go:19-32 | without a name the answer is 400 whatever the host; with one, a failed journalctl gives 500 with its error text, and a successful one gives 200 with the name and the trimmed output's lines |
| Routes.SystemInfoAlwaysOk | internal/routes/system.go:19-24 | every GET gets 200 with the host's info |
| Routes.TrafficIsConstant | internal/routes/traffic.go:19-24 | every GET gets 200 with both counters 0, whatever the query, body or host; other methods get 405 |
| Routes.RealityIsZeroConfig | internal/routes/reality.go:15-25 | every GET gets 200 with the zero-valued config; other methods get 405 |
| Routes.FirewallAnswer | internal/routes/firewall.go:15-24 | the lookup's result matters only to a GET: its rules are passed on unchanged, and its error becomes a 500 |
| Routes.ApiRoutes | internal/routes/register.go:5-12 | the seven routes RegisterAll adds, in order: /api/system/info, /api/service/restart, /api/service/status, /api/logs/systemd, /api/traffic/summary, /api/firewall/rules, /api/reality/config, each bound to its handler; its properties are the three lemmas below |
| Routes.RegisterSystemRoutes | internal/routes/system.go:10-12 | on a mux without /api/system/info, the handler is added there, and the route table changes in no other way |
| Routes.RegisterServiceRoutes | internal/routes/service.go:10-13 | the restart handler and then the status handler are added, at their two paths |
| Routes.RegisterLogsRoutes | internal/routes/logs.go:10-12 | the handler is added at /api/logs/systemd |
| Routes.RegisterTrafficRoutes | internal/routes/traffic.go:10-12 | the handler is added at /api/traffic/summary |
| Routes.RegisterFirewallRoutes | internal/routes/firewall.go:10-12 | the handler is added at /api/firewall/rules |
| Routes.RegisterRealityRoutes | internal/routes/reality.go:10-12 | the handler is added at /api/reality/config |
| Routes.RegisterAll | internal/routes/register.go:5-12 | on a mux holding none of the seven API paths, exactly the seven routes are appended, in the order system, service (restart, status), logs, traffic, firewall, reality, and no call meets a path twice |
| Routes.ApiRoutesDistinct | internal/routes/register.go:6-11 | no path is registered twice |
| Routes.ApiRoutesUnderApi | internal/routes/register.go:5-12 | every API path starts with /api/ and names a single path, not a subtree |
| Routes.EveryApiRouted | internal/routes/register.go:5-12 | every handler is bound at one of the API paths, and at no other: no two routes share a handler |
| Http.ServeMux.Handle | internal/httpserver/server.go:42 | registration appends the pattern and its handler, and the table changes in no other way; an empty or repeated pattern (a panic in Go) is excluded |
| Http.FallsBackToRoot | internal/httpserver/server.go:41-42 | behind a table of single-path patterns, a path not in the table reaches the handler at "/" |
| Http.TableRoutesWin | internal/httpserver/server.go:38-42 | behind a table of distinct single-path patterns, each path of the table reaches its own handler and not the one at "/" |
| HttpServer.WebDirNotFound | internal/httpserver/server.go:30-32 | the error text is "web dir not found: " followed by the resolved path |
| HttpServer.NewServer | internal/httpserver/server.go:23-45 | an Abs error is returned with no server; a missing directory gives "web dir not found: <abs>" with no server; otherwise the server keeps the resolved path, and its fresh mux holds a valid table of the seven API routes with the file server at "/" after them; looking up an API path on that mux gives its handler, and looking up any other path gives the file server |
| HttpServer.RootAfterApi | internal/httpserver/server.go:38-42 | "/" is not among the API paths, so adding it after them keeps the table valid |
| HttpServer.ServerDispatch | internal/httpserver/server.go:38-42 | on the server's mux, a registered API path reaches its handler and every other path reaches the file server |
| Panel.ErrorBody | panel.go:140-143 | the failure envelope {"success": false, "error": msg}; WriteError sends it |
| Panel.PostOnly | panel.go:169-172 | anything but POST gets writeError's 405 "method not allowed", and a POST gets the handler's payload with 200 |
| Panel.Serve | panel.go:148-403 | each handler's answer to a request: the fixed payload of a read handler, PostOnly with its payload for a mutating one, and the clock for GetTimeStatus; its properties are the lemmas below |
| Panel.WriteJSON | panel.go:133-137 | the content type is set before the status is written, so the status line carries application/json; then the body follows |
| Panel.WriteError | panel.go:139-144 | the status line, then the body {"success": false, "error": msg} |
| Panel.Respond | panel.go:148-403 | a handler writes one status line carrying application/json and one body: its reply, or the error envelope for a fault |
| Panel.MethodPolicy | panel.go:168-378 | a handler answers 405 exactly when it is one of the 14 mutating handlers and the method is not POST |
| Panel.ServeStatuses | panel.go:148-403 | every answer is a 200 or a 405; the 405s, and only they, are writeError's "method not allowed" |
| Panel.MutationsOnPost | panel.go:168-378 | on POST every mutating handler answers 200 {"success": true}, except ResetRealityKeys, which answers its fixed new-key map |
| Panel.ReadsIgnoreMethod | panel.go:148-403 | a read handler does no method check: every method gets the same 200 |
| Panel.OnlyMethodMatters | panel.go:148-403 | no handler reads the query or the body; only GetTimeStatus reads the clock |
| Panel.FirewallPorts | panel.go:250-255 | the firewall listing is ports 22, 52368 and 8443, in that order |
| Panel.TimeStatusShowsClock | panel.go:341-348 | the time status reports the clock it is given, with zone UTC and NTP active |
| PanelApi.PathOf | panel.go:61-116 | the path registerAPIRoutes binds each handler to |
| PanelApi.Registration | panel.go:61-116 | the handler registerAPIRoutes registers k-th, counting from 0 |
| PanelApi.Position | panel.go:61-116 | the position at which a handler is registered; Registration of it gives the handler back |
| PanelApi.PositionOfRegistration | panel.go:61-116 | each position of registerAPIRoutes holds a different handler, so the order is a one-to-one numbering of the 29 handlers |
| PanelApi.PathOfInjective | panel.go:61-116 | no two handlers share a path |
| PanelApi.PathsUnderApi | panel.go:61-116 | every path starts with /api/ and names a single path, not a subtree |
| Panel.PanelRoutes | panel.go:61-116 | the table has 29 routes; route k binds the k-th registered handler at its path |
| Panel.PanelRoutesDistinct | panel.go:61-116 | the 29 registered paths are distinct |
| Panel.EveryHandlerRegistered | panel.go:61-116 | every handler is registered, at its own path, at its own position |
| Panel.RegisterPingRoutes | panel.go:63 | the Ping route is appended |
| Panel.RegisterRealityRoutes | panel.go:66-69 | the four Reality routes are appended, in order |
| Panel.RegisterTrafficRoutes | panel.go:72-73 | the two traffic routes are appended, in order |
| Panel.RegisterSystemRoutes | panel.go:76-78 | the three system routes are appended, in order |
| Panel.RegisterFirewallRoutes | panel.go:81-83 | the three firewall routes are appended, in order |
| Panel.RegisterServiceRoutes | panel.go:86-87 | the two service routes are appended, in order |
| Panel.RegisterConfigRoutes | panel.go:90-91 | the two config routes are appended, in order |
| Panel.RegisterBbrRoutes | panel.go:94-95 | the two BBR routes are appended, in order |
| Panel.RegisterNetworkRoutes | panel.go:98-99 | the two network routes are appended, in order |
| Panel.RegisterTimeRoutes | panel.go:102-103 | the two time routes are appended, in order |
| Panel.RegisterFail2banRoutes | panel.go:106-108 | the three Fail2ban routes are appended, in order |
| Panel.RegisterLogsRoutes | panel.go:111-112 | the two log routes are appended, in order |
| Panel.RegisterCertRoutes | panel.go:115 | the certificate route is appended |
| Panel.RegisterAPIRoutes | panel.go:61-116 | on a mux holding none of the panel's paths, exactly the 29 routes are appended in registration order, and no call meets a path twice |
| Panel.NewPanelMux | panel.go:37-42 | main's mux holds a valid table: the 29 API routes, then the file server for the web directory at "/"; looking up an endpoint's path on it gives that endpoint, and looking up any other path gives the file server |
| Panel.RootIsFree | panel.go:37-42 | "/" is not among the panel's API paths |
| Panel.PanelTableValid | panel.go:37-42 | the finished table has no empty and no repeated pattern |
| Panel.PanelDispatch | panel.go:37-42 | on main's mux, each handler's path reaches that handler and every other path reaches the file server |

## Left out

- Process execution (`exec.Command`, `cmd.Run`, the two capture buffers): this is an operating-system call. A `Runner` function parameter returns how the process ended and what it wrote.
- `strings.TrimSpace` on invalid UTF-8: strings are sequences of Unicode scalar values, and white space is the Unicode White_Space set.
- JSON encoding to bytes: bodies are `Json.Value` trees. Key order, number formatting, encoder errors and the encoder's trailing newline are not modelled.
- The routes' shared `utils.Error` and `utils.JSON` helpers: their file is not part of this model.
  - A handler's error is a `Fault(status, message)` with the envelope left abstract.
  - A JSON answer is a `Reply(status, value)`.
- `core.ListFirewallRules`: its source is not part of this model. Its result is a host parameter, either success or error.
- `core.GetSystemInfo`'s hostname, runtime values and float uptime: these are host facts and floating point, so they are an opaque value.
- Core.TrafficSummary: the `uint64` counters are `nat`. The only values the code ever produces are zero, so wrap-around cannot arise.
- The wall clock: GetTimeStatus's formatted `time.Now()` is a `clock` parameter.
- `logMiddleware`: it formats the time and prints to stdout.
- Program startup, which is process lifecycle and I/O:
  - `init`/`main` flag parsing;
  - the `os.Stat` checks of the certificate and key;
  - `ListenAndServeTLS` and the server timeouts;
  - `Server.Start`;
  - `cmd/panel/main.go`.
- HttpServer.NewServer: `filepath.Abs` and `os.Stat` become parameters, namely their result and whether the directory exists.
- `http.FileServer`: the file server is an opaque handler naming its root.
- Http.Match models only the exact-path-then-longest-subtree rule. It leaves out ServeMux's path cleaning, its redirects, and host and method patterns.
- Nil and empty slices are both `[]`.
- Concurrency of the HTTP server: no handler shares state with another.
- Side effects are stated as independence: "Issues no restart" and "runs no command" become "the answer does not depend on the host". One example is `Routes.NoRestartWithoutPostAndName`.
- Http.ServeMux.Handle: its contract does not carry `ServeMux.Valid()` from call to call. Its requires are the two conditions that keep the table valid (`ValidTableAppend`). NewServer and NewPanelMux prove `Valid()` of each finished table.
- Routes.RegisterAll, Panel.RegisterAPIRoutes: for the same reason, these contracts do not restate `ServeMux.Valid()`.
