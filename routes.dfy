/**
 * internal/routes: the seven API handlers of the plain panel and the
 * functions that bind them into a ServeMux.
 *
 * Each handler is written as a decision table over the request and the
 * result of the core call it makes; the core call is a parameter, so that
 * the table can be read on its own. `Serve` then plugs in the real core
 * operations, and the lemmas after it state what that composition does.
 */
module Routes {
  import opened Wrappers
  import opened GoStrings
  import opened Json
  import opened Http
  import opened Utils
  import Core

  /** The handlers RegisterAll binds, one per route. */
  datatype Api = SystemInfo | ServiceRestart | ServiceStatus | SystemdLogs | TrafficSummary | FirewallRules | RealityConfig

  const MethodNotAllowed := Fault(StatusMethodNotAllowed, "method not allowed")
  const MissingServiceName := Fault(StatusBadRequest, "missing service name")

  // ------------------------------------------------------------ service.go

  /**
   * handleServiceRestart: the method is checked first (POST only), then the
   * `name` query value (missing or empty is a bad request), and only then is
   * the service restarted; its error becomes a 500 carrying the error's text.
   */
  function HandleServiceRestart(r: Request, restart: string -> Option<Error>): (resp: Response)
    ensures resp.status == StatusMethodNotAllowed <==> r.verb != MethodPost
    ensures resp.status == StatusBadRequest <==> r.verb == MethodPost && r.Query("name") == ""
    ensures resp.status == StatusInternalServerError <==>
      r.verb == MethodPost && r.Query("name") != "" && restart(r.Query("name")).Some?
    ensures resp.status == StatusOK <==>
      r.verb == MethodPost && r.Query("name") != "" && restart(r.Query("name")).None?
    ensures resp.status == StatusMethodNotAllowed ==> resp == MethodNotAllowed
    ensures resp.status == StatusBadRequest ==> resp == MissingServiceName
    ensures resp.status == StatusInternalServerError ==>
      resp == Fault(StatusInternalServerError, restart(r.Query("name")).value.text)
    ensures resp.status == StatusOK ==> resp == Reply(StatusOK, Obj(map["status" := Str("ok")]))
  {
    if r.verb != MethodPost then MethodNotAllowed
    else
      var service := r.Query("name");
      if service == "" then MissingServiceName
      else
        match restart(service)
        case Some(err) => Fault(StatusInternalServerError, err.text)
        case None => Reply(StatusOK, Obj(map["status" := Str("ok")]))
  }

  /** The restart is consulted only once both checks pass, and only for the queried name. */
  lemma RestartOnlyAfterChecks(r: Request, restart1: string -> Option<Error>, restart2: string -> Option<Error>)
    requires r.verb == MethodPost && r.Query("name") != "" ==> restart1(r.Query("name")) == restart2(r.Query("name"))
    ensures HandleServiceRestart(r, restart1) == HandleServiceRestart(r, restart2)
  {
  }

  /**
   * handleServiceStatus: GET only, then a non-empty `name`, then the status;
   * a status error would be a 500 carrying its text, otherwise the status
   * object is sent with 200.
   */
  function HandleServiceStatus(r: Request, status: string -> Outcome<Core.ServiceStatus>): (resp: Response)
    ensures resp.status == StatusMethodNotAllowed <==> r.verb != MethodGet
    ensures resp.status == StatusBadRequest <==> r.verb == MethodGet && r.Query("name") == ""
    ensures resp.status == StatusInternalServerError <==>
      r.verb == MethodGet && r.Query("name") != "" && status(r.Query("name")).err.Some?
    ensures resp.status == StatusOK <==>
      r.verb == MethodGet && r.Query("name") != "" && status(r.Query("name")).err.None?
    ensures resp.status == StatusMethodNotAllowed ==> resp == MethodNotAllowed
    ensures resp.status == StatusBadRequest ==> resp == MissingServiceName
    ensures resp.status == StatusInternalServerError ==>
      resp == Fault(StatusInternalServerError, status(r.Query("name")).err.value.text)
    ensures resp.status == StatusOK ==>
      resp == Reply(StatusOK, Core.ServiceStatusJson(status(r.Query("name")).value))
  {
    if r.verb != MethodGet then MethodNotAllowed
    else
      var service := r.Query("name");
      if service == "" then MissingServiceName
      else
        var s := status(service);
        if s.err.Some? then Fault(StatusInternalServerError, s.err.value.text)
        else Reply(StatusOK, Core.ServiceStatusJson(s.value))
  }

  // --------------------------------------------------------------- logs.go

  /**
   * handleSystemdLogs: GET only, then a non-empty `name`, then the logs of
   * that service with limit 200; a fetch error is a 500 carrying its text,
   * otherwise the service name and the fetched lines are sent with 200.
   */
  function HandleSystemdLogs(r: Request, logs: (string, int) -> Outcome<seq<string>>): (resp: Response)
    ensures resp.status == StatusMethodNotAllowed <==> r.verb != MethodGet
    ensures resp.status == StatusBadRequest <==> r.verb == MethodGet && r.Query("name") == ""
    ensures resp.status == StatusInternalServerError <==>
      r.verb == MethodGet && r.Query("name") != "" && logs(r.Query("name"), 200).err.Some?
    ensures resp.status == StatusOK <==>
      r.verb == MethodGet && r.Query("name") != "" && logs(r.Query("name"), 200).err.None?
    ensures resp.status == StatusMethodNotAllowed ==> resp == MethodNotAllowed
    ensures resp.status == StatusBadRequest ==> resp == MissingServiceName
    ensures resp.status == StatusInternalServerError ==>
      resp == Fault(StatusInternalServerError, logs(r.Query("name"), 200).err.value.text)
    ensures resp.status == StatusOK ==>
      resp == Reply(StatusOK, Obj(map["service" := Str(r.Query("name")),
                                      "lines" := Strings(logs(r.Query("name"), 200).value)]))
  {
    if r.verb != MethodGet then MethodNotAllowed
    else
      var service := r.Query("name");
      if service == "" then MissingServiceName
      else
        var fetched := logs(service, 200);
        if fetched.err.Some? then Fault(StatusInternalServerError, fetched.err.value.text)
        else Reply(StatusOK, Obj(map["service" := Str(service), "lines" := Strings(fetched.value)]))
  }

  // ------------------------------------------------ system.go, traffic.go, firewall.go

  /** handleSystemInfo: GET only; a core error is a 500 carrying its text, otherwise the info with 200. */
  function HandleSystemInfo(r: Request, info: Outcome<Value>): (resp: Response)
    ensures r.verb != MethodGet ==> resp == MethodNotAllowed
    ensures r.verb == MethodGet && info.err.Some? ==> resp == Fault(StatusInternalServerError, info.err.value.text)
    ensures r.verb == MethodGet && info.err.None? ==> resp == Reply(StatusOK, info.value)
  {
    if r.verb != MethodGet then MethodNotAllowed
    else if info.err.Some? then Fault(StatusInternalServerError, info.err.value.text)
    else Reply(StatusOK, info.value)
  }

  /** handleTrafficSummary: GET only; a core error is a 500 carrying its text, otherwise the summary with 200. */
  function HandleTrafficSummary(r: Request, data: Outcome<Core.TrafficSummary>): (resp: Response)
    ensures r.verb != MethodGet ==> resp == MethodNotAllowed
    ensures r.verb == MethodGet && data.err.Some? ==> resp == Fault(StatusInternalServerError, data.err.value.text)
    ensures r.verb == MethodGet && data.err.None? ==> resp == Reply(StatusOK, Core.TrafficSummaryJson(data.value))
  {
    if r.verb != MethodGet then MethodNotAllowed
    else if data.err.Some? then Fault(StatusInternalServerError, data.err.value.text)
    else Reply(StatusOK, Core.TrafficSummaryJson(data.value))
  }

  /** handleFirewallRules: GET only; a lookup error is a 500 carrying its text, otherwise the rules unchanged with 200. */
  function HandleFirewallRules(r: Request, rules: Outcome<Value>): (resp: Response)
    ensures r.verb != MethodGet ==> resp == MethodNotAllowed
    ensures r.verb == MethodGet && rules.err.Some? ==> resp == Fault(StatusInternalServerError, rules.err.value.text)
    ensures r.verb == MethodGet && rules.err.None? ==> resp == Reply(StatusOK, rules.value)
  {
    if r.verb != MethodGet then MethodNotAllowed
    else if rules.err.Some? then Fault(StatusInternalServerError, rules.err.value.text)
    else Reply(StatusOK, rules.value)
  }

  // ------------------------------------------------------------ reality.go

  /** handleRealityConfig: a switch on the method whose only case is GET;
      every other method falls to the default and is refused. */
  function HandleRealityConfig(r: Request, cfg: Outcome<Core.RealityConfig>): (resp: Response)
    ensures r.verb != MethodGet ==> resp == MethodNotAllowed
    ensures r.verb == MethodGet && cfg.err.Some? ==> resp == Fault(StatusInternalServerError, cfg.err.value.text)
    ensures r.verb == MethodGet && cfg.err.None? ==> resp == Reply(StatusOK, Core.RealityConfigJson(cfg.value))
  {
    match r.verb
    case "GET" =>
      if cfg.err.Some? then Fault(StatusInternalServerError, cfg.err.value.text)
      else Reply(StatusOK, Core.RealityConfigJson(cfg.value))
    case _ => MethodNotAllowed
  }

  // ------------------------------------------------------- the composition

  /**
   * What the handlers call into: the process runner, the host facts that
   * GetSystemInfo reports, and the result of core.ListFirewallRules, whose
   * source is not part of this model.
   */
  datatype Host = Host(run: Runner, systemInfo: Value, firewallRules: Outcome<Value>)

  /** A request served by the given handler, with the real core operations plugged in. */
  function Serve(api: Api, r: Request, host: Host): Response
  {
    match api
    case SystemInfo => HandleSystemInfo(r, Core.GetSystemInfo(host.systemInfo))
    case ServiceRestart => HandleServiceRestart(r, name => Core.RestartService(host.run, name))
    case ServiceStatus => HandleServiceStatus(r, name => Core.GetServiceStatus(host.run, name))
    case SystemdLogs => HandleSystemdLogs(r, (service, limit) => Core.GetSystemdLogs(host.run, service, limit))
    case TrafficSummary => HandleTrafficSummary(r, Core.GetTrafficSummary())
    case FirewallRules => HandleFirewallRules(r, host.firewallRules)
    case RealityConfig => HandleRealityConfig(r, Core.GetRealityConfig())
  }

  /** A restart is issued only for a POST with a service name: any other
      request gets the same answer whatever the host would have done. */
  lemma NoRestartWithoutPostAndName(r: Request, host1: Host, host2: Host)
    requires r.verb != MethodPost || r.Query("name") == ""
    ensures Serve(ServiceRestart, r, host1) == Serve(ServiceRestart, r, host2)
  {
  }

  /** A restart that fails is a 500 with the runner's error text; one that succeeds is 200 {"status": "ok"}. */
  lemma RestartAnswer(r: Request, host: Host)
    requires r.verb == MethodPost && r.Query("name") != ""
    ensures var o := host.run(Invocation("systemctl", ["restart", r.Query("name")]));
      && (o.Failed? ==> Serve(ServiceRestart, r, host) == Fault(StatusInternalServerError, o.err.text))
      && (o.Exited? ==> Serve(ServiceRestart, r, host) == Reply(StatusOK, Obj(map["status" := Str("ok")])))
  {
  }

  /**
   * The 500 branch of handleServiceStatus cannot be taken, since
   * GetServiceStatus never errors: a GET with a name is always a 200, and a
   * unit whose is-active check fails is reported inactive with its stderr.
   */
  lemma StatusNeverFails(r: Request, host: Host)
    ensures Serve(ServiceStatus, r, host).status != StatusInternalServerError
    ensures r.verb == MethodGet && r.Query("name") != "" ==>
      var o := host.run(Invocation("systemctl", ["is-active", r.Query("name")]));
      && Serve(ServiceStatus, r, host).status == StatusOK
      && (o.Failed? ==>
            Serve(ServiceStatus, r, host) ==
            Reply(StatusOK, Core.ServiceStatusJson(Core.ServiceStatus(r.Query("name"), false, o.stderr))))
  {
  }

  /** The method check comes before the parameter check: a request with the
      wrong method is refused as such even when it has no name. */
  lemma MethodCheckedFirst(r: Request, host: Host)
    requires r.verb != MethodGet
    ensures Serve(ServiceStatus, r, host) == MethodNotAllowed
    ensures Serve(SystemdLogs, r, host) == MethodNotAllowed
  {
  }

  /**
   * A GET for a named service's logs runs `journalctl -u <name> -n 200
   * --no-pager`: a failed run is a 500 with the runner's error text, a
   * successful one a 200 echoing the name with the trimmed output's lines.
   * Without a name nothing is run.
   */
  lemma LogsAnswer(r: Request, host: Host)
    requires r.verb == MethodGet
    ensures r.Query("name") == "" ==> Serve(SystemdLogs, r, host) == MissingServiceName
    ensures r.Query("name") != "" ==>
      var o := host.run(Invocation("journalctl", ["-u", r.Query("name"), "-n", "200", "--no-pager"]));
      && (o.Failed? ==> Serve(SystemdLogs, r, host) == Fault(StatusInternalServerError, o.err.text))
      && (o.Exited? ==>
            Serve(SystemdLogs, r, host) ==
            Reply(StatusOK, Obj(map["service" := Str(r.Query("name")),
                                    "lines" := Strings(Split(TrimSpace(o.stdout), '\n'))])))
  {
  }

  /** Every GET of the system info is a 200 with the host's info. */
  lemma SystemInfoAlwaysOk(r: Request, host: Host)
    requires r.verb == MethodGet
    ensures Serve(SystemInfo, r, host) == Reply(StatusOK, host.systemInfo)
  {
  }

  /** Every request for the traffic summary gets the same answer, whatever
      the query, the body or the host: a GET sees both counters at zero. */
  lemma TrafficIsConstant(r: Request, host: Host)
    ensures Serve(TrafficSummary, r, host) ==
      if r.verb == MethodGet
      then Reply(StatusOK, Obj(map["inbound_bytes" := Num(0), "outbound_bytes" := Num(0)]))
      else MethodNotAllowed
  {
  }

  /** Every GET of the Reality config is a 200 with the zero-valued config. */
  lemma RealityIsZeroConfig(r: Request, host: Host)
    ensures Serve(RealityConfig, r, host) ==
      if r.verb == MethodGet
      then Reply(StatusOK, Obj(map["listen" := Str(""), "port" := Num(0), "private_key" := Str(""),
                                   "public_key" := Str(""), "short_id" := Str("")]))
      else MethodNotAllowed
  {
  }

  /** The firewall lookup matters only to a GET; its rules are passed on unchanged. */
  lemma FirewallAnswer(r: Request, host: Host)
    ensures r.verb != MethodGet ==> Serve(FirewallRules, r, host) == MethodNotAllowed
    ensures r.verb == MethodGet && host.firewallRules.err.None? ==>
      Serve(FirewallRules, r, host) == Reply(StatusOK, host.firewallRules.value)
    ensures r.verb == MethodGet && host.firewallRules.err.Some? ==>
      Serve(FirewallRules, r, host) == Fault(StatusInternalServerError, host.firewallRules.err.value.text)
  {
  }

  // ------------------------------------------------------ route registration

  /** The routes each register function adds, in the order it adds them. */
  function SystemRoutes(): seq<Route<Api>> { [Route("/api/system/info", Endpoint(SystemInfo))] }
  function ServiceRoutes(): seq<Route<Api>> {
    [Route("/api/service/restart", Endpoint(ServiceRestart)), Route("/api/service/status", Endpoint(ServiceStatus))]
  }
  function LogsRoutes(): seq<Route<Api>> { [Route("/api/logs/systemd", Endpoint(SystemdLogs))] }
  function TrafficRoutes(): seq<Route<Api>> { [Route("/api/traffic/summary", Endpoint(TrafficSummary))] }
  function FirewallRoutes(): seq<Route<Api>> { [Route("/api/firewall/rules", Endpoint(FirewallRules))] }
  function RealityRoutes(): seq<Route<Api>> { [Route("/api/reality/config", Endpoint(RealityConfig))] }

  /** The routes RegisterAll adds, in the order it adds them. */
  function ApiRoutes(): seq<Route<Api>>
  {
    SystemRoutes() + ServiceRoutes() + LogsRoutes() + TrafficRoutes() + FirewallRoutes() + RealityRoutes()
  }

  /** No path is registered twice, so RegisterAll never makes ServeMux panic. */
  lemma ApiRoutesDistinct()
    ensures DistinctPatterns(ApiRoutes())
  {
  }

  /** Every API path lies under /api/ and names a single path, not a subtree. */
  lemma ApiRoutesUnderApi()
    ensures forall i :: 0 <= i < |ApiRoutes()| ==> "/api/" <= ApiRoutes()[i].pattern && !Subtree(ApiRoutes()[i].pattern)
  {
  }

  /** Every handler is bound at one of the API paths, and at no other. */
  lemma EveryApiRouted(a: Api)
    ensures exists i :: 0 <= i < |ApiRoutes()| && ApiRoutes()[i].handler == Endpoint(a)
    ensures forall i, j :: 0 <= i < j < |ApiRoutes()| ==>
      !(ApiRoutes()[i].handler == Endpoint(a) && ApiRoutes()[j].handler == Endpoint(a))
  {
    var t := ApiRoutes();
    match a
    case SystemInfo => assert t[0].handler == Endpoint(a);
    case ServiceRestart => assert t[1].handler == Endpoint(a);
    case ServiceStatus => assert t[2].handler == Endpoint(a);
    case SystemdLogs => assert t[3].handler == Endpoint(a);
    case TrafficSummary => assert t[4].handler == Endpoint(a);
    case FirewallRules => assert t[5].handler == Endpoint(a);
    case RealityConfig => assert t[6].handler == Endpoint(a);
  }

  /** registerSystemRoutes; none of its paths may be taken yet. */
  method RegisterSystemRoutes(mux: ServeMux<Api>)
    requires Unclaimed(mux.routes, SystemRoutes())
    modifies mux
    ensures mux.routes == old(mux.routes) + SystemRoutes()
  {
    assert SystemRoutes()[0].pattern == "/api/system/info";
    mux.Handle("/api/system/info", Endpoint(SystemInfo));
  }

  /** registerServiceRoutes; none of its paths may be taken yet. */
  method RegisterServiceRoutes(mux: ServeMux<Api>)
    requires Unclaimed(mux.routes, ServiceRoutes())
    modifies mux
    ensures mux.routes == old(mux.routes) + ServiceRoutes()
  {
    assert ServiceRoutes()[0].pattern == "/api/service/restart";
    mux.Handle("/api/service/restart", Endpoint(ServiceRestart));
    assert ServiceRoutes()[1].pattern == "/api/service/status";
    mux.Handle("/api/service/status", Endpoint(ServiceStatus));
  }

  /** registerLogsRoutes; none of its paths may be taken yet. */
  method RegisterLogsRoutes(mux: ServeMux<Api>)
    requires Unclaimed(mux.routes, LogsRoutes())
    modifies mux
    ensures mux.routes == old(mux.routes) + LogsRoutes()
  {
    assert LogsRoutes()[0].pattern == "/api/logs/systemd";
    mux.Handle("/api/logs/systemd", Endpoint(SystemdLogs));
  }

  /** registerTrafficRoutes; none of its paths may be taken yet. */
  method RegisterTrafficRoutes(mux: ServeMux<Api>)
    requires Unclaimed(mux.routes, TrafficRoutes())
    modifies mux
    ensures mux.routes == old(mux.routes) + TrafficRoutes()
  {
    assert TrafficRoutes()[0].pattern == "/api/traffic/summary";
    mux.Handle("/api/traffic/summary", Endpoint(TrafficSummary));
  }

  /** registerFirewallRoutes; none of its paths may be taken yet. */
  method RegisterFirewallRoutes(mux: ServeMux<Api>)
    requires Unclaimed(mux.routes, FirewallRoutes())
    modifies mux
    ensures mux.routes == old(mux.routes) + FirewallRoutes()
  {
    assert FirewallRoutes()[0].pattern == "/api/firewall/rules";
    mux.Handle("/api/firewall/rules", Endpoint(FirewallRules));
  }

  /** registerRealityRoutes; none of its paths may be taken yet. */
  method RegisterRealityRoutes(mux: ServeMux<Api>)
    requires Unclaimed(mux.routes, RealityRoutes())
    modifies mux
    ensures mux.routes == old(mux.routes) + RealityRoutes()
  {
    assert RealityRoutes()[0].pattern == "/api/reality/config";
    mux.Handle("/api/reality/config", Endpoint(RealityConfig));
  }

  /**
   * RegisterAll: the six register functions in turn, on a mux that holds
   * none of the API paths yet; none of them registers a path another has
   * registered, so ServeMux never panics.
   */
  method RegisterAll(mux: ServeMux<Api>)
    requires Unclaimed(mux.routes, ApiRoutes())
    modifies mux
    ensures mux.routes == old(mux.routes) + ApiRoutes()
  {
    ghost var r0 := mux.routes;
    ApiRoutesDistinct();
    assert r0 + ApiRoutes()[..0] == r0;
    SliceUnclaimed(r0, ApiRoutes(), 0, 1);
    assert ApiRoutes()[0..1] == SystemRoutes();
    RegisterSystemRoutes(mux);
    SliceUnclaimed(r0, ApiRoutes(), 1, 3);
    assert ApiRoutes()[1..3] == ServiceRoutes();
    RegisterServiceRoutes(mux);
    SliceUnclaimed(r0, ApiRoutes(), 3, 4);
    assert ApiRoutes()[3..4] == LogsRoutes();
    RegisterLogsRoutes(mux);
    SliceUnclaimed(r0, ApiRoutes(), 4, 5);
    assert ApiRoutes()[4..5] == TrafficRoutes();
    RegisterTrafficRoutes(mux);
    SliceUnclaimed(r0, ApiRoutes(), 5, 6);
    assert ApiRoutes()[5..6] == FirewallRoutes();
    RegisterFirewallRoutes(mux);
    SliceUnclaimed(r0, ApiRoutes(), 6, 7);
    assert ApiRoutes()[6..7] == RealityRoutes();
    RegisterRealityRoutes(mux);
    assert ApiRoutes()[..7] == ApiRoutes();
  }
}
