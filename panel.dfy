/**
 * panel.go: the single-file Reality panel. Twenty-nine stub handlers, each
 * either a read that answers any method with its payload (fixed, except that
 * GetTimeStatus carries the clock) or a mutation that refuses every method
 * but POST and then answers with a fixed payload (a success flag, or the new
 * keys of ResetRealityKeys); the two response writers they share; and the
 * route table registerAPIRoutes builds.
 */
module Panel {
  import opened Wrappers
  import opened Json
  import opened Http
  import opened PanelApi

  /** The handlers that change something on the host, and so demand POST. */
  const Mutating: set<Api> := {
    UpdateRealityConfig, ResetRealityKeys, RestartRealityService, ResetTraffic, SetTimezone, SetSwap,
    OpenFirewallPort, CloseFirewallPort, RestartService, SaveConfig, EnableBBR, SetNetworkPriority,
    SyncTime, UnbanIP }

  // --------------------------------------------------------------- writers

  /** The body writeError sends. */
  function ErrorBody(msg: string): Value
  {
    Obj(map["success" := Bool(false), "error" := Str(msg)])
  }

  /** writeJSON: the content type is set first, so the status line carries it; then the body. */
  method WriteJSON(w: ResponseWriter, status: int, data: Value)
    modifies w
    ensures w.header == old(w.header)["Content-Type" := "application/json"]
    ensures w.wire == old(w.wire) + [StatusLine(status, w.header), Body(data)]
  {
    w.Set("Content-Type", "application/json");
    w.WriteHeader(status);
    w.Encode(data);
  }

  /** writeError: writeJSON of the failure envelope. */
  method WriteError(w: ResponseWriter, status: int, msg: string)
    modifies w
    ensures w.header == old(w.header)["Content-Type" := "application/json"]
    ensures w.wire == old(w.wire) + [StatusLine(status, w.header), Body(ErrorBody(msg))]
  {
    WriteJSON(w, status, ErrorBody(msg));
  }

  // -------------------------------------------------------------- handlers

  const Success := Obj(map["success" := Bool(true)])

  /** The method check every mutating handler opens with: anything but POST
      is writeError's 405 and nothing else happens; a POST gets `ok` with 200. */
  function PostOnly(r: Request, ok: Value): (resp: Response)
    ensures resp.Fault? <==> r.verb != MethodPost
    ensures resp.Fault? ==> resp == Fault(StatusMethodNotAllowed, "method not allowed")
    ensures resp.Reply? ==> resp == Reply(StatusOK, ok)
  {
    if r.verb != MethodPost then Fault(StatusMethodNotAllowed, "method not allowed")
    else Reply(StatusOK, ok)
  }

  /**
   * What each handler answers: a Reply goes out through writeJSON, a Fault
   * through writeError. `clock` is time.Now() formatted as GetTimeStatus
   * formats it.
   */
  function Serve(a: Api, r: Request, clock: string): Response
  {
    match a
    case Ping => Reply(StatusOK, Obj(map["msg" := Str("pong")]))
    case GetRealityInfo =>
      Reply(StatusOK, Obj(map["listen_port" := Num(52368), "server_name" := Str("www.amd.com"),
                              "uuid" := Str("demo-uuid"), "private_key" := Str("demo-priv"),
                              "public_key" := Str("demo-pub"), "short_id" := Str("demo-short"),
                              "flow" := Str("xtls-rprx-vision"), "user_name" := Str("Reality_Default")]))
    case UpdateRealityConfig => PostOnly(r, Success)
    case ResetRealityKeys =>
      PostOnly(r, Obj(map["private_key" := Str("new-priv"), "public_key" := Str("new-pub"),
                          "uuid" := Str("new-uuid"), "short_id" := Str("new-short")]))
    case RestartRealityService => PostOnly(r, Success)
    case GetTrafficInfo =>
      Reply(StatusOK, Obj(map["upload" := Num(0), "download" := Num(0), "last_update" := Str("")]))
    case ResetTraffic => PostOnly(r, Success)
    case GetSystemInfo => Reply(StatusOK, Obj(map["timezone" := Str("UTC"), "swap" := Num(0)]))
    case SetTimezone => PostOnly(r, Success)
    case SetSwap => PostOnly(r, Success)
    case GetFirewallRules => Reply(StatusOK, Obj(map["ports" := Arr([Num(22), Num(52368), Num(8443)])]))
    case OpenFirewallPort => PostOnly(r, Success)
    case CloseFirewallPort => PostOnly(r, Success)
    case GetServiceStatus => Reply(StatusOK, Obj(map["status" := Str("running")]))
    case RestartService => PostOnly(r, Success)
    case ViewConfig => Reply(StatusOK, Obj(map["content" := Str("{}")]))
    case SaveConfig => PostOnly(r, Success)
    case GetBBRStatus => Reply(StatusOK, Obj(map["enabled" := Bool(true)]))
    case EnableBBR => PostOnly(r, Success)
    case GetNetworkPriority => Reply(StatusOK, Obj(map["mode" := Str("ipv4")]))
    case SetNetworkPriority => PostOnly(r, Success)
    case GetTimeStatus =>
      Reply(StatusOK, Obj(map["time" := Str(clock), "timezone" := Str("UTC"), "ntp_active" := Bool(true)]))
    case SyncTime => PostOnly(r, Success)
    case GetFail2banStatus => Reply(StatusOK, Obj(map["status" := Str("running")]))
    case GetFail2banJails => Reply(StatusOK, Obj(map["jails" := Strings(["sshd", "nginx-http-auth"])]))
    case UnbanIP => PostOnly(r, Success)
    case GetSingboxLogs => Reply(StatusOK, Obj(map["lines" := Strings([])]))
    case GetFail2banLogs => Reply(StatusOK, Obj(map["lines" := Strings([])]))
    case GetCertStatus =>
      Reply(StatusOK, Obj(map["issuer" := Str("ZeroSSL"), "valid_from" := Str(""), "valid_to" := Str(""),
                              "days_remaining" := Num(0), "ip" := Str("")]))
  }

  /** The body that goes on the wire for a response. */
  function Sent(resp: Response): Value
  {
    match resp
    case Reply(_, body) => body
    case Fault(_, msg) => ErrorBody(msg)
  }

  /** A handler run against a response writer. */
  method Respond(w: ResponseWriter, a: Api, r: Request, clock: string)
    modifies w
    ensures w.header == old(w.header)["Content-Type" := "application/json"]
    ensures w.wire == old(w.wire) + [StatusLine(Serve(a, r, clock).status, w.header), Body(Sent(Serve(a, r, clock)))]
  {
    match Serve(a, r, clock)
    case Reply(status, body) => WriteJSON(w, status, body);
    case Fault(status, msg) => WriteError(w, status, msg);
  }

  /** The method policy: a handler answers 405 exactly when it is a mutating
      one and the method is not POST. */
  lemma MethodPolicy(a: Api, r: Request, clock: string)
    ensures Serve(a, r, clock).status == StatusMethodNotAllowed <==> a in Mutating && r.verb != MethodPost
  {
  }

  /** Every answer is a 200 or writeError's 405 "method not allowed", and
      only the 405 goes through writeError. */
  lemma ServeStatuses(a: Api, r: Request, clock: string)
    ensures Serve(a, r, clock).status == StatusMethodNotAllowed || Serve(a, r, clock).status == StatusOK
    ensures Serve(a, r, clock).Fault? <==> Serve(a, r, clock).status == StatusMethodNotAllowed
    ensures Serve(a, r, clock).Fault? ==> Serve(a, r, clock) == Fault(StatusMethodNotAllowed, "method not allowed")
  {
  }

  /** A POST to any of the 14 mutating endpoints gets its fixed 200 payload:
      the success flag, or the new keys for ResetRealityKeys. */
  lemma MutationsOnPost(a: Api, r: Request, clock: string)
    requires a in Mutating && r.verb == MethodPost
    ensures a != ResetRealityKeys ==> Serve(a, r, clock) == Reply(StatusOK, Obj(map["success" := Bool(true)]))
    ensures a == ResetRealityKeys ==>
      Serve(a, r, clock) == Reply(StatusOK, Obj(map["private_key" := Str("new-priv"), "public_key" := Str("new-pub"),
                                                    "uuid" := Str("new-uuid"), "short_id" := Str("new-short")]))
  {
  }

  /** A read handler does no method check: every method gets the same 200. */
  lemma ReadsIgnoreMethod(a: Api, r1: Request, r2: Request, clock: string)
    requires a !in Mutating
    ensures Serve(a, r1, clock) == Serve(a, r2, clock)
    ensures Serve(a, r1, clock).Reply? && Serve(a, r1, clock).status == StatusOK
  {
  }

  /** No handler reads the query or the body, and only GetTimeStatus reads the clock. */
  lemma OnlyMethodMatters(a: Api, r1: Request, r2: Request, clock1: string, clock2: string)
    requires r1.verb == r2.verb
    requires a == GetTimeStatus ==> clock1 == clock2
    ensures Serve(a, r1, clock1) == Serve(a, r2, clock2)
  {
  }

  /** The firewall listing is always ports 22, 52368 and 8443, in that order. */
  lemma FirewallPorts(r: Request, clock: string)
    ensures Serve(GetFirewallRules, r, clock).body.fields["ports"] == Arr([Num(22), Num(52368), Num(8443)])
  {
  }

  /** The time status reports the clock it is given, with zone UTC and NTP on. */
  lemma TimeStatusShowsClock(r: Request, clock: string)
    ensures Serve(GetTimeStatus, r, clock).body.fields["time"] == Str(clock)
    ensures Serve(GetTimeStatus, r, clock).body.fields["timezone"] == Str("UTC")
    ensures Serve(GetTimeStatus, r, clock).body.fields["ntp_active"] == Bool(true)
  {
  }

  // ----------------------------------------------------------------- routes

  /** The routes registerAPIRoutes adds, in the order it adds them. */
  function PanelRoutes(): (t: seq<Route<Api>>)
    ensures |t| == 29
    ensures forall k :: 0 <= k < 29 ==> t[k] == Route(PathOf(Registration(k)), Endpoint(Registration(k)))
  {
    seq(29, k requires 0 <= k < 29 => Route(PathOf(Registration(k)), Endpoint(Registration(k))))
  }

  /** registerAPIRoutes registers 29 distinct paths. */
  lemma PanelRoutesDistinct()
    ensures DistinctPatterns(PanelRoutes())
  {
    var t := PanelRoutes();
    forall i, j | 0 <= i < j < |t| ensures t[i].pattern != t[j].pattern {
      PathOfInjective(Registration(i), Registration(j));
      PositionOfRegistration(i);
      PositionOfRegistration(j);
    }
  }

  /** Every handler is registered, at its own path. */
  lemma EveryHandlerRegistered(a: Api)
    ensures PanelRoutes()[Position(a)] == Route(PathOf(a), Endpoint(a))
  {
  }

  /** Behind a table r0 without panel paths that holds the panel routes before
      `lo`, the routes from `lo` to `hi` find their paths free. */
  lemma PanelSlice(r0: seq<Route<Api>>, lo: nat, hi: nat)
    requires lo <= hi <= |PanelRoutes()| && Unclaimed(r0, PanelRoutes())
    ensures Unclaimed(r0 + PanelRoutes()[..lo], PanelRoutes()[lo..hi])
    ensures (r0 + PanelRoutes()[..lo]) + PanelRoutes()[lo..hi] == r0 + PanelRoutes()[..hi]
  {
    PanelRoutesDistinct();
    SliceUnclaimed(r0, PanelRoutes(), lo, hi);
  }

  /** The Ping section of registerAPIRoutes, in order. */
  function PingSection(): seq<Route<Api>> {
    [Route("/api/ping", Endpoint(Ping))]
  }

  /** The Ping section is routes 0 to 0 of the panel table. */
  lemma PingSectionInPlace()
    ensures PanelRoutes()[0..1] == PingSection()
  {
  }

  /** Registers the Ping section in order; none of its paths may be taken yet. */
  method RegisterPingRoutes(mux: ServeMux<Api>)
    requires Unclaimed(mux.routes, PingSection())
    modifies mux
    ensures mux.routes == old(mux.routes) + PingSection()
  {
    assert PingSection()[0].pattern == "/api/ping";
    mux.Handle("/api/ping", Endpoint(Ping));
  }

  /** The Reality section of registerAPIRoutes, in order. */
  function RealitySection(): seq<Route<Api>> {
    [
      Route("/api/reality/info", Endpoint(GetRealityInfo)),
      Route("/api/reality/update", Endpoint(UpdateRealityConfig)),
      Route("/api/reality/reset-keys", Endpoint(ResetRealityKeys)),
      Route("/api/reality/restart", Endpoint(RestartRealityService))
    ]
  }

  /** The Reality section is routes 1 to 4 of the panel table. */
  lemma RealitySectionInPlace()
    ensures PanelRoutes()[1..5] == RealitySection()
  {
  }

  /** Registers the Reality section in order; none of its paths may be taken yet. */
  method RegisterRealityRoutes(mux: ServeMux<Api>)
    requires Unclaimed(mux.routes, RealitySection())
    modifies mux
    ensures mux.routes == old(mux.routes) + RealitySection()
  {
    assert RealitySection()[0].pattern == "/api/reality/info";
    mux.Handle("/api/reality/info", Endpoint(GetRealityInfo));
    assert RealitySection()[1].pattern == "/api/reality/update";
    mux.Handle("/api/reality/update", Endpoint(UpdateRealityConfig));
    assert RealitySection()[2].pattern == "/api/reality/reset-keys";
    mux.Handle("/api/reality/reset-keys", Endpoint(ResetRealityKeys));
    assert RealitySection()[3].pattern == "/api/reality/restart";
    mux.Handle("/api/reality/restart", Endpoint(RestartRealityService));
  }

  /** The traffic section of registerAPIRoutes, in order. */
  function TrafficSection(): seq<Route<Api>> {
    [Route("/api/traffic/info", Endpoint(GetTrafficInfo)), Route("/api/traffic/reset", Endpoint(ResetTraffic))]
  }

  /** The traffic section is routes 5 to 6 of the panel table. */
  lemma TrafficSectionInPlace()
    ensures PanelRoutes()[5..7] == TrafficSection()
  {
  }

  /** Registers the Traffic section in order; none of its paths may be taken yet. */
  method RegisterTrafficRoutes(mux: ServeMux<Api>)
    requires Unclaimed(mux.routes, TrafficSection())
    modifies mux
    ensures mux.routes == old(mux.routes) + TrafficSection()
  {
    assert TrafficSection()[0].pattern == "/api/traffic/info";
    mux.Handle("/api/traffic/info", Endpoint(GetTrafficInfo));
    assert TrafficSection()[1].pattern == "/api/traffic/reset";
    mux.Handle("/api/traffic/reset", Endpoint(ResetTraffic));
  }

  /** The system section of registerAPIRoutes, in order. */
  function SystemSection(): seq<Route<Api>> {
    [
      Route("/api/system/info", Endpoint(GetSystemInfo)),
      Route("/api/system/timezone", Endpoint(SetTimezone)),
      Route("/api/system/swap", Endpoint(SetSwap))
    ]
  }

  /** The system section is routes 7 to 9 of the panel table. */
  lemma SystemSectionInPlace()
    ensures PanelRoutes()[7..10] == SystemSection()
  {
  }

  /** Registers the System section in order; none of its paths may be taken yet. */
  method RegisterSystemRoutes(mux: ServeMux<Api>)
    requires Unclaimed(mux.routes, SystemSection())
    modifies mux
    ensures mux.routes == old(mux.routes) + SystemSection()
  {
    assert SystemSection()[0].pattern == "/api/system/info";
    mux.Handle("/api/system/info", Endpoint(GetSystemInfo));
    assert SystemSection()[1].pattern == "/api/system/timezone";
    mux.Handle("/api/system/timezone", Endpoint(SetTimezone));
    assert SystemSection()[2].pattern == "/api/system/swap";
    mux.Handle("/api/system/swap", Endpoint(SetSwap));
  }

  /** The firewall section of registerAPIRoutes, in order. */
  function FirewallSection(): seq<Route<Api>> {
    [
      Route("/api/firewall/list", Endpoint(GetFirewallRules)),
      Route("/api/firewall/open", Endpoint(OpenFirewallPort)),
      Route("/api/firewall/close", Endpoint(CloseFirewallPort))
    ]
  }

  /** The firewall section is routes 10 to 12 of the panel table. */
  lemma FirewallSectionInPlace()
    ensures PanelRoutes()[10..13] == FirewallSection()
  {
  }

  /** Registers the Firewall section in order; none of its paths may be taken yet. */
  method RegisterFirewallRoutes(mux: ServeMux<Api>)
    requires Unclaimed(mux.routes, FirewallSection())
    modifies mux
    ensures mux.routes == old(mux.routes) + FirewallSection()
  {
    assert FirewallSection()[0].pattern == "/api/firewall/list";
    mux.Handle("/api/firewall/list", Endpoint(GetFirewallRules));
    assert FirewallSection()[1].pattern == "/api/firewall/open";
    mux.Handle("/api/firewall/open", Endpoint(OpenFirewallPort));
    assert FirewallSection()[2].pattern == "/api/firewall/close";
    mux.Handle("/api/firewall/close", Endpoint(CloseFirewallPort));
  }

  /** The service section of registerAPIRoutes, in order. */
  function ServiceSection(): seq<Route<Api>> {
    [Route("/api/service/status", Endpoint(GetServiceStatus)), Route("/api/service/restart", Endpoint(RestartService))]
  }

  /** The service section is routes 13 to 14 of the panel table. */
  lemma ServiceSectionInPlace()
    ensures PanelRoutes()[13..15] == ServiceSection()
  {
  }

  /** Registers the Service section in order; none of its paths may be taken yet. */
  method RegisterServiceRoutes(mux: ServeMux<Api>)
    requires Unclaimed(mux.routes, ServiceSection())
    modifies mux
    ensures mux.routes == old(mux.routes) + ServiceSection()
  {
    assert ServiceSection()[0].pattern == "/api/service/status";
    mux.Handle("/api/service/status", Endpoint(GetServiceStatus));
    assert ServiceSection()[1].pattern == "/api/service/restart";
    mux.Handle("/api/service/restart", Endpoint(RestartService));
  }

  /** The config section of registerAPIRoutes, in order. */
  function ConfigSection(): seq<Route<Api>> {
    [Route("/api/config/view", Endpoint(ViewConfig)), Route("/api/config/save", Endpoint(SaveConfig))]
  }

  /** The config section is routes 15 to 16 of the panel table. */
  lemma ConfigSectionInPlace()
    ensures PanelRoutes()[15..17] == ConfigSection()
  {
  }

  /** Registers the Config section in order; none of its paths may be taken yet. */
  method RegisterConfigRoutes(mux: ServeMux<Api>)
    requires Unclaimed(mux.routes, ConfigSection())
    modifies mux
    ensures mux.routes == old(mux.routes) + ConfigSection()
  {
    assert ConfigSection()[0].pattern == "/api/config/view";
    mux.Handle("/api/config/view", Endpoint(ViewConfig));
    assert ConfigSection()[1].pattern == "/api/config/save";
    mux.Handle("/api/config/save", Endpoint(SaveConfig));
  }

  /** The BBR section of registerAPIRoutes, in order. */
  function BbrSection(): seq<Route<Api>> {
    [Route("/api/bbr/status", Endpoint(GetBBRStatus)), Route("/api/bbr/enable", Endpoint(EnableBBR))]
  }

  /** The BBR section is routes 17 to 18 of the panel table. */
  lemma BbrSectionInPlace()
    ensures PanelRoutes()[17..19] == BbrSection()
  {
  }

  /** Registers the Bbr section in order; none of its paths may be taken yet. */
  method RegisterBbrRoutes(mux: ServeMux<Api>)
    requires Unclaimed(mux.routes, BbrSection())
    modifies mux
    ensures mux.routes == old(mux.routes) + BbrSection()
  {
    assert BbrSection()[0].pattern == "/api/bbr/status";
    mux.Handle("/api/bbr/status", Endpoint(GetBBRStatus));
    assert BbrSection()[1].pattern == "/api/bbr/enable";
    mux.Handle("/api/bbr/enable", Endpoint(EnableBBR));
  }

  /** The network priority section of registerAPIRoutes, in order. */
  function NetworkSection(): seq<Route<Api>> {
    [Route("/api/network/priority", Endpoint(GetNetworkPriority)), Route("/api/network/set", Endpoint(SetNetworkPriority))]
  }

  /** The network priority section is routes 19 to 20 of the panel table. */
  lemma NetworkSectionInPlace()
    ensures PanelRoutes()[19..21] == NetworkSection()
  {
  }

  /** Registers the Network section in order; none of its paths may be taken yet. */
  method RegisterNetworkRoutes(mux: ServeMux<Api>)
    requires Unclaimed(mux.routes, NetworkSection())
    modifies mux
    ensures mux.routes == old(mux.routes) + NetworkSection()
  {
    assert NetworkSection()[0].pattern == "/api/network/priority";
    mux.Handle("/api/network/priority", Endpoint(GetNetworkPriority));
    assert NetworkSection()[1].pattern == "/api/network/set";
    mux.Handle("/api/network/set", Endpoint(SetNetworkPriority));
  }

  /** The time sync section of registerAPIRoutes, in order. */
  function TimeSection(): seq<Route<Api>> {
    [Route("/api/time/status", Endpoint(GetTimeStatus)), Route("/api/time/sync", Endpoint(SyncTime))]
  }

  /** The time sync section is routes 21 to 22 of the panel table. */
  lemma TimeSectionInPlace()
    ensures PanelRoutes()[21..23] == TimeSection()
  {
  }

  /** Registers the Time section in order; none of its paths may be taken yet. */
  method RegisterTimeRoutes(mux: ServeMux<Api>)
    requires Unclaimed(mux.routes, TimeSection())
    modifies mux
    ensures mux.routes == old(mux.routes) + TimeSection()
  {
    assert TimeSection()[0].pattern == "/api/time/status";
    mux.Handle("/api/time/status", Endpoint(GetTimeStatus));
    assert TimeSection()[1].pattern == "/api/time/sync";
    mux.Handle("/api/time/sync", Endpoint(SyncTime));
  }

  /** The Fail2ban section of registerAPIRoutes, in order. */
  function Fail2banSection(): seq<Route<Api>> {
    [
      Route("/api/fail2ban/status", Endpoint(GetFail2banStatus)),
      Route("/api/fail2ban/jails", Endpoint(GetFail2banJails)),
      Route("/api/fail2ban/unban", Endpoint(UnbanIP))
    ]
  }

  /** The Fail2ban section is routes 23 to 25 of the panel table. */
  lemma Fail2banSectionInPlace()
    ensures PanelRoutes()[23..26] == Fail2banSection()
  {
  }

  /** Registers the Fail2ban section in order; none of its paths may be taken yet. */
  method RegisterFail2banRoutes(mux: ServeMux<Api>)
    requires Unclaimed(mux.routes, Fail2banSection())
    modifies mux
    ensures mux.routes == old(mux.routes) + Fail2banSection()
  {
    assert Fail2banSection()[0].pattern == "/api/fail2ban/status";
    mux.Handle("/api/fail2ban/status", Endpoint(GetFail2banStatus));
    assert Fail2banSection()[1].pattern == "/api/fail2ban/jails";
    mux.Handle("/api/fail2ban/jails", Endpoint(GetFail2banJails));
    assert Fail2banSection()[2].pattern == "/api/fail2ban/unban";
    mux.Handle("/api/fail2ban/unban", Endpoint(UnbanIP));
  }

  /** The logs section of registerAPIRoutes, in order. */
  function LogsSection(): seq<Route<Api>> {
    [Route("/api/logs/singbox", Endpoint(GetSingboxLogs)), Route("/api/logs/fail2ban", Endpoint(GetFail2banLogs))]
  }

  /** The logs section is routes 26 to 27 of the panel table. */
  lemma LogsSectionInPlace()
    ensures PanelRoutes()[26..28] == LogsSection()
  {
  }

  /** Registers the Logs section in order; none of its paths may be taken yet. */
  method RegisterLogsRoutes(mux: ServeMux<Api>)
    requires Unclaimed(mux.routes, LogsSection())
    modifies mux
    ensures mux.routes == old(mux.routes) + LogsSection()
  {
    assert LogsSection()[0].pattern == "/api/logs/singbox";
    mux.Handle("/api/logs/singbox", Endpoint(GetSingboxLogs));
    assert LogsSection()[1].pattern == "/api/logs/fail2ban";
    mux.Handle("/api/logs/fail2ban", Endpoint(GetFail2banLogs));
  }

  /** The certificate status section of registerAPIRoutes, in order. */
  function CertSection(): seq<Route<Api>> {
    [Route("/api/cert/status", Endpoint(GetCertStatus))]
  }

  /** The certificate status section is routes 28 to 28 of the panel table. */
  lemma CertSectionInPlace()
    ensures PanelRoutes()[28..29] == CertSection()
  {
  }

  /** Registers the Cert section in order; none of its paths may be taken yet. */
  method RegisterCertRoutes(mux: ServeMux<Api>)
    requires Unclaimed(mux.routes, CertSection())
    modifies mux
    ensures mux.routes == old(mux.routes) + CertSection()
  {
    assert CertSection()[0].pattern == "/api/cert/status";
    mux.Handle("/api/cert/status", Endpoint(GetCertStatus));
  }

  /**
   * registerAPIRoutes: the 29 HandleFunc calls of panel.go, section by
   * section, on a mux that holds none of their paths yet; no call meets a
   * path twice, so ServeMux never panics.
   */
  method RegisterAPIRoutes(mux: ServeMux<Api>)
    requires Unclaimed(mux.routes, PanelRoutes())
    modifies mux
    ensures mux.routes == old(mux.routes) + PanelRoutes()
  {
    ghost var r0 := mux.routes;
    assert r0 + PanelRoutes()[..0] == r0;
    PanelSlice(r0, 0, 1);
    PingSectionInPlace();
    RegisterPingRoutes(mux);
    PanelSlice(r0, 1, 5);
    RealitySectionInPlace();
    RegisterRealityRoutes(mux);
    PanelSlice(r0, 5, 7);
    TrafficSectionInPlace();
    RegisterTrafficRoutes(mux);
    PanelSlice(r0, 7, 10);
    SystemSectionInPlace();
    RegisterSystemRoutes(mux);
    PanelSlice(r0, 10, 13);
    FirewallSectionInPlace();
    RegisterFirewallRoutes(mux);
    PanelSlice(r0, 13, 15);
    ServiceSectionInPlace();
    RegisterServiceRoutes(mux);
    PanelSlice(r0, 15, 17);
    ConfigSectionInPlace();
    RegisterConfigRoutes(mux);
    PanelSlice(r0, 17, 19);
    BbrSectionInPlace();
    RegisterBbrRoutes(mux);
    PanelSlice(r0, 19, 21);
    NetworkSectionInPlace();
    RegisterNetworkRoutes(mux);
    PanelSlice(r0, 21, 23);
    TimeSectionInPlace();
    RegisterTimeRoutes(mux);
    PanelSlice(r0, 23, 26);
    Fail2banSectionInPlace();
    RegisterFail2banRoutes(mux);
    PanelSlice(r0, 26, 28);
    LogsSectionInPlace();
    RegisterLogsRoutes(mux);
    PanelSlice(r0, 28, 29);
    CertSectionInPlace();
    RegisterCertRoutes(mux);
    assert PanelRoutes()[..29] == PanelRoutes();
  }

  /**
   * main's mux: the API routes on a fresh ServeMux, then the static file
   * server for the web directory at "/".
   */
  method NewPanelMux(webDir: string) returns (mux: ServeMux<Api>)
    ensures fresh(mux) && mux.Valid()
    ensures mux.routes == PanelRoutes() + [Route("/", FileServer(webDir))]
    ensures forall a: Api :: mux.Lookup(PathOf(a)) == Some(Endpoint(a))
    ensures forall path :: |path| > 0 && path[0] == '/' && (forall a: Api :: path != PathOf(a)) ==>
      mux.Lookup(path) == Some(FileServer(webDir))
  {
    mux := new ServeMux();
    RegisterAPIRoutes(mux);
    assert mux.routes == PanelRoutes();
    RootIsFree();
    mux.Handle("/", FileServer(webDir));
    PanelTableValid(webDir);
    forall a: Api ensures mux.Lookup(PathOf(a)) == Some(Endpoint(a)) {
      PathUnderApi(a);
      PanelDispatch(webDir, PathOf(a));
    }
    forall path | |path| > 0 && path[0] == '/' && (forall a: Api :: path != PathOf(a))
      ensures mux.Lookup(path) == Some(FileServer(webDir))
    {
      PanelDispatch(webDir, path);
    }
  }

  /** No API path is the root pattern. */
  lemma RootIsFree()
    ensures !HasPattern(PanelRoutes(), "/")
  {
    forall k | 0 <= k < |PanelRoutes()| ensures PanelRoutes()[k].pattern != "/" {
      PathsUnderApi(Registration(k));
    }
  }

  /** The API routes with the file server behind them form a table ServeMux can hold. */
  lemma PanelTableValid(webDir: string)
    ensures ValidTable(PanelRoutes() + [Route("/", FileServer(webDir))])
  {
    PanelRoutesDistinct();
    RootIsFree();
    forall k | 0 <= k < |PanelRoutes()| ensures PanelRoutes()[k].pattern != "" {
      PathsUnderApi(Registration(k));
    }
    ValidTableAppend(PanelRoutes(), Route("/", FileServer(webDir)));
  }

  /** Requests to the panel mux: each API path reaches its own handler, and
      every other path the file server. */
  lemma PanelDispatch(webDir: string, path: string)
    requires |path| > 0 && path[0] == '/'
    ensures forall a: Api :: path == PathOf(a) ==>
      Match(PanelRoutes() + [Route("/", FileServer(webDir))], path) == Some(Endpoint(a))
    ensures (forall a: Api :: path != PathOf(a)) ==>
      Match(PanelRoutes() + [Route("/", FileServer(webDir))], path) == Some(FileServer(webDir))
  {
    var t := PanelRoutes();
    PanelRoutesDistinct();
    forall k | 0 <= k < |t| ensures !Subtree(t[k].pattern) {
      PathsUnderApi(Registration(k));
    }
    forall a: Api | path == PathOf(a)
      ensures Match(t + [Route("/", FileServer(webDir))], path) == Some(Endpoint(a))
    {
      TableRoutesWin(t, FileServer(webDir), Position(a));
    }
    if forall a: Api :: path != PathOf(a) {
      forall k | 0 <= k < |t| ensures t[k].pattern != path {
        assert t[k].pattern == PathOf(Registration(k));
      }
      FallsBackToRoot(t, FileServer(webDir), path);
    }
  }
}
