/**
 * internal/core: the operations the route handlers call. service.go and
 * logs.go shell out through Utils; system.go, traffic.go and reality.go are
 * stand-ins that return fixed or host-supplied values with a nil error.
 */
module Core {
  import opened Wrappers
  import opened GoStrings
  import opened Json
  import opened Utils

  // ------------------------------------------------------------ service.go

  datatype ServiceStatus = ServiceStatus(name: string, active: bool, raw: string)

  /** The JSON object a ServiceStatus encodes to, keyed by its json tags. */
  function ServiceStatusJson(s: ServiceStatus): (v: Value)
    ensures v.Obj? && v.fields.Keys == {"name", "active", "raw"}
    ensures v.fields["name"] == Str(s.name) && v.fields["active"] == Bool(s.active) && v.fields["raw"] == Str(s.raw)
  {
    Obj(map["name" := Str(s.name), "active" := Bool(s.active), "raw" := Str(s.raw)])
  }

  /**
   * RestartService(name): runs `systemctl restart <name>`, throws its output
   * away and hands back the runner's error as it is.
   */
  function RestartService(run: Runner, name: string): (err: Option<Error>)
    ensures var o := run(Invocation("systemctl", ["restart", name]));
      && (err.None? <==> o.Exited?)
      && (o.Failed? ==> err == Some(o.err))
  {
    RunCommand(run, "systemctl", ["restart", name]).err
  }

  /** What systemctl printed while restarting has no bearing on the result. */
  lemma RestartDiscardsOutput(run1: Runner, run2: Runner, name: string)
    requires var o1, o2 := run1(Invocation("systemctl", ["restart", name])), run2(Invocation("systemctl", ["restart", name]));
      o1.Exited? == o2.Exited? && (o1.Failed? ==> o2.Failed? && o1.err == o2.err)
    ensures RestartService(run1, name) == RestartService(run2, name)
  {
  }

  /**
   * GetServiceStatus(name): runs `systemctl is-active <name>` and never
   * reports an error. A failed run (is-active exits non-zero for a stopped
   * unit) means inactive, with the captured stderr kept untrimmed as the raw
   * text; a successful run is active exactly when its trimmed stdout is
   * "active", and the raw text is that trimmed stdout.
   */
  function GetServiceStatus(run: Runner, name: string): (r: Outcome<ServiceStatus>)
    ensures r.err.None?
    ensures r.value.name == name
    ensures var o := run(Invocation("systemctl", ["is-active", name]));
      && (o.Failed? ==> !r.value.active && r.value.raw == o.stderr)
      && (o.Exited? ==> (r.value.active <==> TrimSpace(o.stdout) == "active") && r.value.raw == TrimSpace(o.stdout))
  {
    var out := RunCommand(run, "systemctl", ["is-active", name]);
    if out.err.Some? then
      Outcome(ServiceStatus(name, false, out.value), None)
    else
      var active := TrimSpace(out.value) == "active";
      Outcome(ServiceStatus(name, active, TrimSpace(out.value)), None)
  }

  /** A unit reported active always carries the raw text "active". */
  lemma ActiveMeansRawActive(run: Runner, name: string)
    ensures GetServiceStatus(run, name).value.active ==> GetServiceStatus(run, name).value.raw == "active"
  {
  }

  // --------------------------------------------------------------- logs.go

  /**
   * GetSystemdLogs(service, limit): the lines of
   * `journalctl -u <service> -n 200 --no-pager`, with RunCommandLines'
   * lines and error passed on unchanged. The limit is not used.
   */
  function GetSystemdLogs(run: Runner, service: string, limit: int): (r: Outcome<seq<string>>)
    ensures var o := run(Invocation("journalctl", ["-u", service, "-n", "200", "--no-pager"]));
      && (o.Failed? ==> r == Outcome([], Some(o.err)))
      && (o.Exited? ==> r == Outcome(Split(TrimSpace(o.stdout), '\n'), None))
  {
    RunCommandLines(run, "journalctl", ["-u", service, "-n", "200", "--no-pager"])
  }

  /** Every limit gives the same logs. */
  lemma LogsIgnoreLimit(run: Runner, service: string, limit1: int, limit2: int)
    ensures GetSystemdLogs(run, service, limit1) == GetSystemdLogs(run, service, limit2)
  {
  }

  // ------------------------------------------------------------- system.go

  /** GetSystemInfo(): the host's facts (hostname, OS, architecture, CPU count,
      uptime), taken here as an opaque value, always with a nil error. */
  function GetSystemInfo(info: Value): (r: Outcome<Value>)
    ensures r.err.None? && r.value == info
  {
    Outcome(info, None)
  }

  // ------------------------------------------------------------ traffic.go

  datatype TrafficSummary = TrafficSummary(inboundBytes: nat, outboundBytes: nat)

  /** The JSON object a TrafficSummary encodes to, keyed by its json tags. */
  function TrafficSummaryJson(t: TrafficSummary): (v: Value)
    ensures v.Obj? && v.fields.Keys == {"inbound_bytes", "outbound_bytes"}
    ensures v.fields["inbound_bytes"] == Num(t.inboundBytes) && v.fields["outbound_bytes"] == Num(t.outboundBytes)
  {
    Obj(map["inbound_bytes" := Num(t.inboundBytes), "outbound_bytes" := Num(t.outboundBytes)])
  }

  /** GetTrafficSummary(): a placeholder that counts nothing and never fails. */
  function GetTrafficSummary(): (r: Outcome<TrafficSummary>)
    ensures r.err.None?
    ensures r.value.inboundBytes == 0 && r.value.outboundBytes == 0
  {
    Outcome(TrafficSummary(0, 0), None)
  }

  // ------------------------------------------------------------ reality.go

  datatype RealityConfig = RealityConfig(listen: string, port: int, privateKey: string, publicKey: string, shortId: string)

  /** The JSON object a RealityConfig encodes to, keyed by its json tags. */
  function RealityConfigJson(c: RealityConfig): (v: Value)
    ensures v.Obj? && v.fields.Keys == {"listen", "port", "private_key", "public_key", "short_id"}
    ensures v.fields["listen"] == Str(c.listen) && v.fields["port"] == Num(c.port)
    ensures v.fields["private_key"] == Str(c.privateKey) && v.fields["public_key"] == Str(c.publicKey)
    ensures v.fields["short_id"] == Str(c.shortId)
  {
    Obj(map["listen" := Str(c.listen), "port" := Num(c.port), "private_key" := Str(c.privateKey),
            "public_key" := Str(c.publicKey), "short_id" := Str(c.shortId)])
  }

  /** GetRealityConfig(): a placeholder that returns the zero-valued config and never fails. */
  function GetRealityConfig(): (r: Outcome<RealityConfig>)
    ensures r.err.None?
    ensures r.value.listen == "" && r.value.port == 0
    ensures r.value.privateKey == "" && r.value.publicKey == "" && r.value.shortId == ""
  {
    Outcome(RealityConfig("", 0, "", "", ""), None)
  }
}
