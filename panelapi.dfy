/**
 * The endpoints of panel.go: its handler functions, the path registerAPIRoutes
 * gives each, and the order in which it registers them.
 */
module PanelApi {
  import opened Http

  /** The handler functions of panel.go. */
  datatype Api =
    | Ping
    | GetRealityInfo | UpdateRealityConfig | ResetRealityKeys | RestartRealityService
    | GetTrafficInfo | ResetTraffic
    | GetSystemInfo | SetTimezone | SetSwap
    | GetFirewallRules | OpenFirewallPort | CloseFirewallPort
    | GetServiceStatus | RestartService
    | ViewConfig | SaveConfig
    | GetBBRStatus | EnableBBR
    | GetNetworkPriority | SetNetworkPriority
    | GetTimeStatus | SyncTime
    | GetFail2banStatus | GetFail2banJails | UnbanIP
    | GetSingboxLogs | GetFail2banLogs
    | GetCertStatus

  /** The path each handler is registered at. */
  function PathOf(a: Api): string
  {
    match a
    case Ping => "/api/ping"
    case GetRealityInfo => "/api/reality/info"
    case UpdateRealityConfig => "/api/reality/update"
    case ResetRealityKeys => "/api/reality/reset-keys"
    case RestartRealityService => "/api/reality/restart"
    case GetTrafficInfo => "/api/traffic/info"
    case ResetTraffic => "/api/traffic/reset"
    case GetSystemInfo => "/api/system/info"
    case SetTimezone => "/api/system/timezone"
    case SetSwap => "/api/system/swap"
    case GetFirewallRules => "/api/firewall/list"
    case OpenFirewallPort => "/api/firewall/open"
    case CloseFirewallPort => "/api/firewall/close"
    case GetServiceStatus => "/api/service/status"
    case RestartService => "/api/service/restart"
    case ViewConfig => "/api/config/view"
    case SaveConfig => "/api/config/save"
    case GetBBRStatus => "/api/bbr/status"
    case EnableBBR => "/api/bbr/enable"
    case GetNetworkPriority => "/api/network/priority"
    case SetNetworkPriority => "/api/network/set"
    case GetTimeStatus => "/api/time/status"
    case SyncTime => "/api/time/sync"
    case GetFail2banStatus => "/api/fail2ban/status"
    case GetFail2banJails => "/api/fail2ban/jails"
    case UnbanIP => "/api/fail2ban/unban"
    case GetSingboxLogs => "/api/logs/singbox"
    case GetFail2banLogs => "/api/logs/fail2ban"
    case GetCertStatus => "/api/cert/status"
  }

  /** The k-th handler registerAPIRoutes registers. */
  function Registration(k: nat): Api
    requires k < 29
  {
    match k
    case 0 => Ping
    case 1 => GetRealityInfo
    case 2 => UpdateRealityConfig
    case 3 => ResetRealityKeys
    case 4 => RestartRealityService
    case 5 => GetTrafficInfo
    case 6 => ResetTraffic
    case 7 => GetSystemInfo
    case 8 => SetTimezone
    case 9 => SetSwap
    case 10 => GetFirewallRules
    case 11 => OpenFirewallPort
    case 12 => CloseFirewallPort
    case 13 => GetServiceStatus
    case 14 => RestartService
    case 15 => ViewConfig
    case 16 => SaveConfig
    case 17 => GetBBRStatus
    case 18 => EnableBBR
    case 19 => GetNetworkPriority
    case 20 => SetNetworkPriority
    case 21 => GetTimeStatus
    case 22 => SyncTime
    case 23 => GetFail2banStatus
    case 24 => GetFail2banJails
    case 25 => UnbanIP
    case 26 => GetSingboxLogs
    case 27 => GetFail2banLogs
    case _ => GetCertStatus
  }

  /** The position of a handler in registerAPIRoutes. */
  function Position(a: Api): (k: nat)
    ensures k < 29 && Registration(k) == a
  {
    match a
    case Ping => 0
    case GetRealityInfo => 1
    case UpdateRealityConfig => 2
    case ResetRealityKeys => 3
    case RestartRealityService => 4
    case GetTrafficInfo => 5
    case ResetTraffic => 6
    case GetSystemInfo => 7
    case SetTimezone => 8
    case SetSwap => 9
    case GetFirewallRules => 10
    case OpenFirewallPort => 11
    case CloseFirewallPort => 12
    case GetServiceStatus => 13
    case RestartService => 14
    case ViewConfig => 15
    case SaveConfig => 16
    case GetBBRStatus => 17
    case EnableBBR => 18
    case GetNetworkPriority => 19
    case SetNetworkPriority => 20
    case GetTimeStatus => 21
    case SyncTime => 22
    case GetFail2banStatus => 23
    case GetFail2banJails => 24
    case UnbanIP => 25
    case GetSingboxLogs => 26
    case GetFail2banLogs => 27
    case GetCertStatus => 28
  }

  /** Each position holds a different handler. */
  lemma PositionOfRegistration(k: nat)
    requires k < 29
    ensures Position(Registration(k)) == k
  {
  }

  /** No two handlers share a path. */
  lemma PathOfInjective(a: Api, b: Api)
    ensures PathOf(a) == PathOf(b) ==> a == b
  {
    var k := Position(a);
    if k < 8 { PathOfInjective0(a, b); }
    else if k < 15 { PathOfInjective1(a, b); }
    else if k < 22 { PathOfInjective2(a, b); }
    else { PathOfInjective3(a, b); }
  }

  /** PathOfInjective for the handlers registered at positions 0 to 7. */
  lemma PathOfInjective0(a: Api, b: Api)
    requires 0 <= Position(a) < 8
    ensures PathOf(a) == PathOf(b) ==> a == b
  {
  }

  /** PathOfInjective for the handlers registered at positions 8 to 14. */
  lemma PathOfInjective1(a: Api, b: Api)
    requires 8 <= Position(a) < 15
    ensures PathOf(a) == PathOf(b) ==> a == b
  {
  }

  /** PathOfInjective for the handlers registered at positions 15 to 21. */
  lemma PathOfInjective2(a: Api, b: Api)
    requires 15 <= Position(a) < 22
    ensures PathOf(a) == PathOf(b) ==> a == b
  {
  }

  /** PathOfInjective for the handlers registered at positions 22 to 28. */
  lemma PathOfInjective3(a: Api, b: Api)
    requires 22 <= Position(a) < 29
    ensures PathOf(a) == PathOf(b) ==> a == b
  {
  }

  /** Every path lies under /api/ and names a single path, not a subtree. */
  lemma PathsUnderApi(a: Api)
    ensures "/api/" <= PathOf(a) && !Subtree(PathOf(a))
  {
    PathUnderApi(a);
    PathNotSubtree(a);
  }

  lemma PathUnderApi(a: Api)
    ensures "/api/" <= PathOf(a)
  {
    if Position(a) < 15 { EarlyPathUnderApi(a); } else { LatePathUnderApi(a); }
  }

  /** PathUnderApi for the handlers registered first ... */
  lemma EarlyPathUnderApi(a: Api)
    requires Position(a) < 15
    ensures "/api/" <= PathOf(a)
  {
  }

  /** ... and for the rest. */
  lemma LatePathUnderApi(a: Api)
    requires Position(a) >= 15
    ensures "/api/" <= PathOf(a)
  {
  }

  lemma PathNotSubtree(a: Api)
    ensures !Subtree(PathOf(a))
  {
  }
}
