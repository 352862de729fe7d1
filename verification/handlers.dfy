/** The reactive handlers of the ZooKeeper charm: their guards, in declaration
    order, and what one firing of each does to the unit's flags, store,
    status and outside world. */
module Handlers {
  import opened Wrappers
  import opened Text
  import opened ZkStatus
  import opened Engine
  import opened Membership
  import Srvr

  // Flags set by other layers and by the framework.
  const AptJre := "apt.installed.openjdk-8-jre-headless"
  const IsLeader := "leadership.is_leader"
  const PeersAvailable := "endpoint.zk-peers.available"
  const ClientAvailable := "endpoint.zookeeper.available"
  const InitInstalled := "zk.init.installed"

  // Flags this charm sets.
  const AptDeps := "zk.apt.deps.available"
  const UserReady := "zk.user.available"
  const DirsReady := "zk.dirs.available"
  const DatadirStorage := "zk.datadir.storage.available"
  const DatalogdirStorage := "zk.datalogdir.storage.available"
  const StorageReady := "zk.storage.available"
  const ResourceReady := "zk.resource.available"
  const BindReady := "zk.bind.address.available"
  const InitConfig := "zk.init.config.available"
  const DynamicConfig := "zk.dynamic.config.available"
  const SystemdReady := "zk.systemd.available"
  const InitComplete := "zk.init.complete"
  const InitStarted := "zk.init.started"
  const InitStartAvailable := "zk.init.start.available"
  const VersionReady := "zk.version.available"

  /** Every flag some handler of this charm sets. */
  const CharmFlags: set<Flag> := {
    AptDeps, UserReady, DirsReady, DatadirStorage, DatalogdirStorage, StorageReady,
    ResourceReady, BindReady, InitConfig, DynamicConfig, SystemdReady, InitComplete,
    InitStarted, InitStartAvailable, VersionReady }

  /** The only flags any handler clears. */
  const ClearedFlags: set<Flag> := {VersionReady, PeersAvailable, DynamicConfig, ClientAvailable}

  const ClientPort: nat := 2181
  const PeerPortLow: nat := 2888
  const PeerPortHigh: nat := 3888

  const ResourceTrouble := "TROUBLE PROVISIONING ZOOKEEPER RESOURCE, PLEASE DEBUG"
  const ResourceMissing := "Could not find resource 'zookeeper-tarball'"
  const StartTrouble := "PLEASE DEBUG: Zookeeper not starting."
  const NotRunning := "Zookeeper not starting, please debug"

  datatype Handler =
    | ZookeeperAptDepsAvailable
    | CreateZookeeperUser
    | CreateZookeeperDirs
    | SetDatadirAvailableFlag
    | SetDatalogdirAvailableFlag
    | PrepareZkStorageDirs
    | ProvisionZookeeper
    | BindAddressZkNodesAvailable
    | CreateZookeeperInitConfig
    | RenderZookeeperSystemd
    | SetZookeeperInitComplete
    | RenderZookeeperDynamicConfig
    | StartInitialZookeeperForLeader
    | ZookeeperVersion
    | GetSetZookeeperStatus
    | ReprovisionAllTheThings
    | UpdateUnitdataKvWithCurrentPeers
    | ProvideClientRelationData

  /** The handlers in the order the charm declares them. */
  const Registry: seq<Handler> := [
    ZookeeperAptDepsAvailable, CreateZookeeperUser, CreateZookeeperDirs,
    SetDatadirAvailableFlag, SetDatalogdirAvailableFlag, PrepareZkStorageDirs,
    ProvisionZookeeper, BindAddressZkNodesAvailable, CreateZookeeperInitConfig,
    RenderZookeeperSystemd, SetZookeeperInitComplete, RenderZookeeperDynamicConfig,
    StartInitialZookeeperForLeader, ZookeeperVersion, GetSetZookeeperStatus,
    ReprovisionAllTheThings, UpdateUnitdataKvWithCurrentPeers, ProvideClientRelationData]

  /** The registry lists every handler exactly once. */
  lemma RegistryListsEveryHandlerOnce()
    ensures forall h :: h in Registry
    ensures forall i, j :: 0 <= i < j < |Registry| ==> Registry[i] != Registry[j]
  {
    forall h ensures h in Registry {
      match h
      case ZookeeperAptDepsAvailable => assert Registry[0] == h;
      case CreateZookeeperUser => assert Registry[1] == h;
      case CreateZookeeperDirs => assert Registry[2] == h;
      case SetDatadirAvailableFlag => assert Registry[3] == h;
      case SetDatalogdirAvailableFlag => assert Registry[4] == h;
      case PrepareZkStorageDirs => assert Registry[5] == h;
      case ProvisionZookeeper => assert Registry[6] == h;
      case BindAddressZkNodesAvailable => assert Registry[7] == h;
      case CreateZookeeperInitConfig => assert Registry[8] == h;
      case RenderZookeeperSystemd => assert Registry[9] == h;
      case SetZookeeperInitComplete => assert Registry[10] == h;
      case RenderZookeeperDynamicConfig => assert Registry[11] == h;
      case StartInitialZookeeperForLeader => assert Registry[12] == h;
      case ZookeeperVersion => assert Registry[13] == h;
      case GetSetZookeeperStatus => assert Registry[14] == h;
      case ReprovisionAllTheThings => assert Registry[15] == h;
      case UpdateUnitdataKvWithCurrentPeers => assert Registry[16] == h;
      case ProvideClientRelationData => assert Registry[17] == h;
    }
  }

  /** Each handler's decorators. Exactly the two storage hooks and the
      upgrade hook are `@hook` handlers; every `@when_not` names a flag this
      charm sets itself, so no other layer can hold a handler off. */
  function GuardOf(h: Handler): (g: Guard)
    ensures g.OnHook? <==>
              h == SetDatadirAvailableFlag || h == SetDatalogdirAvailableFlag || h == ReprovisionAllTheThings
    ensures g.When? ==> g.forbidden <= CharmFlags
  {
    match h
    case ZookeeperAptDepsAvailable => When({AptJre}, {AptDeps})
    case CreateZookeeperUser => When({}, {UserReady})
    case CreateZookeeperDirs => When({UserReady}, {DirsReady})
    case SetDatadirAvailableFlag => OnHook("datadir-storage-attached")
    case SetDatalogdirAvailableFlag => OnHook("datalogdir-storage-attached")
    case PrepareZkStorageDirs => When({UserReady, DatalogdirStorage, DatadirStorage}, {StorageReady})
    case ProvisionZookeeper => When({AptDeps, UserReady}, {ResourceReady})
    case BindAddressZkNodesAvailable => When({}, {BindReady})
    case CreateZookeeperInitConfig =>
      When({BindReady, ResourceReady, DirsReady, StorageReady, AptDeps}, {InitConfig})
    case RenderZookeeperSystemd => When({BindReady, InitConfig}, {SystemdReady})
    case SetZookeeperInitComplete => When({SystemdReady}, {InitComplete})
    case RenderZookeeperDynamicConfig => When({InitComplete}, {DynamicConfig})
    case StartInitialZookeeperForLeader => When({InitComplete, IsLeader}, {InitStarted})
    case ZookeeperVersion => When({InitStarted, IsLeader}, {VersionReady})
    case GetSetZookeeperStatus => When({InitStarted}, {})
    case ReprovisionAllTheThings => OnHook("upgrade-charm")
    case UpdateUnitdataKvWithCurrentPeers => When({PeersAvailable}, {})
    case ProvideClientRelationData => When({ClientAvailable, BindReady}, {})
  }

  /** Side effects on the world outside the charm's own state. Template
      rendering, user creation, directory creation and archive extraction are
      recorded as events; what they write is not modelled. */
  datatype Action =
    | AddUser
    | MakeDirs
    | ChownStorage
    | ExtractResource
    | RenderInitConfig
    | RenderSystemdUnit
    | EnableService
    | RenderDynamicConfig(nodes: Option<seq<Node>>)
    | StartService
    | RestartService
    | StopService
    | OpenPort(port: nat)
    | OpenPortRange(low: nat, high: nat)
    | SetApplicationVersion(version: string)
    | PublishClientData(host: Option<string>, port: nat)

  /** The unit's state: its flags, its stored keys, the last status it
      reported, its log, and the side effects performed so far. */
  datatype Unit = Unit(
    flags: set<Flag>,
    store: Store,
    status: Option<Status>,
    log: seq<string>,
    actions: seq<Action>)

  /** What the outside world answers during one firing. */
  datatype Env = Env(
    hook: Option<string>,            // the hook executing, if any
    self: UnitName,                  // JUJU_UNIT_NAME
    ingressAddress: string,          // first ingress address of the `zk` binding
    resourceFound: bool,             // `resource_get('zookeeper-tarball')` is truthy
    startSucceeds: bool,             // what `service_start('zookeeper')` returns
    running: bool,                   // what `service_running('zookeeper')` returns
    peers: seq<Peer>,                // the peer endpoint's joined units
    srvrReply: string,               // the server's reply to `srvr`
    versionSetResult: string)        // the text of `application_version_set`'s return value

  datatype Outcome = Completed(unit: Unit) | Raised(error: string)

  /** `zk_status_and_log` applied to the unit, at a level the charm names
      (`ReportIsStatusAndLog` shows it is the effect of the call with that
      level's name). */
  function Report(u: Unit, level: Level, msg: string): (r: Unit)
    ensures r.flags == u.flags && r.store == u.store && r.actions == u.actions
    ensures r.status == Some(Status(level, msg))
  {
    u.(status := Some(Status(level, msg)), log := u.log + [msg])
  }

  /** Reporting at a level sets the status and logs the line exactly as
      `zk_status_and_log` does when called with the level's name, and as it
      does for the spelled-out "maintenance". */
  lemma ReportIsStatusAndLog(u: Unit, level: Level, msg: string)
    ensures var e := ZkStatusAndLog(LevelName(level), msg);
            && e.Some?
            && Report(u, level, msg) == u.(status := Some(e.value.status), log := u.log + [e.value.logLine])
    ensures level == Maintenance ==>
              ZkStatusAndLog("maintenance", msg).value.status == Report(u, level, msg).status.value
  {
    LevelNameRoundTrip(level, msg);
  }

  function Act(u: Unit, a: Action): Unit {
    u.(actions := u.actions + [a])
  }

  function SetFlag(u: Unit, f: Flag): Unit {
    u.(flags := u.flags + {f})
  }

  function ClearFlag(u: Unit, f: Flag): Unit {
    u.(flags := u.flags - {f})
  }

  /** The side effects of starting the server: the ports are opened only after
      a successful start. */
  function StartActions(startSucceeds: bool): seq<Action> {
    if startSucceeds then [StartService, OpenPort(ClientPort), OpenPortRange(PeerPortLow, PeerPortHigh)]
    else [StartService]
  }

  /** `init_start_zookeeper`: start the service; open the client port and the
      peer port range only when the start succeeded. */
  function InitStartZookeeper(u: Unit, startSucceeds: bool): (r: Unit)
    ensures r.flags == u.flags && r.store == u.store
    ensures r.actions == u.actions + StartActions(startSucceeds)
    ensures OpenPort(ClientPort) in r.actions[|u.actions|..] <==> startSucceeds
    ensures startSucceeds ==> r.status == Some(Status(Active, "Zookeeper started."))
    ensures !startSucceeds ==> r.status == Some(Status(Blocked, StartTrouble))
  {
    var u1 := Act(u, StartService);
    if startSucceeds then
      Report(Act(Act(u1, OpenPort(ClientPort)), OpenPortRange(PeerPortLow, PeerPortHigh)), Active, "Zookeeper started.")
    else
      Report(u1, Blocked, StartTrouble)
  }

  /** The status line of a running server: its mode and the stored node count. */
  function RunningMessage(mode: string, nodes: nat): string {
    "ZK " + mode + " - " + NatToString(nodes) + " nodes"
  }

  /** `zk_running_status`. */
  function ZkRunningStatus(u: Unit, env: Env): (r: Unit)
    ensures r.flags == u.flags && r.store == u.store && r.actions == u.actions
    ensures env.running ==>
              r.status == Some(Status(Active, RunningMessage(Srvr.GetZookeeperMode(env.srvrReply), NodeCount(u.store))))
    ensures !env.running ==> r.status == Some(Status(Blocked, NotRunning))
  {
    if env.running then
      Report(u, Active, RunningMessage(Srvr.GetZookeeperMode(env.srvrReply), NodeCount(u.store)))
    else
      Report(u, Blocked, NotRunning)
  }

  /** `set_zookeeper_version`: publish the version the server reports. */
  function SetZookeeperVersion(u: Unit, env: Env): (r: Unit)
    ensures r.flags == u.flags && r.store == u.store
    ensures r.actions == u.actions + [SetApplicationVersion(Srvr.GetZookeeperVersion(env.srvrReply))]
    ensures |r.actions[|r.actions| - 1].version| <= Srvr.VersionMaxLength
            || r.actions[|r.actions| - 1].version == Srvr.VersionUnknown
  {
    var u1 := Report(u, Maintenance, "Setting Zookeeper version.");
    var u2 := Act(u1, SetApplicationVersion(Srvr.GetZookeeperVersion(env.srvrReply)));
    Report(u2, Active, "Zookeeper " + env.versionSetResult + " installed.")
  }

  function AptDepsStep(u: Unit): (r: Unit)
    ensures r.flags == u.flags + {AptDeps} && r.store == u.store
  {
    SetFlag(Report(u, Active, "Apt deps available."), AptDeps)
  }

  function CreateUserStep(u: Unit): (r: Unit)
    ensures r.flags == u.flags + {UserReady} && r.store == u.store
  {
    var u1 := Report(u, Maintenance, "Creating 'zookeeper' user and home dir.");
    SetFlag(Report(Act(u1, AddUser), Active, "'zookeeper' user and home dir created."), UserReady)
  }

  function CreateDirsStep(u: Unit): (r: Unit)
    ensures r.flags == u.flags + {DirsReady} && r.store == u.store
  {
    var u1 := Report(u, Maintenance, "Creating Zookeeper dirs.");
    SetFlag(Report(Act(u1, MakeDirs), Active, "Zookeeper dirs created."), DirsReady)
  }

  function PrepareStorageStep(u: Unit): (r: Unit)
    ensures r.flags == u.flags + {StorageReady} && r.store == u.store
  {
    var u1 := Report(u, Maintenance, "Creating/chowning the zookeeper datadir and datalogdir.");
    SetFlag(Report(Act(u1, ChownStorage), Active, "Creating/chowning mounts successful."), StorageReady)
  }

  /** `provision_zookeeper`: on failure to find the resource the unit is
      blocked and the resource flag stays unset. */
  function ProvisionStep(u: Unit, env: Env): (r: Unit)
    ensures r.store == u.store
    ensures !env.resourceFound ==> r.flags == u.flags && r.status == Some(Status(Blocked, ResourceTrouble))
    ensures env.resourceFound ==> r.flags == u.flags + {ResourceReady} && r.status == Some(Status(Active, "Zookeeper resource available."))
  {
    var u1 := Report(u, Maintenance, "Provisioning zookeeper resource.");
    if !env.resourceFound then
      Report(u1.(status := Some(Status(Blocked, ResourceMissing))), Blocked, ResourceTrouble)
    else
      SetFlag(Report(Act(u1, ExtractResource), Active, "Zookeeper resource available."), ResourceReady)
  }

  /** `bind_address_zk_nodesavailable`. */
  function BindStep(u: Unit, env: Env): (r: Unit)
    ensures r.flags == u.flags + {BindReady}
    ensures r.store == Bind(u.store, env.self, env.ingressAddress)
  {
    var u1 := Report(u, Maintenance, "Acquiring bind address.");
    var u2 := u1.(store := Bind(u1.store, env.self, env.ingressAddress));
    SetFlag(Report(u2, Active, "Bind address acquired."), BindReady)
  }

  function InitConfigStep(u: Unit): (r: Unit)
    ensures r.flags == u.flags + {DynamicConfig, InitConfig} && r.store == u.store
  {
    var u1 := Report(u, Maintenance, "Writing inital config.");
    var u2 := Report(Act(u1, RenderInitConfig), Active, "Initial config rendered.");
    SetFlag(SetFlag(u2, DynamicConfig), InitConfig)
  }

  function SystemdStep(u: Unit): (r: Unit)
    ensures r.flags == u.flags + {SystemdReady} && r.store == u.store
  {
    var u1 := Report(u, Maintenance, "Enabling 'zookeeper' systemd service.");
    var u2 := Act(Act(u1, RenderSystemdUnit), EnableService);
    SetFlag(Report(u2, Active, "'zookeeper' systemd service enabled."), SystemdReady)
  }

  function InitCompleteStep(u: Unit): (r: Unit)
    ensures r.flags == u.flags + {InitComplete} && r.store == u.store
  {
    SetFlag(Report(u, Active, "Zookeeper initialization complete."), InitComplete)
  }

  /** The three ways the dynamic-config handler brings the server up. */
  datatype StartBranch = ColdStart | RestartFollower | RestartLeader

  /** The branch `render_zookeeper_dynamic_config` takes. */
  function ChooseBranch(flags: set<Flag>): (b: StartBranch)
    ensures b == ColdStart <==> InitStartAvailable !in flags && IsLeader !in flags
    ensures b == RestartFollower <==> InitStartAvailable in flags && IsLeader !in flags
    ensures b == RestartLeader <==> IsLeader in flags
  {
    if InitStartAvailable !in flags && IsLeader !in flags then ColdStart
    else if InitStartAvailable in flags && IsLeader !in flags then RestartFollower
    else RestartLeader
  }

  /** `render_zookeeper_dynamic_config`: render the membership, then cold
      start (marking the start flags whether or not the start succeeded) or
      restart, report the running status, and mark the config rendered. */
  function DynamicConfigStep(u: Unit, env: Env): (r: Unit)
    ensures r.store == u.store
    ensures ChooseBranch(u.flags) == ColdStart ==>
              r.flags == u.flags + {InitStarted, InitStartAvailable, DynamicConfig}
    ensures ChooseBranch(u.flags) != ColdStart ==> r.flags == u.flags + {DynamicConfig}
    ensures r.actions == u.actions + [RenderDynamicConfig(u.store.zkNodes)] +
              (if ChooseBranch(u.flags) == ColdStart then StartActions(env.startSucceeds) else [RestartService])
    ensures r.status == ZkRunningStatus(u, env).status
  {
    var u1 := Report(u, Maintenance, "Writing zk peers to dynamic config file.");
    var u2 := Act(u1, RenderDynamicConfig(u.store.zkNodes));
    var u3 :=
      match ChooseBranch(u.flags)
      case ColdStart => SetFlag(SetFlag(InitStartZookeeper(u2, env.startSucceeds), InitStarted), InitStartAvailable)
      case RestartFollower => Act(u2, RestartService)
      case RestartLeader => Act(u2, RestartService);
    var u4 := ZkRunningStatus(Report(u3, Active, "Zookeeper dynamic config rendered."), env);
    SetFlag(u4, DynamicConfig)
  }

  function StartLeaderStep(u: Unit, env: Env): (r: Unit)
    ensures r.flags == u.flags + {InitStarted}
    ensures r.actions == u.actions + StartActions(env.startSucceeds)
  {
    var u1 := Report(u, Maintenance, "Starting Zookeeper.");
    SetFlag(InitStartZookeeper(u1, env.startSucceeds), InitStarted)
  }

  function VersionStep(u: Unit, env: Env): (r: Unit)
    ensures r.flags == u.flags + {VersionReady} && r.store == u.store
  {
    SetFlag(SetZookeeperVersion(u, env), VersionReady)
  }

  /** The side effects of reinstalling, in the order the hook performs them:
      re-extract the archive, re-render the init config, start the server
      unless it is running, and publish the version when one is read. */
  function ReinstallActions(runningNow: bool, version: Option<string>): (acts: seq<Action>)
    ensures StartService in acts <==> !runningNow
    ensures StopService !in acts
    ensures (exists v :: SetApplicationVersion(v) in acts) <==> version.Some?
  {
    var publish := match version case None => [] case Some(v) => [SetApplicationVersion(v)];
    assert version.Some? ==> publish[0] == SetApplicationVersion(version.value);
    [ExtractResource, RenderInitConfig] + (if runningNow then [] else [StartService]) + publish
  }

  /** The upgrade hook past a found resource: reinstall, republish the
      version on the leader, and clear the version flag so the version
      handler runs again. */
  function Reinstall(u: Unit, env: Env, runningNow: bool, leader: bool): (r: Unit)
    ensures r.flags == u.flags - {VersionReady} && r.store == u.store
    ensures r.status == Some(Status(Active, "Zookeeper upgrade complete."))
    ensures r.actions == u.actions +
              ReinstallActions(runningNow, if leader then Some(Srvr.GetZookeeperVersion(env.srvrReply)) else None)
  {
    var u1 := Act(Act(u, ExtractResource), RenderInitConfig);
    var u2 := if !runningNow then Act(u1, StartService) else u1;
    var u3 := if leader then SetZookeeperVersion(u2, env) else u2;
    ClearFlag(Report(u3, Active, "Zookeeper upgrade complete."), VersionReady)
  }

  /** The actions appended in two steps, read back from the log. */
  lemma AppendedActions(log: seq<Action>, first: seq<Action>, second: seq<Action>)
    ensures log <= log + first + second
    ensures (log + first + second)[|log|..] == first + second
  {
    assert (log + first + second)[..|log|] == log;
  }

  /** `reprovision_all_the_things` (the `upgrade-charm` hook): stop the server
      when it was installed and running, then reinstall; when the resource is
      missing, stop at blocked with the flags untouched. */
  function UpgradeStep(u: Unit, env: Env): (r: Unit)
    ensures r.store == u.store
    ensures !env.resourceFound ==> r.flags == u.flags && r.status == Some(Status(Blocked, ResourceTrouble))
    ensures env.resourceFound ==>
              r.flags == u.flags - {VersionReady} && r.status == Some(Status(Active, "Zookeeper upgrade complete."))
    ensures u.actions <= r.actions
    ensures StopService in r.actions[|u.actions|..] <==> InitInstalled in u.flags && env.running
    ensures StartService in r.actions[|u.actions|..] <==> env.resourceFound && !(env.running && InitInstalled !in u.flags)
  {
    var u1 := Report(u, Maintenance, "Upgrading Zookeeper.");
    var stopped := InitInstalled in u.flags && env.running;
    var stopActions := if stopped then [StopService] else [];
    var u2 := u1.(actions := u.actions + stopActions);
    if !env.resourceFound then
      Report(u2.(status := Some(Status(Blocked, ResourceMissing))), Blocked, ResourceTrouble)
    else
      var runningNow := env.running && !stopped;
      var version := if IsLeader in u.flags then Some(Srvr.GetZookeeperVersion(env.srvrReply)) else None;
      var r := Reinstall(u2, env, runningNow, IsLeader in u.flags);
      AppendedActions(u.actions, stopActions, ReinstallActions(runningNow, version));
      r
  }

  /** `update_unitdata_kv_with_curent_peers`. */
  function UpdatePeersStep(u: Unit, env: Env): (o: Outcome)
    ensures o.Raised? <==> RebuildPeers(env.peers, u.store).Raises?
    ensures RebuildPeers(env.peers, u.store) == Unchanged ==>
              o.Completed? && o.unit.flags == u.flags && o.unit.store == u.store
    ensures RebuildPeers(env.peers, u.store).Replaced? ==>
              && o.Completed?
              && o.unit.flags == u.flags - {PeersAvailable, DynamicConfig}
              && o.unit.store == ApplyRebuild(u.store, RebuildPeers(env.peers, u.store))
  {
    var u1 := Report(u, Maintenance, "Acquiring Zookeeper peers.");
    match RebuildPeers(env.peers, u.store)
    case Raises(e) => Raised(e)
    case Unchanged => Completed(u1)
    case Replaced(nodes, n) =>
      var u2 := u1.(store := u1.store.(numPeers := Some(n), zkNodes := Some(nodes)));
      var u3 := ClearFlag(ClearFlag(u2, PeersAvailable), DynamicConfig);
      Completed(Report(u3, Active, "Zookeeper peers acquired."))
  }

  function ClientDataStep(u: Unit): (r: Unit)
    ensures r.flags == u.flags - {ClientAvailable} && r.store == u.store
  {
    var u1 := Report(u, Maintenance, "Sending client data over 'zk' endpoint.");
    var u2 := Act(u1, PublishClientData(u.store.bindAddress, ClientPort));
    ClearFlag(Report(u2, Active, "Zookeeper client data sent."), ClientAvailable)
  }

  /** One firing of handler `h`, which the framework starts only when its
      guard holds. Only the peer rebuild can raise, and only it and the bind
      handler write the key/value store. */
  function Fire(h: Handler, env: Env, u: Unit): (o: Outcome)
    requires Eligible(GuardOf(h), u.flags, env.hook)
    ensures o.Raised? ==> h == UpdateUnitdataKvWithCurrentPeers
    ensures o.Completed? && h != BindAddressZkNodesAvailable && h != UpdateUnitdataKvWithCurrentPeers ==>
              o.unit.store == u.store
  {
    match h
    case ZookeeperAptDepsAvailable => Completed(AptDepsStep(u))
    case CreateZookeeperUser => Completed(CreateUserStep(u))
    case CreateZookeeperDirs => Completed(CreateDirsStep(u))
    case SetDatadirAvailableFlag => Completed(SetFlag(u, DatadirStorage))
    case SetDatalogdirAvailableFlag => Completed(SetFlag(u, DatalogdirStorage))
    case PrepareZkStorageDirs => Completed(PrepareStorageStep(u))
    case ProvisionZookeeper => Completed(ProvisionStep(u, env))
    case BindAddressZkNodesAvailable => Completed(BindStep(u, env))
    case CreateZookeeperInitConfig => Completed(InitConfigStep(u))
    case RenderZookeeperSystemd => Completed(SystemdStep(u))
    case SetZookeeperInitComplete => Completed(InitCompleteStep(u))
    case RenderZookeeperDynamicConfig => Completed(DynamicConfigStep(u, env))
    case StartInitialZookeeperForLeader => Completed(StartLeaderStep(u, env))
    case ZookeeperVersion => Completed(VersionStep(u, env))
    case GetSetZookeeperStatus => Completed(ZkRunningStatus(u, env))
    case ReprovisionAllTheThings => Completed(UpgradeStep(u, env))
    case UpdateUnitdataKvWithCurrentPeers => UpdatePeersStep(u, env)
    case ProvideClientRelationData => Completed(ClientDataStep(u))
  }

  /** The handlers whose guards hold, in declaration order. */
  function EligibleHandlers(flags: set<Flag>, hook: Option<string>): (r: seq<Handler>)
    ensures forall h :: h in r <==> Eligible(GuardOf(h), flags, hook)
  {
    FilterEligible(Registry, flags, hook)
  }

  function FilterEligible(hs: seq<Handler>, flags: set<Flag>, hook: Option<string>): (r: seq<Handler>)
    ensures forall h :: h in r <==> h in hs && Eligible(GuardOf(h), flags, hook)
  {
    if hs == [] then []
    else (if Eligible(GuardOf(hs[0]), flags, hook) then [hs[0]] else []) + FilterEligible(hs[1..], flags, hook)
  }

  /** Filtering keeps declaration order: the eligible handlers of a
      concatenation are those of its first part followed by those of its
      second. */
  lemma {:induction false} FilterEligibleAppend(a: seq<Handler>, b: seq<Handler>, flags: set<Flag>, hook: Option<string>)
    ensures FilterEligible(a + b, flags, hook) == FilterEligible(a, flags, hook) + FilterEligible(b, flags, hook)
    decreases |a|
  {
    if a == [] {
      assert a + b == b;
    } else {
      assert (a + b)[0] == a[0];
      assert (a + b)[1..] == a[1..] + b;
      FilterEligibleAppend(a[1..], b, flags, hook);
    }
  }
}
