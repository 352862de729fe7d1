/** Concrete runs of the charm: what a fresh unit may do first, and the
    status lines of a single-node and of a three-node cluster. */
module Scenarios {
  import opened Wrappers
  import opened Text
  import opened ZkStatus
  import opened Engine
  import opened Membership
  import opened Handlers
  import Srvr
  import opened Invariants

  /** A unit with no flags, nothing stored and nothing reported. */
  const Fresh := Unit({}, EmptyStore, None, [], [])

  /** The registry cut around the two handlers a fresh unit may run. */
  const RegistryHead: seq<Handler> := [ZookeeperAptDepsAvailable]
  const RegistryMiddle: seq<Handler> :=
    [CreateZookeeperDirs, SetDatadirAvailableFlag, SetDatalogdirAvailableFlag, PrepareZkStorageDirs, ProvisionZookeeper]
  const RegistryInit: seq<Handler> :=
    [CreateZookeeperInitConfig, RenderZookeeperSystemd, SetZookeeperInitComplete,
     RenderZookeeperDynamicConfig, StartInitialZookeeperForLeader]
  const RegistryTail: seq<Handler> :=
    [ZookeeperVersion, GetSetZookeeperStatus, ReprovisionAllTheThings,
     UpdateUnitdataKvWithCurrentPeers, ProvideClientRelationData]
  const ThroughUser := RegistryHead + [CreateZookeeperUser]
  const ThroughBind := ThroughUser + RegistryMiddle + [BindAddressZkNodesAvailable]
  const ThroughLeader := ThroughBind + RegistryInit

  /** The first two handlers a fresh unit may run, in declaration order. */
  const FreshHandlers: seq<Handler> := [CreateZookeeperUser, BindAddressZkNodesAvailable]

  lemma RegistrySegments()
    ensures Registry == ThroughLeader + RegistryTail
    ensures [CreateZookeeperUser] + [BindAddressZkNodesAvailable] == FreshHandlers
  {
  }

  /** With no flag set and no hook running, each segment's guards all fail,
      and the user and bind handlers' guards hold. */
  lemma FreshSkipsHead()
    ensures FilterEligible(RegistryHead, {}, None) == []
    ensures FilterEligible([CreateZookeeperUser], {}, None) == [CreateZookeeperUser]
    ensures FilterEligible([BindAddressZkNodesAvailable], {}, None) == [BindAddressZkNodesAvailable]
  {
  }

  lemma FreshSkipsMiddle()
    ensures FilterEligible(RegistryMiddle, {}, None) == []
  {
  }

  lemma FreshSkipsInit()
    ensures FilterEligible(RegistryInit, {}, None) == []
  {
  }

  lemma FreshSkipsTail()
    ensures FilterEligible(RegistryTail, {}, None) == []
  {
  }

  lemma FreshThroughBind()
    ensures FilterEligible(ThroughBind, {}, None) == FreshHandlers
  {
    FreshSkipsHead();
    FreshSkipsMiddle();
    RegistrySegments();
    FilterEligibleAppend(RegistryHead, [CreateZookeeperUser], {}, None);
    FilterEligibleAppend(ThroughUser, RegistryMiddle, {}, None);
    FilterEligibleAppend(ThroughUser + RegistryMiddle, [BindAddressZkNodesAvailable], {}, None);
  }

  lemma FreshThroughLeader()
    ensures FilterEligible(ThroughLeader, {}, None) == FreshHandlers
  {
    FreshThroughBind();
    FreshSkipsInit();
    FilterEligibleAppend(ThroughBind, RegistryInit, {}, None);
  }

  /** On a fresh unit outside any hook, only creating the user and acquiring
      the bind address may run, in that order. */
  lemma FreshUnitFirstHandlers()
    ensures EligibleHandlers({}, None) == FreshHandlers
  {
    FreshThroughLeader();
    FreshSkipsTail();
    RegistrySegments();
    FilterEligibleAppend(ThroughLeader, RegistryTail, {}, None);
  }

  /** The literal replies below are built from their labelled lines. */
  lemma ReplyTexts()
    ensures [] + Srvr.ModeLabel + "standalone" + "\n" == "Mode: standalone\n"
    ensures [] + Srvr.ModeLabel + "follower" + "\n" == "Mode: follower\n"
    ensures "GMT\n" + Srvr.ModeLabel + "leader" + "\n" == "GMT\nMode: leader\n"
  {
  }

  lemma ModeTokens()
    ensures NoSpace("standalone") && NoSpace("follower") && NoSpace("leader")
  {
  }

  lemma StandaloneReply()
    ensures Srvr.GetZookeeperMode("Mode: standalone\n") == "standalone"
  {
    ModeTokens();
    Srvr.ModeLineIsRead([], "standalone", "\n");
    ReplyTexts();
  }

  lemma FollowerReply()
    ensures Srvr.GetZookeeperMode("Mode: follower\n") == "follower"
  {
    ModeTokens();
    Srvr.ModeLineIsRead([], "follower", "\n");
    ReplyTexts();
  }

  /** A `Mode: ` line after text that holds an `M` of its own, as the
      "GMT" closing a real reply's version line does, is still read. */
  lemma ModeAfterGmt()
    ensures Srvr.GetZookeeperMode("GMT\nMode: leader\n") == "leader"
  {
    ModeTokens();
    Srvr.ModeLineIsRead("GMT\n", "leader", "\n");
    ReplyTexts();
  }

  /** The status line a running server reports once its mode has been read
      and the stored node list counted. */
  lemma RunningStatusLine(u: Unit, env: Env, mode: string, nodes: nat)
    requires env.running && Srvr.GetZookeeperMode(env.srvrReply) == mode
    requires NodeCount(u.store) == nodes
    ensures ZkRunningStatus(u, env).status == Some(Status(Active, RunningMessage(mode, nodes)))
    ensures DynamicConfigStep(u, env).status == Some(Status(Active, RunningMessage(mode, nodes)))
  {
  }

  lemma SmallCountMessages()
    ensures RunningMessage("standalone", 1) == "ZK standalone - 1 nodes"
    ensures RunningMessage("follower", 3) == "ZK follower - 3 nodes"
  {
    assert NatToString(1) == "1";
    assert NatToString(3) == "3";
  }

  /** Unit `zookeeper/0` binding to 10.0.0.5 takes id 1 and lists itself. */
  lemma FirstUnitBinds(env: Env)
    requires env.self == UnitName("zookeeper", 0) && env.ingressAddress == "10.0.0.5"
    ensures BindStep(Fresh, env).store.zkId == Some(1)
    ensures BindStep(Fresh, env).store.zkNodes == Some([Node(Some("10.0.0.5"), Some(1))])
  {
  }

  /** A single-node bring-up on the leader, once initialisation is complete:
      the leader handler starts the server once and opens the ports, and the
      status handler, which the started flag switches on, reports one
      standalone node. (The dynamic-config handler never runs on a unit
      without peers; see `Invariants.DynamicConfigNeedsPeers`.) */
  lemma SingleNodeBringUp(u: Unit, env: Env)
    requires ChainHolds(u.flags)
    requires InitComplete in u.flags && IsLeader in u.flags && InitStarted !in u.flags
    requires u.store.zkNodes == Some([Node(Some("10.0.0.5"), Some(1))])
    requires env.startSucceeds && env.running
    requires Srvr.GetZookeeperMode(env.srvrReply) == "standalone"
    ensures Eligible(GuardOf(StartInitialZookeeperForLeader), u.flags, env.hook)
    ensures Fire(StartInitialZookeeperForLeader, env, u) == Completed(StartLeaderStep(u, env))
    ensures StartLeaderStep(u, env).flags == u.flags + {InitStarted}
    ensures StartLeaderStep(u, env).actions == u.actions + [StartService, OpenPort(2181), OpenPortRange(2888, 3888)]
    ensures ChainHolds(StartLeaderStep(u, env).flags)
    ensures Eligible(GuardOf(GetSetZookeeperStatus), StartLeaderStep(u, env).flags, env.hook)
    ensures Fire(GetSetZookeeperStatus, env, StartLeaderStep(u, env)).unit.status
            == Some(Status(Active, "ZK standalone - 1 nodes"))
  {
    var started := StartLeaderStep(u, env);
    assert started.store == u.store;
    RunningStatusLine(started, env, "standalone", 1);
    SmallCountMessages();
  }

  function PeerAt(ordinal: nat, address: string): Peer {
    Peer(UnitName("zookeeper", ordinal), Some(map[PrivateAddress := address]))
  }

  /** A three-node cluster seen from `zookeeper/0` (10.0.0.5): the two other
      units join, and the rebuild lists them in join order with ids 2 and 3,
      appends this unit with id 1, and records two peers. */
  lemma ThreeNodeRebuild(self: UnitName, peers: seq<Peer>)
    requires self == UnitName("zookeeper", 0)
    requires peers == [PeerAt(1, "10.0.0.6"), PeerAt(2, "10.0.0.7")]
    ensures RebuildPeers(peers, Bind(EmptyStore, self, "10.0.0.5"))
            == Replaced([Node(Some("10.0.0.6"), Some(2)), Node(Some("10.0.0.7"), Some(3)), Node(Some("10.0.0.5"), Some(1))], 2)
  {
    var bound := Bind(EmptyStore, self, "10.0.0.5");
    assert HasAddress(peers[0]) && HasAddress(peers[1]);
    assert AnyData(peers) by { assert HasData(peers[0]); }
    var r := RebuildPeers(peers, bound);
    assert r.Replaced?;
    assert r.nodes[0] == PeerNode(peers[0]) == Node(Some("10.0.0.6"), Some(2));
    assert r.nodes[1] == PeerNode(peers[1]) == Node(Some("10.0.0.7"), Some(3));
  }

  /** After that rebuild the restarted follower reports three nodes. */
  lemma ThreeNodeStatus(u: Unit, env: Env)
    requires u.store.zkNodes == Some([Node(Some("10.0.0.6"), Some(2)), Node(Some("10.0.0.7"), Some(3)), Node(Some("10.0.0.5"), Some(1))])
    requires InitStartAvailable in u.flags && IsLeader !in u.flags
    requires env.running && Srvr.GetZookeeperMode(env.srvrReply) == "follower"
    ensures RestartService in DynamicConfigStep(u, env).actions
    ensures DynamicConfigStep(u, env).status == Some(Status(Active, RunningMessage("follower", 3)))
  {
    RunningStatusLine(u, env, "follower", 3);
  }

  /** Empty relation data does not tear down a working membership: with no
      peer data the rebuild keeps the stored list, the count and the flags. */
  lemma EmptyPeerDataKeepsMembership(u: Unit, env: Env)
    requires forall i :: 0 <= i < |env.peers| ==> env.peers[i].data.None?
    ensures UpdatePeersStep(u, env).Completed?
    ensures UpdatePeersStep(u, env).unit.store == u.store
    ensures UpdatePeersStep(u, env).unit.flags == u.flags
    ensures UpdatePeersStep(u, env).unit.status == Some(Status(Maintenance, "Acquiring Zookeeper peers."))
  {
  }
}
