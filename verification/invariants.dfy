/** What holds of every firing and every run of the charm's handlers: the
    flags each handler may set or clear, the dependency chain among the
    initialisation flags, and the handlers that switch themselves off. */
module Invariants {
  import opened Wrappers
  import opened Engine
  import opened Membership
  import opened Handlers

  /** The flags a handler may set, as its body's `set_flag` calls name them. */
  function Sets(h: Handler): set<Flag> {
    match h
    case ZookeeperAptDepsAvailable => {AptDeps}
    case CreateZookeeperUser => {UserReady}
    case CreateZookeeperDirs => {DirsReady}
    case SetDatadirAvailableFlag => {DatadirStorage}
    case SetDatalogdirAvailableFlag => {DatalogdirStorage}
    case PrepareZkStorageDirs => {StorageReady}
    case ProvisionZookeeper => {ResourceReady}
    case BindAddressZkNodesAvailable => {BindReady}
    case CreateZookeeperInitConfig => {DynamicConfig, InitConfig}
    case RenderZookeeperSystemd => {SystemdReady}
    case SetZookeeperInitComplete => {InitComplete}
    case RenderZookeeperDynamicConfig => {InitStarted, InitStartAvailable, DynamicConfig}
    case StartInitialZookeeperForLeader => {InitStarted}
    case ZookeeperVersion => {VersionReady}
    case GetSetZookeeperStatus => {}
    case ReprovisionAllTheThings => {}
    case UpdateUnitdataKvWithCurrentPeers => {}
    case ProvideClientRelationData => {}
  }

  /** The flags a handler may clear, as its body's `clear_flag` calls name them. */
  function Clears(h: Handler): set<Flag> {
    match h
    case ReprovisionAllTheThings => {VersionReady}
    case UpdateUnitdataKvWithCurrentPeers => {PeersAvailable, DynamicConfig}
    case ProvideClientRelationData => {ClientAvailable}
    case _ => {}
  }

  /** A firing that completes sets only flags its handler names under
      `set_flag` and clears only flags it names under `clear_flag`. */
  lemma FireStaysWithinDeclaredEffect(h: Handler, env: Env, u: Unit)
    requires Eligible(GuardOf(h), u.flags, env.hook)
    ensures Fire(h, env, u).Completed? ==>
              && Fire(h, env, u).unit.flags - u.flags <= Sets(h)
              && u.flags - Fire(h, env, u).unit.flags <= Clears(h)
  {
    if IsInstallHandler(h) {
      InstallWithinDeclaredEffect(h, env, u);
    } else if IsSetupHandler(h) {
      SetupWithinDeclaredEffect(h, env, u);
    } else {
      RunningWithinDeclaredEffect(h, env, u);
    }
  }

  /** A completed firing changed no flag outside the handler's declared effect. */
  predicate WithinDeclaredEffect(h: Handler, u: Unit, o: Outcome) {
    o.Completed? ==> o.unit.flags - u.flags <= Sets(h) && u.flags - o.unit.flags <= Clears(h)
  }

  /** The handlers that prepare the machine. */
  predicate IsInstallHandler(h: Handler) {
    || h.ZookeeperAptDepsAvailable? || h.CreateZookeeperUser? || h.CreateZookeeperDirs?
    || h.SetDatadirAvailableFlag? || h.SetDatalogdirAvailableFlag? || h.PrepareZkStorageDirs?
  }

  /** The handlers that install and configure the server. */
  predicate IsSetupHandler(h: Handler) {
    || h.ProvisionZookeeper? || h.BindAddressZkNodesAvailable? || h.CreateZookeeperInitConfig?
    || h.RenderZookeeperSystemd? || h.SetZookeeperInitComplete? || h.RenderZookeeperDynamicConfig?
  }

  lemma InstallWithinDeclaredEffect(h: Handler, env: Env, u: Unit)
    requires IsInstallHandler(h) && Eligible(GuardOf(h), u.flags, env.hook)
    ensures WithinDeclaredEffect(h, u, Fire(h, env, u))
  {
  }

  lemma SetupWithinDeclaredEffect(h: Handler, env: Env, u: Unit)
    requires IsSetupHandler(h) && Eligible(GuardOf(h), u.flags, env.hook)
    ensures WithinDeclaredEffect(h, u, Fire(h, env, u))
  {
  }

  /** The handlers that act on a running server, and the hooks. */
  lemma RunningWithinDeclaredEffect(h: Handler, env: Env, u: Unit)
    requires !IsInstallHandler(h) && !IsSetupHandler(h) && Eligible(GuardOf(h), u.flags, env.hook)
    ensures WithinDeclaredEffect(h, u, Fire(h, env, u))
  {
  }

  /** Between them the handlers clear four flags, none of which the
      initialisation chain depends on, and set only the charm's own flags. */
  lemma DeclaredEffectsBounded(h: Handler)
    ensures Clears(h) <= ClearedFlags
    ensures Sets(h) <= CharmFlags
    ensures Sets(h) !! Clears(h) || h == UpdateUnitdataKvWithCurrentPeers
  {
  }

  /** Initialisation is complete only once the systemd unit is installed, that
      only once the initial config is rendered, and that only once the bind
      address, resource, directories, storage and dependencies are ready. */
  predicate ChainHolds(flags: set<Flag>) {
    && (InitComplete in flags ==> SystemdReady in flags)
    && (SystemdReady in flags ==> InitConfig in flags)
    && (InitConfig in flags ==> {BindReady, ResourceReady, DirsReady, StorageReady, AptDeps} <= flags)
  }

  /** A change of flags within a handler's declared effect, starting where
      its guard held, keeps the chain. */
  lemma DeclaredEffectPreservesChain(h: Handler, before: set<Flag>, after: set<Flag>, hook: Option<string>)
    requires Eligible(GuardOf(h), before, hook)
    requires ChainHolds(before)
    requires before - Clears(h) <= after <= before + Sets(h)
    ensures ChainHolds(after)
  {
    match h
    case CreateZookeeperInitConfig =>
    case RenderZookeeperSystemd =>
    case SetZookeeperInitComplete =>
    case ReprovisionAllTheThings =>
    case UpdateUnitdataKvWithCurrentPeers =>
    case ProvideClientRelationData =>
    case _ =>
  }

  /** One firing keeps the chain: each chain flag is set only by a handler
      whose guard requires the flags below it, and no handler clears one. */
  lemma FirePreservesChain(h: Handler, env: Env, u: Unit)
    requires Eligible(GuardOf(h), u.flags, env.hook)
    requires ChainHolds(u.flags)
    ensures Fire(h, env, u).Completed? ==> ChainHolds(Fire(h, env, u).unit.flags)
  {
    FireStaysWithinDeclaredEffect(h, env, u);
    var o := Fire(h, env, u);
    if o.Completed? {
      DeclaredEffectPreservesChain(h, u.flags, o.unit.flags, env.hook);
    }
  }

  /** What happens to the unit: the framework fires a handler (only when its
      guard holds), or another layer changes flags that are not this charm's
      own (leadership, endpoint, package flags). */
  datatype Event =
    | Dispatch(h: Handler, env: Env)
    | External(flags: set<Flag>)

  /** The unit after one event. A firing that raises leaves the unit as it
      was, since the hook's changes are then not committed. */
  function Apply(u: Unit, e: Event): Unit {
    match e
    case Dispatch(h, env) =>
      if Eligible(GuardOf(h), u.flags, env.hook) then
        match Fire(h, env, u)
        case Completed(u') => u'
        case Raised(_) => u
      else u
    case External(others) => u.(flags := (u.flags * CharmFlags) + (others - CharmFlags))
  }

  function Run(u: Unit, es: seq<Event>): Unit
    decreases |es|
  {
    if es == [] then u else Run(Apply(u, es[0]), es[1..])
  }

  lemma ApplyPreservesChain(u: Unit, e: Event)
    requires ChainHolds(u.flags)
    ensures ChainHolds(Apply(u, e).flags)
  {
    if e.Dispatch? && Eligible(GuardOf(e.h), u.flags, e.env.hook) {
      FirePreservesChain(e.h, e.env, u);
    }
  }

  /** Any run from a state where the chain holds (the empty flag set among
      them) keeps it, whatever handlers fire and whatever other layers do. */
  lemma {:induction false} RunPreservesChain(u: Unit, es: seq<Event>)
    requires ChainHolds(u.flags)
    ensures ChainHolds(Run(u, es).flags)
    decreases |es|
  {
    if es != [] {
      ApplyPreservesChain(u, es[0]);
      RunPreservesChain(Apply(u, es[0]), es[1..]);
    }
  }

  /** A charm flag outside the four cleared ones stays set once it is set. */
  lemma {:induction false} RunKeepsStickyFlags(u: Unit, es: seq<Event>, f: Flag)
    requires f in CharmFlags - ClearedFlags
    requires f in u.flags
    ensures f in Run(u, es).flags
    decreases |es|
  {
    if es != [] {
      var e := es[0];
      if e.Dispatch? && Eligible(GuardOf(e.h), u.flags, e.env.hook) {
        FireStaysWithinDeclaredEffect(e.h, e.env, u);
        DeclaredEffectsBounded(e.h);
      }
      RunKeepsStickyFlags(Apply(u, e), es[1..], f);
    }
  }

  /** A completed firing of a handler whose `@when_not` names a flag it sets,
      or whose `@when` names a flag it clears, turns its own guard off, so
      re-evaluating the handlers does not repeat its work. The exceptions are
      the status handler (nothing to turn off), a provisioning attempt that
      failed, a peer rebuild that left the list unchanged, and the hooks. */
  lemma FiringDisablesItself(h: Handler, env: Env, u: Unit)
    requires Eligible(GuardOf(h), u.flags, env.hook)
    requires GuardOf(h).When? && h != GetSetZookeeperStatus
    requires h == ProvisionZookeeper ==> env.resourceFound
    requires h == UpdateUnitdataKvWithCurrentPeers ==> RebuildPeers(env.peers, u.store).Replaced?
    ensures Fire(h, env, u).Completed?
    ensures !Eligible(GuardOf(h), Fire(h, env, u).unit.flags, env.hook)
  {
    if IsInstallHandler(h) {
      InstallDisablesItself(h, env, u);
    } else if IsSetupHandler(h) {
      SetupDisablesItself(h, env, u);
    } else {
      RunningDisablesItself(h, env, u);
    }
  }

  /** The firing completed and its handler's guard no longer holds. */
  predicate TurnedOff(h: Handler, env: Env, o: Outcome) {
    o.Completed? && !Eligible(GuardOf(h), o.unit.flags, env.hook)
  }

  lemma InstallDisablesItself(h: Handler, env: Env, u: Unit)
    requires IsInstallHandler(h) && Eligible(GuardOf(h), u.flags, env.hook)
    requires GuardOf(h).When?
    ensures TurnedOff(h, env, Fire(h, env, u))
  {
  }

  lemma SetupDisablesItself(h: Handler, env: Env, u: Unit)
    requires IsSetupHandler(h) && Eligible(GuardOf(h), u.flags, env.hook)
    requires h == ProvisionZookeeper ==> env.resourceFound
    ensures TurnedOff(h, env, Fire(h, env, u))
  {
  }

  lemma RunningDisablesItself(h: Handler, env: Env, u: Unit)
    requires !IsInstallHandler(h) && !IsSetupHandler(h) && Eligible(GuardOf(h), u.flags, env.hook)
    requires GuardOf(h).When? && h != GetSetZookeeperStatus
    requires h == UpdateUnitdataKvWithCurrentPeers ==> RebuildPeers(env.peers, u.store).Replaced?
    ensures TurnedOff(h, env, Fire(h, env, u))
  {
  }

  /** Once the initial config is rendered, the dynamic-config flag is unset
      only after a peer rebuild stored this unit and at least one peer: the
      init-config handler sets both flags together, and only a rebuild that
      replaced the list clears the dynamic-config flag. */
  predicate RebuiltWhenUnrendered(u: Unit) {
    InitConfig in u.flags && DynamicConfig !in u.flags ==> NodeCount(u.store) >= 2
  }

  /** A replaced list holds at least one peer besides this unit. */
  lemma ReplacedHasPeer(peers: seq<Peer>, s: Store)
    requires RebuildPeers(peers, s).Replaced?
    ensures |RebuildPeers(peers, s).nodes| >= 2
  {
    assert RebuildPeers(peers, s) != Unchanged;
    var i :| 0 <= i < |peers| && HasData(peers[i]);
  }

  /** A firing keeps the membership invariant: the init-config handler sets
      both flags, the bind handler cannot run once the config is rendered, a
      replaced peer list holds at least two nodes, and every other handler
      leaves the store alone and never clears the dynamic-config flag. */
  lemma FireKeepsRebuilt(h: Handler, env: Env, u: Unit)
    requires Eligible(GuardOf(h), u.flags, env.hook)
    requires ChainHolds(u.flags) && RebuiltWhenUnrendered(u)
    ensures Fire(h, env, u).Completed? ==> RebuiltWhenUnrendered(Fire(h, env, u).unit)
  {
    if h == UpdateUnitdataKvWithCurrentPeers {
      RebuildKeepsRebuilt(env, u);
    } else if h == CreateZookeeperInitConfig {
      InitConfigKeepsRebuilt(env, u);
    } else if h == BindAddressZkNodesAvailable {
      BindKeepsRebuilt(env, u);
    } else if Fire(h, env, u).Completed? {
      FireStaysWithinDeclaredEffect(h, env, u);
      EffectKeepsRebuilt(h, u, Fire(h, env, u).unit);
    }
  }

  /** A rebuild either leaves the store alone or stores at least two nodes. */
  lemma RebuildKeepsRebuilt(env: Env, u: Unit)
    requires Eligible(GuardOf(UpdateUnitdataKvWithCurrentPeers), u.flags, env.hook)
    requires RebuiltWhenUnrendered(u)
    ensures var o := Fire(UpdateUnitdataKvWithCurrentPeers, env, u);
            o.Completed? ==> RebuiltWhenUnrendered(o.unit)
  {
    if RebuildPeers(env.peers, u.store).Replaced? {
      ReplacedHasPeer(env.peers, u.store);
    }
  }

  /** The init-config handler sets the dynamic-config flag with its own. */
  lemma InitConfigKeepsRebuilt(env: Env, u: Unit)
    requires Eligible(GuardOf(CreateZookeeperInitConfig), u.flags, env.hook)
    ensures var o := Fire(CreateZookeeperInitConfig, env, u);
            o.Completed? ==> RebuiltWhenUnrendered(o.unit)
  {
    assert DynamicConfig in Fire(CreateZookeeperInitConfig, env, u).unit.flags;
  }

  /** The bind handler runs only before the config is rendered, and leaves
      the init-config flag unset. */
  lemma BindKeepsRebuilt(env: Env, u: Unit)
    requires Eligible(GuardOf(BindAddressZkNodesAvailable), u.flags, env.hook)
    requires ChainHolds(u.flags)
    ensures var o := Fire(BindAddressZkNodesAvailable, env, u);
            o.Completed? ==> RebuiltWhenUnrendered(o.unit)
  {
    assert InitConfig !in Fire(BindAddressZkNodesAvailable, env, u).unit.flags;
  }

  /** A change of flags within a declared effect that neither sets the
      init-config flag nor clears the dynamic-config flag, with the store left
      alone, keeps the membership invariant. */
  lemma EffectKeepsRebuilt(h: Handler, u: Unit, v: Unit)
    requires h !in {UpdateUnitdataKvWithCurrentPeers, CreateZookeeperInitConfig}
    requires RebuiltWhenUnrendered(u) && v.store == u.store
    requires v.flags - u.flags <= Sets(h) && u.flags - v.flags <= Clears(h)
    ensures RebuiltWhenUnrendered(v)
  {
    assert DynamicConfig !in Clears(h) && InitConfig !in Sets(h);
  }

  lemma ApplyKeepsRebuilt(u: Unit, e: Event)
    requires ChainHolds(u.flags) && RebuiltWhenUnrendered(u)
    ensures RebuiltWhenUnrendered(Apply(u, e))
  {
    if e.Dispatch? && Eligible(GuardOf(e.h), u.flags, e.env.hook) {
      FireKeepsRebuilt(e.h, e.env, u);
    }
  }

  /** Along any run from a state where both the chain and the membership
      invariant hold, the membership invariant holds. */
  lemma {:induction false} RunKeepsRebuilt(u: Unit, es: seq<Event>)
    requires ChainHolds(u.flags) && RebuiltWhenUnrendered(u)
    ensures RebuiltWhenUnrendered(Run(u, es))
    decreases |es|
  {
    if es != [] {
      ApplyKeepsRebuilt(u, es[0]);
      ApplyPreservesChain(u, es[0]);
      RunKeepsRebuilt(Apply(u, es[0]), es[1..]);
    }
  }

  /** So the dynamic-config handler never fires on a unit that stores fewer
      than two nodes: a unit without peers never reaches it, and its single
      node is started by the leader handler instead. */
  lemma DynamicConfigNeedsPeers(u: Unit, es: seq<Event>, hook: Option<string>)
    requires ChainHolds(u.flags) && RebuiltWhenUnrendered(u)
    requires Eligible(GuardOf(RenderZookeeperDynamicConfig), Run(u, es).flags, hook)
    ensures NodeCount(Run(u, es).store) >= 2
  {
    RunKeepsRebuilt(u, es);
    RunPreservesChain(u, es);
  }
}
