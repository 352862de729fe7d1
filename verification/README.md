# ZooKeeper charm reconciliation model

A Dafny model of the logic of a Juju charm that deploys an Apache ZooKeeper
ensemble. The charm is written for the `charms.reactive` framework: every
handler is guarded by flags (`@when` flags must be set, `@when_not` flags must
be unset) or by a hook name (`@hook`), and a handler's body sets or clears
flags, writes the unit's key/value store and calls the outside world. The
model covers four parts of that logic:

- **The flag-guarded handlers** (`engine.dfy`, `handlers.dfy`,
  `invariants.dfy`). The unit's flags are a `set<string>`. Each handler of
  `src/reactive/zookeeper.py` is a value of `Handlers.Handler`. `GuardOf`
  gives its decorators and `Fire` gives one firing as a pure function of the
  unit and of what the world answers (`Env`). The dynamic-config handler
  chooses between a cold start, a follower restart and a leader restart.
  The upgrade hook stops the server only when `zk.init.installed` is set and
  the server is running, reinstalls it, and starts it only when it is not
  running. A provisioning
  failure leaves the unit blocked. `invariants.dfy` proves what every run
  keeps:
  - each firing stays within the flags its body names;
  - only four flags are ever cleared;
  - a completed flag-guarded handler turns its own guard off, apart from
    the exceptions listed in the table;
  - once the initial config is rendered, the dynamic-config flag is unset
    only while the store holds at least two nodes;
  - the chain `zk.init.complete ⇒ zk.systemd.available ⇒ zk.init.config.available ⇒ {bind, resource, dirs, storage, apt-deps}`
    holds after any sequence of firings and foreign flag changes.
- **The membership store** (`membership.dfy`). Acquiring the bind address
  stores id `N + 1` for unit `app/N` and a one-entry node list. The peer
  rebuild produces a new node list from a snapshot of the joined peers: one
  entry per peer, in join order, then this unit last. It can also leave the
  list alone, or raise.
- **Reading the `srvr` reply** (`srvr.dfy`). The mode and the version are
  the token captured by the leftmost match of `Mode: (\S+)` and
  `Zookeeper version: (\S+)`. The version is cut to 15 characters. Each has
  a fixed fallback.
- **The readiness poll and status reporting** (`poll.dfy`, `status.dfy`).
  The poll asks the server at most 101 times. `zk_status_and_log` maps a
  level string to a status and a log line.

The Python code raises in some cases. One is a peer whose relation data has
not arrived while another peer's has. Another is a record without
`private-address`. The model returns `Outcome.Raised` for these cases. A run
then keeps the unit as it was, because charm state is committed only when a
hook ends successfully. `scenarios.dfy` replays a fresh unit, the leader's
first start on a single node followed by its status line, and a three-node
cluster.

The model follows the code where it departs from the charm's intended design:

- The poll loop runs while `count <= 100`, so it makes up to 101 probes. A
  reply that is not "initializing" at index `k` means ready when `k <= 100`,
  not only when `k < 100`.
- A successful start opens port 2181 and the port range 2888–3888. It does
  not open three single ports.
- This generation of the code has no quorum-complete gate and emits no
  `waiting` status with a deficit. The leader and the followers both
  restart. A cold start happens only on a non-leader without
  `zk.init.start.available`.

## Model

| member | source | states |
|---|---|---|
| Text.NatToStringRoundTrip | src/lib/charms/layer/zookeeper.py:84 | the count that `f"{count}"` writes reads back as the same number, so the numeral is faithful |
| Text.NatToStringInjective | src/reactive/zookeeper.py:538 | different node counts give different status text |
| ZkStatus.ZkStatusAndLog | src/lib/charms/layer/zookeeper.py:93-106 | it acts exactly on "active", "blocked", "waiting", "maint" and "maintenance"; the status message and the log line are both the given message; "maint" and "maintenance" both mean Maintenance; any other level has no effect |
| ZkStatus.LevelNameRoundTrip | src/reactive/zookeeper.py:545-558 | the charm's own name for each level selects that level |
| Srvr.FindMatch | src/lib/charms/layer/zookeeper.py:69-70 | the index found is a match of `key(\S+)` with no earlier match; none is found only when nothing matches |
| Srvr.RunEnd | src/lib/charms/layer/zookeeper.py:69 | the greedy `\S+` stops at the first whitespace or at the end of the text |
| Srvr.FirstCapture | src/lib/charms/layer/zookeeper.py:69-72 | there is no capture exactly when the search finds no match; otherwise the capture is the greedy non-whitespace token right after the key at the index found |
| Srvr.FindMatchIsLeftmost | src/lib/charms/layer/zookeeper.py:69-70 | the search returns index i exactly when i is the leftmost match, and returns nothing exactly when nothing matches |
| Srvr.FirstCaptureIsLeftmost | src/lib/charms/layer/zookeeper.py:69-72 | the capture is absent exactly when the pattern never matches; otherwise it is the group of the leftmost match |
| Srvr.GroupIsUnique | src/lib/charms/layer/zookeeper.py:69 | the greedy `\S+` group that starts at a given index is unique |
| Srvr.CaptureIsUnique | src/lib/charms/layer/zookeeper.py:69-72 | the leftmost match and its greedy group are unique, so the capture is fully determined |
| Srvr.MatchStartsWithKey | src/lib/charms/layer/zookeeper.py:69 | every match starts with the first character of the key |
| Srvr.GetZookeeperMode | src/lib/charms/layer/zookeeper.py:67-74 | the mode is non-empty and has no whitespace; it is "initializing" when the search finds no `Mode: ` followed by a non-space; otherwise it is the whole greedy token after the label at the index found |
| Srvr.GetZookeeperVersion | src/lib/charms/layer/zookeeper.py:57-64 | on a match, the version has 1 to 15 characters and no whitespace, is the text right after the label at the index found, and is cut short of 15 only where the token ends; with no match it is "SOMETHING IS WRONG PLEASE DEBUG" |
| Srvr.CutTokenIsTruncation | src/lib/charms/layer/zookeeper.py:59-62 | such a cut token is exactly the greedy token's first min(15, length) characters |
| Srvr.CaptureAfter | src/lib/charms/layer/zookeeper.py:59 | a key followed by a token that whitespace or the end closes is matched there and captures that token |
| Srvr.ModeLineIsRead | src/lib/charms/layer/zookeeper.py:67-72 | a reply whose text before `Mode: <token>` holds no match of its own and does not end in `Mode: ` reports that token |
| Srvr.VersionLineIsRead | src/lib/charms/layer/zookeeper.py:57-62 | a reply that opens with `Zookeeper version: <token>` reports the token cut to 15 characters |
| Srvr.ReplyWithoutModeIsInitializing | src/lib/charms/layer/zookeeper.py:73-74 | a reply containing no `M` reads as "initializing" |
| Poll.PollZkReady | src/lib/charms/layer/zookeeper.py:77-90 | with the service not running: false, no probe, no status. Otherwise 1 to 101 probes; ready exactly when the last reply is not "initializing", every earlier reply being "initializing". Not ready only after 101 "initializing" replies. The statuses are one "still initializing: n" maintenance status per "initializing" reply, in order |
| Poll.PollingStatusesCount | src/lib/charms/layer/zookeeper.py:84-85 | the n-th status reported (from 0) is the one naming n, and there are exactly as many statuses as "initializing" replies |
| Poll.NotInitializingPastPrefix | src/lib/charms/layer/zookeeper.py:79-82 | a reply that is not "initializing" lies beyond every leading run of "initializing" replies |
| Poll.PollAgreesWithExpected | src/lib/charms/layer/zookeeper.py:79-90 | with k "initializing" replies and then another reply: ready after k+1 probes when k ≤ 100, not ready after 101 probes otherwise, and not ready without probing when the service is stopped |
| Engine.EligibleFlagByFlag | src/reactive/zookeeper.py:194-199 | a flag guard holds exactly when every `@when` flag is set and every `@when_not` flag is unset |
| Handlers.GuardOf | src/reactive/zookeeper.py:73-418 | exactly the two storage-attach handlers and the upgrade handler are `@hook` handlers; every other handler has `@when`/`@when_not` flags, and all its `@when_not` flags are the charm's own `zk.*` flags |
| Handlers.RegistryListsEveryHandlerOnce | src/reactive/zookeeper.py:73-418 | the registry lists every handler the charm declares, each exactly once |
| Handlers.Fire | src/reactive/zookeeper.py:73-418 | only the peer rebuild can raise, and only the bind and peer-rebuild handlers write the store |
| Handlers.EligibleHandlers | src/reactive/zookeeper.py:73-418 | a handler is listed exactly when its decorators' guard holds for the flags and the current hook |
| Handlers.FilterEligibleAppend | src/reactive/zookeeper.py:73-418 | the eligible handlers of two consecutive stretches of the registry are those of the first followed by those of the second |
| Membership.ServerId | src/reactive/zookeeper.py:185 | the id of unit `app/N` is N+1, so it is at least 1 |
| Membership.Bind | src/reactive/zookeeper.py:184-188 | stores the address and an id that is the ordinal plus one (at least 1); the node list becomes the single entry with that address and that same id |
| Membership.PeerNodes | src/reactive/zookeeper.py:391-394 | one entry per peer, in join order, holding the peer's private address and id ordinal+1 |
| Membership.RebuildPeers | src/reactive/zookeeper.py:386-399 | it raises exactly when a record lacks `private-address`, or when some peer has data and another has none. The list stays unchanged exactly when no peer has data, including when there are no peers. Otherwise it holds one entry per peer in join order, then the stored self entry, and the peer count is `len(peers)` |
| Membership.RebuildIdempotent | src/reactive/zookeeper.py:386-399 | rebuilding again from the same snapshot after applying a rebuild gives the same result |
| Membership.RebuildKeepsIdentity | src/reactive/zookeeper.py:396-399 | the rebuild never changes the stored bind address or id |
| Membership.RebuildIdsDistinct | src/reactive/zookeeper.py:391-397 | when the peers' ordinals differ from each other and from this unit's, all ids in the rebuilt list are distinct |
| Membership.RebuildAppendsBoundSelf | src/reactive/zookeeper.py:396-397 | after binding, the entry the rebuild appends for this unit equals the singleton the bind step stored |
| Handlers.InitStartZookeeper | src/reactive/zookeeper.py:425-437 | it always starts the service; the client port and the 2888–3888 range are opened, with an active status, only when the start succeeds; otherwise the unit is blocked with the fixed message; flags and store are untouched |
| Handlers.ZkRunningStatus | src/reactive/zookeeper.py:531-542 | when the service is running the status is active "ZK <mode> - <n> nodes", where the mode is read from the reply and n counts the stored nodes (0 when none are stored); otherwise it is blocked |
| Handlers.ReportIsStatusAndLog | src/lib/charms/layer/zookeeper.py:93-106 | the model's status report equals what `zk_status_and_log` does for that level's name: it sets that status and appends the message to the log |
| Handlers.SetZookeeperVersion | src/reactive/zookeeper.py:561-572 | publishes exactly one version: the one read from the reply, at most 15 characters or the fallback text |
| Handlers.AptDepsStep | src/reactive/zookeeper.py:73-80 | sets exactly `zk.apt.deps.available` |
| Handlers.CreateUserStep | src/reactive/zookeeper.py:83-94 | sets exactly `zk.user.available` |
| Handlers.CreateDirsStep | src/reactive/zookeeper.py:97-112 | sets exactly `zk.dirs.available` |
| Handlers.PrepareStorageStep | src/reactive/zookeeper.py:125-150 | sets exactly `zk.storage.available` |
| Handlers.ProvisionStep | src/reactive/zookeeper.py:153-174 | a missing resource leaves the flags unchanged, so `zk.resource.available` stays unset, and blocks with the TROUBLE message; a found resource sets exactly that flag with an active status |
| Handlers.BindStep | src/reactive/zookeeper.py:177-191 | sets exactly `zk.bind.address.available` and writes the store as the bind step prescribes |
| Handlers.InitConfigStep | src/reactive/zookeeper.py:194-210 | sets exactly `zk.dynamic.config.available` and `zk.init.config.available` |
| Handlers.SystemdStep | src/reactive/zookeeper.py:213-236 | sets exactly `zk.systemd.available` |
| Handlers.InitCompleteStep | src/reactive/zookeeper.py:239-246 | sets exactly `zk.init.complete` |
| Handlers.ChooseBranch | src/reactive/zookeeper.py:273-297 | cold start exactly when not previously started and not leader; follower restart exactly when previously started and not leader; leader restart exactly when leader; so exactly one branch is taken |
| Handlers.DynamicConfigStep | src/reactive/zookeeper.py:249-301 | it renders the stored node list first. A cold start starts the server and sets `zk.init.started` and `zk.init.start.available` whether or not the start succeeded; both restart branches restart the server. It always ends with `zk.dynamic.config.available` set and the running status reported |
| Handlers.StartLeaderStep | src/reactive/zookeeper.py:304-313 | starts the server and sets `zk.init.started` even when the start fails |
| Handlers.VersionStep | src/reactive/zookeeper.py:316-324 | sets exactly `zk.version.available` |
| Handlers.ReinstallActions | src/reactive/zookeeper.py:357-370 | the reinstall's actions include a start exactly when the server is not running, never include a stop, and publish a version exactly when the unit is leader |
| Handlers.Reinstall | src/reactive/zookeeper.py:357-371 | appends exactly the reinstall actions, publishing the version read from the reply when the unit is leader; clears exactly `zk.version.available`, leaves the store alone and ends active |
| Handlers.UpgradeStep | src/reactive/zookeeper.py:335-371 | stops the server exactly when `zk.init.installed` is set and the server is running. A missing resource blocks with the flags unchanged. Otherwise the server is started exactly when it is not running (its own stop counts) and exactly `zk.version.available` is cleared |
| Handlers.UpdatePeersStep | src/reactive/zookeeper.py:374-402 | it raises exactly when the rebuild raises. With no peer data, flags and store are unchanged. A replaced list clears exactly `endpoint.zk-peers.available` and `zk.dynamic.config.available` and stores the new list and count |
| Handlers.ClientDataStep | src/reactive/zookeeper.py:405-418 | clears exactly `endpoint.zookeeper.available` |
| Invariants.FireStaysWithinDeclaredEffect | src/reactive/zookeeper.py:73-418 | a completed firing sets only the flags its body's `set_flag` calls name and clears only those its `clear_flag` calls name |
| Invariants.DeclaredEffectsBounded | src/reactive/zookeeper.py:371-418 | all clears fall among the four flags cleared at lines 371, 400, 401 and 418; all sets are the charm's own `zk.*` flags |
| Invariants.DeclaredEffectPreservesChain | src/reactive/zookeeper.py:194-246 | any flag change within an eligible handler's declared effect keeps the initialisation chain |
| Invariants.FirePreservesChain | src/reactive/zookeeper.py:194-246 | every eligible firing keeps the initialisation chain |
| Invariants.ApplyPreservesChain | src/reactive/zookeeper.py:194-246 | a firing, a skipped ineligible handler, a raising handler or a foreign flag change keeps the chain |
| Invariants.RunPreservesChain | src/reactive/zookeeper.py:194-246 | from any state where it holds, the chain holds after every sequence of events |
| Invariants.RunKeepsStickyFlags | src/reactive/zookeeper.py:371-418 | a `zk.*` flag outside the four cleared ones, once set, stays set through every run |
| Invariants.FiringDisablesItself | src/reactive/zookeeper.py:73-418 | each flag-guarded handler completes and is then no longer eligible, because it sets one of its `@when_not` flags or clears one of its `@when` flags. Three cases are excluded: the status handler; a provisioning attempt whose resource is missing (it sets nothing, so it runs again); and a peer rebuild that found no peer data (it leaves the flags alone) or raised |
| Invariants.FireKeepsRebuilt | src/reactive/zookeeper.py:177-210 | every eligible completed firing keeps the membership invariant (with the initial config rendered and the dynamic-config flag unset, the store holds at least two nodes): the init-config handler sets both flags together, the bind handler runs only before the config is rendered, and a replaced list holds this unit and at least one peer |
| Invariants.RunKeepsRebuilt | src/reactive/zookeeper.py:374-402 | from a state where the chain and the membership invariant hold, the membership invariant holds after every sequence of events |
| Invariants.DynamicConfigNeedsPeers | src/reactive/zookeeper.py:249-258 | on any run that starts where the chain and the membership invariant hold, the store holds at least two nodes whenever the dynamic-config handler is eligible |
| Scenarios.FreshUnitFirstHandlers | src/reactive/zookeeper.py:83-191 | on a fresh unit outside hooks the eligible handlers are exactly the user-creation handler followed by the bind-address handler, in registry order |
| Scenarios.StandaloneReply | src/lib/charms/layer/zookeeper.py:67-72 | the reply "Mode: standalone" reads as mode "standalone" |
| Scenarios.FollowerReply | src/lib/charms/layer/zookeeper.py:67-72 | the reply "Mode: follower" reads as mode "follower" |
| Scenarios.ModeAfterGmt | src/lib/charms/layer/zookeeper.py:67-72 | a mode line after another line ("GMT", then "Mode: leader") reads as mode "leader" |
| Scenarios.RunningStatusLine | src/reactive/zookeeper.py:531-538 | once the mode is read and the nodes counted, both the status handler and the dynamic-config handler report "ZK <mode> - <n> nodes" |
| Scenarios.SmallCountMessages | src/reactive/zookeeper.py:538 | the status lines for one standalone node and three follower nodes read "ZK standalone - 1 nodes" and "ZK follower - 3 nodes" |
| Scenarios.FirstUnitBinds | src/reactive/zookeeper.py:184-191 | unit `zookeeper/0` at 10.0.0.5 stores id 1 and the node list [{10.0.0.5, 1}] |
| Scenarios.SingleNodeBringUp | src/reactive/zookeeper.py:304-332 | on a single-node leader whose initialisation is complete, the leader start handler (304-313) is eligible. It starts the server once, opens port 2181 and the 2888–3888 range, sets only `zk.init.started` and keeps the chain. The status handler (327-332) is then eligible and, with the server running in standalone mode, reports "ZK standalone - 1 nodes" |
| Scenarios.ThreeNodeRebuild | src/reactive/zookeeper.py:386-399 | peers `zookeeper/1` and `zookeeper/2` at 10.0.0.6 and .7 rebuild to ids 2 and 3, then self with id 1, and 2 peers |
| Scenarios.ThreeNodeStatus | src/reactive/zookeeper.py:284-300 | a follower that has started before restarts on the new list and reports three nodes |
| Scenarios.EmptyPeerDataKeepsMembership | src/reactive/zookeeper.py:381-388 | with no peer data, the stored membership and the flags survive; only the maintenance status is reported |

## Left out

- Socket I/O in `netcat` (src/lib/charms/layer/zookeeper.py:43-54). The reply text is an input. The function keeps only the last chunk it received and fails when the server sends nothing; neither is modelled.
- Template rendering, file removal and the jinja2 helper `update_zookeeper_dynamic_config`. The reactive handlers never call that helper. `setup_zookeeper_init_config` and the service and dynamic-config renders are recorded as abstract actions; the files' contents are not modelled.
- `adduser`, `chownr`, `mkdir`, the `tar`/`rm`/`systemctl` calls, `resource_get` and `network_get`. They become actions or `Env` answers: the resource is found or not, and the ingress address is given. A failing `check_call` raises; that is not modelled.
- Parsing `JUJU_UNIT_NAME` and peer unit names: a name arrives already split into application and ordinal. `int()` failures and an empty ingress-address list are not modelled.
- The `sleep` calls and the wait for `zkServer.sh` to appear.
- The framework's dispatch order, re-dispatch within a hook, and the rollback of earlier firings in the same hook when a later one raises. A run applies single firings, and only eligible ones.
- `service_running` gets one answer per firing. The upgrade hook's own stop makes it false.
- The return value of `application_version_set` (a foreign call) is an input string that appears in the "Zookeeper <...> installed." message.
- The quorum-complete gate, the `waiting` status with a peer deficit, and the leader-first option are not in this generation of the code, so they are not modelled.
- Handlers.Report: each status call replaces the previous status, so the last call of a firing is the one that stays. `charms.layer.status` is not part of this model, so any other way it combines calls within a hook is not modelled.
- Handlers.Report takes a status level rather than the level's name. The charm passes only recognised names, and `ReportIsStatusAndLog` ties each level to its name.
- Poll.PollZkReady: the log lines the poll writes are not listed separately, because `ZkStatus.ZkStatusAndLog` proves each log line equals its status message.
