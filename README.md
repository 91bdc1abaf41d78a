# sealer: host selection helpers and the upgrade sequencer, in Dafny

This project models two sequential pieces of sealer's cluster-fleet logic.

- **Host selection and probing** (`pkg/cluster-runtime/utils.go`, module `ClusterRuntime` in
  `cluster_runtime.dfy`):
  - `getWorkerIPList` takes all hosts minus the masters, filling a pre-sized slice through an index.
  - `LoadToRegistry` is the registry-target policy. It prefers node-role hosts, falls back to
    master-role hosts, narrows to the first candidate when HA is off, and makes one
    `DistributeRegistry` call.
  - `CheckNodeSSH` probes every host and reports the failed ones.

  The infra driver is a class. Its answers (hosts by role, all hosts, registry configuration,
  rootfs path) are constant fields. The hosts on which a remote command succeeds are an injected
  set, and every `CmdAsync` is appended to a ghost trace. The distributor is a class too: it
  records every `DistributeRegistry` call and answers with an injected outcome.
- **The upgrade command** (`cmd/sealer/cmd/cluster/upgrade.go`, module `UpgradeCommand` in
  `upgrade.dfy`): the dispatch in the `RunE` closure of `NewUpgradeCmd`, `upgradeWithClusterfile`
  and the `upgradeCluster` sequencer. Every call into a collaborator is an `Event` appended to a
  trace. `World.failing` is the fault-injection input: the set of calls whose reply is an error.
  `Reply` reads a call's answer off that set (an error naming the call, or nil); it is the
  oracle every modelled call consults, not an operation of the source. `Invoke` is the source's
  recurring "call, then `if err != nil { return err }`" step: it makes one call and answers it
  through `Reply`.
  The collaborators' other answers are also fields of `World`: the parsed Clusterfile, the
  inspected image, the driver's host list and image name, the image's plugins and the conf path.

The straight-line methods are proved equal to specification functions: `RunE`,
`UpgradeWithClusterfile`, `UpgradeWithImage` (the image-argument branch of `RunE`),
`UpgradeCluster` and the steps made while the image is mounted. Those functions are built from
`FailFast`, a reference semantics for "make these calls in order and stop at the first failure".
It is defined through `FirstFailure`, the index of the first planned call that fails.
`AttemptUpgrade` adds the mount bracket: once `Mount` succeeds, `Umount` is appended whatever
happens later. Go's `defer` becomes the shape of `UpgradeCluster`: the steps that run while the
image is mounted are the method `WhileMounted`, followed by the unmount. `WhileMounted` runs
`InstallAndUpgrade` (lines 154-190) and then `LaunchApps` (lines 192-213). `FailFastAppend`
shows that the two together behave as one fail-fast sequence. Because `upgradeCluster` has an
unnamed result, the deferred assignment to the local `err` cannot change the value already
returned. The model records the `Umount` call and discards its reply.

`SeqUtil` (`seq_util.dfy`) holds the one filter both helpers use. `Excluding(s, X)` is "the
elements of `s` not in `X`, in order": the workers are `Excluding(all, masters)` and the failed
hosts are `Excluding(clientHosts, reachable)`. Its lemmas cover membership, per-element
occurrence counts, order (subsequence) and length.

`getWorkerIPList` is modelled as written. The result slice has length
`len(all) - len(masters)`, where `len(masters)` counts distinct master addresses. `make` panics
on a negative length. The write at line 40 panics once there are more non-masters than slots.
Slots that are never written stay nil (`None`). `WorkerSliceExact` gives the conditions under
which none of this happens: distinct hosts and every master among the hosts; masters may repeat.

Two behaviours of the code are modelled as written:

- In image-argument mode the code regenerates the Clusterfile from the cluster alone. The
  source's own TODO at `upgrade.go:99` flags this as a potential bug: the previous Clusterfile's
  configs and plugins are lost. The installer therefore gets the image's plugins only
  (`ImageArgumentOverrides`), while in Clusterfile mode the operator's plugins follow the
  image's (`ImagePluginsFirst`).
- `--apps` ("override default AppNames of sealer image", `upgrade.go:110`) always overwrites
  the cluster's application names, even when the flag is not given. An absent flag is `nil`,
  which the model writes as the empty sequence.

## Model

| member | source | states |
|---|---|---|
| `ClusterRuntime.InfraDriver.CmdAsync` | pkg/cluster-runtime/utils.go:94 | the command is appended to the driver's trace; it fails exactly on hosts that are not reachable |
| `ClusterRuntime.Distributor.DistributeRegistry` | pkg/cluster-runtime/utils.go:80 | the call (targets, directory) is appended to the distributor's trace; its reply is the injected outcome |
| `ClusterRuntime.GetWorkerIPList` | pkg/cluster-runtime/utils.go:29-46 | panics exactly when the slice length would be negative or there are more non-masters than slots; otherwise the slice has len(all) - len(distinct masters) slots, holding the non-master hosts in order, followed by nil slots |
| `ClusterRuntime.WorkerSliceExact` | pkg/cluster-runtime/utils.go:30-43 | with distinct hosts and every master among the hosts (masters may repeat), the number of non-masters equals len(all) - len(distinct masters), so there is no panic and no nil slot; with distinct masters that is len(all) - len(masters) |
| `ClusterRuntime.WorkersAreNonMasters` | pkg/cluster-runtime/utils.go:29-46 | a host is a worker iff it is in the host list and is not a master; every occurrence of a non-master is kept and none of a master; the workers keep the host list's order |
| `ClusterRuntime.RegistryPlan` | pkg/cluster-runtime/utils.go:53-77 | skip iff there is no local registry; "no deploy hosts" iff there is a registry but no node and no master; otherwise the targets are a prefix of the nodes, or of the masters when there are no nodes; that prefix is the whole candidate list with HA on and one host with HA off |
| `ClusterRuntime.NonHAExample` | pkg/cluster-runtime/utils.go:69-77 | HA off with candidates nodeA, nodeB: only nodeA is targeted |
| `ClusterRuntime.NoHostsBeforeHA` | pkg/cluster-runtime/utils.go:65-74 | a local registry with a nil HA flag and no deploy host yields the no-deploy-hosts error, since the check at line 65 comes before the dereference at line 74 |
| `ClusterRuntime.LoadToRegistry` | pkg/cluster-runtime/utils.go:49-87 | exactly one DistributeRegistry call, with the planned targets and rootfs/registry, when the plan loads, and none otherwise; returns nil when skipping, the no-deploy-hosts error when there are no candidates, else the distributor's error unchanged |
| `ClusterRuntime.CheckNodeSSH` | pkg/cluster-runtime/utils.go:89-106 | probes every host in input order with `ls >> /dev/null`, even after failures; the failed list is the unreachable hosts in input order; an error (carrying that list) is returned iff the list is non-empty |
| `ClusterRuntime.FailedAreUnreachable` | pkg/cluster-runtime/utils.go:91-105 | a host is in the failed list iff it is an unreachable input host; each of its occurrences is kept; the list is a subsequence of the input; it is empty iff every input host is reachable (so an empty input gives no error) |
| `ClusterRuntime.ProbeExample` | pkg/cluster-runtime/utils.go:91-99 | probing h1, h2, h3 with only h2 unreachable fails h2 alone |
| `UpgradeCommand.FirstFailure` | cmd/sealer/cmd/cluster/upgrade.go:121-213 | the position where a fail-fast sequence stops: every planned call before it succeeds, and the call at it fails unless it is the end of the plan |
| `UpgradeCommand.FailFastSteps` | cmd/sealer/cmd/cluster/upgrade.go:121-213 | the calls made form a prefix of the plan; the sequence succeeds iff no planned call fails, and then all were made; otherwise the last call made is the only one that failed, and its error is returned |
| `UpgradeCommand.FailFastSucceeds` | cmd/sealer/cmd/cluster/upgrade.go:121-213 | a fail-fast sequence succeeds iff none of its planned calls fails, and then it made every planned call |
| `UpgradeCommand.FailFastFails` | cmd/sealer/cmd/cluster/upgrade.go:121-213 | a failed fail-fast sequence returns the error of a planned call that was made and failed |
| `UpgradeCommand.FailFastLocal` | cmd/sealer/cmd/cluster/upgrade.go:121-213 | a fail-fast sequence depends only on the replies to its own planned calls |
| `UpgradeCommand.FailFastAppend` | cmd/sealer/cmd/cluster/upgrade.go:154-213 | two fail-fast sequences run one after the other (the second only if the first succeeded) behave as one fail-fast sequence of both plans |
| `UpgradeCommand.MergePlugins` | cmd/sealer/cmd/cluster/upgrade.go:161-168 | the installer's plugins are the image's followed by the Clusterfile's, whether or not the Clusterfile declares any |
| `UpgradeCommand.Invoke` | cmd/sealer/cmd/cluster/upgrade.go:122-213 | one "call, then `if err != nil { return err }`" step, the pattern of lines 64-103, 122-213 and 221-251: the call is appended to the trace and answered from the world; a failure ends the fail-fast plan with this call's error, a success keeps the trace a prefix of the plan with no failed call |
| `UpgradeCommand.UpgradeCluster` | cmd/sealer/cmd/cluster/upgrade.go:116-218 | the calls made and the result are those of `AttemptUpgrade`: validate, then the fail-fast acquire calls, then the mounted calls, with Umount appended after a successful Mount |
| `UpgradeCommand.WhileMounted` | cmd/sealer/cmd/cluster/upgrade.go:154-217 | the steps from NewScpDistributor to the final SaveAll are one fail-fast sequence |
| `UpgradeCommand.InstallAndUpgrade` | cmd/sealer/cmd/cluster/upgrade.go:154-190 | distributor, plugin loading, installer with the merged plugins, checkpoint SaveAll and Upgrade, as a fail-fast sequence |
| `UpgradeCommand.LaunchApps` | cmd/sealer/cmd/cluster/upgrade.go:192-213 | application driver, Launch, the application's Save and SaveAll with the conf path, as a fail-fast sequence |
| `UpgradeCommand.AcquireCalls` | cmd/sealer/cmd/cluster/upgrade.go:121-145 | the calls up to Mount are planned calls and contain no Umount; if they all succeed, Mount succeeded; if they fail after Mount was called, Mount is the call that failed |
| `UpgradeCommand.AttemptCallsPlanned` | cmd/sealer/cmd/cluster/upgrade.go:116-218 | every call upgradeCluster makes belongs to its full plan: the acquire calls, the mounted calls and Umount |
| `UpgradeCommand.AttemptErrors` | cmd/sealer/cmd/cluster/upgrade.go:116-218 | upgradeCluster fails only with the wrong-image-type error or the error of a call it made |
| `UpgradeCommand.ValidateBeforeMount` | cmd/sealer/cmd/cluster/upgrade.go:117-119 | an image that is not a KubeInstaller is rejected with no call made; any Mount or Umount implies a KubeInstaller image |
| `UpgradeCommand.MountHeld` | cmd/sealer/cmd/cluster/upgrade.go:142-147 | Mount was called and succeeded iff the image is a KubeInstaller and every call up to Mount succeeded |
| `UpgradeCommand.MountReleasedOnce` | cmd/sealer/cmd/cluster/upgrade.go:142-152 | every Umount is of the mounted image; Umount is called iff Mount was called and succeeded, and then only as the very last call, so exactly once |
| `UpgradeCommand.UmountErrorIgnored` | cmd/sealer/cmd/cluster/upgrade.go:147-152 | whether Umount fails changes neither the calls made nor the returned result |
| `UpgradeCommand.UpgradeAfterCheckpoint` | cmd/sealer/cmd/cluster/upgrade.go:181-190 | among the mounted calls, Upgrade is only made right after a successful default-options SaveAll |
| `UpgradeCommand.CheckpointBeforeUpgrade` | cmd/sealer/cmd/cluster/upgrade.go:181-190 | Upgrade is only called after a default-options SaveAll was called and succeeded; a failing checkpoint means no Upgrade |
| `UpgradeCommand.ImagePluginsFirst` | cmd/sealer/cmd/cluster/upgrade.go:161-176 | the installer is given the image's plugins followed by the Clusterfile's plugins |
| `UpgradeCommand.SucceedsIffEveryStepSucceeds` | cmd/sealer/cmd/cluster/upgrade.go:183-217 | no error iff the image is a KubeInstaller and no planned call fails; then every planned call was made in order; an error names a failing call that was made and that is not Umount; with a conf path set, a final SaveAll (no commit, conf path), whether it then fails or not, is made only after Upgrade, Launch and the app Save were made and succeeded |
| `UpgradeCommand.FinalSaveAfterLaunch` | cmd/sealer/cmd/cluster/upgrade.go:187-213 | among the mounted calls, a final SaveAll with a non-empty conf path is the ninth and last call, preceded by Upgrade, Launch and the app Save, none of which failed |
| `UpgradeCommand.FinalSaveReached` | cmd/sealer/cmd/cluster/upgrade.go:187-213 | in a whole attempt, a final SaveAll with a non-empty conf path comes after Upgrade, Launch and the app Save, none of which failed |
| `UpgradeCommand.FailFastReached` | cmd/sealer/cmd/cluster/upgrade.go:121-213 | a call of a fail-fast sequence planned only at index i, once made, is made i-th, and every earlier planned call was made and succeeded |
| `UpgradeCommand.RunE` | cmd/sealer/cmd/cluster/upgrade.go:51-106 | the calls made and the result are those of `Dispatch`: missing input, Clusterfile mode, or image-argument mode |
| `UpgradeCommand.UpgradeWithImage` | cmd/sealer/cmd/cluster/upgrade.go:64-105 | pull and inspect the argument image, read the running cluster, override its image and app names, marshal and re-parse it as a fail-fast sequence, then upgradeCluster on the regenerated Clusterfile |
| `UpgradeCommand.UpgradeWithClusterfile` | cmd/sealer/cmd/cluster/upgrade.go:220-254 | read, parse, pull and inspect the Clusterfile's image as a fail-fast sequence, then upgradeCluster on the parsed Clusterfile |
| `UpgradeCommand.MissingInputRejected` | cmd/sealer/cmd/cluster/upgrade.go:56-58 | the missing-input error is returned iff there is no argument and no Clusterfile flag, and then nothing is called |
| `UpgradeCommand.ClusterfileTakesPrecedence` | cmd/sealer/cmd/cluster/upgrade.go:60-62 | with a Clusterfile flag the arguments make no difference, and the file is read first |
| `UpgradeCommand.FromImageCallsPlanned` | cmd/sealer/cmd/cluster/upgrade.go:64-105 | every call made in image-argument mode is one of its preparation calls or of upgradeCluster's plan |
| `UpgradeCommand.ImagePlanArguments` | cmd/sealer/cmd/cluster/upgrade.go:84-105 | in image-argument mode every planned call that carries a cluster carries the overridden one, and the installer is planned with the image's plugins only |
| `UpgradeCommand.ImageArgumentOverrides` | cmd/sealer/cmd/cluster/upgrade.go:84-105 | in image-argument mode, the marshalled cluster and the cluster given to the infra driver (as it is before `MergeClusterWithImageExtension` at line 122, which is not modelled) carry args[0] as image and the --apps value as app names; the installer gets the image's plugins only |

## Left out

- Image engine internals (`NewImageEngine`, `Pull`, `Inspect`), YAML marshalling, Clusterfile parsing (`NewClusterFile`, `GetActualClusterFile`) and `os.ReadFile`: only whether each call fails is modelled. What they return is a field of `World`, except in image-argument mode: there `yaml.Marshal` followed by `NewClusterFile` is assumed to give back exactly the overridden cluster, with no plugins and no configs (`ClusterOnly`).
- `upgradeWithClusterfile` reads `filepath.Clean(clusterFile)`; the model records the `--Clusterfile` value before cleaning (`ReadFile(path)`), so two spellings of the same path are different calls.
- Infra driver internals, `CmdAsync`'s SSH transport, `NewImageMounter`/`Mount`/`Umount`, `NewScpDistributor`, `NewInstaller`/`Upgrade` and the application driver: each is an opaque call with an injected outcome, recorded in a trace.
- `MergeClusterWithImageExtension`, `GetClusterInstallInfo`, `GetClusterLaunchCmds`, `GetClusterLaunchApps`, `ConstructApplication` and `GetClusterConfPath` are not part of this model. The driver's image name and host list, the image's plugins and the conf path enter as fields of `World`. They do not depend on the cluster handed to `NewInfraDriver`.
- Only the cluster's image and application names are modelled. Env, container-runtime configuration and hosts are left out.
- The fault model is a set of calls, so two calls with equal arguments get the same reply. This happens to the two `SaveAll` calls when the conf path is empty: the final `SaveAll` is then the same event as the checkpoint, and it is still reached when the checkpoint, Upgrade, Launch and the app Save succeed. A run in which the checkpoint succeeds and the final `SaveAll` fails is not representable for an empty conf path.
- `DistributeRegistry` answers the same outcome whatever its targets.
- A nil `LocalRegistry.HA` makes the source panic at line 74, which is reached only when a local registry is configured and a deploy host was found. `LoadToRegistry` and `RegistryPlan` require HA to be set in that case only (`HAConfigured`); with nil HA and no deploy host they return the no-deploy-hosts error (`NoHostsBeforeHA`).
- `net.IP` is its string form. `filepath.Join` is modelled for one plain element (no path cleaning beyond a trailing slash).
- Error message texts and all logging. Cobra flag wiring and help text.
- Parallel probing or distribution: the source is sequential.
