/**
 * The `sealer upgrade` command: the dispatch in the RunE closure of
 * NewUpgradeCmd, upgradeWithClusterfile and the upgradeCluster sequencer
 * (cmd/sealer/cmd/cluster/upgrade.go).
 *
 * Every call into a collaborator (image engine, Clusterfile store, infra
 * driver, image mounter, distributor, installer, application driver) is an
 * Event appended to a trace. Whether a call fails is fault-injection input:
 * the set World.failing of the calls whose reply is an error. The other
 * answers of the collaborators (the parsed Clusterfile, the inspected image,
 * the host list, ...) are fields of World as well.
 */
module UpgradeCommand {
  import opened SeqUtil
  import ClusterRuntime

  type IP = ClusterRuntime.IP
  type Plugin = string
  type Config = string

  /** imagev1 extension types; only KubeInstaller can be upgraded. */
  datatype ImageKind = KubeInstaller | OtherKind(name: string)

  datatype ImageSpec = ImageSpec(kind: ImageKind)

  /** The part of v2.Cluster's spec the command reads or overrides. */
  datatype Cluster = Cluster(image: string, appNames: seq<string>)

  /** A parsed Clusterfile: the cluster plus the operator's plugins and configs. */
  datatype Clusterfile = Clusterfile(cluster: Cluster, plugins: seq<Plugin>, configs: seq<Config>)

  datatype UpgradeFlags = UpgradeFlags(clusterFile: string, appNames: seq<string>, ignoreCache: bool)

  datatype SaveOptions = SaveOptions(commitToCluster: bool, confPath: string)

  /** clusterfile.SaveOptions{}: the zero value. */
  const DefaultSave := SaveOptions(false, "")

  /** One call into a collaborator, with the arguments that matter. */
  datatype Event =
    | ReadFile(path: string)
    | NewClusterFile
    | NewImageEngine
    | Pull(image: string)
    | Inspect
    | GetActualClusterFile
    | Marshal(cluster: Cluster)
    | NewInfraDriver(cluster: Cluster)
    | GetHostsPlatform(hosts: seq<IP>)
    | NewImageMounter
    | Mount(image: string)
    | Umount(image: string)
    | NewScpDistributor(configs: seq<Config>, ignoreCache: bool)
    | LoadPlugins
    | NewInstaller(plugins: seq<Plugin>)
    | SaveAll(opts: SaveOptions)
    | Upgrade
    | NewAppDriver
    | Launch
    | SaveApp

  datatype Error =
    | MissingInput                  // neither an image argument nor a Clusterfile
    | WrongImageType(kind: ImageKind)
    | CallFailed(call: Event)       // the error a collaborator returned for this call

  /** What the collaborators answer during one invocation. */
  datatype World = World(
    failing: set<Event>,      // calls whose reply is an error
    parsed: Clusterfile,      // NewClusterFile of the file named by -f
    current: Clusterfile,     // GetActualClusterFile: the running cluster's Clusterfile
    inspected: ImageSpec,     // Inspect of the pulled image
    imageName: string,        // infra driver's GetClusterImageName
    hosts: seq<IP>,           // infra driver's GetHostIPList
    imagePlugins: seq<Plugin>,// loadPluginsFromImage on the mount
    confPath: string          // GetClusterConfPath of the image labels
  )

  /** An attempt: the calls made, in order, and what is returned. */
  datatype Run = Run(trace: seq<Event>, err: Option<Error>)

  /** The collaborator's reply to call `e`: the fault-injection oracle of `World`. */
  function Reply(e: Event, w: World): Option<Error>
  {
    if e in w.failing then Some(CallFailed(e)) else None
  }

  /**
   * The index of the first planned call that fails, or the number of calls
   * when none does.
   */
  function FirstFailure(calls: seq<Event>, failing: set<Event>): (k: nat)
    ensures k <= |calls|
    ensures forall i :: 0 <= i < k ==> calls[i] !in failing
    ensures k < |calls| ==> calls[k] in failing
    decreases |calls|
  {
    if calls == [] || calls[0] in failing then 0
    else 1 + FirstFailure(calls[1..], failing)
  }

  /**
   * Reference semantics of a fail-fast sequence of calls: the calls are made
   * in order and the first one that fails ends the sequence with its error.
   */
  function FailFast(calls: seq<Event>, failing: set<Event>): Run
  {
    var k := FirstFailure(calls, failing);
    if k == |calls| then Run(calls, None)
    else Run(calls[..k + 1], Some(CallFailed(calls[k])))
  }

  /**
   * What FailFast promises: the calls made are a prefix of the plan; the
   * sequence succeeds exactly when no planned call fails, and then every
   * planned call was made; otherwise the last call made is the only one made
   * that failed, and its error is the result.
   */
  lemma FailFastSteps(calls: seq<Event>, failing: set<Event>)
    ensures FailFast(calls, failing).trace <= calls
    ensures FailFast(calls, failing).err.None? <==> forall c :: c in calls ==> c !in failing
    ensures FailFast(calls, failing).err.None? ==> FailFast(calls, failing).trace == calls
    ensures var r := FailFast(calls, failing);
      r.err.Some? ==> r.trace != [] && r.err == Some(CallFailed(r.trace[|r.trace| - 1]))
    ensures var r := FailFast(calls, failing);
      forall i :: 0 <= i < |r.trace| ==> (r.trace[i] in failing <==> r.err.Some? && i == |r.trace| - 1)
  {
    FailFastSucceeds(calls, failing);
  }

  /** A fail-fast sequence succeeds exactly when none of its calls fails, and then makes them all. */
  lemma FailFastSucceeds(calls: seq<Event>, failing: set<Event>)
    ensures FailFast(calls, failing).err.None? <==> forall c :: c in calls ==> c !in failing
    ensures FailFast(calls, failing).err.None? ==> FailFast(calls, failing).trace == calls
  {
    if FirstFailure(calls, failing) == |calls| {
      forall c | c in calls ensures c !in failing {
        var i :| 0 <= i < |calls| && calls[i] == c;
      }
    }
  }

  /** A failed fail-fast sequence returns the error of a planned call that was made and failed. */
  lemma FailFastFails(calls: seq<Event>, failing: set<Event>)
    ensures var r := FailFast(calls, failing);
      r.err.Some? ==>
        (r.err.value.CallFailed? && r.err.value.call in failing &&
         r.err.value.call in r.trace && r.err.value.call in calls)
  {
    var k := FirstFailure(calls, failing);
    if k < |calls| {
      assert calls[..k + 1][k] == calls[k];
    }
  }

  /** FailFast only depends on the replies to the planned calls. */
  lemma {:induction false} FailFastLocal(calls: seq<Event>, f: set<Event>, g: set<Event>)
    requires forall c :: c in calls ==> (c in f <==> c in g)
    ensures FirstFailure(calls, f) == FirstFailure(calls, g)
    ensures FailFast(calls, f) == FailFast(calls, g)
    decreases |calls|
  {
    if calls != [] {
      FailFastLocal(calls[1..], f, g);
    }
  }

  /** The first failure of `a + b` is the first in `a`, or else `|a|` plus the first in `b`. */
  lemma {:induction false} FirstFailureAppend(a: seq<Event>, b: seq<Event>, failing: set<Event>)
    ensures var k := FirstFailure(a, failing);
      FirstFailure(a + b, failing) == if k < |a| then k else |a| + FirstFailure(b, failing)
    decreases |a|
  {
    if a != [] {
      assert (a + b)[1..] == a[1..] + b;
      FirstFailureAppend(a[1..], b, failing);
    } else {
      assert a + b == b;
    }
  }

  /** Running two fail-fast sequences one after the other is one fail-fast sequence. */
  lemma FailFastAppend(a: seq<Event>, b: seq<Event>, failing: set<Event>)
    ensures FailFast(a + b, failing) ==
      var r := FailFast(a, failing); if r.err.Some? then r else After(a, FailFast(b, failing))
  {
    FirstFailureAppend(a, b, failing);
    var k := FirstFailure(a, failing);
    if k < |a| {
      assert (a + b)[..k + 1] == a[..k + 1];
    } else {
      var j := FirstFailure(b, failing);
      if j < |b| {
        assert (a + b)[..|a| + j + 1] == a + b[..j + 1];
      }
    }
  }

  /** Calls upgradeCluster makes up to and including Mount (lines 121-145). */
  function MountCalls(cf: Clusterfile, w: World): seq<Event>
  {
    [NewInfraDriver(cf.cluster), GetHostsPlatform(w.hosts), NewImageMounter, Mount(w.imageName)]
  }

  /** The plugins handed to the installer: the image's, then the Clusterfile's (lines 161-168). */
  function MergePlugins(fromImage: seq<Plugin>, declared: seq<Plugin>): (r: seq<Plugin>)
    ensures r == fromImage + declared
  {
    if declared != [] then fromImage + declared else fromImage
  }

  /** Calls upgradeCluster makes to install and upgrade while mounted (lines 154-190). */
  function InstallCalls(cf: Clusterfile, flags: UpgradeFlags, w: World): seq<Event>
  {
    [NewScpDistributor(cf.configs, flags.ignoreCache), LoadPlugins,
     NewInstaller(w.imagePlugins + cf.plugins), SaveAll(DefaultSave), Upgrade]
  }

  /** Calls upgradeCluster makes to launch the applications and save (lines 192-213). */
  function LaunchCalls(w: World): seq<Event>
  {
    [NewAppDriver, Launch, SaveApp, SaveAll(SaveOptions(false, w.confPath))]
  }

  /** Calls upgradeCluster makes while the image is mounted (lines 154-213). */
  function MountedCalls(cf: Clusterfile, flags: UpgradeFlags, w: World): seq<Event>
  {
    InstallCalls(cf, flags, w) + LaunchCalls(w)
  }

  /** Specification of upgradeCluster. */
  function AttemptUpgrade(cf: Clusterfile, spec: ImageSpec, flags: UpgradeFlags, w: World): Run
  {
    if spec.kind != KubeInstaller then Run([], Some(WrongImageType(spec.kind)))
    else
      var acquire := FailFast(MountCalls(cf, w), w.failing);
      if acquire.err.Some? then acquire
      else
        var body := FailFast(MountedCalls(cf, flags, w), w.failing);
        Run(acquire.trace + body.trace + [Umount(w.imageName)], body.err)
  }

  /** `r` with the calls `done` made before it. */
  function After(done: seq<Event>, r: Run): Run
  {
    Run(done + r.trace, r.err)
  }

  /** No call of `calls` fails. */
  predicate NoneFail(calls: seq<Event>, failing: set<Event>)
  {
    forall i :: 0 <= i < |calls| ==> calls[i] !in failing
  }

  /** A fail-fast sequence whose first `k` calls succeed and whose next call fails. */
  lemma FailFastStopsAt(calls: seq<Event>, failing: set<Event>, k: nat)
    requires k < |calls| && NoneFail(calls[..k], failing) && calls[k] in failing
    ensures FailFast(calls, failing) == Run(calls[..k + 1], Some(CallFailed(calls[k])))
  {
    assert FirstFailure(calls, failing) == k;
  }

  /** A fail-fast sequence none of whose calls fails. */
  lemma FailFastCompletes(calls: seq<Event>, failing: set<Event>)
    requires NoneFail(calls, failing)
    ensures FailFast(calls, failing) == Run(calls, None)
  {
  }

  /**
   * One call into a collaborator, the "call, then return its error if any"
   * step of lines 64-103, 122-213 and 221-251: it is appended to the trace and
   * answered from the world. The ghost `plan` is the fail-fast sequence the caller is
   * working through; the contract keeps the trace in step with FailFast(plan).
   */
  method Invoke(e: Event, w: World, trace: seq<Event>, ghost plan: seq<Event>)
    returns (trace': seq<Event>, err: Option<Error>)
    requires |trace| < |plan| && trace == plan[..|trace|] && plan[|trace|] == e
    requires NoneFail(trace, w.failing)
    ensures trace' == trace + [e] && err == Reply(e, w)
    ensures err.Some? ==> FailFast(plan, w.failing) == Run(trace', err)
    ensures err.None? ==> trace' == plan[..|trace'|] && NoneFail(trace', w.failing)
  {
    trace' := trace + [e];
    err := Reply(e, w);
    assert plan[..|trace'|] == plan[..|trace|] + [e];
    if err.Some? {
      FailFastStopsAt(plan, w.failing, |trace|);
    }
  }

  /** Model of upgradeCluster (lines 116-218). */
  method UpgradeCluster(cf: Clusterfile, spec: ImageSpec, flags: UpgradeFlags, w: World)
    returns (err: Option<Error>, trace: seq<Event>)
    ensures Run(trace, err) == AttemptUpgrade(cf, spec, flags, w)
  {
    trace := [];
    if spec.kind != KubeInstaller {
      return Some(WrongImageType(spec.kind)), trace;
    }
    ghost var plan := MountCalls(cf, w);
    var cluster := cf.cluster;
    trace, err := Invoke(NewInfraDriver(cluster), w, trace, plan);
    if err.Some? { return; }
    var imageName := w.imageName;
    var clusterHosts := w.hosts;
    trace, err := Invoke(GetHostsPlatform(clusterHosts), w, trace, plan);
    if err.Some? { return; }
    trace, err := Invoke(NewImageMounter, w, trace, plan);
    if err.Some? { return; }
    trace, err := Invoke(Mount(imageName), w, trace, plan);
    if err.Some? { return; }
    assert trace == plan;
    FailFastCompletes(plan, w.failing);
    var body;
    err, body := WhileMounted(cf, flags, w);
    // the deferred Umount: its error is assigned to the local err after the
    // result has been fixed, so it never reaches the caller
    trace := trace + body + [Umount(imageName)];
    var umountErr := Reply(Umount(imageName), w);
  }

  /** Lines 154-217 of upgradeCluster, run while the image is mounted. */
  method WhileMounted(cf: Clusterfile, flags: UpgradeFlags, w: World)
    returns (err: Option<Error>, trace: seq<Event>)
    ensures Run(trace, err) == FailFast(MountedCalls(cf, flags, w), w.failing)
  {
    FailFastAppend(InstallCalls(cf, flags, w), LaunchCalls(w), w.failing);
    err, trace := InstallAndUpgrade(cf, flags, w);
    if err.Some? { return; }
    var launched;
    err, launched := LaunchApps(w);
    trace := trace + launched;
  }

  /** Lines 154-190: distributor, plugins, installer, checkpoint and upgrade. */
  method InstallAndUpgrade(cf: Clusterfile, flags: UpgradeFlags, w: World)
    returns (err: Option<Error>, trace: seq<Event>)
    ensures Run(trace, err) == FailFast(InstallCalls(cf, flags, w), w.failing)
  {
    ghost var plan := InstallCalls(cf, flags, w);
    trace := [];
    trace, err := Invoke(NewScpDistributor(cf.configs, flags.ignoreCache), w, trace, plan);
    if err.Some? { return; }
    trace, err := Invoke(LoadPlugins, w, trace, plan);
    if err.Some? { return; }
    var plugins := MergePlugins(w.imagePlugins, cf.plugins);
    trace, err := Invoke(NewInstaller(plugins), w, trace, plan);
    if err.Some? { return; }
    // checkpoint the desired Clusterfile before the cluster is changed
    trace, err := Invoke(SaveAll(DefaultSave), w, trace, plan);
    if err.Some? { return; }
    trace, err := Invoke(Upgrade, w, trace, plan);
    if err.None? {
      assert trace == plan;
      FailFastCompletes(plan, w.failing);
    }
  }

  /** Lines 192-213: launch the applications and save the Clusterfile with the conf path. */
  method LaunchApps(w: World) returns (err: Option<Error>, trace: seq<Event>)
    ensures Run(trace, err) == FailFast(LaunchCalls(w), w.failing)
  {
    ghost var plan := LaunchCalls(w);
    trace := [];
    var confPath := w.confPath;
    trace, err := Invoke(NewAppDriver, w, trace, plan);
    if err.Some? { return; }
    trace, err := Invoke(Launch, w, trace, plan);
    if err.Some? { return; }
    trace, err := Invoke(SaveApp, w, trace, plan);
    if err.Some? { return; }
    trace, err := Invoke(SaveAll(SaveOptions(false, confPath)), w, trace, plan);
    if err.None? {
      assert trace == plan;
      FailFastCompletes(plan, w.failing);
    }
  }

  // ---------------------------------------------------------------------
  // Properties of upgradeCluster
  // ---------------------------------------------------------------------

  /** `a` is called, and later `b` is called. */
  predicate CalledBefore(trace: seq<Event>, a: Event, b: Event)
  {
    exists i, j :: 0 <= i < j < |trace| && trace[i] == a && trace[j] == b
  }

  /** The calls upgradeCluster makes when nothing fails. */
  function FullPlan(cf: Clusterfile, flags: UpgradeFlags, w: World): seq<Event>
  {
    MountCalls(cf, w) + MountedCalls(cf, flags, w) + [Umount(w.imageName)]
  }

  /** Every call a fail-fast sequence makes is a planned call. */
  lemma MadeCallsArePlanned(calls: seq<Event>, failing: set<Event>)
    ensures forall e :: e in FailFast(calls, failing).trace ==> e in calls
  {
    var t := FailFast(calls, failing).trace;
    forall e | e in t ensures e in calls {
      var i :| 0 <= i < |t| && t[i] == e;
      assert calls[i] == e;
    }
  }

  /** The calls made up to Mount: no Umount, and a Mount made there failed if the sequence failed. */
  lemma AcquireCalls(cf: Clusterfile, w: World)
    ensures var a := FailFast(MountCalls(cf, w), w.failing);
      && (forall e :: e in a.trace ==> e in MountCalls(cf, w) && !e.Umount?)
      && (a.err.None? ==> a.trace == MountCalls(cf, w) && Mount(w.imageName) !in w.failing)
      && (a.err.Some? && Mount(w.imageName) in a.trace ==> Mount(w.imageName) in w.failing)
  {
    var plan := MountCalls(cf, w);
    var a := FailFast(plan, w.failing);
    MadeCallsArePlanned(plan, w.failing);
    if a.err.None? {
      assert FirstFailure(plan, w.failing) == 4 && plan[3] == Mount(w.imageName);
    }
    if a.err.Some? && Mount(w.imageName) in a.trace {
      var i :| 0 <= i < |a.trace| && a.trace[i] == Mount(w.imageName);
      assert plan[i] == Mount(w.imageName) && i == 3;
      assert FirstFailure(plan, w.failing) == 3;
    }
  }

  /** Every call upgradeCluster makes is in its full plan. */
  lemma AttemptCallsPlanned(cf: Clusterfile, spec: ImageSpec, flags: UpgradeFlags, w: World)
    ensures forall e :: e in AttemptUpgrade(cf, spec, flags, w).trace ==> e in FullPlan(cf, flags, w)
  {
    MadeCallsArePlanned(MountCalls(cf, w), w.failing);
    MadeCallsArePlanned(MountedCalls(cf, flags, w), w.failing);
  }

  /**
   * An image that is not a KubeInstaller is rejected before any collaborator
   * is called, so nothing is mounted or unmounted (lines 117-119).
   */
  lemma ValidateBeforeMount(cf: Clusterfile, spec: ImageSpec, flags: UpgradeFlags, w: World)
    ensures var r := AttemptUpgrade(cf, spec, flags, w);
      spec.kind != KubeInstaller ==> r.trace == [] && r.err == Some(WrongImageType(spec.kind))
    ensures var r := AttemptUpgrade(cf, spec, flags, w);
      (exists e :: e in r.trace && (e.Mount? || e.Umount?)) ==> spec.kind == KubeInstaller
  {
  }

  /**
   * The mount is released exactly when it was acquired: Umount is called iff
   * Mount was called and succeeded, and then it is called exactly once, as
   * the last call, whichever later step failed (lines 142-152).
   */
  lemma MountReleasedOnce(cf: Clusterfile, spec: ImageSpec, flags: UpgradeFlags, w: World)
    ensures var r := AttemptUpgrade(cf, spec, flags, w);
      forall e :: e in r.trace && e.Umount? ==> e == Umount(w.imageName)
    ensures var r := AttemptUpgrade(cf, spec, flags, w);
      Mount(w.imageName) in r.trace && Mount(w.imageName) !in w.failing ==>
        && r.trace != []
        && r.trace[|r.trace| - 1] == Umount(w.imageName)
        && Umount(w.imageName) !in r.trace[..|r.trace| - 1]
    ensures var r := AttemptUpgrade(cf, spec, flags, w);
      !(Mount(w.imageName) in r.trace && Mount(w.imageName) !in w.failing) ==>
        Umount(w.imageName) !in r.trace
  {
    var r := AttemptUpgrade(cf, spec, flags, w);
    MountHeld(cf, spec, flags, w);
    AttemptCallsPlanned(cf, spec, flags, w);
    NoUmountPlanned(cf, flags, w);
    if spec.kind == KubeInstaller {
      var acquire := FailFast(MountCalls(cf, w), w.failing);
      if acquire.err.None? {
        MadeCallsArePlanned(MountedCalls(cf, flags, w), w.failing);
        var before := acquire.trace + FailFast(MountedCalls(cf, flags, w), w.failing).trace;
        assert r.trace[..|r.trace| - 1] == before;
      } else {
        MadeCallsArePlanned(MountCalls(cf, w), w.failing);
      }
    }
  }

  /** The image is mounted and held exactly when every call up to Mount succeeded. */
  lemma MountHeld(cf: Clusterfile, spec: ImageSpec, flags: UpgradeFlags, w: World)
    ensures var r := AttemptUpgrade(cf, spec, flags, w);
      (Mount(w.imageName) in r.trace && Mount(w.imageName) !in w.failing) <==>
        (spec.kind == KubeInstaller && FailFast(MountCalls(cf, w), w.failing).err.None?)
  {
    if spec.kind == KubeInstaller {
      AcquireCalls(cf, w);
      var r := AttemptUpgrade(cf, spec, flags, w);
      if FailFast(MountCalls(cf, w), w.failing).err.None? {
        assert r.trace[3] == Mount(w.imageName);
      }
    }
  }

  /**
   * A failing Umount never changes what upgradeCluster does or returns: the
   * deferred function assigns the local err after the result is fixed
   * (lines 147-152, 217).
   */
  lemma UmountErrorIgnored(cf: Clusterfile, spec: ImageSpec, flags: UpgradeFlags, w: World)
    ensures AttemptUpgrade(cf, spec, flags, w.(failing := w.failing + {Umount(w.imageName)}))
         == AttemptUpgrade(cf, spec, flags, w.(failing := w.failing - {Umount(w.imageName)}))
  {
    var f := w.failing + {Umount(w.imageName)};
    var g := w.failing - {Umount(w.imageName)};
    NoUmountPlanned(cf, flags, w);
    FailFastLocal(MountCalls(cf, w), f, g);
    FailFastLocal(MountedCalls(cf, flags, w), f, g);
  }

  /** Umount is not one of the fail-fast calls of upgradeCluster. */
  lemma NoUmountPlanned(cf: Clusterfile, flags: UpgradeFlags, w: World)
    ensures forall e :: e in MountCalls(cf, w) ==> !e.Umount?
    ensures forall e :: e in MountedCalls(cf, flags, w) ==> !e.Umount?
  {
  }

  /**
   * The desired Clusterfile is checkpointed before the cluster is upgraded:
   * Upgrade is only called after SaveAll with the default options was called
   * and succeeded, so a failing checkpoint means no Upgrade (lines 181-190).
   */
  lemma CheckpointBeforeUpgrade(cf: Clusterfile, spec: ImageSpec, flags: UpgradeFlags, w: World)
    ensures var r := AttemptUpgrade(cf, spec, flags, w);
      Upgrade in r.trace ==> CalledBefore(r.trace, SaveAll(DefaultSave), Upgrade) && SaveAll(DefaultSave) !in w.failing
    ensures SaveAll(DefaultSave) in w.failing ==> Upgrade !in AttemptUpgrade(cf, spec, flags, w).trace
  {
    var r := AttemptUpgrade(cf, spec, flags, w);
    if Upgrade in r.trace {
      AcquireCalls(cf, w);
      var acquire := FailFast(MountCalls(cf, w), w.failing);
      var body := FailFast(MountedCalls(cf, flags, w), w.failing);
      assert spec.kind == KubeInstaller && acquire.err.None?;
      assert r.trace == acquire.trace + body.trace + [Umount(w.imageName)];
      assert Upgrade in body.trace;
      UpgradeAfterCheckpoint(cf, flags, w);
      assert CalledBefore(body.trace, SaveAll(DefaultSave), Upgrade) by {
        assert body.trace[3] == SaveAll(DefaultSave) && body.trace[4] == Upgrade;
      }
      CalledBeforeWithin(acquire.trace, body.trace, [Umount(w.imageName)], SaveAll(DefaultSave), Upgrade);
    }
  }

  /** An order between two calls is kept when calls are made before and after. */
  lemma CalledBeforeWithin(pre: seq<Event>, t: seq<Event>, post: seq<Event>, a: Event, b: Event)
    requires CalledBefore(t, a, b)
    ensures CalledBefore(pre + t + post, a, b)
  {
    var i, j :| 0 <= i < j < |t| && t[i] == a && t[j] == b;
    assert (pre + t + post)[|pre| + i] == a && (pre + t + post)[|pre| + j] == b;
  }

  /** Within the mounted calls, Upgrade is made only as the fifth call, after a successful checkpoint. */
  lemma UpgradeAfterCheckpoint(cf: Clusterfile, flags: UpgradeFlags, w: World)
    ensures var b := FailFast(MountedCalls(cf, flags, w), w.failing);
      Upgrade in b.trace ==>
        |b.trace| > 4 && b.trace[3] == SaveAll(DefaultSave) && b.trace[4] == Upgrade && SaveAll(DefaultSave) !in w.failing
  {
    var plan := MountedCalls(cf, flags, w);
    var b := FailFast(plan, w.failing);
    if Upgrade in b.trace {
      var j :| 0 <= j < |b.trace| && b.trace[j] == Upgrade;
      assert plan[j] == Upgrade;
      assert j == 4;
    }
  }

  /**
   * Within the mounted calls, the final SaveAll (no commit, conf path set) is
   * made only as the last call, after Upgrade, Launch and the application's
   * Save were made and succeeded (lines 187-213).
   */
  lemma FinalSaveAfterLaunch(cf: Clusterfile, flags: UpgradeFlags, w: World)
    requires w.confPath != ""
    ensures var b := FailFast(MountedCalls(cf, flags, w), w.failing);
      SaveAll(SaveOptions(false, w.confPath)) in b.trace ==>
        && |b.trace| == 9 && b.trace[4] == Upgrade && b.trace[6] == Launch && b.trace[7] == SaveApp
        && b.trace[8] == SaveAll(SaveOptions(false, w.confPath))
        && Upgrade !in w.failing && Launch !in w.failing && SaveApp !in w.failing
  {
    var plan := MountedCalls(cf, flags, w);
    if SaveAll(SaveOptions(false, w.confPath)) in FailFast(plan, w.failing).trace {
      FailFastReached(plan, w.failing, 8);
    }
  }

  /** A call made by a fail-fast sequence, planned only at index `i`, comes after `i` successful calls. */
  lemma FailFastReached(calls: seq<Event>, failing: set<Event>, i: nat)
    requires i < |calls| && calls[i] in FailFast(calls, failing).trace
    requires forall m :: 0 <= m < |calls| && m != i ==> calls[m] != calls[i]
    ensures var t := FailFast(calls, failing).trace;
      |t| > i && t[i] == calls[i] && forall m :: 0 <= m < i ==> t[m] == calls[m] && calls[m] !in failing
  {
    var t := FailFast(calls, failing).trace;
    var j :| 0 <= j < |t| && t[j] == calls[i];
    assert calls[j] == calls[i];
  }

  /**
   * The merged plugin list handed to the installer is the image's plugins
   * followed by the Clusterfile's plugins, each in its own order
   * (lines 161-176).
   */
  lemma ImagePluginsFirst(cf: Clusterfile, spec: ImageSpec, flags: UpgradeFlags, w: World)
    ensures forall e :: e in AttemptUpgrade(cf, spec, flags, w).trace && e.NewInstaller? ==>
      e.plugins == w.imagePlugins + cf.plugins
  {
    AttemptCallsPlanned(cf, spec, flags, w);
    forall e | e in FullPlan(cf, flags, w) && e.NewInstaller?
      ensures e.plugins == w.imagePlugins + cf.plugins
    {
      assert e in MountCalls(cf, w) || e in InstallCalls(cf, flags, w) ||
             e in LaunchCalls(w) || e == Umount(w.imageName);
    }
  }

  /**
   * upgradeCluster returns no error exactly when the image is a KubeInstaller
   * and no planned call fails (an Umount failure aside); it then made every
   * planned call in order, so the final SaveAll came after Upgrade, Launch and
   * the application's Save succeeded. An error names the failing call
   * (lines 116-217).
   */
  lemma SucceedsIffEveryStepSucceeds(cf: Clusterfile, spec: ImageSpec, flags: UpgradeFlags, w: World)
    ensures var r := AttemptUpgrade(cf, spec, flags, w);
      r.err.None? <==> (spec.kind == KubeInstaller &&
        forall e :: e in MountCalls(cf, w) + MountedCalls(cf, flags, w) ==> e !in w.failing)
    ensures var r := AttemptUpgrade(cf, spec, flags, w);
      r.err.None? ==> r.trace == FullPlan(cf, flags, w)
    ensures var r := AttemptUpgrade(cf, spec, flags, w);
      r.err.Some? && r.err.value.CallFailed? ==>
        r.err.value.call in w.failing && r.err.value.call in r.trace && !r.err.value.call.Umount?
    ensures var r := AttemptUpgrade(cf, spec, flags, w);
      w.confPath != "" && SaveAll(SaveOptions(false, w.confPath)) in r.trace ==>
        && CalledBefore(r.trace, Upgrade, SaveAll(SaveOptions(false, w.confPath)))
        && CalledBefore(r.trace, Launch, SaveAll(SaveOptions(false, w.confPath)))
        && CalledBefore(r.trace, SaveApp, SaveAll(SaveOptions(false, w.confPath)))
        && Upgrade !in w.failing && Launch !in w.failing && SaveApp !in w.failing
  {
    if w.confPath != "" && SaveAll(SaveOptions(false, w.confPath)) in AttemptUpgrade(cf, spec, flags, w).trace {
      FinalSaveReached(cf, spec, flags, w);
    }
    if spec.kind == KubeInstaller {
      FailFastSucceeds(MountCalls(cf, w), w.failing);
      FailFastSucceeds(MountedCalls(cf, flags, w), w.failing);
      FailFastFails(MountCalls(cf, w), w.failing);
      FailFastFails(MountedCalls(cf, flags, w), w.failing);
      NoUmountPlanned(cf, flags, w);
    }
  }

  /** The final SaveAll in a whole attempt comes after successful Upgrade, Launch and application Save. */
  lemma FinalSaveReached(cf: Clusterfile, spec: ImageSpec, flags: UpgradeFlags, w: World)
    requires w.confPath != "" && SaveAll(SaveOptions(false, w.confPath)) in AttemptUpgrade(cf, spec, flags, w).trace
    ensures var r := AttemptUpgrade(cf, spec, flags, w);
      && CalledBefore(r.trace, Upgrade, SaveAll(SaveOptions(false, w.confPath)))
      && CalledBefore(r.trace, Launch, SaveAll(SaveOptions(false, w.confPath)))
      && CalledBefore(r.trace, SaveApp, SaveAll(SaveOptions(false, w.confPath)))
      && Upgrade !in w.failing && Launch !in w.failing && SaveApp !in w.failing
  {
    var fin := SaveAll(SaveOptions(false, w.confPath));
    var r := AttemptUpgrade(cf, spec, flags, w);
    AcquireCalls(cf, w);
    var acquire := FailFast(MountCalls(cf, w), w.failing);
    var body := FailFast(MountedCalls(cf, flags, w), w.failing);
    assert spec.kind == KubeInstaller && acquire.err.None?;
    assert r.trace == acquire.trace + body.trace + [Umount(w.imageName)];
    assert fin in body.trace;
    FinalSaveAfterLaunch(cf, flags, w);
    CalledBeforeWithin(acquire.trace, body.trace, [Umount(w.imageName)], Upgrade, fin);
    CalledBeforeWithin(acquire.trace, body.trace, [Umount(w.imageName)], Launch, fin);
    CalledBeforeWithin(acquire.trace, body.trace, [Umount(w.imageName)], SaveApp, fin);
  }

  // ---------------------------------------------------------------------
  // The command entry: RunE of NewUpgradeCmd and upgradeWithClusterfile
  // ---------------------------------------------------------------------

  /** Calls upgradeWithClusterfile makes before upgradeCluster (lines 221-251). */
  function ClusterfileCalls(path: string, w: World): seq<Event>
  {
    [ReadFile(path), NewClusterFile, NewImageEngine, Pull(w.parsed.cluster.image), Inspect]
  }

  /** The running cluster with its image and application names overridden (lines 89-92). */
  function Overridden(current: Cluster, image: string, flags: UpgradeFlags): Cluster
  {
    current.(appNames := flags.appNames, image := image)
  }

  /**
   * The Clusterfile regenerated from a marshalled cluster: it holds the
   * cluster only, the plugins and configs of the running one are lost
   * (the TODO at line 99).
   */
  function ClusterOnly(cluster: Cluster): Clusterfile
  {
    Clusterfile(cluster, [], [])
  }

  /** Calls RunE makes in image-argument mode before upgradeCluster (lines 64-103). */
  function ImageCalls(image: string, flags: UpgradeFlags, w: World): seq<Event>
  {
    [NewImageEngine, Pull(image), Inspect, GetActualClusterFile,
     Marshal(Overridden(w.current.cluster, image, flags)), NewClusterFile]
  }

  /** Specification of upgradeWithClusterfile. */
  function FromClusterfile(path: string, flags: UpgradeFlags, w: World): Run
  {
    var prep := FailFast(ClusterfileCalls(path, w), w.failing);
    if prep.err.Some? then prep
    else After(prep.trace, AttemptUpgrade(w.parsed, w.inspected, flags, w))
  }

  /** Specification of RunE in image-argument mode. */
  function FromImage(image: string, flags: UpgradeFlags, w: World): Run
  {
    var prep := FailFast(ImageCalls(image, flags, w), w.failing);
    if prep.err.Some? then prep
    else After(prep.trace, AttemptUpgrade(ClusterOnly(Overridden(w.current.cluster, image, flags)), w.inspected, flags, w))
  }

  /** Specification of RunE. */
  function Dispatch(args: seq<string>, flags: UpgradeFlags, w: World): Run
  {
    if |args| == 0 && flags.clusterFile == "" then Run([], Some(MissingInput))
    else if flags.clusterFile != "" then FromClusterfile(flags.clusterFile, flags, w)
    else FromImage(args[0], flags, w)
  }

  /** Model of the RunE closure of NewUpgradeCmd (lines 51-106). */
  method RunE(args: seq<string>, flags: UpgradeFlags, w: World) returns (err: Option<Error>, trace: seq<Event>)
    ensures Run(trace, err) == Dispatch(args, flags, w)
  {
    var clusterFile := flags.clusterFile;
    if |args| == 0 && clusterFile == "" {
      return Some(MissingInput), [];
    }
    if clusterFile != "" {
      err, trace := UpgradeWithClusterfile(clusterFile, flags, w);
      return;
    }
    err, trace := UpgradeWithImage(args[0], flags, w);
  }

  /** The image-argument branch of RunE (lines 64-105). */
  method UpgradeWithImage(image: string, flags: UpgradeFlags, w: World) returns (err: Option<Error>, trace: seq<Event>)
    ensures Run(trace, err) == FromImage(image, flags, w)
  {
    ghost var plan := ImageCalls(image, flags, w);
    trace := [];
    trace, err := Invoke(NewImageEngine, w, trace, plan);
    if err.Some? { return; }
    trace, err := Invoke(Pull(image), w, trace, plan);
    if err.Some? { return; }
    trace, err := Invoke(Inspect, w, trace, plan);
    if err.Some? { return; }
    var imageSpec := w.inspected;
    trace, err := Invoke(GetActualClusterFile, w, trace, plan);
    if err.Some? { return; }
    var cluster := w.current.cluster;
    cluster := cluster.(appNames := flags.appNames);
    cluster := cluster.(image := image);
    trace, err := Invoke(Marshal(cluster), w, trace, plan);
    if err.Some? { return; }
    trace, err := Invoke(NewClusterFile, w, trace, plan);
    if err.Some? { return; }
    assert trace == plan;
    FailFastCompletes(plan, w.failing);
    var newClusterfile := ClusterOnly(cluster);
    var rest;
    err, rest := UpgradeCluster(newClusterfile, imageSpec, flags, w);
    trace := trace + rest;
  }

  /** Model of upgradeWithClusterfile (lines 220-254). */
  method UpgradeWithClusterfile(path: string, flags: UpgradeFlags, w: World) returns (err: Option<Error>, trace: seq<Event>)
    ensures Run(trace, err) == FromClusterfile(path, flags, w)
  {
    ghost var plan := ClusterfileCalls(path, w);
    trace := [];
    trace, err := Invoke(ReadFile(path), w, trace, plan);
    if err.Some? { return; }
    trace, err := Invoke(NewClusterFile, w, trace, plan);
    if err.Some? { return; }
    var cf := w.parsed;
    var imageName := cf.cluster.image;
    trace, err := Invoke(NewImageEngine, w, trace, plan);
    if err.Some? { return; }
    trace, err := Invoke(Pull(imageName), w, trace, plan);
    if err.Some? { return; }
    trace, err := Invoke(Inspect, w, trace, plan);
    if err.Some? { return; }
    assert trace == plan;
    FailFastCompletes(plan, w.failing);
    var rest;
    err, rest := UpgradeCluster(cf, w.inspected, flags, w);
    trace := trace + rest;
  }

  /**
   * RunE fails with MissingInput exactly when there is neither an image
   * argument nor a Clusterfile, and then calls nothing (lines 56-58).
   */
  lemma MissingInputRejected(args: seq<string>, flags: UpgradeFlags, w: World)
    ensures Dispatch(args, flags, w).err == Some(MissingInput) <==> |args| == 0 && flags.clusterFile == ""
    ensures |args| == 0 && flags.clusterFile == "" ==> Dispatch(args, flags, w).trace == []
  {
    if flags.clusterFile != "" {
      FailFastFails(ClusterfileCalls(flags.clusterFile, w), w.failing);
      AttemptErrors(w.parsed, w.inspected, flags, w);
    } else if |args| > 0 {
      FailFastFails(ImageCalls(args[0], flags, w), w.failing);
      AttemptErrors(ClusterOnly(Overridden(w.current.cluster, args[0], flags)), w.inspected, flags, w);
    }
  }

  /** upgradeCluster fails only with a wrong image type or the error of a call it made. */
  lemma AttemptErrors(cf: Clusterfile, spec: ImageSpec, flags: UpgradeFlags, w: World)
    ensures var r := AttemptUpgrade(cf, spec, flags, w);
      r.err.Some? ==> r.err.value.WrongImageType? || r.err.value.CallFailed?
  {
    FailFastFails(MountCalls(cf, w), w.failing);
    FailFastFails(MountedCalls(cf, flags, w), w.failing);
  }

  /**
   * A non-empty Clusterfile flag takes precedence: the arguments are ignored
   * and the Clusterfile is read first (lines 60-62).
   */
  lemma ClusterfileTakesPrecedence(args: seq<string>, args': seq<string>, flags: UpgradeFlags, w: World)
    requires flags.clusterFile != ""
    ensures Dispatch(args, flags, w) == Dispatch(args', flags, w)
    ensures Dispatch(args, flags, w).trace[0] == ReadFile(flags.clusterFile)
  {
  }

  /** Every call made in image-argument mode is a planned one. */
  lemma FromImageCallsPlanned(image: string, flags: UpgradeFlags, w: World)
    ensures var cf := ClusterOnly(Overridden(w.current.cluster, image, flags));
      forall e :: e in FromImage(image, flags, w).trace ==> e in ImageCalls(image, flags, w) || e in FullPlan(cf, flags, w)
  {
    var cf := ClusterOnly(Overridden(w.current.cluster, image, flags));
    MadeCallsArePlanned(ImageCalls(image, flags, w), w.failing);
    AttemptCallsPlanned(cf, w.inspected, flags, w);
  }

  /**
   * Every planned call of image-argument mode that carries a cluster carries
   * the overridden one, and the installer is planned with the image's plugins
   * only.
   */
  lemma ImagePlanArguments(image: string, flags: UpgradeFlags, w: World)
    ensures var cf := ClusterOnly(Overridden(w.current.cluster, image, flags));
      forall e :: (e in ImageCalls(image, flags, w) || e in FullPlan(cf, flags, w)) ==>
        ((e.Marshal? || e.NewInfraDriver?) ==> e.cluster == cf.cluster) &&
        (e.NewInstaller? ==> e.plugins == w.imagePlugins)
  {
    var cf := ClusterOnly(Overridden(w.current.cluster, image, flags));
    assert w.imagePlugins + cf.plugins == w.imagePlugins;
    forall e | e in ImageCalls(image, flags, w) || e in FullPlan(cf, flags, w)
      ensures (e.Marshal? || e.NewInfraDriver?) ==> e.cluster == cf.cluster
      ensures e.NewInstaller? ==> e.plugins == w.imagePlugins
    {
      if !(e in ImageCalls(image, flags, w) || e in MountCalls(cf, w) || e in InstallCalls(cf, flags, w)) {
        assert e in LaunchCalls(w) || e == Umount(w.imageName);
      }
    }
  }

  /**
   * In image-argument mode the cluster handed on carries the argument as its
   * image and the --apps flag as its application names; because the
   * regenerated Clusterfile holds the cluster only, the installer is given the
   * image's plugins alone (lines 84-105). The cluster recorded by
   * NewInfraDriver is the one before MergeClusterWithImageExtension (line 122),
   * which is not part of this model.
   */
  lemma ImageArgumentOverrides(args: seq<string>, flags: UpgradeFlags, w: World)
    requires |args| > 0 && flags.clusterFile == ""
    ensures forall e :: e in Dispatch(args, flags, w).trace && (e.Marshal? || e.NewInfraDriver?) ==>
      e.cluster.image == args[0] && e.cluster.appNames == flags.appNames
    ensures forall e :: e in Dispatch(args, flags, w).trace && e.NewInstaller? ==> e.plugins == w.imagePlugins
  {
    assert Dispatch(args, flags, w) == FromImage(args[0], flags, w);
    FromImageCallsPlanned(args[0], flags, w);
    ImagePlanArguments(args[0], flags, w);
  }
}
