/**
 * Host selection and probing helpers of the cluster runtime
 * (pkg/cluster-runtime/utils.go): getWorkerIPList, LoadToRegistry and
 * CheckNodeSSH.
 *
 * The infra driver is an object whose answers (hosts by role, all hosts, the
 * registry configuration, the rootfs path) are fixed for the call, and whose
 * remote commands are recorded in a ghost trace; whether a remote command
 * succeeds on a host is the injected set `reachable`. The distributor records
 * every DistributeRegistry call and answers with an injected outcome.
 */
module ClusterRuntime {
  import opened SeqUtil

  /** A host address, in the textual form net.IP.String() gives. */
  type IP = string

  datatype Role = Master | Node

  /** LocalRegistry.HA is a *bool in the source: None is a nil pointer. */
  datatype LocalRegistry = LocalRegistry(ha: Option<bool>)

  datatype Registry = Registry(localRegistry: Option<LocalRegistry>)

  datatype Error =
    | NoDeployHosts                 // "no deploy hosts found in the cluster"
    | ConnectFailed(failed: seq<IP>)
    | Transport(cause: string)      // an error of the remote channel, passed on as is

  /** A Go runtime panic, or the value a function returned. */
  datatype Outcome<T> = Returned(value: T) | Panicked(reason: string)

  /** A remote command issued through CmdAsync. */
  datatype Command = Command(host: IP, cmd: string)

  /** The command CheckNodeSSH runs on every host. */
  const ProbeCmd := "ls >> /dev/null"

  class InfraDriver {
    const roleHosts: map<Role, seq<IP>>
    const hosts: seq<IP>
    const registry: Registry
    const rootfsPath: string
    /** Hosts on which a remote command succeeds. */
    const reachable: set<IP>
    /** Every remote command issued, in order. */
    ghost var issued: seq<Command>

    constructor (roleHosts: map<Role, seq<IP>>, hosts: seq<IP>, registry: Registry, rootfsPath: string, reachable: set<IP>)
      ensures this.roleHosts == roleHosts && this.hosts == hosts && this.registry == registry
      ensures this.rootfsPath == rootfsPath && this.reachable == reachable
      ensures issued == []
    {
      this.roleHosts := roleHosts;
      this.hosts := hosts;
      this.registry := registry;
      this.rootfsPath := rootfsPath;
      this.reachable := reachable;
      issued := [];
    }

    function GetHostIPListByRole(role: Role): seq<IP>
    {
      if role in roleHosts then roleHosts[role] else []
    }

    method CmdAsync(host: IP, cmd: string) returns (err: Option<string>)
      modifies this`issued
      ensures issued == old(issued) + [Command(host, cmd)]
      ensures err.None? <==> host in reachable
    {
      issued := issued + [Command(host, cmd)];
      err := if host in reachable then None else Some("remote command failed on " + host);
    }
  }

  /** One DistributeRegistry call: the target hosts and the directory sent. */
  datatype RegistryLoad = RegistryLoad(hosts: seq<IP>, dir: string)

  class Distributor {
    /** What DistributeRegistry answers: None for success, or the transport error. */
    const failure: Option<string>
    /** Every DistributeRegistry call, in order. */
    ghost var registryLoads: seq<RegistryLoad>

    constructor (failure: Option<string>)
      ensures this.failure == failure && registryLoads == []
    {
      this.failure := failure;
      registryLoads := [];
    }

    method DistributeRegistry(hosts: seq<IP>, dir: string) returns (err: Option<Error>)
      modifies this`registryLoads
      ensures registryLoads == old(registryLoads) + [RegistryLoad(hosts, dir)]
      ensures err == if failure.Some? then Some(Transport(failure.value)) else None
    {
      registryLoads := registryLoads + [RegistryLoad(hosts, dir)];
      err := if failure.Some? then Some(Transport(failure.value)) else None;
    }
  }

  // ---------------------------------------------------------------------
  // getWorkerIPList
  // ---------------------------------------------------------------------

  /** Worker addresses as slice elements (a nil net.IP is None). */
  function AsSlots(s: seq<IP>): seq<Option<IP>>
  {
    seq(|s|, k requires 0 <= k < |s| => Some(s[k]))
  }

  /**
   * Model of getWorkerIPList (lines 29-46), as written: the result slice is
   * made with length len(all) - len(masters), where len(masters) counts the
   * distinct master addresses, and filled through `index` with the hosts that
   * are not masters. make panics on a negative length and the write at line
   * 40 panics once there are more non-masters than slots; slots left over
   * stay nil.
   */
  method GetWorkerIPList(driver: InfraDriver) returns (r: Outcome<array<Option<IP>>>)
    ensures var masters := Elements(driver.GetHostIPListByRole(Master));
      var workers := Excluding(driver.hosts, masters);
      r.Panicked? <==> |driver.hosts| < |masters| || |workers| > |driver.hosts| - |masters|
    ensures var masters := Elements(driver.GetHostIPListByRole(Master));
      var workers := Excluding(driver.hosts, masters);
      r.Returned? ==>
        && r.value.Length == |driver.hosts| - |masters|
        && r.value[..] == AsSlots(workers) + seq(r.value.Length - |workers|, _ => None)
  {
    var masterList := driver.GetHostIPListByRole(Master);
    var masters: set<IP> := {};
    for i := 0 to |masterList|
      invariant masters == Elements(masterList[..i])
    {
      assert masterList[..i + 1] == masterList[..i] + [masterList[i]];
      masters := masters + {masterList[i]};
    }
    assert masterList[..|masterList|] == masterList;
    var all := driver.hosts;
    var n := |all| - |masters|;
    if n < 0 {
      return Panicked("makeslice: len out of range");
    }
    var workers := new Option<IP>[n](_ => None);
    var index := 0;
    for i := 0 to |all|
      invariant index == |Excluding(all[..i], masters)| <= n
      invariant workers[..index] == AsSlots(Excluding(all[..i], masters))
      invariant forall k :: index <= k < n ==> workers[k] == None
    {
      var ip := all[i];
      assert all[..i + 1] == all[..i] + [ip];
      ExcludingSnoc(all[..i], ip, masters);
      if ip !in masters {
        if index >= n {
          ExcludingLengthBelow(all, i, masters);
          return Panicked("index out of range");
        }
        workers[index] := Some(ip);
        assert workers[..index + 1] == workers[..index] + [Some(ip)];
        index := index + 1;
      }
    }
    assert all[..|all|] == all;
    FilledThenNil(workers[..], index);
    return Returned(workers);
  }

  /** Slots past `index` that are all nil. */
  lemma FilledThenNil(slots: seq<Option<IP>>, index: nat)
    requires index <= |slots| && forall k :: index <= k < |slots| ==> slots[k] == None
    ensures slots == slots[..index] + seq(|slots| - index, _ => None)
  {
  }

  /** The non-masters of a prefix are no more than those of the whole list. */
  lemma ExcludingLengthBelow(all: seq<IP>, i: nat, masters: set<IP>)
    requires i < |all| && all[i] !in masters
    ensures |Excluding(all, masters)| >= |Excluding(all[..i], masters)| + 1
  {
    var j := i + 1;
    ExcludingPrefixGrows(all, j, masters);
    assert all[..j] == all[..i] + [all[i]];
    ExcludingSnoc(all[..i], all[i], masters);
  }

  lemma {:induction false} ExcludingPrefixGrows(all: seq<IP>, j: nat, masters: set<IP>)
    requires j <= |all|
    ensures |Excluding(all, masters)| >= |Excluding(all[..j], masters)|
    decreases |all| - j
  {
    if j < |all| {
      ExcludingPrefixGrows(all, j + 1, masters);
      assert all[..j + 1] == all[..j] + [all[j]];
      ExcludingSnoc(all[..j], all[j], masters);
    } else {
      assert all[..j] == all;
    }
  }

  /**
   * When every master address belongs to the host list and the host list has
   * no duplicates, the slice has exactly one slot per non-master, however
   * often a master is repeated (the map at lines 30-33 keeps it once):
   * getWorkerIPList neither panics nor leaves a nil slot, and the result has
   * len(all) - len(distinct masters) entries, which is len(all) - len(masters)
   * when the masters are distinct (lines 35-43).
   */
  lemma {:induction false} WorkerSliceExact(all: seq<IP>, masterList: seq<IP>)
    requires NoDuplicates(all) && Elements(masterList) <= Elements(all)
    ensures |Elements(masterList)| <= |all|
    ensures |Excluding(all, Elements(masterList))| == |all| - |Elements(masterList)|
    ensures NoDuplicates(masterList) ==> |Elements(masterList)| == |masterList|
  {
    if NoDuplicates(masterList) {
      DistinctElements(masterList);
    }
    ExcludingLength(all, Elements(masterList));
    assert Elements(masterList) * Elements(all) == Elements(masterList);
    DistinctElements(all);
    SubsetCardinality(Elements(masterList), Elements(all));
  }

  lemma SubsetCardinality(a: set<IP>, b: set<IP>)
    requires a <= b
    ensures |a| <= |b|
  {
    assert b == a + (b - a);
  }

  /**
   * The workers are exactly the hosts that are not masters, each occurrence
   * kept, in their original order; no master address is among them
   * (lines 29-46).
   */
  lemma WorkersAreNonMasters(all: seq<IP>, masterList: seq<IP>, ip: IP)
    ensures var workers := Excluding(all, Elements(masterList));
      && (ip in workers <==> ip in all && ip !in masterList)
      && multiset(workers)[ip] == (if ip in masterList then 0 else multiset(all)[ip])
      && IsSubsequence(workers, all)
  {
    ExcludingMembers(all, Elements(masterList), ip);
    ExcludingOccurrences(all, Elements(masterList), ip);
    ExcludingIsSubsequence(all, Elements(masterList));
  }

  // ---------------------------------------------------------------------
  // LoadToRegistry
  // ---------------------------------------------------------------------

  /** What LoadToRegistry decides to do. */
  datatype LoadPlan = Skip | NoTargets | Load(targets: seq<IP>)

  /**
   * The source dereferences LocalRegistry.HA without a nil check, once a local
   * registry is configured and a deploy host was found (line 74).
   */
  predicate HAConfigured(reg: Registry, nodes: seq<IP>, masters: seq<IP>)
  {
    reg.localRegistry.Some? && (nodes != [] || masters != []) ==> reg.localRegistry.value.ha.Some?
  }

  /** filepath.Join of a directory and one plain element. */
  function JoinPath(dir: string, name: string): string
  {
    if dir == "" then name
    else if dir[|dir| - 1] == '/' then dir + name
    else dir + "/" + name
  }

  /**
   * The registry-target policy (lines 53-77): nothing without a local
   * registry; otherwise the NODE-role hosts, or the MASTER-role hosts when
   * there is no node, or an error when there is neither; with HA off only the
   * first candidate, with HA on every candidate in order.
   */
  function RegistryPlan(reg: Registry, nodes: seq<IP>, masters: seq<IP>): (p: LoadPlan)
    requires HAConfigured(reg, nodes, masters)
    ensures p.Skip? <==> reg.localRegistry.None?
    ensures p.NoTargets? <==> reg.localRegistry.Some? && nodes == [] && masters == []
    ensures p.Load? && nodes != [] ==> p.targets <= nodes
    ensures p.Load? && nodes == [] ==> p.targets <= masters
    ensures p.Load? ==> |p.targets| == if reg.localRegistry.value.ha.value then |if nodes != [] then nodes else masters| else 1
  {
    match reg.localRegistry
    case None => Skip
    case Some(local) =>
      var candidates := if |nodes| < 1 then masters else nodes;
      if |candidates| < 1 then NoTargets
      else if !local.ha.value then Load([candidates[0]])
      else Load(candidates)
  }

  /** Non-HA registry with two node candidates: only the first one is loaded. */
  lemma NonHAExample()
    ensures RegistryPlan(Registry(Some(LocalRegistry(Some(false)))), ["nodeA", "nodeB"], ["master0"]) == Load(["nodeA"])
  {
  }

  /** A local registry whose HA flag is nil, with no deploy host: the error comes before any dereference. */
  lemma NoHostsBeforeHA()
    ensures RegistryPlan(Registry(Some(LocalRegistry(None))), [], []) == NoTargets
  {
  }

  /**
   * Model of LoadToRegistry (lines 49-87): at most one DistributeRegistry
   * call, with the planned targets and rootfs/registry, whose error is
   * returned unchanged.
   */
  method LoadToRegistry(driver: InfraDriver, distributor: Distributor) returns (err: Option<Error>)
    requires HAConfigured(driver.registry, driver.GetHostIPListByRole(Node), driver.GetHostIPListByRole(Master))
    modifies distributor`registryLoads
    ensures var plan := RegistryPlan(driver.registry, driver.GetHostIPListByRole(Node), driver.GetHostIPListByRole(Master));
      distributor.registryLoads == old(distributor.registryLoads) +
        (if plan.Load? then [RegistryLoad(plan.targets, JoinPath(driver.rootfsPath, "registry"))] else [])
    ensures var plan := RegistryPlan(driver.registry, driver.GetHostIPListByRole(Node), driver.GetHostIPListByRole(Master));
      err == match plan
        case Skip => None
        case NoTargets => Some(NoDeployHosts)
        case Load(_) => if distributor.failure.Some? then Some(Transport(distributor.failure.value)) else None
  {
    var regConfig := driver.registry;
    if regConfig.localRegistry.None? {
      return None;
    }
    var deployHosts := driver.GetHostIPListByRole(Node);
    if |deployHosts| < 1 {
      deployHosts := driver.GetHostIPListByRole(Master);
    }
    if |deployHosts| < 1 {
      return Some(NoDeployHosts);
    }
    var node01 := deployHosts[0];
    if !regConfig.localRegistry.value.ha.value {
      deployHosts := [node01];
    }
    err := distributor.DistributeRegistry(deployHosts, JoinPath(driver.rootfsPath, "registry"));
  }

  // ---------------------------------------------------------------------
  // CheckNodeSSH
  // ---------------------------------------------------------------------

  /** The probe commands for `hosts`, in order. */
  function Probes(hosts: seq<IP>): seq<Command>
  {
    seq(|hosts|, k requires 0 <= k < |hosts| => Command(hosts[k], ProbeCmd))
  }

  /**
   * Model of CheckNodeSSH (lines 89-106): every host is probed, in input
   * order, whatever earlier probes answered; the failed hosts are those not
   * reachable, in input order; an error is returned iff one failed.
   */
  method CheckNodeSSH(driver: InfraDriver, clientHosts: seq<IP>) returns (failed: seq<IP>, err: Option<Error>)
    modifies driver`issued
    ensures driver.issued == old(driver.issued) + Probes(clientHosts)
    ensures failed == Excluding(clientHosts, driver.reachable)
    ensures err.Some? <==> failed != []
    ensures err.Some? ==> err.value == ConnectFailed(failed)
  {
    failed := [];
    for i := 0 to |clientHosts|
      invariant driver.issued == old(driver.issued) + Probes(clientHosts[..i])
      invariant failed == Excluding(clientHosts[..i], driver.reachable)
    {
      var n := clientHosts[i];
      assert clientHosts[..i + 1] == clientHosts[..i] + [n];
      ExcludingSnoc(clientHosts[..i], n, driver.reachable);
      var e := driver.CmdAsync(n, ProbeCmd);
      if e.Some? {
        failed := failed + [n];
      }
    }
    assert clientHosts[..|clientHosts|] == clientHosts;
    err := None;
    if |failed| > 0 {
      err := Some(ConnectFailed(failed));
    }
  }

  /**
   * The failed list holds exactly the unreachable hosts, every occurrence, in
   * input order; it is empty, and no error is returned, exactly when every
   * host is reachable, in particular for an empty input (lines 91-105).
   */
  lemma FailedAreUnreachable(clientHosts: seq<IP>, reachable: set<IP>, h: IP)
    ensures var failed := Excluding(clientHosts, reachable);
      && (h in failed <==> h in clientHosts && h !in reachable)
      && multiset(failed)[h] == (if h in reachable then 0 else multiset(clientHosts)[h])
      && IsSubsequence(failed, clientHosts)
      && (failed == [] <==> Elements(clientHosts) <= reachable)
  {
    ExcludingMembers(clientHosts, reachable, h);
    ExcludingOccurrences(clientHosts, reachable, h);
    ExcludingIsSubsequence(clientHosts, reachable);
    if Excluding(clientHosts, reachable) != [] {
      var f := Excluding(clientHosts, reachable)[0];
      ExcludingMembers(clientHosts, reachable, f);
    } else {
      forall x | x in Elements(clientHosts) ensures x in reachable {
        ExcludingMembers(clientHosts, reachable, x);
      }
    }
  }

  /** Probing h1, h2, h3 where only h2 is unreachable fails h2 alone. */
  lemma ProbeExample()
    ensures Excluding(["h1", "h2", "h3"], {"h1", "h3"}) == ["h2"]
  {
  }
}
