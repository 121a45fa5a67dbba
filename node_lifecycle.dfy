/**
 * The node and role lifecycle helpers of `ClouderaUtils`: removing hosts,
 * decommissioning roles, creating the roles of new instances and bootstrapping
 * the management service. Each operation returns the remote calls it makes, in
 * order; read-only lookups (`get_api_client`, `get_cluster`, `get_service`)
 * are not recorded.
 */
module NodeLifecycle {
  import opened Wrappers
  import opened CdhTypes
  import opened ServiceRouter
  import opened CommandRunner

  // ---------------------------------------------------------------------------
  // delete_instances

  /** `[i.fqdn() for i in instances]` */
  function Fqdns(instances: seq<Instance>): (names: seq<string>)
    ensures |names| == |instances|
    ensures forall i :: 0 <= i < |instances| ==> names[i] == instances[i].fqdn
  {
    seq(|instances|, i requires 0 <= i < |instances| => instances[i].fqdn)
  }

  /**
   * The calls `delete_instances` makes for an inventory: for every host whose
   * hostname is a target, a removal from the cluster immediately followed by
   * the deletion of the host, in inventory order.
   */
  function HostCalls(hosts: seq<Host>, targets: seq<string>): (log: seq<Event>)
    ensures |log| % 2 == 0
    ensures forall k :: 0 <= k < |log| ==> (k % 2 == 0 <==> log[k].RemoveHost?)
    ensures forall k :: 0 <= k < |log| && k % 2 == 1 ==> log[k] == DeleteHost(log[k - 1].hostId)
  {
    if hosts == [] then []
    else
      var done := hosts[..|hosts| - 1];
      var host := hosts[|hosts| - 1];
      HostCalls(done, targets) +
        (if host.hostname in targets then [RemoveHost(host.hostId), DeleteHost(host.hostId)] else [])
  }

  /** Only hosts of the inventory whose hostname is a target are touched. */
  lemma {:induction false} HostCallsOnlyTargets(hosts: seq<Host>, targets: seq<string>)
    ensures forall e :: e in HostCalls(hosts, targets) ==>
      (e.RemoveHost? || e.DeleteHost?) &&
      (exists h :: h in hosts && h.hostname in targets && e.hostId == h.hostId)
  {
    if hosts != [] {
      var done := hosts[..|hosts| - 1];
      HostCallsOnlyTargets(done, targets);
      assert forall h :: h in done ==> h in hosts;
    }
  }

  /** The calls for an inventory are the calls for its parts, in order. */
  lemma {:induction false} HostCallsAppend(a: seq<Host>, b: seq<Host>, targets: seq<string>)
    ensures HostCalls(a + b, targets) == HostCalls(a, targets) + HostCalls(b, targets)
  {
    if b == [] {
      assert a + b == a;
    } else {
      var b' := b[..|b| - 1];
      assert (a + b)[..|a + b| - 1] == a + b';
      assert (a + b)[|a + b| - 1] == b[|b| - 1];
      HostCallsAppend(a, b', targets);
    }
  }

  /** Every targeted host of the inventory is removed from the cluster and deleted. */
  lemma HostCallsCover(hosts: seq<Host>, targets: seq<string>, i: nat)
    requires i < |hosts| && hosts[i].hostname in targets
    ensures RemoveHost(hosts[i].hostId) in HostCalls(hosts, targets)
    ensures DeleteHost(hosts[i].hostId) in HostCalls(hosts, targets)
  {
    assert hosts == hosts[..i] + [hosts[i]] + hosts[i + 1..];
    HostCallsAppend(hosts[..i] + [hosts[i]], hosts[i + 1..], targets);
    HostCallsAppend(hosts[..i], [hosts[i]], targets);
    assert [hosts[i]][..0] == [];
  }

  /** `delete_instances`: walk the full host inventory and drop the hosts of the instances. */
  method DeleteInstances(instances: seq<Instance>, hosts: seq<Host>) returns (log: seq<Event>)
    ensures log == HostCalls(hosts, Fqdns(instances))
  {
    var targets := Fqdns(instances);
    log := [];
    for i := 0 to |hosts|
      invariant log == HostCalls(hosts[..i], targets)
    {
      var host := hosts[i];
      assert hosts[..i + 1][..i] == hosts[..i];
      if host.hostname in targets {
        log := log + [RemoveHost(host.hostId), DeleteHost(host.hostId)];
      }
    }
    assert hosts[..|hosts|] == hosts;
  }

  /** The host is that of one of the instances: its hostname is the instance's fully-qualified name. */
  predicate HostOfInstances(instances: seq<Instance>, h: Host) {
    exists j :: 0 <= j < |instances| && instances[j].fqdn == h.hostname
  }

  /**
   * What `delete_instances` promises about the instances: every inventory host
   * of one of the instances is removed from the cluster and deleted.
   */
  lemma {:induction false} DeleteInstancesCover(instances: seq<Instance>, hosts: seq<Host>, i: nat)
    requires i < |hosts| && HostOfInstances(instances, hosts[i])
    ensures RemoveHost(hosts[i].hostId) in HostCalls(hosts, Fqdns(instances))
    ensures DeleteHost(hosts[i].hostId) in HostCalls(hosts, Fqdns(instances))
  {
    var j :| 0 <= j < |instances| && instances[j].fqdn == hosts[i].hostname;
    assert Fqdns(instances)[j] == hosts[i].hostname;
    HostCallsCover(hosts, Fqdns(instances), i);
  }

  /** Every call `delete_instances` makes removes or deletes a host of one of the instances. */
  lemma {:induction false} DeleteInstancesOnlyTargets(instances: seq<Instance>, hosts: seq<Host>, e: Event)
    requires e in HostCalls(hosts, Fqdns(instances))
    ensures e.RemoveHost? || e.DeleteHost?
    ensures exists i :: 0 <= i < |hosts| && HostOfInstances(instances, hosts[i]) &&
                        e.hostId == hosts[i].hostId
  {
    var targets := Fqdns(instances);
    HostCallsOnlyTargets(hosts, targets);
    var h :| h in hosts && h.hostname in targets && e.hostId == h.hostId;
    var i :| 0 <= i < |hosts| && hosts[i] == h;
    var j :| 0 <= j < |targets| && targets[j] == h.hostname;
    assert instances[j].fqdn == hosts[i].hostname;
  }

  // ---------------------------------------------------------------------------
  // decommission_nodes

  /**
   * `decommission_nodes`: one decommission command for the whole batch, a wait
   * on it, then one role deletion per name in the given order. The wait's
   * result is not inspected: the deletions follow whatever it is.
   */
  method DecommissionNodes(cluster: string, process: string, roleNames: seq<string>,
                           decommissioned: CommandResult) returns (x: Execution)
    ensures var s := ServiceByRole(process, Some(cluster), None);
      if s.Err? then x == Execution([], Raised(s.error))
      else
        x.outcome == Done && |x.log| == |roleNames| + 2 &&
        x.log[0] == Decommission(s.value, roleNames) &&
        x.log[1] == Waited(decommissioned) &&
        forall k :: 0 <= k < |roleNames| ==> x.log[k + 2] == DeleteRole(s.value, roleNames[k])
  {
    var s := ServiceByRole(process, Some(cluster), None);
    if s.Err? {
      return Execution([], Raised(s.error));
    }
    var service := s.value;
    var log := [Decommission(service, roleNames), Waited(decommissioned)];
    for i := 0 to |roleNames|
      invariant |log| == i + 2
      invariant log[0] == Decommission(service, roleNames) && log[1] == Waited(decommissioned)
      invariant forall k :: 0 <= k < i ==> log[k + 2] == DeleteRole(service, roleNames[k])
    {
      log := log + [DeleteRole(service, roleNames[i])];
    }
    x := Execution(log, Done);
  }

  // ---------------------------------------------------------------------------
  // configure_instances / configure_instance / _add_role

  const ClouderaManagerProcess := "CLOUDERA_MANAGER"

  /**
   * `_add_role`: nothing for the manager process; otherwise look up the owning
   * service of the converted process on the instance, create the role and
   * push its configuration.
   */
  function AddRole(pu: PluginUtils, instance: Instance, process: string, cluster: Option<string>)
    : seq<Step>
  {
    if process == ClouderaManagerProcess then []
    else
      var p := pu.convertRoleShowname(process);
      match ServiceByRole(p, None, Some(instance))
      case Err(e) => [Raise(e)]
      case Ok(service) =>
        var name := pu.roleName(instance, p);
        [Act(CreateRole(service, name, p, instance.fqdn)),
         Act(UpdateRoleConfig(service, name, p, cluster, instance.nodeGroup))]
  }

  /** `_add_role` for each of the given processes of one instance, in order. */
  function AddRoles(pu: PluginUtils, instance: Instance, processes: seq<string>,
                    cluster: Option<string>): seq<Step>
  {
    if processes == [] then []
    else
      AddRoles(pu, instance, processes[..|processes| - 1], cluster) +
        AddRole(pu, instance, processes[|processes| - 1], cluster)
  }

  /** `configure_instance` for each of the given instances, in order. */
  function ConfigureSteps(pu: PluginUtils, instances: seq<Instance>, cluster: Option<string>)
    : seq<Step>
  {
    if instances == [] then []
    else
      var last := instances[|instances| - 1];
      ConfigureSteps(pu, instances[..|instances| - 1], cluster) +
        AddRoles(pu, last, last.nodeProcesses, cluster)
  }

  lemma {:induction false} AddRolesAppend(pu: PluginUtils, instance: Instance, a: seq<string>,
                                          b: seq<string>, cluster: Option<string>)
    ensures AddRoles(pu, instance, a + b, cluster) ==
            AddRoles(pu, instance, a, cluster) + AddRoles(pu, instance, b, cluster)
  {
    if b == [] {
      assert a + b == a;
    } else {
      var b' := b[..|b| - 1];
      assert (a + b)[..|a + b| - 1] == a + b';
      assert (a + b)[|a + b| - 1] == b[|b| - 1];
      AddRolesAppend(pu, instance, a, b', cluster);
    }
  }

  lemma {:induction false} ConfigureStepsAppend(pu: PluginUtils, a: seq<Instance>, b: seq<Instance>,
                                                cluster: Option<string>)
    ensures ConfigureSteps(pu, a + b, cluster) ==
            ConfigureSteps(pu, a, cluster) + ConfigureSteps(pu, b, cluster)
  {
    if b == [] {
      assert a + b == a;
    } else {
      var b' := b[..|b| - 1];
      var last := b[|b| - 1];
      var tail := AddRoles(pu, last, last.nodeProcesses, cluster);
      calc {
        ConfigureSteps(pu, a + b, cluster);
        == { assert (a + b)[..|a + b| - 1] == a + b';
             assert (a + b)[|a + b| - 1] == last; }
        ConfigureSteps(pu, a + b', cluster) + tail;
        == { ConfigureStepsAppend(pu, a, b', cluster); }
        (ConfigureSteps(pu, a, cluster) + ConfigureSteps(pu, b', cluster)) + tail;
        ConfigureSteps(pu, a, cluster) + (ConfigureSteps(pu, b', cluster) + tail);
        ConfigureSteps(pu, a, cluster) + ConfigureSteps(pu, b, cluster);
      }
    }
  }

  /** A role-creation request: one node process of one instance. */
  datatype RoleRequest = RoleRequest(instance: Instance, process: string)

  /** The calls that create one role and push its configuration. */
  function RoleCall(pu: PluginUtils, r: RoleRequest, cluster: Option<string>): seq<Event>
    requires Supported(pu, r.process)
  {
    var p := pu.convertRoleShowname(r.process);
    var service := OwningService(pu, r.instance, r.process);
    var name := pu.roleName(r.instance, p);
    [CreateRole(service, name, p, r.instance.fqdn),
     UpdateRoleConfig(service, name, p, cluster, r.instance.nodeGroup)]
  }

  /**
   * What one `_add_role` call does: nothing for the manager process, a
   * `ValueError` for an unsupported process, and otherwise the role creation
   * and configuration update.
   */
  lemma AddRoleRun(pu: PluginUtils, instance: Instance, process: string, cluster: Option<string>)
    ensures var x := Run(AddRole(pu, instance, process, cluster));
      if process == ClouderaManagerProcess then x == Execution([], Done)
      else if !Supported(pu, process) then
        x == Execution([], Raised(ValueError(UnsupportedMessage(pu.convertRoleShowname(process)))))
      else x == Execution(RoleCall(pu, RoleRequest(instance, process), cluster), Done)
  {
    if process != ClouderaManagerProcess && Supported(pu, process) {
      var p := pu.convertRoleShowname(process);
      var service := OwningService(pu, instance, process);
      var name := pu.roleName(instance, p);
      var t := [Act(CreateRole(service, name, p, instance.fqdn)),
                Act(UpdateRoleConfig(service, name, p, cluster, instance.nodeGroup))];
      assert AddRole(pu, instance, process, cluster) == t;
      assert t[1..] == [t[1]];
      assert [t[1]][1..] == [];
      assert Run(t[1..]) == Execution([t[1].event], Done);
    }
  }

  /** `_add_role` itself. */
  method AddRoleOp(pu: PluginUtils, instance: Instance, process: string, cluster: Option<string>)
    returns (x: Execution)
    ensures x == Run(AddRole(pu, instance, process, cluster))
  {
    AddRoleRun(pu, instance, process, cluster);
    if process == ClouderaManagerProcess {
      return Execution([], Done);
    }
    var p := pu.convertRoleShowname(process);
    var s := ServiceByRole(p, None, Some(instance));
    if s.Err? {
      return Execution([], Raised(s.error));
    }
    var name := pu.roleName(instance, p);
    x := Execution([CreateRole(s.value, name, p, instance.fqdn),
                    UpdateRoleConfig(s.value, name, p, cluster, instance.nodeGroup)], Done);
  }

  lemma AddRolesPrefix(pu: PluginUtils, instance: Instance, processes: seq<string>, j: nat,
                       cluster: Option<string>)
    requires j < |processes|
    ensures Run(AddRoles(pu, instance, processes[..j + 1], cluster)) ==
            var before := Run(AddRoles(pu, instance, processes[..j], cluster));
            var here := Run(AddRole(pu, instance, processes[j], cluster));
            if before.outcome.Done? then Execution(before.log + here.log, here.outcome) else before
  {
    assert processes[..j + 1][..j] == processes[..j];
    RunAppend(AddRoles(pu, instance, processes[..j], cluster), AddRole(pu, instance, processes[j], cluster));
  }

  /** Once `_add_role` raises, `configure_instance` has ended. */
  lemma AddRolesStopped(pu: PluginUtils, instance: Instance, processes: seq<string>, n: nat,
                        cluster: Option<string>)
    requires n <= |processes|
    requires !Run(AddRoles(pu, instance, processes[..n], cluster)).outcome.Done?
    ensures Run(AddRoles(pu, instance, processes, cluster)) ==
            Run(AddRoles(pu, instance, processes[..n], cluster))
  {
    assert processes == processes[..n] + processes[n..];
    AddRolesAppend(pu, instance, processes[..n], processes[n..], cluster);
    RunAppend(AddRoles(pu, instance, processes[..n], cluster), AddRoles(pu, instance, processes[n..], cluster));
  }

  /** `configure_instance`: add the role of each node process of the instance. */
  method ConfigureInstance(pu: PluginUtils, instance: Instance, cluster: Option<string>)
    returns (x: Execution)
    ensures x == Run(AddRoles(pu, instance, instance.nodeProcesses, cluster))
  {
    var processes := instance.nodeProcesses;
    var log: seq<Event> := [];
    for j := 0 to |processes|
      invariant Run(AddRoles(pu, instance, processes[..j], cluster)) == Execution(log, Done)
    {
      var y := AddRoleOp(pu, instance, processes[j], cluster);
      AddRolesPrefix(pu, instance, processes, j, cluster);
      if y.outcome.Raised? {
        AddRolesStopped(pu, instance, processes, j + 1, cluster);
        return Execution(log + y.log, y.outcome);
      }
      log := log + y.log;
    }
    assert processes[..|processes|] == processes;
    x := Execution(log, Done);
  }

  lemma ConfigureStepsPrefix(pu: PluginUtils, instances: seq<Instance>, i: nat, cluster: Option<string>)
    requires i < |instances|
    ensures Run(ConfigureSteps(pu, instances[..i + 1], cluster)) ==
            var before := Run(ConfigureSteps(pu, instances[..i], cluster));
            var here := Run(AddRoles(pu, instances[i], instances[i].nodeProcesses, cluster));
            if before.outcome.Done? then Execution(before.log + here.log, here.outcome) else before
  {
    assert instances[..i + 1][..i] == instances[..i];
    RunAppend(ConfigureSteps(pu, instances[..i], cluster),
              AddRoles(pu, instances[i], instances[i].nodeProcesses, cluster));
  }

  /** Once `configure_instance` raises, `configure_instances` has ended. */
  lemma ConfigureStepsStopped(pu: PluginUtils, instances: seq<Instance>, n: nat, cluster: Option<string>)
    requires n <= |instances|
    requires !Run(ConfigureSteps(pu, instances[..n], cluster)).outcome.Done?
    ensures Run(ConfigureSteps(pu, instances, cluster)) == Run(ConfigureSteps(pu, instances[..n], cluster))
  {
    assert instances == instances[..n] + instances[n..];
    ConfigureStepsAppend(pu, instances[..n], instances[n..], cluster);
    RunAppend(ConfigureSteps(pu, instances[..n], cluster), ConfigureSteps(pu, instances[n..], cluster));
  }

  /** `configure_instances`: configure each instance in turn. */
  method ConfigureInstances(pu: PluginUtils, instances: seq<Instance>, cluster: Option<string>)
    returns (x: Execution)
    ensures x == Run(ConfigureSteps(pu, instances, cluster))
  {
    var log: seq<Event> := [];
    for i := 0 to |instances|
      invariant Run(ConfigureSteps(pu, instances[..i], cluster)) == Execution(log, Done)
    {
      var y := ConfigureInstance(pu, instances[i], cluster);
      ConfigureStepsPrefix(pu, instances, i, cluster);
      if y.outcome.Raised? {
        ConfigureStepsStopped(pu, instances, i + 1, cluster);
        return Execution(log + y.log, y.outcome);
      }
      log := log + y.log;
    }
    assert instances[..|instances|] == instances;
    x := Execution(log, Done);
  }

  /** The node processes of one instance that get a role, in order. */
  function ProcessRequests(instance: Instance, processes: seq<string>): seq<RoleRequest> {
    if processes == [] then []
    else
      var last := processes[|processes| - 1];
      ProcessRequests(instance, processes[..|processes| - 1]) +
        (if last == ClouderaManagerProcess then [] else [RoleRequest(instance, last)])
  }

  /**
   * The role requests of `configure_instances`: every node process other than
   * the manager of every instance, instance by instance, in order.
   */
  function RoleRequests(instances: seq<Instance>): seq<RoleRequest> {
    if instances == [] then []
    else
      var last := instances[|instances| - 1];
      RoleRequests(instances[..|instances| - 1]) + ProcessRequests(last, last.nodeProcesses)
  }

  /** The requests of one instance are exactly its non-manager processes. */
  lemma {:induction false} ProcessRequestsExact(instance: Instance, processes: seq<string>)
    ensures forall r :: r in ProcessRequests(instance, processes) <==>
      (r.instance == instance && r.process in processes && r.process != ClouderaManagerProcess)
  {
    if processes != [] {
      var init := processes[..|processes| - 1];
      assert processes == init + [processes[|processes| - 1]];
      ProcessRequestsExact(instance, init);
    }
  }

  /**
   * The requests of `configure_instances` are exactly the non-manager
   * processes of the given instances.
   */
  lemma {:induction false} RoleRequestsExact(instances: seq<Instance>)
    ensures forall r :: r in RoleRequests(instances) <==>
      (r.instance in instances && r.process in r.instance.nodeProcesses &&
       r.process != ClouderaManagerProcess)
  {
    if instances != [] {
      var init := instances[..|instances| - 1];
      var last := instances[|instances| - 1];
      assert instances == init + [last];
      RoleRequestsExact(init);
      ProcessRequestsExact(last, last.nodeProcesses);
    }
  }

  /** Every non-manager node process of every instance has an owning service. */
  predicate AllSupported(pu: PluginUtils, instances: seq<Instance>) {
    forall r :: r in RoleRequests(instances) ==> Supported(pu, r.process)
  }

  /** The calls for role requests that are all supported, request by request. */
  function RoleCalls(pu: PluginUtils, requests: seq<RoleRequest>, cluster: Option<string>)
    : seq<Event>
    requires forall r :: r in requests ==> Supported(pu, r.process)
  {
    if requests == [] then []
    else
      var init := requests[..|requests| - 1];
      assert forall q :: q in init ==> q in requests;
      RoleCalls(pu, init, cluster) + RoleCall(pu, requests[|requests| - 1], cluster)
  }

  lemma {:induction false} RoleCallsLength(pu: PluginUtils, requests: seq<RoleRequest>,
                                           cluster: Option<string>)
    requires forall r :: r in requests ==> Supported(pu, r.process)
    ensures |RoleCalls(pu, requests, cluster)| == 2 * |requests|
  {
    if requests != [] {
      var init := requests[..|requests| - 1];
      assert forall q :: q in init ==> q in requests;
      RoleCallsLength(pu, init, cluster);
    }
  }

  /** Request k gives calls 2k (create the role) and 2k + 1 (push its configuration). */
  lemma {:induction false} RoleCallsAt(pu: PluginUtils, requests: seq<RoleRequest>,
                                       cluster: Option<string>, k: nat)
    requires forall r :: r in requests ==> Supported(pu, r.process)
    requires k < |requests|
    ensures |RoleCalls(pu, requests, cluster)| == 2 * |requests|
    ensures RoleCalls(pu, requests, cluster)[2 * k] == RoleCall(pu, requests[k], cluster)[0]
    ensures RoleCalls(pu, requests, cluster)[2 * k + 1] == RoleCall(pu, requests[k], cluster)[1]
  {
    var init := requests[..|requests| - 1];
    assert forall q :: q in init ==> q in requests;
    RoleCallsLength(pu, requests, cluster);
    RoleCallsLength(pu, init, cluster);
    var before := RoleCalls(pu, init, cluster);
    var here := RoleCall(pu, requests[|requests| - 1], cluster);
    assert RoleCalls(pu, requests, cluster) == before + here;
    if k < |init| {
      RoleCallsAt(pu, init, cluster, k);
      assert init[k] == requests[k];
    }
  }

  lemma {:induction false} RoleCallsAppend(pu: PluginUtils, a: seq<RoleRequest>, b: seq<RoleRequest>,
                                           cluster: Option<string>)
    requires forall r :: r in a + b ==> Supported(pu, r.process)
    ensures RoleCalls(pu, a + b, cluster) == RoleCalls(pu, a, cluster) + RoleCalls(pu, b, cluster)
  {
    if b == [] {
      assert a + b == a;
    } else {
      var b' := b[..|b| - 1];
      assert (a + b)[..|a + b| - 1] == a + b';
      assert (a + b)[|a + b| - 1] == b[|b| - 1];
      assert forall r :: r in a + b' ==> r in a + b;
      RoleCallsAppend(pu, a, b', cluster);
    }
  }

  /** One instance's part of `configure_instances` when all its processes are supported. */
  lemma {:induction false} AddRolesSupported(pu: PluginUtils, instance: Instance,
                                             processes: seq<string>, cluster: Option<string>)
    requires forall r :: r in ProcessRequests(instance, processes) ==> Supported(pu, r.process)
    ensures Run(AddRoles(pu, instance, processes, cluster)) ==
            Execution(RoleCalls(pu, ProcessRequests(instance, processes), cluster), Done)
  {
    if processes != [] {
      var init := processes[..|processes| - 1];
      var last := processes[|processes| - 1];
      var here := if last == ClouderaManagerProcess then [] else [RoleRequest(instance, last)];
      assert ProcessRequests(instance, processes) == ProcessRequests(instance, init) + here;
      assert forall r :: r in ProcessRequests(instance, init) ==> r in ProcessRequests(instance, processes);
      AddRolesSupported(pu, instance, init, cluster);
      RunAppend(AddRoles(pu, instance, init, cluster), AddRole(pu, instance, last, cluster));
      AddRoleRun(pu, instance, last, cluster);
      RoleCallsAppend(pu, ProcessRequests(instance, init), here, cluster);
      if last != ClouderaManagerProcess {
        assert RoleRequest(instance, last) in ProcessRequests(instance, processes);
        assert RoleCalls(pu, here, cluster) == RoleCall(pu, RoleRequest(instance, last), cluster);
      }
    }
  }

  /**
   * When every non-manager node process is supported, `configure_instances`
   * returns normally having created exactly one role, and updated its
   * configuration, per request of `RoleRequests`, in that order.
   */
  lemma {:induction false} ConfigureAllSupported(pu: PluginUtils, instances: seq<Instance>,
                                                 cluster: Option<string>)
    requires AllSupported(pu, instances)
    ensures Run(ConfigureSteps(pu, instances, cluster)) ==
            Execution(RoleCalls(pu, RoleRequests(instances), cluster), Done)
  {
    if instances != [] {
      var init := instances[..|instances| - 1];
      var last := instances[|instances| - 1];
      var mine := ProcessRequests(last, last.nodeProcesses);
      assert RoleRequests(instances) == RoleRequests(init) + mine;
      assert forall r :: r in RoleRequests(init) ==> r in RoleRequests(instances);
      assert forall r :: r in mine ==> r in RoleRequests(instances);
      ConfigureAllSupported(pu, init, cluster);
      AddRolesSupported(pu, last, last.nodeProcesses, cluster);
      RunAppend(ConfigureSteps(pu, init, cluster), AddRoles(pu, last, last.nodeProcesses, cluster));
      RoleCallsAppend(pu, RoleRequests(init), mine, cluster);
    }
  }

  /** One instance's part fails exactly when one of its non-manager processes is unsupported. */
  lemma {:induction false} AddRolesDoneIff(pu: PluginUtils, instance: Instance,
                                           processes: seq<string>, cluster: Option<string>)
    ensures Run(AddRoles(pu, instance, processes, cluster)).outcome == Done <==>
            forall r :: r in ProcessRequests(instance, processes) ==> Supported(pu, r.process)
    ensures Run(AddRoles(pu, instance, processes, cluster)).outcome.Raised? ==>
            Run(AddRoles(pu, instance, processes, cluster)).outcome.error.ValueError?
  {
    if processes != [] {
      var init := processes[..|processes| - 1];
      var last := processes[|processes| - 1];
      var here := if last == ClouderaManagerProcess then [] else [RoleRequest(instance, last)];
      assert ProcessRequests(instance, processes) == ProcessRequests(instance, init) + here;
      AddRolesDoneIff(pu, instance, init, cluster);
      RunAppend(AddRoles(pu, instance, init, cluster), AddRole(pu, instance, last, cluster));
      AddRoleRun(pu, instance, last, cluster);
    }
  }

  /**
   * `configure_instances` returns normally exactly when every non-manager node
   * process has an owning service; otherwise it raises a `ValueError`
   * (`ConfigureStop` says which one, and which roles were created before it).
   */
  lemma {:induction false} ConfigureDoneIff(pu: PluginUtils, instances: seq<Instance>,
                                            cluster: Option<string>)
    ensures Run(ConfigureSteps(pu, instances, cluster)).outcome == Done <==> AllSupported(pu, instances)
    ensures Run(ConfigureSteps(pu, instances, cluster)).outcome.Raised? ==>
            Run(ConfigureSteps(pu, instances, cluster)).outcome.error.ValueError?
  {
    if instances != [] {
      var init := instances[..|instances| - 1];
      var last := instances[|instances| - 1];
      assert RoleRequests(instances) == RoleRequests(init) + ProcessRequests(last, last.nodeProcesses);
      ConfigureDoneIff(pu, init, cluster);
      AddRolesDoneIff(pu, last, last.nodeProcesses, cluster);
      RunAppend(ConfigureSteps(pu, init, cluster), AddRoles(pu, last, last.nodeProcesses, cluster));
    }
  }

  /**
   * One instance's part stops at its first unsupported process: the roles of
   * the requests before it are created and configured, and that process's
   * `ValueError` is raised.
   */
  lemma {:induction false} AddRolesStop(pu: PluginUtils, instance: Instance, processes: seq<string>,
                                        cluster: Option<string>, k: nat)
    requires k < |ProcessRequests(instance, processes)|
    requires forall r :: r in ProcessRequests(instance, processes)[..k] ==> Supported(pu, r.process)
    requires !Supported(pu, ProcessRequests(instance, processes)[k].process)
    ensures Run(AddRoles(pu, instance, processes, cluster)) ==
      Execution(RoleCalls(pu, ProcessRequests(instance, processes)[..k], cluster),
                Raised(ValueError(UnsupportedMessage(
                  pu.convertRoleShowname(ProcessRequests(instance, processes)[k].process)))))
  {
    var reqs := ProcessRequests(instance, processes);
    var init := processes[..|processes| - 1];
    var last := processes[|processes| - 1];
    var before := ProcessRequests(instance, init);
    var here := if last == ClouderaManagerProcess then [] else [RoleRequest(instance, last)];
    assert reqs == before + here;
    RunAppend(AddRoles(pu, instance, init, cluster), AddRole(pu, instance, last, cluster));
    if k < |before| {
      assert before[..k] == reqs[..k];
      assert before[k] == reqs[k];
      AddRolesStop(pu, instance, init, cluster, k);
    } else {
      assert reqs[..k] == before;
      assert reqs[k] == RoleRequest(instance, last);
      AddRolesSupported(pu, instance, init, cluster);
      AddRoleRun(pu, instance, last, cluster);
    }
  }

  /**
   * `configure_instances` stops at the first unsupported request k of
   * `RoleRequests`: every request before it has its role created and
   * configured, in order, and request k's `ValueError` is raised.
   */
  lemma {:induction false} ConfigureStop(pu: PluginUtils, instances: seq<Instance>,
                                         cluster: Option<string>, k: nat)
    requires k < |RoleRequests(instances)|
    requires forall r :: r in RoleRequests(instances)[..k] ==> Supported(pu, r.process)
    requires !Supported(pu, RoleRequests(instances)[k].process)
    ensures Run(ConfigureSteps(pu, instances, cluster)) ==
      Execution(RoleCalls(pu, RoleRequests(instances)[..k], cluster),
                Raised(ValueError(UnsupportedMessage(
                  pu.convertRoleShowname(RoleRequests(instances)[k].process)))))
  {
    var reqs := RoleRequests(instances);
    var init := instances[..|instances| - 1];
    var last := instances[|instances| - 1];
    var before := RoleRequests(init);
    var mine := ProcessRequests(last, last.nodeProcesses);
    assert reqs == before + mine;
    RunAppend(ConfigureSteps(pu, init, cluster), AddRoles(pu, last, last.nodeProcesses, cluster));
    if k < |before| {
      assert before[..k] == reqs[..k];
      assert before[k] == reqs[k];
      ConfigureStop(pu, init, cluster, k);
    } else {
      var j := k - |before|;
      assert reqs[..k] == before + mine[..j];
      assert reqs[k] == mine[j];
      assert forall r :: r in before ==> r in reqs[..k];
      assert forall r :: r in mine[..j] ==> r in reqs[..k];
      ConfigureAllSupported(pu, init, cluster);
      AddRolesStop(pu, last, last.nodeProcesses, cluster, j);
      RoleCallsAppend(pu, before, mine[..j], cluster);
    }
  }

  // ---------------------------------------------------------------------------
  // create_mgmt_service

  /** The roles of the management service, in the order they are registered. */
  const MgmtRoleTypes: seq<string> := ["SERVICEMONITOR", "HOSTMONITOR", "EVENTSERVER", "ALERTPUBLISHER"]

  /**
   * `create_mgmt_service`: register the four monitoring roles on the manager
   * host, create the management service from that descriptor, then start the
   * roles of the manager host.
   */
  method CreateMgmtServiceOp(pu: PluginUtils, manager: Instance) returns (log: seq<Event>)
    ensures |log| == 2
    ensures log[0].CreateMgmtService? && |log[0].setup| == |MgmtRoleTypes|
    ensures forall k :: 0 <= k < |MgmtRoleTypes| ==>
      log[0].setup[k] == RoleInfo(pu.roleName(manager, MgmtRoleTypes[k]), MgmtRoleTypes[k], manager.fqdn)
    ensures log[1] == HostsStartRoles([manager.fqdn])
  {
    var hostname := manager.fqdn;
    var setup: seq<RoleInfo> := [];
    for i := 0 to |MgmtRoleTypes|
      invariant |setup| == i
      invariant forall k :: 0 <= k < i ==>
        setup[k] == RoleInfo(pu.roleName(manager, MgmtRoleTypes[k]), MgmtRoleTypes[k], hostname)
    {
      var proc := MgmtRoleTypes[i];
      setup := setup + [RoleInfo(pu.roleName(manager, proc), proc, hostname)];
    }
    log := [CreateMgmtService(setup), HostsStartRoles([hostname])];
  }
}
