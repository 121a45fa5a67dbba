/**
 * The operations of `ClouderaUtils` decorated with `cloudera_cmd`, each as the
 * trace of steps its generator performs. The decorated operation is
 * `CommandRunner.CdhCmd` applied to that trace.
 */
module CommandProducers {
  import opened Wrappers
  import opened CdhTypes
  import opened ServiceRouter
  import opened CommandRunner

  /** What submitting one command and waiting on it does. */
  function OneCommand(submit: Event, result: CommandResult): Execution {
    Execution([submit, Waited(result)],
              if FailureMessage(result).None? then Done
              else Raised(HadoopProvisionError(FailureMessage(result).value)))
  }

  lemma OneCommandRun(submit: Event, result: CommandResult)
    ensures Run([Act(submit), Yield(result)]) == OneCommand(submit, result)
  {
    var t := [Act(submit), Yield(result)];
    assert t[1..] == [Yield(result)];
    assert [Yield(result)][1..] == [];
    assert Run([Yield(result)]).log == [Waited(result)];
  }

  /** `start_instances`: start the cluster and wait on the start command. */
  function StartInstances(cluster: string, started: CommandResult): (t: seq<Step>)
    ensures Run(t) == OneCommand(StartCluster(cluster), started)
  {
    OneCommandRun(StartCluster(cluster), started);
    [Act(StartCluster(cluster)), Yield(started)]
  }

  /** `deploy_configs`: deploy the cluster's client configuration. */
  function DeployConfigs(cluster: string, deployed: CommandResult): (t: seq<Step>)
    ensures Run(t) == OneCommand(DeployClusterClientConfig(cluster), deployed)
  {
    OneCommandRun(DeployClusterClientConfig(cluster), deployed);
    [Act(DeployClusterClientConfig(cluster)), Yield(deployed)]
  }

  /** `restart_mgmt_service`: restart the management service. */
  function RestartMgmtServiceCmd(restarted: CommandResult): (t: seq<Step>)
    ensures Run(t) == OneCommand(RestartMgmtService, restarted)
  {
    OneCommandRun(RestartMgmtService, restarted);
    [Act(RestartMgmtService), Yield(restarted)]
  }

  /** `start_service`: start one service. */
  function StartServiceCmd(service: Service, started: CommandResult): (t: seq<Step>)
    ensures Run(t) == OneCommand(StartService(service), started)
  {
    OneCommandRun(StartService(service), started);
    [Act(StartService(service)), Yield(started)]
  }

  /** Yield each of a list of commands, in order. */
  function Yields(results: seq<CommandResult>): (t: seq<Step>)
    ensures |t| == |results|
    ensures forall i :: 0 <= i < |t| ==> t[i] == Yield(results[i])
  {
    seq(|results|, i requires 0 <= i < |results| => Yield(results[i]))
  }

  /** The waits on a list of commands, in order. */
  function Waits(results: seq<CommandResult>): (log: seq<Event>)
    ensures |log| == |results|
    ensures forall i :: 0 <= i < |log| ==> log[i] == Waited(results[i])
  {
    seq(|results|, i requires 0 <= i < |results| => Waited(results[i]))
  }

  lemma {:induction false} YieldsEvents(results: seq<CommandResult>)
    ensures Events(Yields(results)) == Waits(results)
  {
    if results != [] {
      YieldsEvents(results[1..]);
      assert Yields(results)[1..] == Yields(results[1..]);
      assert Waits(results) == [Waited(results[0])] + Waits(results[1..]);
    }
  }

  /** Submit one call, then wait on each command it returns, in order. */
  function SubmitAndWait(submit: Event, results: seq<CommandResult>): seq<Step> {
    [Act(submit)] + Yields(results)
  }

  /**
   * Submitting and waiting: when every returned command succeeds the run
   * returns normally after all the waits; otherwise it raises for the first
   * failing command k, having waited on nothing after it.
   */
  lemma SubmitAndWaitRun(submit: Event, results: seq<CommandResult>, k: nat)
    requires k <= |results|
    requires forall j :: 0 <= j < k ==> FailureMessage(results[j]).None?
    requires k < |results| ==> FailureMessage(results[k]).Some?
    ensures var x := Run(SubmitAndWait(submit, results));
      if k == |results| then
        x == Execution([submit] + Waits(results), Done)
      else
        x == Execution([submit] + Waits(results[..k + 1]),
                       Raised(HadoopProvisionError(FailureMessage(results[k]).value)))
  {
    var t := SubmitAndWait(submit, results);
    var ys := Yields(results);
    assert t[1..] == ys;
    assert t[0] == Act(submit);
    if k == |results| {
      RunCompletes(ys);
      YieldsEvents(results);
    } else {
      RunStopsAtFirstHalt(ys, k);
      assert ys[..k + 1] == Yields(results[..k + 1]);
      YieldsEvents(results[..k + 1]);
    }
  }

  /**
   * `start_roles`: one `start_roles` call for all the names, then a wait on
   * each command it returns.
   */
  function StartRolesCmd(service: Service, roleNames: seq<string>, started: seq<CommandResult>)
    : seq<Step>
  {
    SubmitAndWait(StartRoles(service, roleNames), started)
  }

  /**
   * `start_roles` waits on every returned command in order; when all succeed it
   * returns normally, and otherwise it raises for the first failing one without
   * waiting on any later one.
   */
  lemma StartRolesRun(service: Service, roleNames: seq<string>, started: seq<CommandResult>, k: nat)
    requires k <= |started|
    requires forall j :: 0 <= j < k ==> FailureMessage(started[j]).None?
    requires k < |started| ==> FailureMessage(started[k]).Some?
    ensures var x := Run(StartRolesCmd(service, roleNames, started));
      if k == |started| then
        x == Execution([StartRoles(service, roleNames)] + Waits(started), Done)
      else
        x == Execution([StartRoles(service, roleNames)] + Waits(started[..k + 1]),
                       Raised(HadoopProvisionError(FailureMessage(started[k]).value)))
  {
    SubmitAndWaitRun(StartRoles(service, roleNames), started, k);
  }

  /** `refresh_nodes`: for each role of the given type, refresh it and wait on what it returns. */
  function RefreshNodes(cluster: string, serviceName: string, roleNames: seq<string>,
                        refreshed: string -> seq<CommandResult>): seq<Step>
  {
    if roleNames == [] then []
    else
      SubmitAndWait(Refresh(Service(cluster, serviceName), roleNames[0]), refreshed(roleNames[0]))
        + RefreshNodes(cluster, serviceName, roleNames[1..], refreshed)
  }

  /** Every refresh command of every listed role succeeds. */
  predicate AllRefreshed(roleNames: seq<string>, refreshed: string -> seq<CommandResult>) {
    forall k, j :: 0 <= k < |roleNames| && 0 <= j < |refreshed(roleNames[k])| ==>
      FailureMessage(refreshed(roleNames[k])[j]).None?
  }

  /** The calls of `refresh_nodes` run to the end: per role in order, its refresh and the waits. */
  function RefreshLog(cluster: string, serviceName: string, roleNames: seq<string>,
                      refreshed: string -> seq<CommandResult>): seq<Event>
  {
    if roleNames == [] then []
    else
      ([Refresh(Service(cluster, serviceName), roleNames[0])] + Waits(refreshed(roleNames[0])))
        + RefreshLog(cluster, serviceName, roleNames[1..], refreshed)
  }

  /**
   * `refresh_nodes` returns normally exactly when every refresh command of
   * every role succeeds.
   */
  lemma {:induction false} RefreshNodesDoneIff(cluster: string, serviceName: string,
                                               roleNames: seq<string>,
                                               refreshed: string -> seq<CommandResult>)
    ensures Run(RefreshNodes(cluster, serviceName, roleNames, refreshed)).outcome == Done
            <==> AllRefreshed(roleNames, refreshed)
  {
    if roleNames != [] {
      var nd := roleNames[0];
      var head := SubmitAndWait(Refresh(Service(cluster, serviceName), nd), refreshed(nd));
      var tail := RefreshNodes(cluster, serviceName, roleNames[1..], refreshed);
      RunAppend(head, tail);
      RunDoneIff(head);
      RefreshNodesDoneIff(cluster, serviceName, roleNames[1..], refreshed);
      assert (forall i :: 0 <= i < |head| ==> !Halts(head[i])) <==>
             (forall j :: 0 <= j < |refreshed(nd)| ==> FailureMessage(refreshed(nd)[j]).None?) by {
        forall j | 0 <= j < |refreshed(nd)| ensures head[j + 1] == Yield(refreshed(nd)[j]) { }
      }
      if AllRefreshed(roleNames, refreshed) {
        forall k, j | 0 <= k < |roleNames[1..]| && 0 <= j < |refreshed(roleNames[1..][k])|
          ensures FailureMessage(refreshed(roleNames[1..][k])[j]).None?
        {
          assert roleNames[1..][k] == roleNames[k + 1];
        }
        assert forall j :: 0 <= j < |refreshed(nd)| ==> FailureMessage(refreshed(roleNames[0])[j]).None?;
      } else {
        var k, j :| 0 <= k < |roleNames| && 0 <= j < |refreshed(roleNames[k])| &&
                    FailureMessage(refreshed(roleNames[k])[j]).Some?;
        if k > 0 {
          assert roleNames[1..][k - 1] == roleNames[k];
        }
      }
    }
  }

  /**
   * When every refresh command succeeds, `refresh_nodes` refreshes every role
   * in order, waits on each of its commands, and returns normally.
   */
  lemma {:induction false} RefreshNodesAllRefreshed(cluster: string, serviceName: string,
                                                    roleNames: seq<string>,
                                                    refreshed: string -> seq<CommandResult>)
    requires AllRefreshed(roleNames, refreshed)
    ensures Run(RefreshNodes(cluster, serviceName, roleNames, refreshed)) ==
            Execution(RefreshLog(cluster, serviceName, roleNames, refreshed), Done)
  {
    if roleNames != [] {
      var nd := roleNames[0];
      var rest := roleNames[1..];
      var head := SubmitAndWait(Refresh(Service(cluster, serviceName), nd), refreshed(nd));
      var tail := RefreshNodes(cluster, serviceName, rest, refreshed);
      assert forall j :: 0 <= j < |refreshed(nd)| ==> FailureMessage(refreshed(roleNames[0])[j]).None?;
      SubmitAndWaitRun(Refresh(Service(cluster, serviceName), nd), refreshed(nd), |refreshed(nd)|);
      RunAppend(head, tail);
      assert AllRefreshed(rest, refreshed) by {
        forall k, j | 0 <= k < |rest| && 0 <= j < |refreshed(rest[k])|
          ensures FailureMessage(refreshed(rest[k])[j]).None?
        {
          assert rest[k] == roleNames[k + 1];
        }
      }
      RefreshNodesAllRefreshed(cluster, serviceName, rest, refreshed);
    }
  }

  /**
   * The first failing refresh command ends `refresh_nodes`: for role k, with
   * command j the first of its commands to fail, every earlier role is
   * refreshed and waited on in full, role k is refreshed and waited on up to
   * command j, its failure is raised, and no later command or role is touched.
   */
  lemma {:induction false} RefreshNodesStop(cluster: string, serviceName: string,
                                            roleNames: seq<string>,
                                            refreshed: string -> seq<CommandResult>, k: nat, j: nat)
    requires k < |roleNames| && j < |refreshed(roleNames[k])|
    requires AllRefreshed(roleNames[..k], refreshed)
    requires forall i :: 0 <= i < j ==> FailureMessage(refreshed(roleNames[k])[i]).None?
    requires FailureMessage(refreshed(roleNames[k])[j]).Some?
    ensures Run(RefreshNodes(cluster, serviceName, roleNames, refreshed)) ==
      Execution(RefreshLog(cluster, serviceName, roleNames[..k], refreshed) +
                  ([Refresh(Service(cluster, serviceName), roleNames[k])] +
                   Waits(refreshed(roleNames[k])[..j + 1])),
                Raised(HadoopProvisionError(FailureMessage(refreshed(roleNames[k])[j]).value)))
  {
    var nd := roleNames[0];
    var rest := roleNames[1..];
    var head := SubmitAndWait(Refresh(Service(cluster, serviceName), nd), refreshed(nd));
    var tail := RefreshNodes(cluster, serviceName, rest, refreshed);
    RunAppend(head, tail);
    if k == 0 {
      SubmitAndWaitRun(Refresh(Service(cluster, serviceName), nd), refreshed(nd), j);
      assert RefreshLog(cluster, serviceName, roleNames[..0], refreshed) == [];
    } else {
      assert roleNames[..k][0] == nd;
      assert forall i :: 0 <= i < |refreshed(nd)| ==> FailureMessage(refreshed(roleNames[..k][0])[i]).None?;
      SubmitAndWaitRun(Refresh(Service(cluster, serviceName), nd), refreshed(nd), |refreshed(nd)|);
      var done := rest[..k - 1];
      assert done == roleNames[..k][1..];
      assert AllRefreshed(done, refreshed) by {
        forall k', i | 0 <= k' < |done| && 0 <= i < |refreshed(done[k'])|
          ensures FailureMessage(refreshed(done[k'])[i]).None?
        {
          assert done[k'] == roleNames[..k][k' + 1];
        }
      }
      assert rest[k - 1] == roleNames[k];
      RefreshNodesStop(cluster, serviceName, rest, refreshed, k - 1, j);
      ThenRun(Run(RefreshNodes(cluster, serviceName, roleNames, refreshed)),
              [Refresh(Service(cluster, serviceName), nd)] + Waits(refreshed(nd)),
              Run(tail),
              RefreshLog(cluster, serviceName, rest[..k - 1], refreshed),
              Execution([Refresh(Service(cluster, serviceName), roleNames[k])] +
                          Waits(refreshed(roleNames[k])[..j + 1]),
                        Raised(HadoopProvisionError(FailureMessage(refreshed(roleNames[k])[j]).value))));
    }
  }

  /** One process's part of `update_configs`. */
  function DeployStep(pu: PluginUtils, instance: Instance, process: string,
                      deployed: (Service, string) -> CommandResult): seq<Step>
  {
    var p := pu.convertRoleShowname(process);
    match ServiceByRole(p, None, Some(instance))
    case Err(e) => [Raise(e)]
    case Ok(service) =>
      var name := pu.roleName(instance, p);
      [Act(DeployClientConfig(service, name)), Yield(deployed(service, name))]
  }

  function DeploySteps(pu: PluginUtils, instance: Instance, processes: seq<string>,
                       deployed: (Service, string) -> CommandResult): seq<Step>
  {
    if processes == [] then []
    else DeployStep(pu, instance, processes[0], deployed)
           + DeploySteps(pu, instance, processes[1..], deployed)
  }

  /**
   * `update_configs`: for each node process of the instance, redeploy the
   * client configuration of its role and wait on it.
   */
  function UpdateConfigs(pu: PluginUtils, instance: Instance,
                         deployed: (Service, string) -> CommandResult): seq<Step>
  {
    DeploySteps(pu, instance, instance.nodeProcesses, deployed)
  }

  /** Redeploying the configuration of a supported process's role succeeds. */
  predicate Deploys(pu: PluginUtils, instance: Instance, process: string,
                    deployed: (Service, string) -> CommandResult)
    requires Supported(pu, process)
  {
    FailureMessage(deployed(OwningService(pu, instance, process),
                            pu.roleName(instance, pu.convertRoleShowname(process)))).None?
  }

  /** The calls made for processes that all deploy: a deploy and a wait per process, in order. */
  function DeployLog(pu: PluginUtils, instance: Instance, processes: seq<string>,
                     deployed: (Service, string) -> CommandResult): seq<Event>
    requires forall k :: 0 <= k < |processes| ==> Supported(pu, processes[k])
  {
    if processes == [] then []
    else
      var service := OwningService(pu, instance, processes[0]);
      var name := pu.roleName(instance, pu.convertRoleShowname(processes[0]));
      [DeployClientConfig(service, name), Waited(deployed(service, name))] +
        DeployLog(pu, instance, processes[1..], deployed)
  }

  /**
   * Process k of the list gives call 2k, the client-config deploy of its role
   * on its owning service, and call 2k + 1, the wait on that command.
   */
  lemma {:induction false} DeployLogAt(pu: PluginUtils, instance: Instance, processes: seq<string>,
                                       deployed: (Service, string) -> CommandResult, k: nat)
    requires forall j :: 0 <= j < |processes| ==> Supported(pu, processes[j])
    requires k < |processes|
    ensures var log := DeployLog(pu, instance, processes, deployed);
      var service := OwningService(pu, instance, processes[k]);
      var name := pu.roleName(instance, pu.convertRoleShowname(processes[k]));
      |log| == 2 * |processes| &&
      log[2 * k] == DeployClientConfig(service, name) &&
      log[2 * k + 1] == Waited(deployed(service, name))
  {
    var rest := processes[1..];
    assert forall j :: 0 <= j < |rest| ==> rest[j] == processes[j + 1];
    if k > 0 {
      DeployLogAt(pu, instance, rest, deployed, k - 1);
    } else if rest != [] {
      DeployLogAt(pu, instance, rest, deployed, 0);
    } else {
      assert DeployLog(pu, instance, rest, deployed) == [];
    }
  }

  /** What one process's part of `update_configs` does on its own. */
  lemma DeployStepRun(pu: PluginUtils, instance: Instance, process: string,
                      deployed: (Service, string) -> CommandResult)
    ensures var p := pu.convertRoleShowname(process);
      var x := Run(DeployStep(pu, instance, process, deployed));
      if !Supported(pu, process) then
        x == Execution([], Raised(ValueError(UnsupportedMessage(p))))
      else
        var service := OwningService(pu, instance, process);
        var name := pu.roleName(instance, p);
        x == OneCommand(DeployClientConfig(service, name), deployed(service, name))
  {
    if Supported(pu, process) {
      var p := pu.convertRoleShowname(process);
      var service := OwningService(pu, instance, process);
      var name := pu.roleName(instance, p);
      assert DeployStep(pu, instance, process, deployed) ==
             [Act(DeployClientConfig(service, name)), Yield(deployed(service, name))];
      OneCommandRun(DeployClientConfig(service, name), deployed(service, name));
    }
  }

  /**
   * When every process deploys, `update_configs` redeploys each process's role
   * in order, waits on each, and returns normally.
   */
  lemma {:induction false} DeployStepsAllDeployed(pu: PluginUtils, instance: Instance,
                                                  processes: seq<string>,
                                                  deployed: (Service, string) -> CommandResult)
    requires forall k :: 0 <= k < |processes| ==>
      Supported(pu, processes[k]) && Deploys(pu, instance, processes[k], deployed)
    ensures Run(DeploySteps(pu, instance, processes, deployed)) ==
            Execution(DeployLog(pu, instance, processes, deployed), Done)
  {
    if processes != [] {
      assert Deploys(pu, instance, processes[0], deployed);
      DeployStepRun(pu, instance, processes[0], deployed);
      RunAppend(DeployStep(pu, instance, processes[0], deployed),
                DeploySteps(pu, instance, processes[1..], deployed));
      assert forall k :: 0 <= k < |processes[1..]| ==> processes[1..][k] == processes[k + 1];
      DeployStepsAllDeployed(pu, instance, processes[1..], deployed);
    }
  }

  /**
   * The first process that does not deploy ends `update_configs` with what
   * that process's own part does; earlier processes are deployed in full and
   * later ones are not touched.
   */
  lemma {:induction false} DeployStepsStopAt(pu: PluginUtils, instance: Instance,
                                             processes: seq<string>,
                                             deployed: (Service, string) -> CommandResult, k: nat)
    requires k < |processes|
    requires forall j :: 0 <= j < k ==>
      Supported(pu, processes[j]) && Deploys(pu, instance, processes[j], deployed)
    requires !(Supported(pu, processes[k]) && Deploys(pu, instance, processes[k], deployed))
    ensures var last := Run(DeployStep(pu, instance, processes[k], deployed));
      Run(DeploySteps(pu, instance, processes, deployed)) ==
        Execution(DeployLog(pu, instance, processes[..k], deployed) + last.log, last.outcome)
  {
    if k == 0 {
      DeployStepsFirstHalts(pu, instance, processes, deployed);
      assert processes[..0] == [];
    } else {
      var rest := processes[1..];
      assert forall j :: 0 <= j < |rest| ==> rest[j] == processes[j + 1];
      DeployStepsStopAt(pu, instance, rest, deployed, k - 1);
      DeployStepsStopLater(pu, instance, processes, deployed, k);
    }
  }

  /** The step of `DeployStepsStopAt` from the processes after the first to all of them. */
  lemma DeployStepsStopLater(pu: PluginUtils, instance: Instance, processes: seq<string>,
                             deployed: (Service, string) -> CommandResult, k: nat)
    requires 0 < k < |processes|
    requires forall j :: 0 <= j < k ==> Supported(pu, processes[j])
    requires Deploys(pu, instance, processes[0], deployed)
    requires var last := Run(DeployStep(pu, instance, processes[k], deployed));
      Run(DeploySteps(pu, instance, processes[1..], deployed)) ==
        Execution(DeployLog(pu, instance, processes[1..][..k - 1], deployed) + last.log, last.outcome)
    ensures var last := Run(DeployStep(pu, instance, processes[k], deployed));
      Run(DeploySteps(pu, instance, processes, deployed)) ==
        Execution(DeployLog(pu, instance, processes[..k], deployed) + last.log, last.outcome)
  {
    DeployStepsCons(pu, instance, processes, deployed);
    DeployLogPrefix(pu, instance, processes, deployed, k);
    ThenRun(Run(DeploySteps(pu, instance, processes, deployed)),
            DeployLog(pu, instance, [processes[0]], deployed),
            Run(DeploySteps(pu, instance, processes[1..], deployed)),
            DeployLog(pu, instance, processes[1..][..k - 1], deployed),
            Run(DeployStep(pu, instance, processes[k], deployed)));
  }

  /** Calls `a` followed by a run that makes calls `b` followed by a run `l`. */
  lemma ThenRun(x: Execution, a: seq<Event>, r: Execution, b: seq<Event>, l: Execution)
    requires x == Execution(a + r.log, r.outcome)
    requires r == Execution(b + l.log, l.outcome)
    ensures x == Execution((a + b) + l.log, l.outcome)
  {
    assert a + (b + l.log) == (a + b) + l.log;
  }

  /** When the first process deploys, `update_configs` goes on with the others. */
  lemma DeployStepsCons(pu: PluginUtils, instance: Instance, processes: seq<string>,
                        deployed: (Service, string) -> CommandResult)
    requires processes != []
    requires Supported(pu, processes[0]) && Deploys(pu, instance, processes[0], deployed)
    ensures var rest := Run(DeploySteps(pu, instance, processes[1..], deployed));
      Run(DeploySteps(pu, instance, processes, deployed)) ==
        Execution(DeployLog(pu, instance, [processes[0]], deployed) + rest.log, rest.outcome)
  {
    var head := DeployStep(pu, instance, processes[0], deployed);
    var tail := DeploySteps(pu, instance, processes[1..], deployed);
    DeployStepDone(pu, instance, processes[0], deployed);
    RunAppend(head, tail);
    assert DeploySteps(pu, instance, processes, deployed) == head + tail;
  }

  /** When the first process does not deploy, `update_configs` ends with it. */
  lemma DeployStepsFirstHalts(pu: PluginUtils, instance: Instance, processes: seq<string>,
                              deployed: (Service, string) -> CommandResult)
    requires processes != []
    requires !(Supported(pu, processes[0]) && Deploys(pu, instance, processes[0], deployed))
    ensures Run(DeploySteps(pu, instance, processes, deployed)) ==
            Run(DeployStep(pu, instance, processes[0], deployed))
  {
    var head := DeployStep(pu, instance, processes[0], deployed);
    var tail := DeploySteps(pu, instance, processes[1..], deployed);
    DeployStepHalts(pu, instance, processes[0], deployed);
    RunAppend(head, tail);
    assert DeploySteps(pu, instance, processes, deployed) == head + tail;
  }

  lemma DeployLogPrefix(pu: PluginUtils, instance: Instance, processes: seq<string>,
                        deployed: (Service, string) -> CommandResult, k: nat)
    requires 0 < k <= |processes|
    requires forall j :: 0 <= j < k ==> Supported(pu, processes[j])
    ensures DeployLog(pu, instance, processes[..k], deployed) ==
            DeployLog(pu, instance, [processes[0]], deployed) +
            DeployLog(pu, instance, processes[1..][..k - 1], deployed)
  {
    assert processes[..k][1..] == processes[1..][..k - 1];
    assert processes[..k][0] == processes[0];
    assert [processes[0]][1..] == [];
  }

  /** A process that is supported and deploys: its part returns normally after its two calls. */
  lemma DeployStepDone(pu: PluginUtils, instance: Instance, process: string,
                       deployed: (Service, string) -> CommandResult)
    requires Supported(pu, process) && Deploys(pu, instance, process, deployed)
    ensures Run(DeployStep(pu, instance, process, deployed)) ==
            Execution(DeployLog(pu, instance, [process], deployed), Done)
  {
    DeployStepRun(pu, instance, process, deployed);
  }

  /** A process that is unsupported or fails to deploy: its part raises. */
  lemma DeployStepHalts(pu: PluginUtils, instance: Instance, process: string,
                        deployed: (Service, string) -> CommandResult)
    requires !(Supported(pu, process) && Deploys(pu, instance, process, deployed))
    ensures Run(DeployStep(pu, instance, process, deployed)).outcome.Raised?
  {
    DeployStepRun(pu, instance, process, deployed);
  }

  /**
   * The first process that does not deploy ends `update_configs`: an
   * unsupported process raises `ValueError` before any call for it, a failed
   * redeploy raises `HadoopProvisionError` after its wait, and no later process
   * is touched.
   */
  lemma DeployStepsStop(pu: PluginUtils, instance: Instance, processes: seq<string>,
                        deployed: (Service, string) -> CommandResult, k: nat)
    requires k < |processes|
    requires forall j :: 0 <= j < k ==>
      Supported(pu, processes[j]) && Deploys(pu, instance, processes[j], deployed)
    requires !(Supported(pu, processes[k]) && Deploys(pu, instance, processes[k], deployed))
    ensures var p := pu.convertRoleShowname(processes[k]);
      var x := Run(DeploySteps(pu, instance, processes, deployed));
      if !Supported(pu, processes[k]) then
        x == Execution(DeployLog(pu, instance, processes[..k], deployed),
                       Raised(ValueError(UnsupportedMessage(p))))
      else
        var service := OwningService(pu, instance, processes[k]);
        var name := pu.roleName(instance, p);
        x == Execution(DeployLog(pu, instance, processes[..k], deployed) +
                         [DeployClientConfig(service, name), Waited(deployed(service, name))],
                       Raised(HadoopProvisionError(FailureMessage(deployed(service, name)).value)))
  {
    DeployStepsStopAt(pu, instance, processes, deployed, k);
    DeployStepRun(pu, instance, processes[k], deployed);
    if !Supported(pu, processes[k]) {
      assert DeployLog(pu, instance, processes[..k], deployed) + [] ==
             DeployLog(pu, instance, processes[..k], deployed);
    }
  }
}
