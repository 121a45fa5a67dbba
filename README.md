# Sahara CDH cluster utilities and periodic tasks, in Dafny

This project is a verified model of two parts of Sahara, the OpenStack data-processing service:

- **`ClouderaUtils`**, the CDH plugin's layer over the Cloudera Manager API. It covers:
  - the `cloudera_cmd` wrapper, which waits on every command an operation yields and raises a `HadoopProvisionError` for the first command that failed and either has no children (its own message) or has a failed child (the first such child's message);
  - the routing of node processes to their owning services;
  - role creation for new instances;
  - decommissioning roles and deleting hosts;
  - setup of the management service;
  - the wait for the manager's agents to register.
- **The periodic tasks** of `sahara/service/periodic.py`:
  - the job status refresh;
  - the reaper of idle transient clusters;
  - the reaper of proxy users left behind by finished jobs;
  - the `setup` choice of whether and when the scheduler starts.

Nothing here talks to a Cloudera Manager, a database or a clock. An operation is modelled by the remote calls it makes, in order:
- `CdhTypes.Event` lists the Cloudera Manager calls;
- `Periodic.Action` lists the conductor, trust, proxy-user and context calls.

Everything a remote side returns is an input of the model:
- command results;
- the host inventory seen at each poll;
- the open-job counts;
- the job execution records;
- the clock readings.

A `cloudera_cmd`-decorated generator is a trace, `seq<Step>`. Each step is a remote call, a yielded command, or a raise. `CommandRunner.Run` is the meaning of a trace: it takes the steps in order and stops at the first raise, or at the first command that failed and either has no children or has a failed child. This stopping rule is how a generator behaves: code after a `yield` only runs once the wrapper has accepted the command.

`CommandRunner.CdhCmd` is the wrapper's own double loop, proved equal to `Run`.

Modules:
- `Wrappers`, `CdhTypes`: shared datatypes.
- `ServiceRouter`: `get_service_by_role`.
- `CommandRunner`: `cloudera_cmd`.
- `CommandProducers`: the decorated operations.
- `NodeLifecycle`: deletion, decommissioning, role creation, the management service.
- `AgentWaiter`: `await_agents`.
- `Periodic`: `periodic.py`.

Three places where the code does less than a caller might expect, and the model follows the code:
- `decommission_nodes` waits on the decommission command but never checks its result. Role deletion proceeds whatever the result.
- In `delete_instances`, a failure on one host is not isolated from the next.
- `update_job_statuses` clears the context only when the delegate returns. There is no `try/finally`, so an exception leaves the admin context set.

## Model

| member | source | states |
|---|---|---|
| CommandRunner.FirstFailedChild | sahara/plugins/cdh/cloudera_utils.py:45-47 | the index found is that of an unsuccessful child and every earlier child succeeded; None only when every child succeeded |
| CommandRunner.FailureMessage | sahara/plugins/cdh/cloudera_utils.py:42-49 | a successful command passes; a failed command without children fails with its own message; a failed command with children fails exactly when some child failed, with the message of the first failed child, and passes when all children succeeded |
| CommandRunner.RunAppend | sahara/plugins/cdh/cloudera_utils.py:41-49 | running two traces in sequence is running the first and, only if it returns normally, the second, with the logs concatenated |
| CommandRunner.RunCompletes | sahara/plugins/cdh/cloudera_utils.py:41-49 | with no failing step, every call of the trace is made and the wrapper returns normally |
| CommandRunner.RunStopsAtFirstHalt | sahara/plugins/cdh/cloudera_utils.py:41-49 | the wrapper makes exactly the calls up to and including the first failing step, nothing after it, and raises that step's error |
| CommandRunner.RunDoneIff | sahara/plugins/cdh/cloudera_utils.py:41-49 | the wrapper returns normally if and only if no step fails |
| CommandRunner.CheckResult | sahara/plugins/cdh/cloudera_utils.py:43-49 | the wrapper's inspection of a waited-on command, including the loop over its children, yields exactly `FailureMessage` |
| CommandRunner.CdhCmd | sahara/plugins/cdh/cloudera_utils.py:38-50 | the wrapper's loop over yielded commands and their children gives exactly `Run` of the trace |
| ServiceRouter.ServiceByRole | sahara/plugins/cdh/cloudera_utils.py:166-194 | both arguments missing is a ValueError before the process is examined; otherwise the result is a service exactly when the process is in the fifteen-entry process-to-service table, in the cluster given directly or else the instance's cluster; an unknown process is a ValueError naming it |
| CommandProducers.StartInstances | sahara/plugins/cdh/cloudera_utils.py:91-94 | starts the cluster, waits on the command, and raises exactly when that command fails |
| CommandProducers.DeployConfigs | sahara/plugins/cdh/cloudera_utils.py:121-124 | deploys the cluster client configuration, waits on it, and raises exactly when it fails |
| CommandProducers.RestartMgmtServiceCmd | sahara/plugins/cdh/cloudera_utils.py:134-139 | restarts the management service, waits on it, and raises exactly when it fails |
| CommandProducers.StartServiceCmd | sahara/plugins/cdh/cloudera_utils.py:141-143 | starts the service, waits on it, and raises exactly when it fails |
| CommandProducers.StartRolesRun | sahara/plugins/cdh/cloudera_utils.py:145-148 | one start-roles call for all names, then a wait on each returned command in order; returns normally when all succeed, otherwise raises for the first failure and waits on nothing after it |
| CommandProducers.RefreshNodesDoneIff | sahara/plugins/cdh/cloudera_utils.py:112-119 | refresh_nodes returns normally if and only if every refresh command of every role of the type succeeds |
| CommandProducers.RefreshNodesAllRefreshed | sahara/plugins/cdh/cloudera_utils.py:112-119 | when every refresh command succeeds, the calls are one refresh per role in role order, each followed by a wait on each of its returned commands in order, and the operation returns normally |
| CommandProducers.RefreshNodesStop | sahara/plugins/cdh/cloudera_utils.py:112-119 | when command j of role k is the first to fail, the calls are the full refreshes of the roles before k, then the refresh of role k and the waits on its commands up to j, and the operation raises with command j's failure message; no later role is refreshed |
| CommandProducers.SubmitAndWaitRun | sahara/plugins/cdh/cloudera_utils.py:145-148 | a submission followed by waits on its returned commands stops at the first failing command, raising its message, and otherwise returns normally after waiting on all of them |
| CommandProducers.DeployLogAt | sahara/plugins/cdh/cloudera_utils.py:127-132 | for supported processes there are two calls per process: call 2k is the client-config deploy of process k's role on its owning service and call 2k+1 is the wait on it |
| CommandProducers.DeployStepRun | sahara/plugins/cdh/cloudera_utils.py:128-132 | one process: an unsupported converted name raises ValueError before any call; a supported one deploys the role's client configuration and raises exactly when that fails |
| CommandProducers.DeployStepsAllDeployed | sahara/plugins/cdh/cloudera_utils.py:126-132 | when every process is supported and deploys, update_configs makes exactly the deploy-and-wait calls of every process in order and returns normally |
| CommandProducers.DeployStepsStopAt | sahara/plugins/cdh/cloudera_utils.py:126-132 | update_configs ends with the first process that does not deploy: its calls are those of the earlier processes in full followed by that process's own part, with that part's outcome |
| CommandProducers.DeployStepsStop | sahara/plugins/cdh/cloudera_utils.py:126-132 | the first process that is unsupported or fails to deploy ends update_configs with ValueError or HadoopProvisionError respectively; earlier processes are deployed in full and later ones untouched |
| NodeLifecycle.HostCalls | sahara/plugins/cdh/cloudera_utils.py:101-104 | calls come in pairs: a removal from the cluster at each even position, immediately followed by deletion of the same host |
| NodeLifecycle.HostCallsOnlyTargets | sahara/plugins/cdh/cloudera_utils.py:101-104 | every call is a removal or deletion of an inventory host whose hostname is a target |
| NodeLifecycle.HostCallsAppend | sahara/plugins/cdh/cloudera_utils.py:101-104 | the calls for an inventory are the calls for its parts in inventory order |
| NodeLifecycle.HostCallsCover | sahara/plugins/cdh/cloudera_utils.py:101-104 | every inventory host whose hostname is a target is removed from the cluster and deleted |
| NodeLifecycle.DeleteInstances | sahara/plugins/cdh/cloudera_utils.py:96-104 | the loop over the full inventory makes exactly `HostCalls` for the instances' hostnames |
| NodeLifecycle.DeleteInstancesCover | sahara/plugins/cdh/cloudera_utils.py:96-104 | every inventory host whose hostname is the fully-qualified name of one of the instances is removed from the cluster and deleted |
| NodeLifecycle.DeleteInstancesOnlyTargets | sahara/plugins/cdh/cloudera_utils.py:96-104 | every call made is a removal or deletion of an inventory host whose hostname is the fully-qualified name of one of the instances |
| NodeLifecycle.DecommissionNodes | sahara/plugins/cdh/cloudera_utils.py:106-110 | an unroutable process raises the routing error before any call; otherwise one decommission for the whole batch, a wait on it, then one deletion per role name in the given order, whatever the wait returned |
| NodeLifecycle.AddRolesAppend | sahara/plugins/cdh/cloudera_utils.py:224-226 | the steps for a list of processes are the steps for its parts in order |
| NodeLifecycle.ConfigureStepsAppend | sahara/plugins/cdh/cloudera_utils.py:220-222 | the steps for a list of instances are the steps for its parts in order |
| NodeLifecycle.AddRoleRun | sahara/plugins/cdh/cloudera_utils.py:228-237 | the manager process makes no call; an unsupported converted process raises ValueError before any call; otherwise the role is created on the owning service, with its name, type and the instance's host, and its configuration is updated |
| NodeLifecycle.AddRoleOp | sahara/plugins/cdh/cloudera_utils.py:228-237 | `_add_role` does exactly what its trace runs to: nothing for the manager, the routing ValueError, or the role creation and configuration update |
| NodeLifecycle.ConfigureInstance | sahara/plugins/cdh/cloudera_utils.py:224-226 | the loop runs `_add_role` for each node process in order and stops at the first error |
| NodeLifecycle.ConfigureInstances | sahara/plugins/cdh/cloudera_utils.py:220-222 | the loop configures each instance in order and stops at the first error |
| NodeLifecycle.ProcessRequestsExact | sahara/plugins/cdh/cloudera_utils.py:225-230 | the role requests of an instance are exactly its non-manager processes |
| NodeLifecycle.RoleRequestsExact | sahara/plugins/cdh/cloudera_utils.py:220-230 | the role requests of configure_instances are exactly the non-manager processes of the given instances |
| NodeLifecycle.RoleCallsAt | sahara/plugins/cdh/cloudera_utils.py:234-237 | request k gives call 2k, the role creation, and call 2k+1, its configuration update |
| NodeLifecycle.RoleCallsAppend | sahara/plugins/cdh/cloudera_utils.py:234-237 | the calls for a list of requests are the calls for its parts in order |
| NodeLifecycle.AddRolesSupported | sahara/plugins/cdh/cloudera_utils.py:224-237 | when an instance's non-manager processes are all supported, its configuration returns normally after creating one role per request in order |
| NodeLifecycle.ConfigureAllSupported | sahara/plugins/cdh/cloudera_utils.py:220-237 | when every non-manager process is supported, configure_instances returns normally after creating exactly one role per request, and updating its configuration, in instance-then-process order |
| NodeLifecycle.AddRolesDoneIff | sahara/plugins/cdh/cloudera_utils.py:224-237 | one instance's configuration returns normally if and only if each of its non-manager processes is supported; otherwise it raises ValueError |
| NodeLifecycle.ConfigureDoneIff | sahara/plugins/cdh/cloudera_utils.py:220-237 | configure_instances returns normally if and only if every non-manager process is supported; otherwise it raises ValueError |
| NodeLifecycle.AddRolesStop | sahara/plugins/cdh/cloudera_utils.py:224-237 | at one instance's first unsupported non-manager process, the roles of the processes before it have been created and configured, in order, and the ValueError naming that process's converted name is raised |
| NodeLifecycle.ConfigureStop | sahara/plugins/cdh/cloudera_utils.py:220-237 | at the first unsupported request k, in instance-then-process order, exactly the roles of requests 0..k-1 have been created and configured, in order, and the ValueError naming request k's converted process name is raised |
| NodeLifecycle.CreateMgmtServiceOp | sahara/plugins/cdh/cloudera_utils.py:150-164 | the management service is created from a descriptor with the four monitoring roles, in order, each with its role name and the manager's hostname; then the roles of the manager host are started |
| AgentWaiter.ElapsedGrows | sahara/plugins/cdh/cloudera_utils.py:212-213 | each failed poll advances the clock by at least the 5-second sleep |
| AgentWaiter.AwaitAgents | sahara/plugins/cdh/cloudera_utils.py:196-218 | an empty instance list fails on the first instance; otherwise it returns normally if and only if some poll inside the 300-second budget sees every agent, and then the last poll is the first such one; failure raises the agents-failed error, and only once the budget is spent: every poll made started inside the 300 seconds and the next would not; polls and 5-second sleeps alternate |
| Periodic.UpdateJobStatuses | sahara/service/periodic.py:73-79 | the delegate runs under the admin context; the context is cleared if and only if the delegate returns, and an exception leaves the admin context set |
| Periodic.BracketedUnderAdmin | sahara/service/periodic.py:84-85 | a task body between setting the admin context and clearing it runs every call under the admin context and leaves no context behind |
| Periodic.ReapClusterGuards | sahara/service/periodic.py:86-126 | per cluster: a non-transient one gets no call; it is terminated if and only if it is idle and identity API v3 is in use; its status is set if and only if it is idle, v3 is off and it is not already AwaitingTermination, and only to AwaitingTermination |
| Periodic.ReapAllNoContext | sahara/service/periodic.py:86-126 | the cluster loop itself never sets or clears the context |
| Periodic.ReapAllOnlyIdle | sahara/service/periodic.py:86-126 | every termination and every status update is for an idle transient cluster of the list; terminations only under v3, status updates only without it, only to AwaitingTermination and only when not already in it |
| Periodic.ReapAllEveryIdle | sahara/service/periodic.py:86-126 | every idle cluster is terminated under v3, and otherwise marked AwaitingTermination unless it already is |
| Periodic.TerminateUnneededClusters | sahara/service/periodic.py:81-127 | the calls made are: setting the admin context, the per-cluster calls in list order, and the context reset; a terminate failure is caught and does not change what happens to later clusters |
| Periodic.ReaperUnderAdmin | sahara/service/periodic.py:84-127 | every call of the cluster reaper runs under the admin context, which is cleared at the end |
| Periodic.JobUserNameRoundTrip | sahara/service/periodic.py:134-135 | a job proxy user's name is the `job_` prefix followed by the job execution id, and the two determine each other |
| Periodic.ZombieAllExact | sahara/service/periodic.py:133-141 | exactly the job users whose job execution is missing or has a terminated status are deleted; exactly the job executions named by job users are looked up; the loop never touches the context |
| Periodic.CheckForZombieProxyUsers | sahara/service/periodic.py:129-142 | the calls made are: setting the admin context, the per-user calls in list order, and the context reset |
| Periodic.ZombieReaperUnderAdmin | sahara/service/periodic.py:131-142 | every call of the zombie reaper runs under the admin context, which is cleared at the end |
| Periodic.PeriodicTasks | sahara/service/periodic.py:70-130 | three tasks: job statuses every 45 s, run immediately; cluster reaping every 90 s; zombie reaping every 300 s with domain proxy users, otherwise with spacing -1 |
| Periodic.Setup | sahara/service/periodic.py:147-161 | disabled means nothing is started; a zero fuzzy delay means no initial delay; a positive one means a delay between 0 and the fuzzy delay; a negative one fails in randint; a started scheduler uses periodic_interval_max and the three tasks |

## Left out

- Connecting to the manager (`have_cm_api_libs`, `validate_cm_api_libs`, `get_api_client`, `get_cloudera_cluster`) is left out. These are read-only lookups with no logic to prove. Their failures (a missing cm_api library, a connection error) are not modelled.
- The read-only lookups inside operations are not recorded as calls: `get_service`, `get_roles_by_type`, `cluster_get_all`, and `get_all_hosts` inside `delete_instances`. Their answers are inputs instead: the role names, the host inventory and the cluster list. (In `await_agents` each `get_all_hosts` poll is recorded, as `ListHosts`.)
- Exceptions from remote calls other than a failed command result are not modelled, except where the source catches them. An example is a `create_role` call that raises. The one caught case is in the cluster reaper.
- `_get_configs` is defined in a derived class. The model only records its arguments, in `UpdateRoleConfig`.
- `edp.JOB_STATUSES_TERMINATED` is a parameter, because sahara/utils/edp.py is not part of this model.
- The `periodic_task` decorator's own scheduling and the `ThreadGroup` timer are left out. This includes whether a spacing of -1 disables a task. The model records each task's spacing and run-immediately flag, and the arguments `setup` passes to the timer.
- Logging and message translation (`LOG`, `_`, `_LI`) are left out. Messages are the untranslated English strings.
- Time is in whole seconds. `timeutils` parsing and normalisation are left out. `await_agents` sees the clock through a per-poll time input, and the cluster reaper through one reading per cluster.
- AgentWaiter.AwaitAgents: the clock is modelled as advancing by at least the 5-second sleep per failed poll. The source reads the wall clock (`timeutils.utcnow()`), about which it guarantees nothing; with a clock that stood still or went back, the source could poll for longer than the 300-second timeout.
- Setup: the value `random.randint` returns is any value of the allowed range, not a distribution.
