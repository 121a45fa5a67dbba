/**
 * The entities the CDH plugin helpers (sahara/plugins/cdh/cloudera_utils.py)
 * work with, and the remote calls they make against Cloudera Manager.
 *
 * The Cloudera Manager client itself is not modelled; every remote call that
 * creates, changes, deletes, starts or waits on something is recorded as an
 * `Event`, and whatever the manager answers (command results, host
 * inventories) is an input of the operation that receives it.
 */
module CdhTypes {
  import opened Wrappers

  /** The exceptions the helpers raise. */
  datatype Error =
    | HadoopProvisionError(message: string)
    | ValueError(message: string)
    | IndexError   // `instances[0]` on an empty list

  /** How a call ends: normally, or by raising. */
  datatype Outcome = Done | Raised(error: Error)

  /**
   * What `cmd.wait()` gives back for one Cloudera Manager command: its success
   * flag, its sub-commands (`children`, absent for a command that did not fan
   * out) and the manager's own result message.
   */
  datatype CommandResult = CommandResult(
    success: bool,
    children: Option<seq<CommandResult>>,
    resultMessage: string)

  /** A service reached as `get_cluster(cluster).get_service(name)`. */
  datatype Service = Service(cluster: string, name: string)

  /**
   * A provisioned node: its fully-qualified name, the name of the cluster its
   * node group belongs to, the node group's name and its node processes.
   */
  datatype Instance = Instance(
    fqdn: string,
    cluster: string,
    nodeGroup: string,
    nodeProcesses: seq<string>)

  /** One entry of `get_all_hosts(view='full')`. */
  datatype Host = Host(hostId: string, hostname: string)

  /** One `add_role_info(name, type, host)` entry of a service setup descriptor. */
  datatype RoleInfo = RoleInfo(roleName: string, roleType: string, hostname: string)

  /**
   * The plugin-specific helpers `convert_role_showname` and `get_role_name`,
   * which are defined by the concrete plugin version and are therefore
   * uninterpreted here.
   */
  datatype PluginUtils = PluginUtils(
    convertRoleShowname: string -> string,
    roleName: (Instance, string) -> string)

  /** The remote calls the helpers make, in the order they make them. */
  datatype Event =
    | StartCluster(clusterName: string)
    | DeployClusterClientConfig(clusterName: string)
    | RestartMgmtService
    | StartService(service: Service)
    | StartRoles(service: Service, roleNames: seq<string>)
    | Refresh(service: Service, roleName: string)
    | DeployClientConfig(service: Service, roleName: string)
    | Waited(result: CommandResult)
    | Decommission(service: Service, roleNames: seq<string>)
    | DeleteRole(service: Service, roleName: string)
    | RemoveHost(hostId: string)
    | DeleteHost(hostId: string)
    | CreateRole(service: Service, roleName: string, roleType: string, hostname: string)
    | UpdateRoleConfig(service: Service, roleName: string, process: string,
                       configCluster: Option<string>, nodeGroup: string)
    | CreateMgmtService(setup: seq<RoleInfo>)
    | HostsStartRoles(hostnames: seq<string>)
    | ListHosts
    | Sleep(seconds: nat)

  /**
   * One step of an operation: a remote call, a command handed to the
   * `cloudera_cmd` wrapper to wait on (with the result the wait returns), or an
   * exception raised by the operation itself.
   */
  datatype Step = Act(event: Event) | Yield(result: CommandResult) | Raise(error: Error)

  /** The calls an operation made and how it ended. */
  datatype Execution = Execution(log: seq<Event>, outcome: Outcome)
}
