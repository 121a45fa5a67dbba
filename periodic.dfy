/**
 * The periodic reconciliation tasks of sahara/service/periodic.py: job status
 * refresh, the transient-cluster reaper, the zombie proxy-user reaper, and the
 * `setup` choice of whether and when to start the scheduler.
 *
 * Each task returns the calls it makes on its collaborators (the conductor
 * database API, `ops.terminate_cluster`, `trusts`, the proxy-user helpers and
 * `job_manager`), in order, including the setting and clearing of the
 * request context. What the collaborators answer is an input.
 */
module Periodic {
  import opened Wrappers

  /** The configuration options read by the periodic jobs. */
  datatype Config = Config(
    periodicEnable: bool,
    periodicFuzzyDelay: int,
    periodicIntervalMax: int,
    minTransientClusterActiveTime: int,
    useIdentityApiV3: bool,
    useDomainForProxyUsers: bool)

  /** An active cluster as the conductor returns it; `updatedAt` in seconds. */
  datatype Cluster = Cluster(id: string, name: string, isTransient: bool, status: string,
                             updatedAt: int)

  datatype ProxyUser = ProxyUser(id: string, name: string)

  /** A job execution record; `status` is `info['status']`. */
  datatype JobExecution = JobExecution(status: string)

  /** The calls made by the periodic jobs, in order. */
  datatype Action =
    | SetAdminContext          // context.set_ctx(context.get_admin_context())
    | ClearContext             // context.set_ctx(None)
    | UpdateAllJobStatuses
    | CountOpenJobExecutions(clusterId: string)
    | UseAdminAuthToken(clusterId: string)
    | TerminateCluster(clusterId: string)
    | UpdateClusterStatus(clusterId: string, status: string)
    | GetJobExecution(jobExecutionId: string)
    | DeleteProxyUser(userId: string)

  predicate IsContextAction(a: Action) {
    a.SetAdminContext? || a.ClearContext?
  }

  /** Whether the admin context is the current one after these calls (none is set at first). */
  function AdminAfter(log: seq<Action>): bool {
    if log == [] then false
    else
      var last := log[|log| - 1];
      if last.SetAdminContext? then true
      else if last.ClearContext? then false
      else AdminAfter(log[..|log| - 1])
  }

  /**
   * A task body between `set_ctx(admin)` and `set_ctx(None)` runs every call
   * under the admin context and leaves no context behind.
   */
  lemma {:induction false} BracketedUnderAdmin(body: seq<Action>)
    requires forall k :: 0 <= k < |body| ==> !IsContextAction(body[k])
    ensures var log := [SetAdminContext] + body + [ClearContext];
      !AdminAfter(log) &&
      forall k :: 0 < k < |log| ==> AdminAfter(log[..k])
  {
    var log := [SetAdminContext] + body + [ClearContext];
    forall k | 0 < k < |log| ensures AdminAfter(log[..k]) {
      assert log[..k] == [SetAdminContext] + body[..k - 1];
      AdminPrefix(body, k - 1);
    }
  }

  lemma {:induction false} AdminPrefix(body: seq<Action>, n: nat)
    requires n <= |body|
    requires forall k :: 0 <= k < |body| ==> !IsContextAction(body[k])
    ensures AdminAfter([SetAdminContext] + body[..n])
  {
    if n > 0 {
      AdminPrefix(body, n - 1);
      var log := [SetAdminContext] + body[..n];
      assert log[..|log| - 1] == [SetAdminContext] + body[..n - 1];
    }
  }

  // ---------------------------------------------------------------------------
  // update_job_statuses

  /** How a task ended, and the calls it made. */
  datatype TaskRun = TaskRun(log: seq<Action>, completed: bool)

  /**
   * `update_job_statuses`: the delegate runs under the admin context, which is
   * cleared only when the delegate returns; an exception from it propagates
   * and leaves the admin context in place.
   */
  function UpdateJobStatuses(delegateRaises: bool): (r: TaskRun)
    ensures |r.log| >= 2 && r.log[0] == SetAdminContext && r.log[1] == UpdateAllJobStatuses
    ensures AdminAfter(r.log[..1])
    ensures r.completed <==> !delegateRaises
    ensures AdminAfter(r.log) <==> !r.completed
  {
    if delegateRaises then TaskRun([SetAdminContext, UpdateAllJobStatuses], false)
    else TaskRun([SetAdminContext, UpdateAllJobStatuses, ClearContext], true)
  }

  // ---------------------------------------------------------------------------
  // terminate_unneeded_clusters

  const AwaitingTermination := "AwaitingTermination"

  /**
   * A cluster the reaper acts on: transient, with no job execution lacking an
   * end time, and last updated at least the minimum lifetime ago.
   */
  predicate Idle(cfg: Config, c: Cluster, openJobs: nat, now: int) {
    c.isTransient && openJobs == 0 && now - c.updatedAt >= cfg.minTransientClusterActiveTime
  }

  /** The calls the reaper makes for one cluster. */
  function ReapCluster(cfg: Config, c: Cluster, openJobs: nat, now: int): seq<Action> {
    if !c.isTransient then []
    else if openJobs > 0 then [CountOpenJobExecutions(c.id)]
    else if now - c.updatedAt < cfg.minTransientClusterActiveTime then [CountOpenJobExecutions(c.id)]
    else if cfg.useIdentityApiV3 then
      [CountOpenJobExecutions(c.id), UseAdminAuthToken(c.id), TerminateCluster(c.id)]
    else if c.status != AwaitingTermination then
      [CountOpenJobExecutions(c.id), UpdateClusterStatus(c.id, AwaitingTermination)]
    else [CountOpenJobExecutions(c.id)]
  }

  /**
   * The calls for the first n active clusters, cluster by cluster;
   * `openJobs(id)` is the count of that cluster's job executions without an
   * end time and `now(i)` the clock reading taken for cluster i.
   */
  function ReapAll(cfg: Config, clusters: seq<Cluster>, openJobs: string -> nat, now: nat -> int,
                   n: nat): seq<Action>
    requires n <= |clusters|
  {
    if n == 0 then []
    else
      ReapAll(cfg, clusters, openJobs, now, n - 1) +
        ReapCluster(cfg, clusters[n - 1], openJobs(clusters[n - 1].id), now(n - 1))
  }

  /**
   * For one cluster: it is only counted when transient; it is terminated
   * exactly when idle and the identity v3 API is in use; its status is set to
   * AwaitingTermination exactly when idle, without that API, and not already
   * in that status.
   */
  lemma ReapClusterGuards(cfg: Config, c: Cluster, openJobs: nat, now: int)
    ensures var calls := ReapCluster(cfg, c, openJobs, now);
      (!c.isTransient ==> calls == []) &&
      (forall a :: a in calls ==> !IsContextAction(a) && a.clusterId == c.id) &&
      (TerminateCluster(c.id) in calls <==> Idle(cfg, c, openJobs, now) && cfg.useIdentityApiV3) &&
      (UseAdminAuthToken(c.id) in calls <==> Idle(cfg, c, openJobs, now) && cfg.useIdentityApiV3) &&
      (forall s :: UpdateClusterStatus(c.id, s) in calls <==>
         s == AwaitingTermination && Idle(cfg, c, openJobs, now) && !cfg.useIdentityApiV3 &&
         c.status != AwaitingTermination)
  {
  }

  /** The reaper never calls the context helpers between setting and clearing the context. */
  lemma {:induction false} ReapAllNoContext(cfg: Config, clusters: seq<Cluster>,
                                            openJobs: string -> nat, now: nat -> int, n: nat)
    requires n <= |clusters|
    ensures forall a :: a in ReapAll(cfg, clusters, openJobs, now, n) ==> !IsContextAction(a)
  {
    if n > 0 {
      ReapAllNoContext(cfg, clusters, openJobs, now, n - 1);
      ReapClusterGuards(cfg, clusters[n - 1], openJobs(clusters[n - 1].id), now(n - 1));
    }
  }

  /**
   * Every termination and every status update the reaper makes is for an
   * idle cluster of the list: termination only with the identity v3 API,
   * status updates only without it and only to AwaitingTermination for a
   * cluster not already in it.
   */
  lemma {:induction false} ReapAllOnlyIdle(cfg: Config, clusters: seq<Cluster>,
                                           openJobs: string -> nat, now: nat -> int, n: nat)
    requires n <= |clusters|
    ensures forall a :: a in ReapAll(cfg, clusters, openJobs, now, n) && a.TerminateCluster? ==>
      cfg.useIdentityApiV3 &&
      exists i :: 0 <= i < n && clusters[i].id == a.clusterId &&
        Idle(cfg, clusters[i], openJobs(clusters[i].id), now(i))
    ensures forall a :: a in ReapAll(cfg, clusters, openJobs, now, n) && a.UpdateClusterStatus? ==>
      !cfg.useIdentityApiV3 && a.status == AwaitingTermination &&
      exists i :: 0 <= i < n && clusters[i].id == a.clusterId &&
        Idle(cfg, clusters[i], openJobs(clusters[i].id), now(i)) &&
        clusters[i].status != AwaitingTermination
  {
    if n > 0 {
      ReapAllOnlyIdle(cfg, clusters, openJobs, now, n - 1);
      var c := clusters[n - 1];
      ReapClusterGuards(cfg, c, openJobs(c.id), now(n - 1));
      forall a | a in ReapCluster(cfg, c, openJobs(c.id), now(n - 1)) && a.UpdateClusterStatus?
        ensures UpdateClusterStatus(c.id, a.status) in ReapCluster(cfg, c, openJobs(c.id), now(n - 1))
      {
      }
    }
  }

  /**
   * Every idle cluster of the list is acted on: terminated with the identity
   * v3 API, or else marked AwaitingTermination unless it already is.
   */
  lemma {:induction false} ReapAllEveryIdle(cfg: Config, clusters: seq<Cluster>,
                                            openJobs: string -> nat, now: nat -> int, n: nat, i: nat)
    requires n <= |clusters| && i < n
    requires Idle(cfg, clusters[i], openJobs(clusters[i].id), now(i))
    ensures cfg.useIdentityApiV3 ==>
      TerminateCluster(clusters[i].id) in ReapAll(cfg, clusters, openJobs, now, n)
    ensures !cfg.useIdentityApiV3 && clusters[i].status != AwaitingTermination ==>
      UpdateClusterStatus(clusters[i].id, AwaitingTermination) in ReapAll(cfg, clusters, openJobs, now, n)
  {
    if i < n - 1 {
      ReapAllEveryIdle(cfg, clusters, openJobs, now, n - 1, i);
    } else {
      ReapClusterGuards(cfg, clusters[i], openJobs(clusters[i].id), now(i));
    }
  }

  /** A log holding the calls for the first i clusters grows by the calls for cluster i. */
  lemma ReapAllNext(cfg: Config, clusters: seq<Cluster>, openJobs: string -> nat, now: nat -> int,
                    i: nat, log: seq<Action>)
    requires i < |clusters|
    requires log == [SetAdminContext] + ReapAll(cfg, clusters, openJobs, now, i)
    ensures [SetAdminContext] + ReapAll(cfg, clusters, openJobs, now, i + 1) ==
            log + ReapCluster(cfg, clusters[i], openJobs(clusters[i].id), now(i))
  {
  }

  /**
   * `terminate_unneeded_clusters` over the active clusters. A failure of
   * `terminate_cluster` (`terminateFails`) is caught and only logged: the
   * ensures does not mention `terminateFails`, so the later clusters are
   * treated the same whether a termination fails or not.
   */
  method TerminateUnneededClusters(cfg: Config, clusters: seq<Cluster>, openJobs: string -> nat,
                                   now: nat -> int, terminateFails: string -> bool)
    returns (log: seq<Action>)
    ensures log == [SetAdminContext] + ReapAll(cfg, clusters, openJobs, now, |clusters|) + [ClearContext]
  {
    log := [SetAdminContext];
    for i := 0 to |clusters|
      invariant log == [SetAdminContext] + ReapAll(cfg, clusters, openJobs, now, i)
    {
      var c := clusters[i];
      ReapAllNext(cfg, clusters, openJobs, now, i, log);
      if !c.isTransient {
        continue;
      }
      log := log + [CountOpenJobExecutions(c.id)];
      var jc := openJobs(c.id);
      if jc > 0 {
        continue;
      }
      var spacing := now(i) - c.updatedAt;
      if spacing < cfg.minTransientClusterActiveTime {
        continue;
      }
      if cfg.useIdentityApiV3 {
        log := log + [UseAdminAuthToken(c.id)];
        log := log + [TerminateCluster(c.id)];
      } else if c.status != AwaitingTermination {
        log := log + [UpdateClusterStatus(c.id, AwaitingTermination)];
      }
    }
    log := log + [ClearContext];
  }

  /** Every call the cluster reaper makes runs under the admin context, which it clears at the end. */
  lemma ReaperUnderAdmin(cfg: Config, clusters: seq<Cluster>, openJobs: string -> nat, now: nat -> int)
    ensures var log := [SetAdminContext] + ReapAll(cfg, clusters, openJobs, now, |clusters|) + [ClearContext];
      !AdminAfter(log) &&
      forall k :: 0 < k < |log| ==> AdminAfter(log[..k])
  {
    var body := ReapAll(cfg, clusters, openJobs, now, |clusters|);
    ReapAllNoContext(cfg, clusters, openJobs, now, |clusters|);
    assert forall k :: 0 <= k < |body| ==> body[k] in body;
    BracketedUnderAdmin(body);
  }

  // ---------------------------------------------------------------------------
  // check_for_zombie_proxy_users

  const JobUserPrefix := "job_"

  /** `name.startswith('job_')` */
  predicate IsJobUser(name: string) {
    |name| >= |JobUserPrefix| && name[..|JobUserPrefix|] == JobUserPrefix
  }

  /** `name[4:]`: the job execution id a job proxy user is named after. */
  function JobExecutionId(name: string): string
    requires IsJobUser(name)
  {
    name[|JobUserPrefix|..]
  }

  /** The proxy user name of a job execution. */
  function JobUserName(jobExecutionId: string): string {
    JobUserPrefix + jobExecutionId
  }

  /** The prefix and the id determine each other. */
  lemma JobUserNameRoundTrip(name: string, jobExecutionId: string)
    ensures IsJobUser(JobUserName(jobExecutionId)) &&
            JobExecutionId(JobUserName(jobExecutionId)) == jobExecutionId
    ensures IsJobUser(name) ==> JobUserName(JobExecutionId(name)) == name
  {
    assert JobUserName(jobExecutionId)[..|JobUserPrefix|] == JobUserPrefix;
    if IsJobUser(name) {
      assert name == name[..|JobUserPrefix|] + name[|JobUserPrefix|..];
    }
  }

  /**
   * A proxy user bound to a job execution that is missing or has a terminated
   * status; `terminated` is the set `edp.JOB_STATUSES_TERMINATED`.
   */
  predicate IsZombie(u: ProxyUser, lookup: string -> Option<JobExecution>, terminated: set<string>) {
    IsJobUser(u.name) &&
    (lookup(JobExecutionId(u.name)).None? || lookup(JobExecutionId(u.name)).value.status in terminated)
  }

  /** The calls the zombie reaper makes for one proxy user. */
  function ZombieCheck(u: ProxyUser, lookup: string -> Option<JobExecution>, terminated: set<string>)
    : seq<Action>
  {
    if !IsJobUser(u.name) then []
    else
      var je := lookup(JobExecutionId(u.name));
      [GetJobExecution(JobExecutionId(u.name))] +
        (if je.None? || je.value.status in terminated then [DeleteProxyUser(u.id)] else [])
  }

  /** The calls for a list of proxy users, user by user. */
  function ZombieAll(users: seq<ProxyUser>, lookup: string -> Option<JobExecution>,
                     terminated: set<string>): seq<Action>
  {
    if users == [] then []
    else
      ZombieAll(users[..|users| - 1], lookup, terminated) +
        ZombieCheck(users[|users| - 1], lookup, terminated)
  }

  /**
   * The reaper deletes exactly the zombie users, looks up exactly the job
   * executions named by job users, and never sets the context.
   */
  lemma {:induction false} ZombieAllExact(users: seq<ProxyUser>, lookup: string -> Option<JobExecution>,
                                          terminated: set<string>)
    ensures forall id :: DeleteProxyUser(id) in ZombieAll(users, lookup, terminated) <==>
      exists u :: u in users && u.id == id && IsZombie(u, lookup, terminated)
    ensures forall j :: GetJobExecution(j) in ZombieAll(users, lookup, terminated) <==>
      exists u :: u in users && IsJobUser(u.name) && JobExecutionId(u.name) == j
    ensures forall a :: a in ZombieAll(users, lookup, terminated) ==> !IsContextAction(a)
  {
    if users != [] {
      var init := users[..|users| - 1];
      var last := users[|users| - 1];
      assert users == init + [last];
      ZombieAllExact(init, lookup, terminated);
    }
  }

  lemma ZombieAllPrefix(users: seq<ProxyUser>, i: nat, lookup: string -> Option<JobExecution>,
                        terminated: set<string>)
    requires i < |users|
    ensures ZombieAll(users[..i + 1], lookup, terminated) ==
            ZombieAll(users[..i], lookup, terminated) + ZombieCheck(users[i], lookup, terminated)
  {
    assert users[..i + 1][..i] == users[..i];
  }

  /** `check_for_zombie_proxy_users` over `proxy_domain_users_list()`. */
  method CheckForZombieProxyUsers(users: seq<ProxyUser>, lookup: string -> Option<JobExecution>,
                                  terminated: set<string>) returns (log: seq<Action>)
    ensures log == [SetAdminContext] + ZombieAll(users, lookup, terminated) + [ClearContext]
  {
    log := [SetAdminContext];
    for i := 0 to |users|
      invariant log == [SetAdminContext] + ZombieAll(users[..i], lookup, terminated)
    {
      var user := users[i];
      ZombieAllPrefix(users, i, lookup, terminated);
      if IsJobUser(user.name) {
        var jeId := JobExecutionId(user.name);
        log := log + [GetJobExecution(jeId)];
        var je := lookup(jeId);
        if je.None? || je.value.status in terminated {
          log := log + [DeleteProxyUser(user.id)];
        }
      }
    }
    assert users[..|users|] == users;
    log := log + [ClearContext];
  }

  /** Every call the zombie reaper makes runs under the admin context, which it clears at the end. */
  lemma ZombieReaperUnderAdmin(users: seq<ProxyUser>, lookup: string -> Option<JobExecution>,
                               terminated: set<string>)
    ensures var log := [SetAdminContext] + ZombieAll(users, lookup, terminated) + [ClearContext];
      !AdminAfter(log) &&
      forall k :: 0 < k < |log| ==> AdminAfter(log[..k])
  {
    var body := ZombieAll(users, lookup, terminated);
    ZombieAllExact(users, lookup, terminated);
    assert forall k :: 0 <= k < |body| ==> body[k] in body;
    BracketedUnderAdmin(body);
  }

  // ---------------------------------------------------------------------------
  // _make_periodic_tasks and setup

  /** A registered periodic task: its name, spacing in seconds and `run_immediately` flag. */
  datatype TaskSpec = TaskSpec(name: string, spacing: int, runImmediately: bool)

  /** The periodic jobs `_make_periodic_tasks` registers, in declaration order. */
  function PeriodicTasks(cfg: Config): (tasks: seq<TaskSpec>)
    ensures |tasks| == 3
    ensures tasks[0] == TaskSpec("update_job_statuses", 45, true)
    ensures tasks[1] == TaskSpec("terminate_unneeded_clusters", 90, false)
    ensures tasks[2].name == "check_for_zombie_proxy_users" && !tasks[2].runImmediately
    ensures tasks[2].spacing > 0 <==> cfg.useDomainForProxyUsers
    ensures tasks[2].spacing == if cfg.useDomainForProxyUsers then 300 else -1
  {
    var zombieTaskSpacing := if cfg.useDomainForProxyUsers then 300 else -1;
    [TaskSpec("update_job_statuses", 45, true),
     TaskSpec("terminate_unneeded_clusters", 90, false),
     TaskSpec("check_for_zombie_proxy_users", zombieTaskSpacing, false)]
  }

  /** What `setup` does with the scheduler. */
  datatype Startup =
    | NotStarted
    | Started(initialDelay: Option<int>, periodicIntervalMax: int, tasks: seq<TaskSpec>)
    | RandintFailed   // `random.randint(0, d)` raises ValueError when d < 0

  /**
   * `setup`: nothing when periodic tasks are disabled; otherwise a random
   * initial delay in [0, periodic_fuzzy_delay] when that option is nonzero,
   * and no initial delay when it is zero.
   */
  method Setup(cfg: Config) returns (s: Startup)
    ensures !cfg.periodicEnable <==> s == NotStarted
    ensures s.Started? ==> s.periodicIntervalMax == cfg.periodicIntervalMax &&
                           s.tasks == PeriodicTasks(cfg)
    ensures cfg.periodicEnable && cfg.periodicFuzzyDelay == 0 ==> s.Started? && s.initialDelay == None
    ensures cfg.periodicEnable && cfg.periodicFuzzyDelay > 0 ==>
      s.Started? && s.initialDelay.Some? && 0 <= s.initialDelay.value <= cfg.periodicFuzzyDelay
    ensures cfg.periodicEnable && cfg.periodicFuzzyDelay < 0 ==> s == RandintFailed
  {
    if !cfg.periodicEnable {
      return NotStarted;
    }
    var initialDelay: Option<int>;
    if cfg.periodicFuzzyDelay != 0 {
      if cfg.periodicFuzzyDelay < 0 {
        return RandintFailed;
      }
      var d :| 0 <= d <= cfg.periodicFuzzyDelay;
      initialDelay := Some(d);
    } else {
      initialDelay := None;
    }
    s := Started(initialDelay, cfg.periodicIntervalMax, PeriodicTasks(cfg));
  }
}
