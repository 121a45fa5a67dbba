/**
 * `ClouderaUtils.await_agents`: poll the manager's host list until every
 * instance's agent has registered, within a fixed time budget.
 *
 * The clock is abstracted to whole seconds. The loop condition is evaluated
 * for the k-th time when `Elapsed(pollTime, k)` seconds have passed: every
 * failed poll costs the 5-second sleep plus `pollTime(k)` further seconds
 * (the host query and anything else the clock saw).
 */
module AgentWaiter {
  import opened Wrappers
  import opened CdhTypes

  const AgentTimeout := 300
  const PollSleep := 5
  const AgentsFailedMessage := "Cloudera agents failed to connect to Cloudera Manager"

  /** Seconds elapsed when the loop condition is evaluated for the k-th time. */
  function Elapsed(pollTime: nat -> nat, k: nat): nat {
    if k == 0 then 0 else Elapsed(pollTime, k - 1) + pollTime(k - 1) + PollSleep
  }

  lemma {:induction false} ElapsedGrows(pollTime: nat -> nat, j: nat, k: nat)
    requires j <= k
    ensures Elapsed(pollTime, j) + PollSleep * (k - j) <= Elapsed(pollTime, k)
  {
    if j < k {
      ElapsedGrows(pollTime, j, k - 1);
    }
  }

  /** Every instance's fully-qualified name is among the registered hostnames. */
  predicate AllRegistered(instances: seq<Instance>, hostnames: seq<string>) {
    forall i :: 0 <= i < |instances| ==> instances[i].fqdn in hostnames
  }

  /** The k-th poll is taken within the budget and finds every agent. */
  predicate SucceedsAt(instances: seq<Instance>, inventory: nat -> seq<string>,
                       pollTime: nat -> nat, k: nat)
  {
    Elapsed(pollTime, k) < AgentTimeout && AllRegistered(instances, inventory(k))
  }

  /**
   * `await_agents`: `inventory(k)` is the hostname list of the k-th poll.
   * It returns normally exactly when some poll taken within the budget sees
   * every agent, and then the last poll is the first such one; otherwise it
   * raises once the budget is spent, after making every poll the budget allows. Polls and sleeps alternate in the log.
   * An empty instance list fails on `instances[0]` before anything else.
   */
  method AwaitAgents(instances: seq<Instance>, inventory: nat -> seq<string>, pollTime: nat -> nat)
    returns (x: Execution)
    ensures instances == [] ==> x == Execution([], Raised(IndexError))
    ensures instances != [] ==>
      (x.outcome == Done <==> exists k :: SucceedsAt(instances, inventory, pollTime, k))
    ensures instances != [] && x.outcome != Done ==>
      x.outcome == Raised(HadoopProvisionError(AgentsFailedMessage))
    ensures instances != [] && x.outcome != Done ==>
      Elapsed(pollTime, |x.log| / 2) >= AgentTimeout &&
      forall j :: 0 <= j < |x.log| / 2 ==> Elapsed(pollTime, j) < AgentTimeout
    ensures forall m :: 0 <= m < |x.log| ==> x.log[m] == if m % 2 == 0 then ListHosts else Sleep(PollSleep)
    ensures instances != [] ==> (x.outcome == Done <==> |x.log| % 2 == 1)
    ensures x.outcome == Done ==>
      SucceedsAt(instances, inventory, pollTime, |x.log| / 2) &&
      forall j :: 0 <= j < |x.log| / 2 ==> !AllRegistered(instances, inventory(j))
  {
    if instances == [] {
      return Execution([], Raised(IndexError));
    }
    var log: seq<Event> := [];
    var polls: nat := 0;
    var elapsed: nat := 0;
    while elapsed < AgentTimeout
      invariant elapsed == Elapsed(pollTime, polls)
      invariant |log| == 2 * polls
      invariant forall m :: 0 <= m < |log| ==> log[m] == if m % 2 == 0 then ListHosts else Sleep(PollSleep)
      invariant forall j :: 0 <= j < polls ==> !AllRegistered(instances, inventory(j))
      invariant forall j :: 0 <= j < polls ==> Elapsed(pollTime, j) < AgentTimeout
      decreases AgentTimeout - elapsed
    {
      var hostnames := inventory(polls);
      log := log + [ListHosts];
      var isOk := true;
      var i := 0;
      while i < |instances|
        invariant 0 <= i <= |instances|
        invariant isOk <==> forall q :: 0 <= q < i ==> instances[q].fqdn in hostnames
      {
        if instances[i].fqdn !in hostnames {
          isOk := false;
          break;
        }
        i := i + 1;
      }
      if !isOk {
        log := log + [Sleep(PollSleep)];
        elapsed := elapsed + pollTime(polls) + PollSleep;
        polls := polls + 1;
      } else {
        assert SucceedsAt(instances, inventory, pollTime, polls);
        assert |log| / 2 == polls;
        return Execution(log, Done);
      }
    }
    forall k: nat | polls <= k ensures !SucceedsAt(instances, inventory, pollTime, k) {
      ElapsedGrows(pollTime, polls, k);
    }
    assert |log| / 2 == polls;
    x := Execution(log, Raised(HadoopProvisionError(AgentsFailedMessage)));
  }
}
