/**
 * The `cloudera_cmd` decorator: it runs an operation that yields Cloudera
 * Manager commands, waits on each yielded command in turn and raises a
 * `HadoopProvisionError` for the first command that failed and either has no
 * children (with its own message) or has a failed child (with the first such
 * child's message). A failed command whose children all succeeded passes.
 *
 * An operation is modelled by the sequence of steps it performs when it is run
 * to the end (`Step`); `Run` gives what happens when it actually runs: the
 * steps are taken in order and the run stops at the first step that raises.
 * Because the decorated operations are generators, the code after a `yield`
 * only runs once the wrapper has accepted the yielded command, which is
 * exactly this stopping rule.
 */
module CommandRunner {
  import opened Wrappers
  import opened CdhTypes

  /** The position of the first unsuccessful child, if there is one. */
  function FirstFailedChild(children: seq<CommandResult>): (r: Option<nat>)
    ensures r.Some? ==> r.value < |children| && !children[r.value].success
    ensures r.Some? ==> forall j :: 0 <= j < r.value ==> children[j].success
    ensures r.None? ==> forall j :: 0 <= j < |children| ==> children[j].success
  {
    if children == [] then None
    else if !children[0].success then Some(0)
    else
      match FirstFailedChild(children[1..])
      case None => None
      case Some(i) => Some(i + 1)
  }

  /**
   * The message the wrapper raises with once it has waited on a command with
   * result `r`, or None when it goes on to the next command.
   */
  function FailureMessage(r: CommandResult): (m: Option<string>)
    ensures r.success ==> m == None
    ensures !r.success && r.children.None? ==> m == Some(r.resultMessage)
    ensures !r.success && r.children.Some? ==>
      (m.None? <==> forall j :: 0 <= j < |r.children.value| ==> r.children.value[j].success)
    ensures !r.success && r.children.Some? && m.Some? ==>
      exists i :: 0 <= i < |r.children.value| && !r.children.value[i].success &&
        (forall j :: 0 <= j < i ==> r.children.value[j].success) &&
        m.value == r.children.value[i].resultMessage
  {
    if r.success then None
    else
      match r.children
      case None => Some(r.resultMessage)
      case Some(cs) =>
        match FirstFailedChild(cs)
        case None => None
        case Some(i) => Some(cs[i].resultMessage)
  }

  /** Whether a step ends the run. */
  predicate Halts(s: Step) {
    s.Raise? || (s.Yield? && FailureMessage(s.result).Some?)
  }

  /** The exception a halting step raises. */
  function HaltError(s: Step): Error
    requires Halts(s)
  {
    if s.Raise? then s.error else HadoopProvisionError(FailureMessage(s.result).value)
  }

  /** The calls one step makes: a remote call, or the wait on a yielded command. */
  function StepEvents(s: Step): seq<Event> {
    match s
    case Act(e) => [e]
    case Yield(r) => [Waited(r)]
    case Raise(_) => []
  }

  /** The calls of a whole trace, run to the end. */
  function Events(t: seq<Step>): seq<Event> {
    if t == [] then [] else StepEvents(t[0]) + Events(t[1..])
  }

  /** What running the trace does: the steps in order, up to the first halting one. */
  function Run(t: seq<Step>): Execution {
    if t == [] then Execution([], Done)
    else if Halts(t[0]) then Execution(StepEvents(t[0]), Raised(HaltError(t[0])))
    else
      var rest := Run(t[1..]);
      Execution(StepEvents(t[0]) + rest.log, rest.outcome)
  }

  /** Running two traces one after the other. */
  lemma {:induction false} RunAppend(a: seq<Step>, b: seq<Step>)
    ensures Run(a + b) ==
      if Run(a).outcome.Done? then Execution(Run(a).log + Run(b).log, Run(b).outcome) else Run(a)
  {
    if a == [] {
      assert a + b == b;
    } else {
      assert (a + b)[0] == a[0];
      assert (a + b)[1..] == a[1..] + b;
      if !Halts(a[0]) {
        RunAppend(a[1..], b);
      }
    }
  }

  /** With no halting step, the run makes every call of the trace and returns normally. */
  lemma {:induction false} RunCompletes(t: seq<Step>)
    requires forall i :: 0 <= i < |t| ==> !Halts(t[i])
    ensures Run(t) == Execution(Events(t), Done)
  {
    if t != [] {
      RunCompletes(t[1..]);
    }
  }

  /**
   * The run stops at the first halting step: it makes exactly the calls of the
   * steps up to and including that one, examines nothing after it, and raises
   * that step's exception.
   */
  lemma {:induction false} RunStopsAtFirstHalt(t: seq<Step>, k: nat)
    requires k < |t| && Halts(t[k])
    requires forall j :: 0 <= j < k ==> !Halts(t[j])
    ensures Run(t) == Execution(Events(t[..k + 1]), Raised(HaltError(t[k])))
  {
    if k == 0 {
      assert t[..1][1..] == [];
    } else {
      RunStopsAtFirstHalt(t[1..], k - 1);
      assert t[..k + 1][0] == t[0];
      assert t[..k + 1][1..] == t[1..][..k];
    }
  }

  /** The run returns normally exactly when no step halts. */
  lemma {:induction false} RunDoneIff(t: seq<Step>)
    ensures Run(t).outcome == Done <==> forall i :: 0 <= i < |t| ==> !Halts(t[i])
  {
    if t != [] {
      RunDoneIff(t[1..]);
      if !Halts(t[0]) {
        forall i | 0 <= i < |t| && (forall j :: 0 <= j < |t[1..]| ==> !Halts(t[1..][j]))
          ensures !Halts(t[i])
        {
          if i > 0 { assert t[i] == t[1..][i - 1]; }
        }
      }
    }
  }

  /** Running a trace from step i: step i, then, unless it halts, the rest. */
  lemma RunFrom(t: seq<Step>, i: nat)
    requires i < |t|
    ensures Run(t[i..]) ==
      if Halts(t[i]) then Execution(StepEvents(t[i]), Raised(HaltError(t[i])))
      else Execution(StepEvents(t[i]) + Run(t[i + 1..]).log, Run(t[i + 1..]).outcome)
  {
    assert t[i..][0] == t[i];
    assert t[i..][1..] == t[i + 1..];
  }

  /**
   * The wrapper's inspection of one waited-on command: a failed command with
   * children fails with its first failed child's message, one without children
   * with its own message.
   */
  method CheckResult(result: CommandResult) returns (m: Option<string>)
    ensures m == FailureMessage(result)
  {
    if result.success {
      return None;
    }
    if result.children.None? {
      return Some(result.resultMessage);
    }
    var children := result.children.value;
    var j := 0;
    while j < |children|
      invariant 0 <= j <= |children|
      invariant forall k :: 0 <= k < j ==> children[k].success
    {
      if !children[j].success {
        return Some(children[j].resultMessage);
      }
      j := j + 1;
    }
    m := None;
  }

  /**
   * The wrapper itself: take the operation's steps in order, wait on every
   * yielded command and inspect its result, and stop at the first failure.
   */
  method CdhCmd(trace: seq<Step>) returns (x: Execution)
    ensures x == Run(trace)
  {
    var log: seq<Event> := [];
    var i := 0;
    while i < |trace|
      invariant 0 <= i <= |trace|
      invariant Run(trace) == Execution(log + Run(trace[i..]).log, Run(trace[i..]).outcome)
    {
      RunFrom(trace, i);
      match trace[i] {
        case Act(e) =>
          log := log + [e];
        case Raise(err) =>
          return Execution(log, Raised(err));
        case Yield(result) =>
          log := log + [Waited(result)];
          var m := CheckResult(result);
          if m.Some? {
            return Execution(log, Raised(HadoopProvisionError(m.value)));
          }
      }
      i := i + 1;
    }
    assert trace[i..] == [];
    x := Execution(log, Done);
  }
}
