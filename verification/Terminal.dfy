/** The terminal engine: everything that stands between a command request and `adapter.run`. */
module Terminal {
  import opened Prelude
  import opened Policy

  datatype SessionStatus = CREATED | READY | RUNNING | STOPPING | STOPPED | SESSION_FAILED | EXPIRED

  datatype CommandStatus = QUEUED | EXECUTING | COMPLETED | FAILED | TIMEOUT | CANCELLED | REJECTED

  datatype CommandRequest = CommandRequest(
    id: Uuid, session: Uuid, argv: seq<string>, authorization: PolicyDecision, approvedByUser: bool)

  datatype CommandResult = CommandResult(
    status: CommandStatus, exitCode: Option<int>, stdout: Option<string>, stderr: Option<string>,
    errorMessage: Option<string>)

  /** What the adapter's process does: it ends, or the awaiting task is cancelled, or the adapter raises. */
  datatype AdapterOutcome =
    | Ends(timedOut: bool, succeeded: bool, exitCode: Option<int>, stdout: Option<string>, stderr: Option<string>)
    | IsCancelled
    | Raises

  /** The circumstances of one `execute` call that the engine does not control. */
  datatype World = World(sessionIdle: bool, directoryRefused: bool, outcome: AdapterOutcome)

  const MAX_COMMAND_ARGS := 64
  const MAX_ARG_LENGTH := 4096

  predicate ValidArgv(argv: seq<string>) {
    0 < |argv| <= MAX_COMMAND_ARGS && forall a :: a in argv ==> |a| <= MAX_ARG_LENGTH
  }

  function Rejected(reason: string): CommandResult {
    CommandResult(REJECTED, None, None, None, Some(reason))
  }

  function Finalized(o: AdapterOutcome): CommandResult
    requires o.Ends?
  {
    CommandResult(
      if o.timedOut then TIMEOUT else if o.succeeded then COMPLETED else FAILED,
      o.exitCode, o.stdout, o.stderr, None)
  }

  /** The task behind an `adapter.run`. */
  datatype AdapterTask = AdapterTask(cancelRequested: bool, ended: Option<AdapterOutcome>)

  const NEW_TASK := AdapterTask(false, None)

  /** `launches` is the history of `adapter.run`: the commands it was called for. */
  datatype Engine = Engine(
    sessions: map<Uuid, SessionStatus>,
    running: map<Uuid, AdapterTask>,
    lastResult: map<Uuid, CommandResult>,
    launches: seq<CommandRequest>)

  /** `None` means that an exception left `execute`. */
  datatype Execution = Execution(after: Engine, result: Option<CommandResult>)

  /** `require_active_session`: the session's status after the idle check, and whether it may be used. */
  function Checked(e: Engine, session: Uuid, idle: bool): map<Uuid, SessionStatus> {
    if session in e.sessions && idle && e.sessions[session] !in {STOPPED, SESSION_FAILED, EXPIRED}
    then e.sessions[session := EXPIRED]
    else e.sessions
  }

  predicate Active(sessions: map<Uuid, SessionStatus>, session: Uuid) {
    session in sessions && (sessions[session] == READY || sessions[session] == RUNNING)
  }

  predicate Launches(e: Engine, r: CommandRequest, w: World) {
    && Active(Checked(e, r.session, w.sessionIdle), r.session)
    && ValidArgv(r.argv) && !w.directoryRefused
    && Approves(r.authorization, r.approvedByUser)
  }

  /** `execute` up to its wait for the adapter. */
  datatype Submission = Refused(execution: Execution) | Waiting(engine: Engine)

  function Submitted(e: Engine, r: CommandRequest, w: World): Submission {
    var checked := e.(sessions := Checked(e, r.session, w.sessionIdle));
    if !Active(checked.sessions, r.session) then Refused(Execution(checked, None))
    else if !ValidArgv(r.argv) || w.directoryRefused then
      Refused(Finish(checked, r, Rejected("invalid request")))
    else if !Approves(r.authorization, r.approvedByUser) then
      Refused(Finish(checked, r, Rejected("not approved")))
    else
      Waiting(checked.(
              sessions := checked.sessions[r.session := RUNNING],
              running := checked.running[r.id := NEW_TASK],
              launches := checked.launches + [r]))
  }

  /** The wait is over. */
  function Awaited(e: Engine, r: CommandRequest, outcome: AdapterOutcome): Execution {
    var released := e.(
      sessions := if r.session in e.sessions && e.sessions[r.session] == RUNNING then e.sessions[r.session := READY]
                  else e.sessions,
      running := e.running - {r.id});
    match outcome
    case Raises => Execution(released, None)
    case IsCancelled =>
      Finish(released, r, CommandResult(CANCELLED, None, None, None, Some("Execution was cancelled.")))
    case Ends(_, _, _, _, _) => Finish(released, r, Finalized(outcome))
  }

  /** A whole call during which nothing happens to its session. */
  function Executed(e: Engine, r: CommandRequest, w: World): Execution {
    match Submitted(e, r, w)
    case Refused(x) => x
    case Waiting(m) => Awaited(m, r, w.outcome)
  }

  function Finish(e: Engine, r: CommandRequest, result: CommandResult): Execution {
    Execution(e.(lastResult := e.lastResult[r.session := result]), Some(result))
  }

  /** A process is started exactly when the session is usable, the request is valid and its decision allows it or was
      approved; and only a started process can complete, fail, time out or be cancelled. */
  lemma ExecutedGate(e: Engine, r: CommandRequest, w: World)
    ensures var x := Executed(e, r, w);
            && x.after.launches == e.launches + (if Launches(e, r, w) then [r] else [])
            && (x.result.Some? && x.result.value.status != REJECTED ==> Launches(e, r, w))
            && (x.result.Some? && x.result.value.status == REJECTED ==> !Launches(e, r, w))
            && (x.result.Some? ==> r.session in x.after.lastResult && x.after.lastResult[r.session] == x.result.value)
            && x.after.running == if Launches(e, r, w) then e.running - {r.id} else e.running
  {
    hide Active, Checked, ValidArgv, Approves;
    assert e.launches + [] == e.launches;
    assert e.running[r.id := NEW_TASK] - {r.id} == e.running - {r.id};
  }

  /** A process is started, for exactly this request, if and only if: the session is known, ready or running, and not
      idle too long; there are 1 to 64 arguments of at most 4096 characters; the working directory is not refused; and
      the decision is ALLOW, or REQUIRE_APPROVAL with somebody's approval. */
  lemma LaunchMeans(e: Engine, r: CommandRequest, w: World)
    ensures (Executed(e, r, w).after.launches == e.launches + [r] <==>
             && r.session in e.sessions && e.sessions[r.session] in {READY, RUNNING} && !w.sessionIdle
             && 1 <= |r.argv| <= 64 && (forall a :: a in r.argv ==> |a| <= 4096) && !w.directoryRefused
             && (|| r.authorization.verdict == ALLOW
                 || (r.authorization.verdict == REQUIRE_APPROVAL && r.approvedByUser)))
    ensures Executed(e, r, w).after.launches == e.launches + [r] || Executed(e, r, w).after.launches == e.launches
    ensures w.sessionIdle && r.session in e.sessions && e.sessions[r.session] in {READY, RUNNING} ==>
              Executed(e, r, w).after.sessions == e.sessions[r.session := EXPIRED] && Executed(e, r, w).result == None
  {
    hide Executed, Finalized;
    ExecutedGate(e, r, w);
    if w.sessionIdle && r.session in e.sessions && e.sessions[r.session] in {READY, RUNNING} {
      IdleExpires(e, r, w);
    }
    assert |e.launches + [r]| != |e.launches|;
    assert e.launches + [] == e.launches;
  }

  lemma IdleExpires(e: Engine, r: CommandRequest, w: World)
    requires w.sessionIdle && r.session in e.sessions && e.sessions[r.session] in {READY, RUNNING}
    ensures Executed(e, r, w).after.sessions == e.sessions[r.session := EXPIRED] && Executed(e, r, w).result == None
  {
  }

  /** How the end of a started process is reported: TIMEOUT exactly if it timed out, COMPLETED exactly if it did not and
      succeeded, FAILED otherwise; with its own exit code and output. A process that was cancelled is CANCELLED, and one
      whose adapter raises has no result. The session is free again in every case. */
  lemma StatusMeans(e: Engine, r: CommandRequest, w: World)
    requires Launches(e, r, w)
    ensures var x := Executed(e, r, w);
            && (w.outcome.Ends? ==>
                  && x.result.Some?
                  && (x.result.value.status == TIMEOUT <==> w.outcome.timedOut)
                  && (x.result.value.status == COMPLETED <==> !w.outcome.timedOut && w.outcome.succeeded)
                  && (x.result.value.status == FAILED <==> !w.outcome.timedOut && !w.outcome.succeeded)
                  && x.result.value.exitCode == w.outcome.exitCode && x.result.value.stdout == w.outcome.stdout
                  && x.result.value.stderr == w.outcome.stderr && x.result.value.errorMessage == None)
            && (w.outcome.IsCancelled? ==>
                  && x.result.Some? && x.result.value.status == CANCELLED && x.result.value.exitCode == None
                  && x.result.value.stdout == None && x.result.value.stderr == None)
            && (w.outcome.Raises? <==> x.result.None?)
            && r.session in x.after.sessions && x.after.sessions[r.session] == READY
  {
    hide ValidArgv, Approves;
  }

  // --- Terminating a command ---------------------------------------------------------------------------------------

  /** What can happen to a task: a call of `terminate`, or the end of its process. */
  datatype TaskEvent = Terminate | End(outcome: AdapterOutcome)

  /** Adapters kill the process and pass the cancellation on, so a task asked to stop ends cancelled; a task that has
      ended cannot be stopped. */
  function TaskAfter(t: AdapterTask, e: TaskEvent): AdapterTask {
    if t.ended.Some? then t
    else
      match e
      case Terminate => t.(cancelRequested := true)
      case End(outcome) => t.(ended := Some(if t.cancelRequested then IsCancelled else outcome))
  }

  function TaskRun(t: AdapterTask, events: seq<TaskEvent>): AdapterTask
    decreases |events|
  {
    if events == [] then t else TaskRun(TaskAfter(t, events[0]), events[1..])
  }

  function Terminated(e: Engine, command: Uuid): Engine {
    if command in e.running then e.(running := e.running[command := TaskAfter(e.running[command], Terminate)]) else e
  }

  /** The process first ends at event `k`: everything before is a termination. */
  predicate FirstEnd(events: seq<TaskEvent>, k: nat) {
    k < |events| && events[k].End? && forall j :: 0 <= j < k ==> events[j].Terminate?
  }

  lemma {:induction false} EndedStays(t: AdapterTask, events: seq<TaskEvent>)
    requires t.ended.Some?
    ensures TaskRun(t, events) == t
    decreases |events|
  {
    if events != [] {
      EndedStays(t, events[1..]);
    }
  }

  lemma {:induction false} FirstEndDecides(t: AdapterTask, events: seq<TaskEvent>, k: nat)
    requires t.ended.None? && FirstEnd(events, k)
    ensures TaskRun(t, events).ended == Some(if t.cancelRequested || k > 0 then IsCancelled else events[0].outcome)
    decreases |events|
  {
    var u := TaskAfter(t, events[0]);
    if k == 0 {
      EndedStays(u, events[1..]);
    } else {
      assert events[0].Terminate?;
      FirstEndDecides(u, events[1..], k - 1);
    }
  }

  /** `terminate` works exactly while the process runs: a launched command whose task ends reports CANCELLED if and only
      if somebody terminated it before (or its own waiting call was cancelled). It then leaves the engine as a cancelled
      call does, whatever the process would have returned. */
  lemma TerminateStops(e: Engine, r: CommandRequest, w: World, events: seq<TaskEvent>, k: nat)
    requires Submitted(e, r, w).Waiting? && FirstEnd(events, k)
    ensures var m := Submitted(e, r, w).engine;
            var task := TaskRun(m.running[r.id], events);
            var after := m.(running := m.running[r.id := task]);
            && task.ended.Some?
            && var x := Awaited(after, r, task.ended.value);
               && (x.result.Some? && x.result.value.status == CANCELLED <==> k > 0 || events[0].outcome.IsCancelled?)
               && (k > 0 ==> x == Executed(e, r, w.(outcome := IsCancelled)))
               && (k == 0 ==> x == Executed(e, r, w.(outcome := events[0].outcome)))
  {
    var m := Submitted(e, r, w).engine;
    FirstEndDecides(m.running[r.id], events, k);
    var task := TaskRun(m.running[r.id], events);
    hide ValidArgv, Checked, Active, TaskRun;
    assert m.running[r.id := task] - {r.id} == m.running - {r.id};
  }

  class TerminalEngine {
    var sessions: map<Uuid, SessionStatus>
    var running: map<Uuid, AdapterTask>
    var lastResultBySession: map<Uuid, CommandResult>

    // The adapter's history.
    ghost var launches: seq<CommandRequest>

    constructor ()
      ensures Value() == Engine(map[], map[], map[], [])
    {
      sessions, running, lastResultBySession, launches := map[], map[], map[], [];
    }

    ghost function Value(): Engine
      reads this
    {
      Engine(sessions, running, lastResultBySession, launches)
    }

    /** A call that nobody interferes with. `result.None?` means that an exception left it. */
    method Execute(r: CommandRequest, w: World) returns (result: Option<CommandResult>)
      modifies this
      ensures Execution(Value(), result) == Executed(old(Value()), r, w)
    {
      var waits;
      waits, result := Submit(r, w);
      if waits {
        result := Await(r, w.outcome);
      }
    }

    /** Everything before the wait: the checks, the gate, the launch. */
    method Submit(r: CommandRequest, w: World) returns (waits: bool, refusal: Option<CommandResult>)
      modifies this
      ensures waits <==> Launches(old(Value()), r, w)
      ensures Submitted(old(Value()), r, w) == if waits then Waiting(Value()) else Refused(Execution(Value(), refusal))
    {
      if r.session !in sessions {
        return false, None;
      }
      if w.sessionIdle && sessions[r.session] !in {STOPPED, SESSION_FAILED, EXPIRED} {
        sessions := sessions[r.session := EXPIRED];
      }
      if sessions[r.session] != READY && sessions[r.session] != RUNNING {
        return false, None;
      }
      var valid := IsValidArgv(r.argv);
      if !valid || w.directoryRefused {
        refusal := Some(Rejected("invalid request"));
      } else if !Approves(r.authorization, r.approvedByUser) {
        refusal := Some(Rejected("not approved"));
      } else {
        sessions := sessions[r.session := RUNNING];
        launches := launches + [r];
        running := running[r.id := NEW_TASK];
        return true, None;
      }
      lastResultBySession := lastResultBySession[r.session := refusal.value];
      return false, refusal;
    }

    method IsValidArgv(argv: seq<string>) returns (valid: bool)
      ensures valid <==> ValidArgv(argv)
    {
      if |argv| == 0 || |argv| > MAX_COMMAND_ARGS {
        return false;
      }
      for i := 0 to |argv|
        invariant forall j :: 0 <= j < i ==> |argv[j]| <= MAX_ARG_LENGTH
      {
        if |argv[i]| > MAX_ARG_LENGTH {
          return false;
        }
      }
      return true;
    }

    /** The wait is over: the command is released and its session freed whatever happened. */
    method Await(r: CommandRequest, outcome: AdapterOutcome) returns (result: Option<CommandResult>)
      modifies this
      ensures Execution(Value(), result) == Awaited(old(Value()), r, outcome)
      ensures r.id !in running && launches == old(launches)
    {
      match outcome {
        case Raises =>
          result := None;
        case IsCancelled =>
          result := Some(CommandResult(CANCELLED, None, None, None, Some("Execution was cancelled.")));
        case Ends(timedOut, succeeded, exitCode, stdout, stderr) =>
          var status := FAILED;
          if timedOut {
            status := TIMEOUT;
          } else if succeeded {
            status := COMPLETED;
          }
          result := Some(CommandResult(status, exitCode, stdout, stderr, None));
      }
      running := running - {r.id};
      if r.session in sessions && sessions[r.session] == RUNNING {
        sessions := sessions[r.session := READY];
      }
      if result.Some? {
        lastResultBySession := lastResultBySession[r.session := result.value];
      }
    }

    /** Asks the task of a running command to stop; no other command notices. */
    method Terminate(command: Uuid) returns (found: bool)
      modifies this`running
      ensures found <==> command in old(running)
      ensures Value() == Terminated(old(Value()), command)
      ensures found && old(running[command]).ended.None? ==> running[command].cancelRequested
      ensures forall c :: c in old(running) && c != command ==> c in running && running[c] == old(running)[c]
    {
      if command !in running {
        return false;
      }
      if running[command].ended.None? {
        running := running[command := running[command].(cancelRequested := true)];
      }
      return true;
    }
  }
}
