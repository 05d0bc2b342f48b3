/** The installation service: the objects and the loops behind the functions of Installation. */
module InstallationService {
  import opened Prelude
  import opened Policy
  import opened CommandTemplates
  import opened Installation
  import T = Terminal
  import ToolTrust

  class InstallationRequest {
    const id: Uuid
    const toolId: Uuid
    const targetId: Uuid
    const requestedBy: Option<string>
    var session: Option<Uuid>
    var plan: Option<Plan>
    var state: State
    var approvedBy: Option<string>
    var rejectionReason: Option<string>
    var attempts: seq<Attempt>
    var verification: Option<Verification>
    var problem: Option<Problem>

    constructor (a: Asking)
      ensures Value() == Blank(a)
    {
      id, toolId, targetId, requestedBy := a.id, a.toolId, a.target.id, a.requestedBy;
      session, plan, state, approvedBy, rejectionReason := None, None, DISCOVERED, None, None;
      attempts, verification, problem := [], None, None;
    }

    function Value(): Request
      reads this
    {
      Request(id, toolId, targetId, requestedBy, session, plan, state, approvedBy, rejectionReason, attempts,
              verification, problem)
    }
  }

  /** `_choose_package_manager`: the preferences in order, the first that is available. */
  method ChoosePackageManager(platform: string, available: seq<PackageManager>) returns (chosen: Option<PackageManager>)
    ensures chosen == Preferred(Preference(platform), available)
  {
    var preference := Preference(platform);
    for i := 0 to |preference|
      invariant Preferred(preference, available) == Preferred(preference[i..], available)
    {
      if preference[i] in available {
        return Some(preference[i]);
      }
      assert preference[i..][1..] == preference[i + 1..];
    }
    return None;
  }

  method MakePlan(card: ToolTrust.Card, platform: string, available: seq<PackageManager>) returns (planning: Planning)
    ensures planning == BuildPlan(card, platform, available)
  {
    if platform !in card.platforms {
      return WrongPlatform;
    }
    var manager := ChoosePackageManager(platform, available);
    if manager.None? {
      return Unavailable;
    }
    return Planned(Plan(platform, manager.value, card.name, card.version, card.riskLevel,
                        card.riskLevel in {MEDIUM, HIGH, CRITICAL}));
  }

  class ToolInstallationService {
    const tools: ToolTrust.InMemoryToolRegistry
    const maxAttempts: int
    const interpreter: string
    var installations: map<Uuid, InstallationRequest>
    var runningCommands: map<Uuid, Uuid>

    constructor (tools: ToolTrust.InMemoryToolRegistry, maxAttempts: int, interpreter: string)
      ensures Valid() && this.tools == tools && this.maxAttempts == maxAttempts && this.interpreter == interpreter
      ensures installations == map[] && runningCommands == map[]
    {
      this.tools, this.maxAttempts, this.interpreter := tools, maxAttempts, interpreter;
      installations, runningCommands := map[], map[];
    }

    ghost predicate Valid()
      reads this, installations.Values
    {
      forall i :: i in installations ==> installations[i].id == i
    }

    /** The request an operation on `id` may change; all others keep their value. */
    function Concerned(id: Uuid): set<InstallationRequest>
      reads this
    {
      if id in installations then {installations[id]} else {}
    }

    ghost function Tools(): ToolTrust.Registry
      reads tools, tools.tools.Values
    {
      tools.Value()
    }

    method RequestInstallation(a: Asking) returns (request: InstallationRequest)
      requires Valid()
      modifies this`installations
      ensures Valid() && fresh(request) && installations == old(installations)[a.id := request]
      ensures request.Value() == Asked(ToolTrust.Lookup(Tools(), a.toolId), a)
    {
      request := new InstallationRequest(a);
      hide Asked;
      var record := tools.Get(a.toolId);
      var tool := if record.Some? then Some(record.value.Value()) else None;
      Prepare(request, a, tool);
      installations := installations[a.id := request];
    }

    /** The readiness checklist, then the plan. */
    method Prepare(request: InstallationRequest, a: Asking, tool: Option<ToolTrust.Tool>)
      requires request.Value() == Blank(a)
      modifies request
      ensures request.Value() == Asked(tool, a)
    {
      hide ToolTrust.CheckReadiness, Preference;
      var report := ToolTrust.CheckReadiness(tool, a.target, a.platform, a.policyNow, a.scopeNow);
      if !ToolTrust.Ready(report) {
        request.state, request.problem := BLOCKED, Some(NotReady(FailedChecks(report.checks)));
        return;
      }
      var planning := MakePlan(report.tool.value.card, a.platform, a.available);
      if !planning.Planned? {
        request.state, request.problem := BLOCKED, Some(NoPackageManager);
        return;
      }
      request.plan := Some(planning.plan);
      request.state := if planning.plan.approvalRequired then WAITING_FOR_APPROVAL else PREPARING;
    }

    method Approve(id: Uuid, approver: string) returns (error: Option<Error>)
      requires Valid()
      modifies Concerned(id)
      ensures error == if id !in installations then Some(RequestNotFound)
                       else if old(installations[id].state) != WAITING_FOR_APPROVAL then Some(InvalidTransition)
                       else None
      ensures id in installations ==>
                installations[id].Value() == if error.Some? then old(installations[id].Value())
                                             else Approved(old(installations[id].Value()), approver)
    {
      if id !in installations {
        return Some(RequestNotFound);
      }
      var request := installations[id];
      if request.state != WAITING_FOR_APPROVAL {
        return Some(InvalidTransition);
      }
      request.approvedBy := Some(approver);
      request.state := PREPARING;
      return None;
    }

    method Reject(id: Uuid, reason: string) returns (error: Option<Error>)
      requires Valid()
      modifies Concerned(id)
      ensures error == if id !in installations then Some(RequestNotFound)
                       else if IsTerminal(old(installations[id].state)) then Some(InvalidTransition) else None
      ensures id in installations ==>
                installations[id].Value() == if error.Some? then old(installations[id].Value())
                                             else RejectedBy(old(installations[id].Value()), reason)
    {
      if id !in installations {
        return Some(RequestNotFound);
      }
      var request := installations[id];
      if IsTerminal(request.state) {
        return Some(InvalidTransition);
      }
      request.state := CANCELLED;
      request.rejectionReason := Some(reason);
      return None;
    }

    method Cancel(id: Uuid, engine: T.TerminalEngine) returns (error: Option<Error>)
      requires Valid()
      modifies Concerned(id), engine`running
      ensures error == if id !in installations then Some(RequestNotFound) else None
      ensures id in installations ==>
                installations[id].Value() == CancelledBy(old(installations[id].Value()), id in runningCommands)
      ensures engine.Value() ==
              if id in installations && !IsTerminal(old(installations[id].state)) && id in runningCommands
              then T.Terminated(old(engine.Value()), runningCommands[id]) else old(engine.Value())
    {
      if id !in installations {
        return Some(RequestNotFound);
      }
      var request := installations[id];
      if IsTerminal(request.state) {
        return None;
      }
      if id in runningCommands {
        var _ := engine.Terminate(runningCommands[id]);
      } else {
        request.state := CANCELLED;
      }
      return None;
    }

    function Entry(id: Uuid): Option<Uuid>
      reads this
    {
      if id in runningCommands then Some(runningCommands[id]) else None
    }

    /** How the call stands between two waits. */
    function Now(request: InstallationRequest): Leg
      reads this, request
    {
      Leg(request.Value(), Entry(request.id), Landed, None)
    }

    ghost function CallOf(tool: Option<ToolTrust.Tool>, session: Uuid, target: TargetScope): Call {
      Call(session, target, if tool.Some? then tool.value.card.entrypoint else None, maxAttempts, interpreter)
    }

    /** The registered tool request `id` is about. */
    ghost function Tool(id: Uuid): Option<ToolTrust.Tool>
      requires id in installations
      reads this, tools, tools.tools.Values
    {
      ToolTrust.Lookup(Tools(), installations[id].toolId)
    }

    /** The objects are where the journey ended. */
    ghost predicate Arrived(j: Journey, request: InstallationRequest, engine: T.TerminalEngine, error: Option<Error>)
      reads this, request, engine
    {
      j.leg == Now(request).(error := error) && j.engine == engine.Value()
    }

    ghost predicate OtherEntriesKept(before: map<Uuid, Uuid>, id: Uuid)
      reads this
    {
      runningCommands - {id} == before - {id}
    }

    /** The whole call, run to its end without interference; `envs(k)` is what its `k`-th engine call meets. */
    method StartInstallation(id: Uuid, engine: T.TerminalEngine, session: Uuid, target: TargetScope, envs: nat -> Env)
      returns (error: Option<Error>)
      requires Valid()
      modifies this`runningCommands, Concerned(id), engine
      ensures id !in installations ==>
                error == Some(RequestNotFound) && engine.Value() == old(engine.Value())
                && runningCommands == old(runningCommands)
      ensures id in installations ==>
                Arrived(Flown(Begun(old(Now(installations[id])), old(Tool(id)), CallOf(old(Tool(id)), session, target),
                                    envs(0)),
                              CallOf(old(Tool(id)), session, target), old(engine.Value()), envs, 0),
                        installations[id], engine, error)
                && OtherEntriesKept(old(runningCommands), id)
    {
      hide Flown, NextAttempt;
      if id !in installations {
        return Some(RequestNotFound);
      }
      var request := installations[id];
      ghost var call0 := CallOf(Tool(id), session, target);
      ghost var begun := Begun(Now(request), Tool(id), call0, envs(0));
      if begun.flight.Landed? {
        FlownLanded(begun, call0, engine.Value(), envs, 0);
      }
      if request.state == WAITING_FOR_APPROVAL {
        return Some(ApprovalRequired);
      }
      if request.state != PREPARING || request.plan.None? {
        return Some(InvalidTransition);
      }
      request.session := Some(session);
      request.state := INSTALLING;
      var tool := tools.Get(request.toolId);
      if tool.None? {
        return Some(ToolNotFound);
      }
      if tool.value.trustStatus != ToolTrust.APPROVED {
        return Some(ToolNotApproved);
      }
      var call := Call(session, target, tool.value.card.entrypoint, maxAttempts, interpreter);
      error := RunAttempts(request, call, engine, envs);
    }

    method RunAttempts(request: InstallationRequest, call: Call, engine: T.TerminalEngine, envs: nat -> Env)
      returns (error: Option<Error>)
      requires request.plan.Some?
      modifies this`runningCommands, request, engine
      ensures Arrived(Flown(NextAttempt(old(Now(request)), call, 1, None, envs(0)), call, old(engine.Value()), envs, 0),
                      request, engine, error)
      ensures OtherEntriesKept(old(runningCommands), request.id)
    {
      hide T.Executed, InstallCommand, VerificationCommand, Evaluate, Flown, NextAttempt, ConfirmationSent,
           ConfirmationReturned, Ahead, Decision, Evaluated;
      var last: Option<T.CommandStatus> := None;
      var succeeded := false;
      var number := 1;
      ghost var goal := Flown(NextAttempt(Now(request), call, 1, None, envs(0)), call, engine.Value(), envs, 0);
      while number <= call.maxAttempts
        invariant 1 <= number && request.plan.Some? && !succeeded
        invariant Flown(NextAttempt(Now(request), call, number, last, envs(number - 1)), call, engine.Value(), envs,
                        number - 1) == goal
        invariant OtherEntriesKept(old(runningCommands), request.id)
      {
        var command;
        command, error := Submit(request, call, number, last, envs(number - 1));
        if command.None? {
          FlownLanded(Now(request).(error := error), call, engine.Value(), envs, number - 1);
          return;
        }
        ghost var waiting := Now(request).(flight := Attempting(number, last, command.value));
        FlownOn(waiting, call, engine.Value(), envs, number - 1);
        var result := engine.Execute(command.value, envs(number - 1).world);
        assert Flown(Returned(waiting, call, result, envs(number)), call, engine.Value(), envs, number) == goal;
        if result.None? {
          FlownLanded(Now(request).(error := Some(EngineRaised)), call, engine.Value(), envs, number);
          return Some(EngineRaised);
        }
        var status := result.value.status;
        var category := Record(request, number, result.value);
        if status == T.CANCELLED {
          request.state := CANCELLED;
          FlownLanded(Now(request), call, engine.Value(), envs, number);
          return None;
        }
        if status == T.COMPLETED {
          succeeded := true;
          break;
        }
        if last.Some? && last == category {
          break;
        }
        last := category;
        number := number + 1;
      }
      if !succeeded {
        if number > call.maxAttempts {
          NoMoreAttempts(Now(request), call, number, last, envs(number - 1));
          FlownLanded(GivenUp(Now(request)), call, engine.Value(), envs, number - 1);
        } else {
          FlownLanded(GivenUp(Now(request)), call, engine.Value(), envs, number);
        }
        request.state, request.problem := FAILED, Some(Exhausted(|request.attempts|));
        return None;
      }
      error := Verify(request, call, engine, envs, number);
    }

    /** An attempt that has ended goes on record, and its row out of the table of running commands. */
    method Record(request: InstallationRequest, number: int, result: T.CommandResult)
      returns (category: Option<T.CommandStatus>)
      modifies this`runningCommands, request
      ensures category == if result.status == T.COMPLETED then None else Some(result.status)
      ensures Now(request) == old(Now(request)).(entry := None, request := old(request.Value()).(
                                attempts := old(request.attempts) + [Attempt(number, result.exitCode, category)]))
      ensures OtherEntriesKept(old(runningCommands), request.id)
    {
      runningCommands := runningCommands - {request.id};
      category := if result.status != T.COMPLETED then Some(result.status) else None;
      request.attempts := request.attempts + [Attempt(number, result.exitCode, category)];
    }

    /** The head of the loop's body: the command is built, the policy asked and the row of running commands written. */
    method Submit(request: InstallationRequest, call: Call, number: int, last: Option<T.CommandStatus>, env: Env)
      returns (command: Option<T.CommandRequest>, error: Option<Error>)
      requires request.plan.Some? && number <= call.maxAttempts
      modifies this`runningCommands, request
      ensures NextAttempt(old(Now(request)), call, number, last, env) ==
              Now(request).(error := error,
                            flight := if command.None? then Landed else Attempting(number, last, command.value))
      ensures command.Some? ==> error.None? && request.plan == old(request.plan)
      ensures OtherEntriesKept(old(runningCommands), request.id)
    {
      hide InstallCommand, Evaluate;
      var plan := request.plan.value;
      var argv := InstallCommand(call.interpreter, plan.manager, plan.packageName, plan.version);
      if argv.None? {
        return None, Some(InvalidCommand);
      }
      var decision := Decision(request.Value(), INSTALL_ACTION, plan.riskLevel, call.target, env.now);
      if decision.verdict == DENY {
        request.state, request.problem := BLOCKED, Some(Denied(decision.reasons));
        return None, None;
      }
      var approvedByUser := decision.verdict == ALLOW || request.approvedBy.Some?;
      runningCommands := runningCommands[request.id := env.command];
      return Some(T.CommandRequest(env.command, call.session, argv.value, decision, approvedByUser)), None;
    }

    method Verify(request: InstallationRequest, call: Call, engine: T.TerminalEngine, envs: nat -> Env, k: nat)
      returns (error: Option<Error>)
      requires request.plan.Some?
      modifies request, engine
      ensures Arrived(Flown(ConfirmationSent(old(Now(request)), call, envs(k)), call, old(engine.Value()), envs, k),
                      request, engine, error)
    {
      hide T.Executed, InstallCommand, VerificationCommand, Evaluate, Evaluated;
      request.state := VERIFYING;
      var plan := request.plan.value;
      var argv := VerificationCommand(call.interpreter, plan.manager, plan.packageName, call.entrypoint);
      if argv.None? {
        return Some(InvalidCommand);
      }
      var decision := Decision(request.Value(), VERIFY_ACTION, LOW, call.target, envs(k).now);
      var result := engine.Execute(
        T.CommandRequest(envs(k).command, call.session, argv.value, decision, decision.verdict == ALLOW),
        envs(k).world);
      if result.None? {
        return Some(EngineRaised);
      }
      var verification := Evaluated(result.value);
      request.verification := Some(verification);
      if verification.verified {
        request.state := INSTALLED;
      } else {
        request.state, request.problem := ROLLBACK_REQUIRED, Some(Unconfirmed);
      }
      return None;
    }
  }
}
