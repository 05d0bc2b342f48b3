/** What the installer has the terminal engine start: on whose authority, and that nothing cleared is ever turned
    away. */
module InstallationLaunches {
  import opened Prelude
  import opened Policy
  import opened CommandTemplates
  import Reading = CommandReading
  import opened Installation
  import opened InstallationRuns
  import T = Terminal
  import ToolTrust

  // --- Nothing cleared is refused ----------------------------------------------------------------------------------

  predicate Fits(l: Leg) {
    l.flight.Landed? || T.ValidArgv(l.flight.command.argv)
  }

  predicate AllFit(s: Installer) {
    && |s.interpreter| <= T.MAX_ARG_LENGTH
    && (forall id :: id in s.calls ==> s.calls[id].interpreter == s.interpreter)
    && (forall id :: id in s.legs ==> Fits(s.legs[id]))
  }

  lemma NextAttemptFits(l: Leg, call: Call, number: int, last: Option<T.CommandStatus>, env: Env)
    requires l.request.plan.Some? && |call.interpreter| <= T.MAX_ARG_LENGTH
    ensures Fits(NextAttempt(l, call, number, last, env))
  {
    hide InstallCommand, T.ValidArgv, Evaluate;
    var plan := l.request.plan.value;
    InstallCommandIsValid(call.interpreter, plan.manager, plan.packageName, plan.version);
  }

  lemma BegunFits(l: Leg, tool: Option<ToolTrust.Tool>, call: Call, env: Env)
    requires Fits(l) && |call.interpreter| <= T.MAX_ARG_LENGTH
    ensures Fits(Begun(l, tool, call, env))
  {
    hide NextAttempt, T.ValidArgv;
    if l.request.plan.Some? {
      NextAttemptFits(l.(request := l.request.(session := Some(call.session), state := INSTALLING)), call, 1, None,
                      env);
    }
  }

  lemma ReturnedFits(l: Leg, call: Call, result: Option<T.CommandResult>, env: Env)
    requires !l.flight.Landed? && l.request.plan.Some? && |call.interpreter| <= T.MAX_ARG_LENGTH
    ensures Fits(Returned(l, call, result, env))
  {
    hide NextAttempt, T.ValidArgv, VerificationCommand, Evaluate, Evaluated;
    var plan := l.request.plan.value;
    VerificationCommandIsValid(call.interpreter, plan.manager, plan.packageName, call.entrypoint);
    if l.flight.Attempting? && result.Some? && result.value.status != T.COMPLETED {
      var category := Some(result.value.status);
      var attempt := Attempt(l.flight.number, result.value.exitCode, category);
      var recorded := l.(flight := Landed, entry := None,
                         request := l.request.(attempts := l.request.attempts + [attempt]));
      NextAttemptFits(recorded, call, l.flight.number + 1, category, env);
    }
  }

  lemma StepFits(s: Installer, e: Event)
    requires AllFit(s)
    ensures AllFit(Step(s, e))
  {
    hide Begun, Returned, Asked, T.Executed, ToolTrust.Apply, T.ValidArgv, Diagnosed;
    if e.Start? && e.id in s.legs && s.legs[e.id].request.state == PREPARING {
      var tool := ToolTrust.Lookup(s.tools, s.legs[e.id].request.toolId);
      BegunFits(s.legs[e.id], tool, Started(s, e.id, e.session, e.target, e.env).calls[e.id], e.env);
    }
    if e.Return? && e.id in s.legs && e.id in s.calls && !s.legs[e.id].flight.Landed?
        && s.legs[e.id].request.plan.Some? {
      ReturnedFits(s.legs[e.id], s.calls[e.id], T.Executed(s.engine, s.legs[e.id].flight.command, e.world).result,
                   e.env);
    }
  }

  lemma {:induction false} RunFits(s: Installer, events: seq<Event>)
    requires AllFit(s)
    ensures AllFit(Run(s, events))
    decreases |events|
  {
    hide Step, AllFit;
    if events != [] {
      StepFits(s, events[0]);
      RunFits(Step(s, events[0]), events[1..]);
    }
  }

  /** An attempt the policy did not deny is never turned away for want of approval or for its arguments: given a usable
      session and a working directory, the engine runs it. The planner asks for approval exactly where the policy
      does. */
  lemma NeverRefused(s: Installer, events: seq<Event>, id: Uuid, world: T.World)
    requires s == Initial(s.maxAttempts, s.interpreter, s.engine.sessions) && |s.interpreter| <= T.MAX_ARG_LENGTH
    requires id in Run(s, events).legs && Run(s, events).legs[id].flight.Attempting?
    ensures var end := Run(s, events);
            var command := end.legs[id].flight.command;
            T.Launches(end.engine, command, world) <==>
            T.Active(T.Checked(end.engine, command.session, world.sessionIdle), command.session)
                && !world.directoryRefused
  {
    hide Step, T.ValidArgv, RequestSound, MayRetry, Cleared;
    RunFits(s, events);
    RunSound(s, events);
  }

  // --- On whose authority ------------------------------------------------------------------------------------------

  /** The step in which the service built the command with this id for request `id`: it met the clock `e.env.now`. */
  predicate Builds(e: Event, id: Uuid, command: Uuid) {
    (e.Start? || e.Return?) && e.id == id && e.env.command == command
  }

  predicate IsInstallArgv(r: Request, call: Call, argv: seq<string>) {
    && r.plan.Some?
    && Some(argv) ==
       InstallCommand(call.interpreter, r.plan.value.manager, r.plan.value.packageName, r.plan.value.version)
  }

  /** The install command of request `id`, on a decision about its own plan's risk and the call's own target. */
  predicate IsInstall(id: Uuid, r: Request, call: Call, c: T.CommandRequest, now: Time) {
    && IsInstallArgv(r, call, c.argv)
    && c.authorization == Evaluate(ActionRequest(id, INSTALL_ACTION, r.plan.value.riskLevel, call.target), now)
    && (c.approvedByUser ==> c.authorization.verdict == ALLOW || r.approvedBy.Some?)
  }

  /** The verification command of request `id`, on a decision of its own. */
  predicate IsVerification(id: Uuid, r: Request, call: Call, c: T.CommandRequest, now: Time) {
    && r.plan.Some?
    && Some(c.argv) ==
       VerificationCommand(call.interpreter, r.plan.value.manager, r.plan.value.packageName, call.entrypoint)
    && c.authorization == Evaluate(ActionRequest(id, VERIFY_ACTION, LOW, call.target), now)
  }

  predicate OrderedBy(e: Event, id: Uuid, r: Request, call: Call, c: T.CommandRequest) {
    && Builds(e, id, c.id) && c.session == call.session
    && (IsInstall(id, r, call, c, e.env.now) || IsVerification(id, r, call, c, e.env.now))
  }

  /** At event `j` the caller of request `id` named session and target of the call; who approved the request had done so
      before. */
  predicate Called(past: seq<Event>, j: nat, id: Uuid, r: Request, call: Call) {
    && j < |past| && past[j].Start? && past[j].id == id && past[j].session == call.session
    && past[j].target == call.target
    && (r.approvedBy.Some? ==> Approve(id, r.approvedBy.value) in past[..j])
  }

  /** What operators had made of the tool registry. */
  function ToolsAfter(past: seq<Event>): ToolTrust.Registry {
    if past == [] then map[]
    else
      var before, e := ToolsAfter(past[..|past| - 1]), past[|past| - 1];
      if e.ChangeTools? then ToolTrust.Apply(before, e.op).after else before
  }

  /** When the call was made, the request's tool was APPROVED, and had this entrypoint. */
  predicate Trusted(past: seq<Event>, r: Request, call: Call) {
    var tools := ToolsAfter(past);
    && r.toolId in tools && tools[r.toolId].trust == ToolTrust.APPROVED
    && tools[r.toolId].card.entrypoint == call.entrypoint
  }

  /** The request was called at event `j`, for a tool then trusted, and its command `c` built at event `k`. */
  predicate OrderedAt(past: seq<Event>, j: nat, k: nat, id: Uuid, r: Request, call: Call, c: T.CommandRequest) {
    && j <= k < |past| && Called(past, j, id, r, call) && Trusted(past[..j], r, call)
    && OrderedBy(past[k], id, r, call, c)
  }

  ghost predicate Ordered(past: seq<Event>, id: Uuid, r: Request, call: Call, c: T.CommandRequest) {
    exists j: nat, k: nat :: OrderedAt(past, j, k, id, r, call, c)
  }

  predicate ApproverRecorded(past: seq<Event>, id: Uuid, r: Request) {
    r.approvedBy.Some? ==> Approve(id, r.approvedBy.value) in past
  }

  /** The reviewed diagnostic, as event `e` asks for it. */
  predicate IsDiagnostic(e: Event, interpreter: string, c: T.CommandRequest) {
    && e.Diagnose? && c.id == e.command && c.session == e.session && c.argv == DiagnosticCommand(interpreter)
    && c.authorization == Evaluate(ActionRequest(e.action, DIAGNOSTIC_ACTION, LOW, e.target), e.at)
  }

  ghost predicate LaunchOrdered(past: seq<Event>, s: Installer, c: T.CommandRequest) {
    && Approves(c.authorization, c.approvedByUser)
    && ((exists id :: id in s.legs && id in s.calls && Ordered(past, id, s.legs[id].request, s.calls[id], c))
        || (exists e :: e in past && IsDiagnostic(e, s.interpreter, c)))
  }

  /** A request is called once, by a caller who named the call's session and target; what its call waits for was
      ordered. */
  ghost predicate LegOrdered(past: seq<Event>, s: Installer, id: Uuid)
    requires id in s.legs
  {
    var l := s.legs[id];
    && l.request.id == id
    && (l.request.state in {WAITING_FOR_APPROVAL, PREPARING} ==>
        l.request.plan.Some? && l.flight.Landed? && id !in s.calls)
    && ApproverRecorded(past, id, l.request)
    && (id in s.calls ==>
          l.request.state != WAITING_FOR_APPROVAL && exists j: nat :: Called(past, j, id, l.request, s.calls[id]))
    && (l.flight.Landed? || (id in s.calls && Ordered(past, id, l.request, s.calls[id], l.flight.command)))
    && (l.flight.Attempting? ==> IsInstallArgv(l.request, s.calls[id], l.flight.command.argv))
  }

  ghost predicate AllOrdered(past: seq<Event>, s: Installer) {
    && (forall id :: id in s.legs ==> LegOrdered(past, s, id))
    && (forall i :: 0 <= i < |s.engine.launches| ==> LaunchOrdered(past, s, s.engine.launches[i]))
    && (forall id :: id in s.calls ==> id in s.legs && s.calls[id].interpreter == s.interpreter)
    && s.tools == ToolsAfter(past)
  }

  // What one call does.

  /** A leg is landed, or waits for a command that the step at `e` built. */
  predicate Sends(e: Event, id: Uuid, l: Leg, call: Call) {
    l.flight.Landed? || (OrderedBy(e, id, l.request, call, l.flight.command)
                         && (l.flight.Attempting? ==> IsInstallArgv(l.request, call, l.flight.command.argv)))
  }

  lemma NextAttemptSends(e: Event, l: Leg, call: Call, number: int, last: Option<T.CommandStatus>)
    requires l.request.plan.Some? && l.flight.Landed?
    requires (e.Start? || e.Return?) && e.id == l.request.id
    ensures Sends(e, e.id, NextAttempt(l, call, number, last, e.env), call)
  {
    hide InstallCommand, Evaluate, VerificationCommand;
  }

  lemma BegunSends(e: Event, l: Leg, tool: Option<ToolTrust.Tool>, call: Call)
    requires e.Start? && e.id == l.request.id && l.request.state == PREPARING && l.flight.Landed?
    requires l.request.plan.Some?
    ensures Sends(e, e.id, Begun(l, tool, call, e.env), call)
    ensures Begun(l, tool, call, e.env).request.state !in {WAITING_FOR_APPROVAL, PREPARING}
    ensures !Begun(l, tool, call, e.env).flight.Landed? ==> tool.Some? && tool.value.trust == ToolTrust.APPROVED
  {
    hide InstallCommand, Evaluate, VerificationCommand, OrderedBy, IsInstallArgv;
    NextAttemptSends(e, l.(request := l.request.(session := Some(call.session), state := INSTALLING)), call, 1, None);
  }

  lemma ConfirmationSends(e: Event, l: Leg, call: Call)
    requires l.request.plan.Some? && l.flight.Landed? && e.Return? && e.id == l.request.id
    ensures Sends(e, e.id, ConfirmationSent(l, call, e.env), call)
  {
    hide InstallCommand, Evaluate, VerificationCommand;
  }

  lemma ReturnedSends(e: Event, l: Leg, call: Call, result: Option<T.CommandResult>)
    requires e.Return? && e.id == l.request.id && !l.flight.Landed? && l.request.plan.Some?
    ensures Sends(e, e.id, Returned(l, call, result, e.env), call)
  {
    hide NextAttempt, ConfirmationSent, Evaluated, OrderedBy, IsInstallArgv;
    if l.flight.Attempting? && result.Some? {
      var status := result.value.status;
      var category := if status == T.COMPLETED then None else Some(status);
      var attempt := Attempt(l.flight.number, result.value.exitCode, category);
      var recorded := l.(flight := Landed, entry := None,
                         request := l.request.(attempts := l.request.attempts + [attempt]));
      ConfirmationSends(e, recorded, call);
      NextAttemptSends(e, recorded, call, l.flight.number + 1, category);
    }
  }

  /** Requests never disappear, plans never change, approvers only while approval is waited for; and nobody starts
      over. */
  predicate Grows(a: Request, b: Request) {
    && a.id == b.id && a.plan == b.plan && a.toolId == b.toolId
    && (a.approvedBy == b.approvedBy || a.state == WAITING_FOR_APPROVAL)
    && (b.state == WAITING_FOR_APPROVAL ==> a.state == WAITING_FOR_APPROVAL)
    && (b.state == PREPARING ==> a.state in {WAITING_FOR_APPROVAL, PREPARING})
  }

  predicate AllGrow(a: map<Uuid, Leg>, b: map<Uuid, Leg>) {
    forall id :: id in a ==> id in b && Grows(a[id].request, b[id].request)
  }

  lemma CallsGrow(l: Leg, tool: Option<ToolTrust.Tool>, call: Call, result: Option<T.CommandResult>, env: Env)
    ensures Grows(l.request, Begun(l, tool, call, env).request)
    ensures !l.flight.Landed? && l.request.plan.Some? ==> Grows(l.request, Returned(l, call, result, env).request)
  {
    hide InstallCommand, VerificationCommand, Evaluate, Evaluated;
  }

  lemma StepGrows(s: Installer, e: Event)
    ensures AllGrow(s.legs, Step(s, e).legs)
  {
    hide Begun, Returned, Asked, T.Executed, ToolTrust.Apply, Diagnosed;
    if e.Start? && e.id in s.legs && s.legs[e.id].request.state == PREPARING {
      var tool := ToolTrust.Lookup(s.tools, s.legs[e.id].request.toolId);
      CallsGrow(s.legs[e.id], tool, Started(s, e.id, e.session, e.target, e.env).calls[e.id], None, e.env);
    }
    if e.Return? && e.id in s.legs && e.id in s.calls && !s.legs[e.id].flight.Landed?
        && s.legs[e.id].request.plan.Some? {
      CallsGrow(s.legs[e.id], None, s.calls[e.id], T.Executed(s.engine, s.legs[e.id].flight.command, e.world).result,
                e.env);
    }
  }

  lemma {:induction false} RunGrows(s: Installer, events: seq<Event>)
    ensures AllGrow(s.legs, Run(s, events).legs)
    decreases |events|
  {
    hide Step;
    if events != [] {
      StepGrows(s, events[0]);
      RunGrows(Step(s, events[0]), events[1..]);
    }
  }

  /** A call, once made, is on record for good. */
  lemma StepKeepsCalls(past: seq<Event>, s: Installer, e: Event)
    requires AllOrdered(past, s)
    ensures forall id :: id in s.calls ==> id in Step(s, e).calls && Step(s, e).calls[id] == s.calls[id]
    ensures Step(s, e).interpreter == s.interpreter
  {
    hide Begun, Returned, Asked, T.Executed, ToolTrust.Apply, Diagnosed, LaunchOrdered, Ordered, Called;
    if e.Start? && e.id in s.legs {
      assert LegOrdered(past, s, e.id);
    }
  }

  lemma CallStands(past: seq<Event>, e: Event, j: nat, id: Uuid, a: Request, b: Request, call: Call)
    requires Called(past, j, id, a, call) && a.approvedBy == b.approvedBy
    ensures Called(past + [e], j, id, b, call)
  {
    assert (past + [e])[..j] == past[..j];
  }

  lemma OrderStands(past: seq<Event>, e: Event, id: Uuid, a: Request, b: Request, call: Call, c: T.CommandRequest)
    requires Grows(a, b) && a.state != WAITING_FOR_APPROVAL && Ordered(past, id, a, call, c)
    ensures Ordered(past + [e], id, b, call, c)
  {
    hide Evaluate, InstallCommand, VerificationCommand, DiagnosticCommand, Called, ToolsAfter;
    var j: nat, k: nat :| OrderedAt(past, j, k, id, a, call, c);
    CallStands(past, e, j, id, a, b, call);
    assert (past + [e])[..j] == past[..j];
    assert (past + [e])[k] == past[k];
    assert OrderedAt(past + [e], j, k, id, b, call, c);
  }

  /** A command built in this very step. */
  lemma SendsOrdered(past: seq<Event>, e: Event, j: nat, id: Uuid, l: Leg, call: Call)
    requires Sends(e, id, l, call) && !l.flight.Landed? && Called(past + [e], j, id, l.request, call)
    requires j <= |past| && Trusted(past[..j], l.request, call)
    ensures Ordered(past + [e], id, l.request, call, l.flight.command)
  {
    hide OrderedBy, IsInstallArgv, Trusted;
    assert (past + [e])[..j] == past[..j];
    assert (past + [e])[|past|] == e;
    assert OrderedAt(past + [e], j, |past|, id, l.request, call, l.flight.command);
  }

  /** An approver is recorded by the event that names it. */
  lemma StepApprover(past: seq<Event>, s: Installer, e: Event, id: Uuid)
    requires id in s.legs && ApproverRecorded(past, id, s.legs[id].request)
    ensures id in Step(s, e).legs && ApproverRecorded(past + [e], id, Step(s, e).legs[id].request)
  {
    hide Begun, Returned, Asked, T.Executed, ToolTrust.Apply, Diagnosed, Grows;
    StepGrows(s, e);
    ApproverChanges(s, e, id);
    assert e in past + [e];
  }

  lemma ApproverChanges(s: Installer, e: Event, id: Uuid)
    requires id in s.legs && id in Step(s, e).legs
    ensures var was, now := s.legs[id].request.approvedBy, Step(s, e).legs[id].request.approvedBy;
            now == was || (now.Some? && e == Approve(id, now.value))
  {
    hide Begun, Returned, Asked, T.Executed, ToolTrust.Apply, Diagnosed;
    if e.Start? && e.id == id && s.legs[id].request.state == PREPARING {
      var tool := ToolTrust.Lookup(s.tools, s.legs[id].request.toolId);
      CallsGrow(s.legs[id], tool, Started(s, id, e.session, e.target, e.env).calls[id], None, e.env);
    }
    if e.Return? && e.id == id && id in s.calls && !s.legs[id].flight.Landed? && s.legs[id].request.plan.Some? {
      var x := T.Executed(s.engine, s.legs[id].flight.command, e.world);
      CallsKeepApprover(s.legs[id], s.calls[id], x.result, e.env);
    }
  }

  lemma CallsKeepApprover(l: Leg, call: Call, result: Option<T.CommandResult>, env: Env)
    requires !l.flight.Landed? && l.request.plan.Some?
    ensures Returned(l, call, result, env).request.approvedBy == l.request.approvedBy
  {
    hide InstallCommand, VerificationCommand, Evaluate, Evaluated;
  }

  /** A leg whose call, if any, is not concerned by the step. */
  lemma LegStands(past: seq<Event>, s: Installer, e: Event, id: Uuid)
    requires AllOrdered(past, s) && id in s.legs && id in Step(s, e).legs
    requires Step(s, e).legs[id].flight == s.legs[id].flight && (id in Step(s, e).calls <==> id in s.calls)
    ensures LegOrdered(past + [e], Step(s, e), id)
  {
    hide Step, LaunchOrdered, Ordered, Called, InstallCommand, ApproverRecorded;
    assert LegOrdered(past, s, id);
    StepGrows(s, e);
    StepKeepsCalls(past, s, e);
    StepApprover(past, s, e, id);
    if id in s.calls {
      var j: nat :| Called(past, j, id, s.legs[id].request, s.calls[id]);
      CallStands(past, e, j, id, s.legs[id].request, Step(s, e).legs[id].request, s.calls[id]);
      if !s.legs[id].flight.Landed? {
        OrderStands(past, e, id, s.legs[id].request, Step(s, e).legs[id].request, s.calls[id],
                    s.legs[id].flight.command);
      }
    }
  }

  lemma StartOrdered(past: seq<Event>, s: Installer, e: Event)
    requires AllOrdered(past, s) && e.Start? && e.id in s.legs && s.legs[e.id].request.state == PREPARING
    ensures LegOrdered(past + [e], Step(s, e), e.id)
  {
    hide Begun, OrderedBy, LaunchOrdered, IsInstallArgv, Grows, Ordered, ToolsAfter;
    assert LegOrdered(past, s, e.id);
    var tool := ToolTrust.Lookup(s.tools, s.legs[e.id].request.toolId);
    var call := Started(s, e.id, e.session, e.target, e.env).calls[e.id];
    BegunSends(e, s.legs[e.id], tool, call);
    CallsGrow(s.legs[e.id], tool, call, None, e.env);
    var l := Begun(s.legs[e.id], tool, call, e.env);
    GrowsMeans(s.legs[e.id].request, l.request);
    assert (past + [e])[..|past|] == past;
    assert Called(past + [e], |past|, e.id, l.request, call);
    assert past[..|past|] == past;
    if !l.flight.Landed? {
      SendsOrdered(past, e, |past|, e.id, l, call);
    }
  }

  lemma GrowsMeans(a: Request, b: Request)
    requires Grows(a, b)
    ensures b.id == a.id && b.plan == a.plan && b.toolId == a.toolId
        && (a.state != WAITING_FOR_APPROVAL ==> b.approvedBy == a.approvedBy)
    ensures b.state in {WAITING_FOR_APPROVAL, PREPARING} ==> a.state in {WAITING_FOR_APPROVAL, PREPARING}
    ensures b.state == WAITING_FOR_APPROVAL ==> a.state == WAITING_FOR_APPROVAL
  {
  }

  lemma ReturnOrdered(past: seq<Event>, s: Installer, e: Event)
    requires AllOrdered(past, s) && e.Return? && e.id in s.legs && e.id in s.calls && !s.legs[e.id].flight.Landed?
    requires s.legs[e.id].request.plan.Some?
    ensures LegOrdered(past + [e], Step(s, e), e.id)
  {
    hide Returned, OrderedBy, LaunchOrdered, IsInstallArgv, Grows, T.Executed, Called, ApproverRecorded, ToolsAfter;
    assert LegOrdered(past, s, e.id);
    var l, call := s.legs[e.id], s.calls[e.id];
    var result := T.Executed(s.engine, l.flight.command, e.world).result;
    ReturnedSends(e, l, call, result);
    CallsGrow(l, None, call, result, e.env);
    var m := Returned(l, call, result, e.env);
    GrowsMeans(l.request, m.request);
    StepApprover(past, s, e, e.id);
    var j: nat, k: nat :| OrderedAt(past, j, k, e.id, l.request, call, l.flight.command);
    CallStands(past, e, j, e.id, l.request, m.request, call);
    if !m.flight.Landed? {
      SendsOrdered(past, e, j, e.id, m, call);
    }
  }

  lemma AskOrdered(past: seq<Event>, s: Installer, e: Event)
    requires AllOrdered(past, s) && e.Ask? && e.asking.id !in s.legs
    ensures LegOrdered(past + [e], Step(s, e), e.asking.id)
  {
    hide LaunchOrdered, Ordered, Called, IsInstallArgv, Asked;
    AskedBegins(ToolTrust.Lookup(s.tools, e.asking.toolId), e.asking);
  }

  lemma AskedBegins(tool: Option<ToolTrust.Tool>, a: Asking)
    ensures var r := Asked(tool, a);
            r.id == a.id && r.approvedBy.None? && (r.state in {WAITING_FOR_APPROVAL, PREPARING} ==> r.plan.Some?)
  {
    hide ToolTrust.CheckReadiness, Preferred, Preference;
  }

  /** The steps that touch no flight: all but the start and the return of this very request. */
  lemma FlightKept(s: Installer, e: Event, id: Uuid)
    requires id in s.legs && !((e.Start? || e.Return?) && e.id == id)
    ensures id in Step(s, e).legs && Step(s, e).legs[id].flight == s.legs[id].flight
    ensures id in Step(s, e).calls <==> id in s.calls
  {
    hide Begun, Returned, Asked, T.Executed, ToolTrust.Apply, Diagnosed;
  }

  lemma NewLegsAreAsked(s: Installer, e: Event, id: Uuid)
    requires id !in s.legs && id in Step(s, e).legs
    ensures e.Ask? && e.asking.id == id
  {
    hide Begun, Returned, Asked, T.Executed, ToolTrust.Apply, Diagnosed;
  }

  lemma StepLegOrdered(past: seq<Event>, s: Installer, e: Event, id: Uuid)
    requires AllOrdered(past, s) && id in Step(s, e).legs
    ensures LegOrdered(past + [e], Step(s, e), id)
  {
    hide LegOrdered, AllOrdered, Asked, Started, Resumed, T.Executed, ToolTrust.Apply, Diagnosed;
    if id !in s.legs {
      NewLegsAreAsked(s, e, id);
      AskOrdered(past, s, e);
    } else if (e.Start? || e.Return?) && e.id == id {
      if e.Start? && s.legs[id].request.state == PREPARING {
        StartOrdered(past, s, e);
      } else if e.Return? && id in s.calls && !s.legs[id].flight.Landed? && s.legs[id].request.plan.Some? {
        ReturnOrdered(past, s, e);
      } else {
        LegStands(past, s, e, id);
      }
    } else {
      FlightKept(s, e, id);
      LegStands(past, s, e, id);
    }
  }

  /** A step lets the engine start at most one process: the one the returning call was waiting for, or a diagnostic. */
  lemma StepLaunches(s: Installer, e: Event)
    ensures var after := Step(s, e).engine.launches;
            || after == s.engine.launches
            || (e.Return? && e.id in s.legs && e.id in s.calls && !s.legs[e.id].flight.Landed?
                && var c := s.legs[e.id].flight.command;
                   Approves(c.authorization, c.approvedByUser) && after == s.engine.launches + [c])
            || (e.Diagnose? && |after| == |s.engine.launches| + 1 && after[..|s.engine.launches|] == s.engine.launches
                && var c := after[|s.engine.launches|];
                   Approves(c.authorization, c.approvedByUser) && IsDiagnostic(e, s.interpreter, c))
  {
    hide Begun, Returned, Asked, T.Executed, ToolTrust.Apply, Approves, Evaluate, DiagnosticCommand;
    assert s.engine.launches + [] == s.engine.launches;
    if e.Return? && e.id in s.legs && !s.legs[e.id].flight.Landed? {
      T.ExecutedGate(s.engine, s.legs[e.id].flight.command, e.world);
    } else if e.Diagnose? {
      var decision := Evaluate(ActionRequest(e.action, DIAGNOSTIC_ACTION, LOW, e.target), e.at);
      var command := T.CommandRequest(e.command, e.session, DiagnosticCommand(s.interpreter), decision, e.approved);
      T.ExecutedGate(s.engine, command, e.world);
    }
  }

  lemma NotWaiting(past: seq<Event>, s: Installer, id: Uuid)
    requires AllOrdered(past, s) && id in s.legs && id in s.calls
    ensures LegOrdered(past, s, id) && s.legs[id].request.state != WAITING_FOR_APPROVAL
  {
    hide LaunchOrdered, Ordered, Called, IsInstallArgv;
  }

  lemma LaunchStands(past: seq<Event>, s: Installer, e: Event, c: T.CommandRequest)
    requires AllOrdered(past, s) && LaunchOrdered(past, s, c)
    ensures LaunchOrdered(past + [e], Step(s, e), c)
  {
    hide Step, Ordered, Approves, LegOrdered, IsDiagnostic, Grows;
    StepGrows(s, e);
    StepKeepsCalls(past, s, e);
    if id :| id in s.legs && id in s.calls && Ordered(past, id, s.legs[id].request, s.calls[id], c) {
      NotWaiting(past, s, id);
      OrderStands(past, e, id, s.legs[id].request, Step(s, e).legs[id].request, s.calls[id], c);
    } else {
      var f :| f in past && IsDiagnostic(f, s.interpreter, c);
      assert f in past + [e];
    }
  }

  lemma NewLaunchOrdered(past: seq<Event>, s: Installer, e: Event)
    requires AllOrdered(past, s) && |Step(s, e).engine.launches| > |s.engine.launches|
    ensures |Step(s, e).engine.launches| == |s.engine.launches| + 1
    ensures LaunchOrdered(past + [e], Step(s, e), Step(s, e).engine.launches[|s.engine.launches|])
  {
    hide Step, Ordered, Approves, IsDiagnostic, Grows;
    StepLaunches(s, e);
    StepGrows(s, e);
    StepKeepsCalls(past, s, e);
    var c := Step(s, e).engine.launches[|s.engine.launches|];
    if e.Return? {
      NotWaiting(past, s, e.id);
      OrderStands(past, e, e.id, s.legs[e.id].request, Step(s, e).legs[e.id].request, s.calls[e.id], c);
    } else {
      assert e in past + [e];
    }
  }

  lemma LaunchesStand(past: seq<Event>, s: Installer, e: Event, i: nat)
    requires AllOrdered(past, s) && i < |Step(s, e).engine.launches|
    ensures LaunchOrdered(past + [e], Step(s, e), Step(s, e).engine.launches[i])
  {
    hide Step, LegOrdered, LaunchOrdered, Approves, IsDiagnostic;
    StepLaunches(s, e);
    if i < |s.engine.launches| {
      assert Step(s, e).engine.launches[i] == s.engine.launches[i];
      LaunchStands(past, s, e, s.engine.launches[i]);
    } else {
      NewLaunchOrdered(past, s, e);
    }
  }

  lemma StepOrdered(past: seq<Event>, s: Installer, e: Event)
    requires AllOrdered(past, s)
    ensures AllOrdered(past + [e], Step(s, e))
  {
    hide Step, LegOrdered, LaunchOrdered;
    var after := Step(s, e);
    forall id | id in after.legs
      ensures LegOrdered(past + [e], after, id)
    {
      StepLegOrdered(past, s, e, id);
    }
    forall i | 0 <= i < |after.engine.launches|
      ensures LaunchOrdered(past + [e], after, after.engine.launches[i])
    {
      LaunchesStand(past, s, e, i);
    }
    CallsHaveLegs(past, s, e);
    StepTools(past, s, e);
  }

  lemma StepTools(past: seq<Event>, s: Installer, e: Event)
    requires s.tools == ToolsAfter(past)
    ensures Step(s, e).tools == ToolsAfter(past + [e])
  {
    hide Begun, Returned, Asked, T.Executed, ToolTrust.Apply, Diagnosed;
    assert (past + [e])[..|past|] == past;
  }

  lemma CallsHaveLegs(past: seq<Event>, s: Installer, e: Event)
    requires AllOrdered(past, s)
    ensures var after := Step(s, e);
            forall id :: id in after.calls ==> id in after.legs && after.calls[id].interpreter == after.interpreter
  {
    hide Begun, Returned, Asked, T.Executed, ToolTrust.Apply, Diagnosed, LaunchOrdered, LegOrdered;
  }

  lemma {:induction false} RunOrdered(past: seq<Event>, s: Installer, events: seq<Event>)
    requires AllOrdered(past, s)
    ensures AllOrdered(past + events, Run(s, events))
    decreases |events|
  {
    hide Step, AllOrdered;
    if events == [] {
      assert past + events == past;
    } else {
      StepOrdered(past, s, events[0]);
      RunOrdered(past + [events[0]], Step(s, events[0]), events[1..]);
      assert past + [events[0]] + events[1..] == past + events;
    }
  }

  /** A launch on behalf of a request: the command that the service built for it in step `k`, in the call of step `j`,
      whose caller had named its target and session when the request's tool was APPROVED. The target was authorised when
      it was built; the decision is the policy's about this request, this target and this moment; and a command that
      changes the system is of low risk or this request had been approved, by the approver it names, before the call. */
  predicate RequestJustifies(events: seq<Event>, s: Installer, j: nat, k: nat, c: T.CommandRequest) {
    && j <= k < |events| && (events[k].Start? || events[k].Return?) && events[k].env.command == c.id
    && var id, now := events[k].id, events[k].env.now;
       && id in s.legs && id in s.calls
       && var r, call := s.legs[id].request, s.calls[id];
          && Called(events, j, id, r, call) && Trusted(events[..j], r, call)
          && c.session == call.session && IsAuthorized(call.target, now)
          && (|| (&& IsInstall(id, r, call, c, now) && ReadsAsInstall(r, call, c)
                  && (|| r.plan.value.riskLevel == LOW
                      || (r.approvedBy.Some? && Approve(id, r.approvedBy.value) in events[..j])))
              || (IsVerification(id, r, call, c, now) && ReadsAsQuestion(r, call, c)))
  }

  /** Read by its program's own grammar, the command installs exactly the plan's package. */
  predicate ReadsAsInstall(r: Request, call: Call, c: T.CommandRequest) {
    && r.plan.Some?
    && Reading.Read(call.interpreter, c.argv) ==
       Reading.Intended(r.plan.value.manager, r.plan.value.packageName, r.plan.value.version)
  }

  /** Read in the same way, the command asks the tool for its version, or the manager for the plan's package. */
  predicate ReadsAsQuestion(r: Request, call: Call, c: T.CommandRequest) {
    && r.plan.Some?
    && Reading.Read(call.interpreter, c.argv) ==
       if Reading.Asked(call.entrypoint) then Reading.AsksVersion(call.entrypoint.value)
       else Reading.Queries(r.plan.value.manager, r.plan.value.packageName)
  }

  /** Any other launch: the reviewed diagnostic, of low risk, as event `e` asked for it, its own target then
      authorised. */
  predicate DiagnosticJustifies(s: Installer, e: Event, c: T.CommandRequest) {
    && IsDiagnostic(e, s.interpreter, c) && IsAuthorized(e.target, e.at)
    && Reading.Read(s.interpreter, c.argv) == Reading.Diagnostic
  }

  lemma OrderReads(id: Uuid, r: Request, call: Call, c: T.CommandRequest, now: Time)
    ensures IsInstall(id, r, call, c, now) ==> ReadsAsInstall(r, call, c)
    ensures IsVerification(id, r, call, c, now) ==> ReadsAsQuestion(r, call, c)
  {
    hide Evaluate, InstallCommand, VerificationCommand, Reading.Read, Reading.Intended, Reading.IsName;
    if r.plan.Some? {
      var plan := r.plan.value;
      Reading.InstallRoundTrip(call.interpreter, plan.manager, plan.packageName, plan.version);
      Reading.VerificationRoundTrip(call.interpreter, plan.manager, plan.packageName, call.entrypoint);
    }
  }

  ghost predicate LaunchJustified(events: seq<Event>, s: Installer, c: T.CommandRequest) {
    || (exists j: nat, k: nat :: RequestJustifies(events, s, j, k, c))
    || (exists e :: e in events && DiagnosticJustifies(s, e, c))
  }

  lemma OrderJustifies(id: Uuid, r: Request, call: Call, c: T.CommandRequest, now: Time)
    requires IsInstall(id, r, call, c, now) || IsVerification(id, r, call, c, now)
    requires Approves(c.authorization, c.approvedByUser)
    ensures IsAuthorized(call.target, now)
    ensures IsInstall(id, r, call, c, now) ==> r.plan.value.riskLevel == LOW || r.approvedBy.Some?
  {
    hide Evaluate, IsAuthorized, InstallCommand, VerificationCommand;
    if IsInstall(id, r, call, c, now) {
      var asked := ActionRequest(id, INSTALL_ACTION, r.plan.value.riskLevel, call.target);
      TokenMeans(asked, now, c.approvedByUser);
      LowIsAllowed(asked, now);
    } else {
      TokenMeans(ActionRequest(id, VERIFY_ACTION, LOW, call.target), now, c.approvedByUser);
    }
  }

  lemma ApprovedBefore(events: seq<Event>, j: nat, id: Uuid, r: Request, call: Call)
    requires Called(events, j, id, r, call)
    ensures r.approvedBy.Some? ==> Approve(id, r.approvedBy.value) in events[..j]
  {
  }

  lemma OrderedJustified(events: seq<Event>, s: Installer, c: T.CommandRequest)
    requires AllOrdered(events, s) && LaunchOrdered(events, s, c)
    ensures LaunchJustified(events, s, c)
  {
    hide Evaluate, IsAuthorized, IsInstall, IsVerification, Approves, LegOrdered, ReadsAsInstall, ReadsAsQuestion,
         Reading.Read, Trusted, Called;
    if id :| id in s.legs && id in s.calls && Ordered(events, id, s.legs[id].request, s.calls[id], c) {
      var j: nat, k: nat :| OrderedAt(events, j, k, id, s.legs[id].request, s.calls[id], c);
      OrderJustifies(id, s.legs[id].request, s.calls[id], c, events[k].env.now);
      OrderReads(id, s.legs[id].request, s.calls[id], c, events[k].env.now);
      ApprovedBefore(events, j, id, s.legs[id].request, s.calls[id]);
      assert RequestJustifies(events, s, j, k, c);
    } else {
      var e :| e in events && IsDiagnostic(e, s.interpreter, c);
      TokenMeans(ActionRequest(e.action, DIAGNOSTIC_ACTION, LOW, e.target), e.at, c.approvedByUser);
      Reading.DiagnosticReads(s.interpreter);
      assert DiagnosticJustifies(s, e, c);
    }
  }

  /** Every process the engine ever started, over any run: an install or verification command of a request, or the
      reviewed diagnostic, each on the decision the policy gave about exactly that, for the target its own caller
      named. */
  lemma EveryLaunchJustified(s: Installer, events: seq<Event>, i: nat)
    requires s == Initial(s.maxAttempts, s.interpreter, s.engine.sessions)
    requires i < |Run(s, events).engine.launches|
    ensures LaunchJustified(events, Run(s, events), Run(s, events).engine.launches[i])
  {
    assert AllOrdered([], s);
    hide Step, Run, LaunchJustified, LaunchOrdered, LegOrdered;
    RunOrdered([], s, events);
    assert [] + events == events;
    OrderedJustified(events, Run(s, events), Run(s, events).engine.launches[i]);
  }
}
