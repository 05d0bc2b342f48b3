/** Orchestrator, installation service and terminal engine together: whatever reasoners, operators, services and
    processes do, every process that is started was decided on, authorised and, where that is called for, approved. */
module AgentSystem {
  import opened Prelude
  import opened Policy
  import opened AgentModels
  import opened AgentRecovery
  import opened AgentTask
  import opened AgentInvariants
  import opened AgentControl
  import opened AgentSafety
  import T = Terminal
  import ToolTrust
  import C = CommandTemplates
  import I = Installation
  import Runs = InstallationRuns
  import Launches = InstallationLaunches

  /** The name under which the orchestrator approves installations. */
  const AGENT := "agent(user-approved)"

  datatype System = System(tasks: map<Uuid, Task>, installer: Runs.Installer)

  /** What a step meets on the installer's side. `session.None?` means that no session could be opened. */
  datatype InstallRun = InstallRun(
    request: Uuid, available: seq<C.PackageManager>, policyNow: Time, scopeNow: Time, session: Option<Uuid>,
    envs: nat -> I.Env)

  datatype DiagnosticRun = DiagnosticRun(action: Uuid, command: Uuid, at: Time, session: Option<Uuid>, world: T.World)

  datatype StepInput = StepInput(
    now: Time, ids: Ids, scope: Option<TargetScope>, platform: string, reasoning: Reasoning,
    environment: Option<string>,
    discovery: Discovery, proposal: Option<string>, install: InstallRun, diagnostic: DiagnosticRun)

  datatype Event =
    | Serve(e: Runs.Event)
    | Create(header: Header, at: Time)
    | Operate(id: Uuid, op: Op)
    | AgentStep(id: Uuid, input: StepInput)

  // --- The services a step calls -----------------------------------------------------------------------------------

  /** The registered tool of that name. */
  ghost function ToolNamed(tools: ToolTrust.Registry, name: string): Option<Uuid> {
    if i :| i in tools && tools[i].card.name == name then Some(i) else None
  }

  /** The step's input before the installer or the engine has been asked. */
  ghost function Asked(t: Task, s: System, x: StepInput, name: string): Input {
    Input(x.now, x.ids, x.scope.Some?, x.reasoning,
          Services(x.environment, x.discovery, ToolNamed(s.installer.tools, name).Some?, InstallationRaises,
                   EngineRaises,
                   x.proposal))
  }

  /** The calls `_do_install_tool` makes: request, approve if that is what the request waits for, open a session,
      start. */
  function RequestEvents(tool: Uuid, x: StepInput): seq<Runs.Event>
    requires x.scope.Some?
  {
    [Runs.Ask(I.Asking(x.install.request, tool, x.scope.value, x.platform, Some("agent"), x.install.available,
                       x.install.policyNow, x.install.scopeNow))]
  }

  function ApproveEvents(r: I.Request): seq<Runs.Event> {
    if r.state == I.WAITING_FOR_APPROVAL then [Runs.Approve(r.id, AGENT)] else []
  }

  function StartEvents(x: StepInput): seq<Runs.Event>
    requires x.scope.Some? && x.install.session.Some?
  {
    [Runs.SetSession(x.install.session.value, T.READY),
     Runs.Start(x.install.request, x.install.session.value, x.scope.value, x.install.envs(0))]
  }

  /** The answers the engine gives to the started call. */
  function AnswerEvents(s: Runs.Installer, x: StepInput): seq<Runs.Event> {
    var id := x.install.request;
    if id in s.legs && id in s.calls && (s.legs[id].request.plan.Some? || s.legs[id].flight.Landed?)
    then Runs.Answers(id, s.legs[id], s.calls[id], s.engine, x.install.envs, 0) else []
  }

  datatype Installed = Installed(after: Runs.Installer, outcome: Installing)

  function StateText(s: I.State): string {
    match s
    case DISCOVERED => "DISCOVERED"
    case REVIEWING => "REVIEWING"
    case DEPENDENCIES_CHECKING => "DEPENDENCIES_CHECKING"
    case WAITING_FOR_APPROVAL => "WAITING_FOR_APPROVAL"
    case PREPARING => "PREPARING"
    case INSTALLING => "INSTALLING"
    case VERIFYING => "VERIFYING"
    case INSTALLED => "INSTALLED"
    case FAILED => "FAILED"
    case BLOCKED => "BLOCKED"
    case CANCELLED => "CANCELLED"
    case ROLLBACK_REQUIRED => "ROLLBACK_REQUIRED"
  }

  /** One installation on behalf of an agent, request id being new. */
  function Install(s: Runs.Installer, tool: Uuid, x: StepInput): Installed
    requires x.scope.Some?
  {
    var id := x.install.request;
    var s1 := Runs.Run(s, RequestEvents(tool, x));
    if id in s.legs || id !in s1.legs then Installed(s, InstallationRaises)
    else if s1.legs[id].request.state == I.BLOCKED then Installed(s1, Refused("Installation blocked."))
    else
      var s2 := Runs.Run(s1, ApproveEvents(s1.legs[id].request));
      if x.install.session.None? || id !in s2.legs then Installed(s2, InstallationRaises)
      else
        var s3 := Runs.Run(s2, StartEvents(x));
        var s4 := Runs.Run(s3, AnswerEvents(s3, x));
        if id !in s4.legs || s4.legs[id].error.Some? then Installed(s4, InstallationRaises)
        else
          var end := s4.legs[id].request.state;
          Installed(s4, Ended(end == I.INSTALLED, StateText(end), "Installation ended in " + StateText(end) + "."))
  }

  datatype Diagnosis = Diagnosis(after: Runs.Installer, outcome: Diagnosing)

  function DiagnosticEvent(x: StepInput, session: Uuid): Runs.Event
    requires x.scope.Some?
  {
    Runs.Diagnose(x.diagnostic.action, x.scope.value, x.diagnostic.command, session, true, x.diagnostic.at,
                  x.diagnostic.world)
  }

  /** One diagnostic on behalf of an agent. */
  function Diagnose(s: Runs.Installer, x: StepInput): Diagnosis
    requires x.scope.Some?
  {
    var d := x.diagnostic;
    var decision := Evaluate(ActionRequest(d.action, DIAGNOSTIC_ACTION, LOW, x.scope.value), d.at);
    if decision.verdict == DENY then Diagnosis(s, Denied(JoinWith("; ", decision.reasons)))
    else if d.session.None? then Diagnosis(s, EngineRaises)
    else
      var ready := Runs.Step(s, Runs.SetSession(d.session.value, T.READY));
      var e := DiagnosticEvent(x, d.session.value);
      var run := Runs.Diagnosed(ready, e);
      Diagnosis(Runs.Step(ready, e),
                if run.Some? && run.value.result.Some? then Ran(run.value.result.value) else EngineRaises)
  }

  // What these calls are, as events of the installer.

  function InstallEvents(s: Runs.Installer, tool: Uuid, x: StepInput): seq<Runs.Event>
    requires x.scope.Some?
  {
    var id := x.install.request;
    var s1 := Runs.Run(s, RequestEvents(tool, x));
    if id in s.legs || id !in s1.legs then []
    else if s1.legs[id].request.state == I.BLOCKED then RequestEvents(tool, x)
    else
      var approvals := ApproveEvents(s1.legs[id].request);
      var s2 := Runs.Run(s1, approvals);
      if x.install.session.None? || id !in s2.legs then RequestEvents(tool, x) + approvals
      else RequestEvents(tool, x) + approvals + StartEvents(x) + AnswerEvents(Runs.Run(s2, StartEvents(x)), x)
  }

  function DiagnoseEvents(x: StepInput): seq<Runs.Event>
    requires x.scope.Some?
  {
    var d := x.diagnostic;
    var decision := Evaluate(ActionRequest(d.action, DIAGNOSTIC_ACTION, LOW, x.scope.value), d.at);
    if decision.verdict == DENY || d.session.None? then []
    else [Runs.SetSession(d.session.value, T.READY), DiagnosticEvent(x, d.session.value)]
  }

  // --- The system's step -------------------------------------------------------------------------------------------

  /** The action a step would execute. */
  function ReachedAction(t: Task, b: Budget, x: Input): Option<Action> {
    var i := Reached(t, b, Step(x));
    if i.Some? && i.value < |Prepared(t, x).actions| then Some(Prepared(t, x).actions[i.value]) else None
  }

  predicate AsksInstaller(t: Task, b: Budget, a: Action, x: Input) {
    && a.actionType == INSTALL_TOOL && a.tool.Some? && a.tool.value != "" && t.installationCount < b.maxInstallations
    && x.services.toolRegistered && x.hasScope
  }

  predicate AsksEngine(a: Action, x: Input) {
    (a.actionType == RUN_DIAGNOSTIC || a.actionType == COLLECT_INFORMATION) && x.hasScope
  }

  ghost function Driven(s: System, b: Budget, id: Uuid, x: StepInput): System
    requires id in s.tasks
  {
    var t := s.tasks[id];
    var blind := Asked(t, s, x, "");
    var a := ReachedAction(t, b, blind);
    if a.None? then s.(tasks := s.tasks[id := Apply(t, b, Step(blind)).task])
    else
      var name := if a.value.tool.Some? then a.value.tool.value else "";
      var asked := Asked(t, s, x, name);
      if AsksInstaller(t, b, a.value, asked) then
        var done := Install(s.installer, ToolNamed(s.installer.tools, name).value, x);
        var input := asked.(services := asked.services.(installation := done.outcome));
        System(s.tasks[id := Apply(t, b, Step(input)).task], done.after)
      else if AsksEngine(a.value, asked) then
        var done := Diagnose(s.installer, x);
        var input := asked.(services := asked.services.(diagnostic := done.outcome));
        System(s.tasks[id := Apply(t, b, Step(input)).task], done.after)
      else s.(tasks := s.tasks[id := Apply(t, b, Step(asked)).task])
  }

  ghost function Next(s: System, b: Budget, e: Event): System {
    match e
    case Serve(call) => s.(installer := Runs.Step(s.installer, call))
    case Create(h, now) =>
      if |Active(s.tasks)| >= b.maxConcurrent || h.id in s.tasks then s
      else s.(tasks := s.tasks[h.id := Created(h, now)])
    case Operate(id, op) =>
      if id in s.tasks && !op.Step? then s.(tasks := s.tasks[id := Apply(s.tasks[id], b, op).task]) else s
    case AgentStep(id, x) => if id in s.tasks then Driven(s, b, id, x) else s
  }

  ghost function Run(s: System, b: Budget, events: seq<Event>): System
    decreases |events|
  {
    if events == [] then s else Run(Next(s, b, events[0]), b, events[1..])
  }

  // --- What the tasks have the installer do ------------------------------------------------------------------------

  ghost function DrivenEvents(s: System, b: Budget, id: Uuid, x: StepInput): seq<Runs.Event>
    requires id in s.tasks
  {
    var t := s.tasks[id];
    var a := ReachedAction(t, b, Asked(t, s, x, ""));
    if a.None? then []
    else
      var name := if a.value.tool.Some? then a.value.tool.value else "";
      var asked := Asked(t, s, x, name);
      if AsksInstaller(t, b, a.value, asked) then
          InstallEvents(s.installer, ToolNamed(s.installer.tools, name).value, x)
      else if AsksEngine(a.value, asked) then DiagnoseEvents(x)
      else []
  }

  ghost function CallsOf(s: System, b: Budget, e: Event): seq<Runs.Event> {
    match e
    case Serve(call) => [call]
    case AgentStep(id, x) => if id in s.tasks then DrivenEvents(s, b, id, x) else []
    case _ => []
  }

  /** All that happens at the installer and the engine during a run, in order. */
  ghost function Calls(s: System, b: Budget, events: seq<Event>): seq<Runs.Event>
    decreases |events|
  {
    if events == [] then [] else CallsOf(s, b, events[0]) + Calls(Next(s, b, events[0]), b, events[1..])
  }

  /** The action of a task on whose behalf an installation was requested. */
  datatype Grant = Grant(task: Uuid, action: nat)

  ghost function NewGrants(s: System, b: Budget, e: Event): map<Uuid, Grant> {
    if !e.AgentStep? || e.id !in s.tasks then map[]
    else
      var t := s.tasks[e.id];
      var blind := Asked(t, s, e.input, "");
      var a := ReachedAction(t, b, blind);
      if a.None? || e.input.install.request in s.installer.legs then map[]
      else
        var name := if a.value.tool.Some? then a.value.tool.value else "";
        if AsksInstaller(t, b, a.value, Asked(t, s, e.input, name))
        then map[e.input.install.request := Grant(e.id, Reached(t, b, Step(blind)).value)] else map[]
  }

  /** The requests made on behalf of tasks during a run, after those of `before`. */
  ghost function Grants(s: System, before: map<Uuid, Grant>, b: Budget, events: seq<Event>): map<Uuid, Grant>
    decreases |events|
  {
    if events == [] then before else Grants(Next(s, b, events[0]), before + NewGrants(s, b, events[0]), b, events[1..])
  }
}
