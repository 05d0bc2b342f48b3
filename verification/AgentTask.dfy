/** One agent task: what every operation of the orchestrator makes of it, as a function of its value. What the services
    and the reasoner do is input. */
module AgentTask {
  import opened Prelude
  import opened AgentModels
  import opened AgentRecovery
  import opened Text
  import T = Terminal

  /** `AgentBudgetConfig` */
  datatype Budget = Budget(
    maxDuration: Time, maxActions: int, maxRetries: int, maxInstallations: int, maxModelCalls: int, maxConcurrent: int)

  datatype Reply =
    | Fine | TaskNotFound | InvalidTransition | NotWaiting | ConcurrentLimit | BudgetExceeded | ServiceRaised

  /** A task after an operation, and how the operation ended. */
  datatype Stepped = Stepped(task: Task, reply: Reply)

  // --- Input -------------------------------------------------------------------------------------------------------

  /** `targetText` is how the target argument prints when it is not a text. */
  datatype Decision = Decision(
    actionType: ActionType, requiresApproval: bool, capability: Option<string>, tool: Option<string>,
    arguments: map<string, Json>, targetText: string, nextAction: string, verificationPlan: seq<string>,
    reasoningSummary: string, confidence: real)

  /** `Fails` is a reasoning error; `Breaks` stands for any other exception before a decision is there. */
  datatype Reasoning = Decides(decision: Decision) | Fails(message: string) | Breaks

  datatype Discovery = Candidates(names: seq<string>) | DiscoveryRaises

  datatype Installing =
    | Refused(message: string)
    | Ended(installed: bool, state: string, message: string)
    | InstallationRaises

  datatype Diagnosing = Denied(message: string) | Ran(result: T.CommandResult) | EngineRaises

  /** What the services would answer, were they called. `environment.None?` means that the inspection raises. */
  datatype Services = Services(
    environment: Option<string>, discovery: Discovery, toolRegistered: bool, installation: Installing,
    diagnostic: Diagnosing,
    proposal: Option<string>)

  /** Fresh identifiers. */
  datatype Ids = Ids(action: Uuid, evidence: Uuid, error: Uuid, proposal: Uuid, recovery: Uuid)

  datatype Input = Input(now: Time, ids: Ids, hasScope: bool, reasoning: Reasoning, services: Services)

  datatype Op =
    | Pause(at: Time)
    | Resume(at: Time)
    | Cancel(at: Time)
    | Clarify(at: Time, answer: string, evidence: Uuid)
    | ApproveAction(at: Time)
    | RejectAction(at: Time, reason: string)
    | Step(input: Input)

  // --- Life cycle --------------------------------------------------------------------------------------------------

  function Saved(t: Task, now: Time): Task {
    t.(updatedAt := now)
  }

  /** The task ends. */
  function Closed(t: Task, phase: Phase, now: Time): Task {
    Saved(t.(phase := phase, completedAt := Some(now)), now)
  }

  function FirstPhase(h: Header): Phase {
    if h.authorizationStatus != "AUTHORIZED" then Phase.WAITING_FOR_AUTHORIZATION else PLANNING
  }

  function Created(h: Header, now: Time): Task {
    Task(h, FirstPhase(h),
         [], map[], map[], [], [], [], [], [], [], [], map[], 0.0, [], None, NOT_REQUIRED, None, NONE, None,
         0, 0, 0, map[], None, now, None)
  }

  function Unanswered(unknowns: seq<string>, answer: string): seq<string> {
    if unknowns == [] then []
    else (if Contains(Lower(answer), Lower(unknowns[0])) then [] else [unknowns[0]]) + Unanswered(unknowns[1..], answer)
  }

  function IndexOf(actions: seq<Action>, id: Uuid): (i: Option<nat>)
    ensures i.Some? ==> i.value < |actions| && actions[i.value].id == id
                        && forall j :: 0 <= j < i.value ==> actions[j].id != id
    ensures i.None? ==> forall j :: 0 <= j < |actions| ==> actions[j].id != id
  {
    if actions == [] then None
    else if actions[0].id == id then Some(0)
    else
      match IndexOf(actions[1..], id)
      case Some(i) => Some(i + 1)
      case None => None
  }

  function Paused(t: Task, now: Time): Stepped {
    if IsTerminal(t) then Stepped(t, InvalidTransition)
    else Stepped(Saved(t.(phase := PAUSED), now), Fine)
  }

  function Resumed(t: Task, now: Time): Stepped {
    if t.phase != PAUSED then Stepped(t, InvalidTransition)
    else Stepped(Saved(t.(phase := PLANNING), now), Fine)
  }

  function Cancelled(t: Task, now: Time): Stepped {
    if IsTerminal(t) then Stepped(t, Fine)
    else Stepped(Closed(t.(cancellationState := CancellationState.CANCELLED), Phase.CANCELLED, now), Fine)
  }

  function Clarified(t: Task, now: Time, answer: string, evidence: Uuid): Stepped {
    if t.phase != Phase.WAITING_FOR_AUTHORIZATION then Stepped(t, InvalidTransition)
    else Stepped(AnswerTaken(t, now, answer,
                             Evidence(evidence, OBSERVATION, "User clarification: " + answer, None, now)), Fine)
  }

  function AnswerTaken(t: Task, now: Time, answer: string, note: Evidence): Task {
    Saved(t.(observations := t.observations + [note], clarificationQuestion := None,
             unknowns := Unanswered(t.unknowns, answer), phase := PLANNING), now)
  }

  function ActionApproved(t: Task, now: Time): Stepped {
    if t.phase != Phase.WAITING_FOR_APPROVAL || t.pendingActionId.None? then Stepped(t, NotWaiting)
    else
      match IndexOf(t.actions, t.pendingActionId.value)
      case None => Stepped(t, InvalidTransition)
      case Some(i) => Stepped(WithApproval(t, i, now), Fine)
  }

  function WithApproval(t: Task, i: nat, now: Time): Task
    requires i < |t.actions|
  {
    Saved(t.(actions := t.actions[i := t.actions[i].(approvalState := APPROVED)], approvalState := APPROVED,
             phase := PREPARING), now)
  }

  function ActionRejected(t: Task, now: Time, reason: string): Stepped {
    if t.phase != Phase.WAITING_FOR_APPROVAL || t.pendingActionId.None? then Stepped(t, NotWaiting)
    else
      match IndexOf(t.actions, t.pendingActionId.value)
      case None => Stepped(t, InvalidTransition)
      case Some(i) => Stepped(Closed(WithRejection(t, i, "Rejected: " + reason), Phase.BLOCKED, now), Fine)
  }

  function WithRejection(t: Task, i: nat, summary: string): Task
    requires i < |t.actions|
  {
    t.(actions := t.actions[i := t.actions[i].(approvalState := REJECTED, resultSummary := Some(summary))],
       approvalState := REJECTED, pendingActionId := None)
  }

  // --- Gate --------------------------------------------------------------------------------------------------------

  datatype Gate = OutOfScope(message: string) | Disallowed(reason: string) | Allowed(requiresApproval: bool)

  function TargetArgument(d: Decision): Json {
    if "target" in d.arguments then d.arguments["target"] else JNull
  }

  function Printed(j: Json, otherwise: string): string {
    if j.JText? then j.text else otherwise
  }

  /** Whether the decision names a target other than the task's own. */
  predicate LeavesScope(h: Header, d: Decision) {
    && Truthy(TargetArgument(d))
    && h.target.Some? && h.target.value != ""
    && Lower(Strip(Printed(TargetArgument(d), d.targetText))) != Lower(Strip(h.target.value))
  }

  function Gated(h: Header, d: Decision): Gate {
    if IsExecution(d.actionType) && h.authorizationStatus != "AUTHORIZED" then
      Disallowed("Authorization status is '" + h.authorizationStatus + "', not AUTHORIZED.")
    else if LeavesScope(h, d) then
      OutOfScope("Decision names target '" + Printed(TargetArgument(d), d.targetText) + "', outside the task's target.")
    else
      Allowed(d.requiresApproval || IsExecution(d.actionType))
  }

  /** The action as it is recorded; a disallowed one is recorded too, with the reason. */
  function BuiltAction(d: Decision, g: Gate, id: Uuid, now: Time): Action
    requires !g.OutOfScope?
  {
    var needed := g.Disallowed? || g.requiresApproval;
    Action(id, d.actionType, TargetArgument(d), d.capability, d.tool, d.arguments, needed,
           if needed then ApprovalState.PENDING else NOT_REQUIRED, d.nextAction, JoinWith("; ", d.verificationPlan),
           d.reasoningSummary, d.confidence, None, None, now, None)
  }

  // --- One step ----------------------------------------------------------------------------------------------------

  /** The first budget, in the order of the checks, that is used up. */
  function ExceededBudget(t: Task, b: Budget, now: Time): Option<string> {
    if t.actionCount >= b.maxActions then Some("Maximum action budget reached.")
    else if t.header.startedAt.Some? && now - t.header.startedAt.value >= b.maxDuration then
      Some("Maximum task duration reached.")
    else if t.modelCallCount >= b.maxModelCalls then Some("Maximum model call budget reached.")
    else None
  }

  predicate Waits(t: Task) {
    t.phase in {Phase.PAUSED, Phase.WAITING_FOR_APPROVAL, Phase.WAITING_FOR_AUTHORIZATION}
  }

  function Blocked(t: Task, reason: string, now: Time): Task {
    Closed(t.(nextAction := Some(reason)), Phase.BLOCKED, now)
  }

  function BlockedWithError(t: Task, e: AgentError, reason: string, now: Time): Task {
    Blocked(t.(errors := t.errors + [e]), reason, now)
  }

  function Advanced(t: Task, b: Budget, x: Input): Stepped {
    if IsTerminal(t) || Waits(t) then Stepped(t, Fine)
    else if t.phase == PREPARING && t.pendingActionId.Some? then PendingExecuted(t, b, x)
    else if ExceededBudget(t, b, x.now).Some? then
      Stepped(Blocked(t, ExceededBudget(t, b, x.now).value, x.now), Fine)
    else
      match x.reasoning
      case Breaks => Stepped(t, ServiceRaised)
      case Fails(message) =>
        Stepped(BlockedWithError(t, AgentError(x.ids.error, None, "invalid_decision", message, x.now),
                                 "Reasoning failed: " + message, x.now), Fine)
      case Decides(d) => Taken(t.(modelCallCount := t.modelCallCount + 1), d, b, x)
  }

  /** The approved action is taken off the desk and executed. */
  function PendingExecuted(t: Task, b: Budget, x: Input): Stepped
    requires t.pendingActionId.Some?
  {
    match IndexOf(t.actions, t.pendingActionId.value)
    case None => Stepped(t, InvalidTransition)
    case Some(i) => Executed(t.(pendingActionId := None), i, b, x)
  }

  /** A decision arrived. */
  function Taken(t: Task, d: Decision, b: Budget, x: Input): Stepped {
    var g := Gated(t.header, d);
    if g.OutOfScope? then
      Stepped(BlockedWithError(t, AgentError(x.ids.error, None, "out_of_scope", g.message, x.now), g.message, x.now),
              Fine)
    else
      var action := BuiltAction(d, g, x.ids.action, x.now);
      var recorded := ActionRecorded(t, action);
      var last := |t.actions|;
      if g.Disallowed? then Stepped(AuthorizationAsked(recorded, last, g.reason, x.now), Fine)
      else if action.requiresApproval then Stepped(ApprovalAsked(recorded, last, x.now), Fine)
      else Executed(recorded, last, b, x)
  }

  function ActionRecorded(t: Task, action: Action): (r: Task)
    ensures |r.actions| == |t.actions| + 1
  {
    t.(actions := t.actions + [action], actionCount := t.actionCount + 1)
  }

  function AuthorizationAsked(t: Task, i: nat, reason: string, now: Time): Task
    requires i < |t.actions|
  {
    Saved(t.(actions := t.actions[i := t.actions[i].(resultSummary := Some(reason))],
             phase := Phase.WAITING_FOR_AUTHORIZATION, clarificationQuestion := Some(reason)), now)
  }

  function ApprovalAsked(t: Task, i: nat, now: Time): Task
    requires i < |t.actions|
  {
    Saved(t.(phase := Phase.WAITING_FOR_APPROVAL, pendingActionId := Some(t.actions[i].id),
             approvalState := ApprovalState.PENDING), now)
  }

  // --- Executing an action -----------------------------------------------------------------------------------------

  /** How an action went. `Finished` leaves the step at once; `Raised` leaves it by an exception. */
  datatype Outcome =
    | Done(task: Task)
    | Failed(task: Task, failure: FailureClass, message: string)
    | Finished(task: Task)
    | Raised(reply: Reply)

  function PhaseAfter(a: ActionType): Phase {
    match a
    case ANALYZE_OUTPUT => ANALYZING
    case VERIFY_FINDING => VERIFYING
    case RESEARCH_TOOL => RESEARCHING
    case _ => OBSERVING
  }

  function Executed(t: Task, i: nat, b: Budget, x: Input): Stepped
    requires i < |t.actions|
  {
    var s := Saved(t.(phase := EXECUTING), x.now);
    Settled(s, Performed(s, i, b, x), i, b, x)
  }

  /** From an outcome to the end of the step; `s` is the task as it was saved before the action ran. */
  function Settled(s: Task, o: Outcome, i: nat, b: Budget, x: Input): Stepped
    requires !o.Raised? ==> i < |o.task.actions|
  {
    match o
    case Raised(reply) => Stepped(s, reply)
    case Finished(u) => Stepped(Saved(u, x.now), Fine)
    case Failed(u, f, message) => Stepped(Recovered(u, i, f, message, b, x), Fine)
    case Done(u) => Stepped(Concluded(u, i, x.now), Fine)
  }

  function Concluded(t: Task, i: nat, now: Time): Task
    requires i < |t.actions|
  {
    Saved(t.(actions := t.actions[i := t.actions[i].(completedAt := Some(now))],
             confidence := t.actions[i].confidence,
             phase := PhaseAfter(t.actions[i].actionType)), now)
  }

  function Performed(t: Task, i: nat, b: Budget, x: Input): (o: Outcome)
    requires i < |t.actions|
    ensures !o.Raised? ==> |o.task.actions| == |t.actions|
  {
    match t.actions[i].actionType
    case CHECK_ENVIRONMENT => EnvironmentChecked(t, i, x)
    case DISCOVER_TARGET => TargetDiscovered(t, i, x)
    case RESEARCH_TOOL => ToolResearched(t, i, x)
    case INSTALL_TOOL => ToolInstalled(t, i, b, x)
    case RUN_DIAGNOSTIC => DiagnosticRun(t, i, x)
    case COLLECT_INFORMATION => DiagnosticRun(t, i, x)
    case ANALYZE_OUTPUT => OutputAnalyzed(t, i, x)
    case VERIFY_FINDING => FindingVerified(t, i, x)
    case ASK_USER => Finished(UserAsked(t, i))
    case WAIT_FOR_APPROVAL => Finished(ApprovalAwaited(t, i))
    case GENERATE_REPORT => Finished(Completed(t, i, x))
    case COMPLETE_TASK => Finished(Completed(t, i, x))
  }

  function Summarized(t: Task, i: nat, summary: string): Task
    requires i < |t.actions|
  {
    t.(actions := t.actions[i := t.actions[i].(resultSummary := Some(summary))])
  }

  function Observed(t: Task, i: nat, x: Input, summary: string): Task
    requires i < |t.actions|
  {
    Summarized(t, i, summary)
    .(observations := t.observations + [Evidence(x.ids.evidence, OBSERVATION, summary, Some(t.actions[i].id), x.now)])
  }

  function UserAsked(t: Task, i: nat): Task
    requires i < |t.actions|
  {
    Summarized(t, i, "Awaiting user clarification.")
    .(clarificationQuestion := Some(t.actions[i].expectedResult), phase := Phase.WAITING_FOR_AUTHORIZATION)
  }

  function ApprovalAwaited(t: Task, i: nat): Task
    requires i < |t.actions|
  {
    t.(phase := Phase.WAITING_FOR_APPROVAL, pendingActionId := Some(t.actions[i].id))
  }

  function Completed(t: Task, i: nat, x: Input): Task
    requires i < |t.actions|
  {
    t.(actions := t.actions[i := t.actions[i].(resultSummary := Some("Task marked complete."),
                                               completedAt := Some(x.now))],
       phase := Phase.COMPLETED, completedAt := Some(x.now))
  }

  function EnvironmentChecked(t: Task, i: nat, x: Input): (o: Outcome)
    requires i < |t.actions|
    ensures !o.Raised? ==> |o.task.actions| == |t.actions|
  {
    match x.services.environment
    case None => Raised(ServiceRaised)
    case Some(summary) => Done(Observed(t, i, x, summary))
  }

  function TargetDiscovered(t: Task, i: nat, x: Input): (o: Outcome)
    requires i < |t.actions|
    ensures !o.Raised? ==> |o.task.actions| == |t.actions|
  {
    if t.header.target.None? || t.header.target.value == "" then Failed(t, INVALID_ARGUMENT, "No target is known yet.")
    else
      var kind := t.header.targetType;
      var kindText := if kind.Some? && kind.value != "" then kind.value else "unknown type";
      Done(Observed(t, i, x, "Target confirmed: " + t.header.target.value + " (" + kindText + ")."))
  }

  function ToolResearched(t: Task, i: nat, x: Input): (o: Outcome)
    requires i < |t.actions|
    ensures !o.Raised? ==> |o.task.actions| == |t.actions|
  {
    var capability := if t.actions[i].capability.Some? then t.actions[i].capability.value else "";
    match x.services.discovery
    case DiscoveryRaises => Raised(ServiceRaised)
    case Candidates(names) =>
      if names == [] then Failed(t, TOOL_UNAVAILABLE, "No candidates found for '" + capability + "'.")
      else
        Done(Observed(t.(toolCapabilities := t.toolCapabilities[capability := names]), i, x,
                      "Found candidate(s) for '" + capability + "': " + JoinWith(", ", names)))
  }

  function ToolInstalled(t: Task, i: nat, b: Budget, x: Input): (o: Outcome)
    requires i < |t.actions|
    ensures !o.Raised? ==> |o.task.actions| == |t.actions|
  {
    var tool := t.actions[i].tool;
    if tool.None? || tool.value == "" then Failed(t, INVALID_ARGUMENT, "No tool name specified.")
    else if t.installationCount >= b.maxInstallations then Raised(BudgetExceeded)
    else if !x.services.toolRegistered then Failed(t, TOOL_UNAVAILABLE, "Tool '" + tool.value + "' is not registered.")
    else if !x.hasScope then Failed(t, POLICY_RESTRICTION, "No target scope available for installation.")
    else
      match x.services.installation
      case Refused(message) => Failed(t, POLICY_RESTRICTION, message)
      case InstallationRaises => Raised(ServiceRaised)
      case Ended(_, _, _) => InstallationRecorded(t, i, tool.value, x)
  }

  function InstallationRecorded(t: Task, i: nat, name: string, x: Input): (o: Outcome)
    requires i < |t.actions| && x.services.installation.Ended?
    ensures !o.Raised? ==> |o.task.actions| == |t.actions|
  {
    var end := x.services.installation;
    var u := t.(installationCount := t.installationCount + 1,
                installationState := t.installationState[name := end.state]);
    if !end.installed then Failed(u, TOOL_UNAVAILABLE, end.message)
    else Done(Observed(u.(selectedTools := u.selectedTools + [name]), i, x, "Installed and verified '" + name + "'."))
  }

  function DiagnosticRun(t: Task, i: nat, x: Input): (o: Outcome)
    requires i < |t.actions|
    ensures !o.Raised? ==> |o.task.actions| == |t.actions|
  {
    if !x.hasScope then Failed(t, POLICY_RESTRICTION, "No target scope available for execution.")
    else
      match x.services.diagnostic
      case Denied(message) => Failed(t, POLICY_RESTRICTION, message)
      case EngineRaises => Raised(ServiceRaised)
      case Ran(r) =>
        if r.status != T.COMPLETED then
          Failed(t, Classified(r.status == T.TIMEOUT, r.status == T.REJECTED, r.exitCode, r.stderr),
                 if r.errorMessage.Some? then r.errorMessage.value else "Diagnostic failed.")
        else
          var stdout := if r.stdout.Some? then r.stdout.value else "";
          var preview := if stdout != "" then Strip(stdout) else "(no output)";
          Done(Observed(t.(outputs := t.outputs + [stdout]), i, x, "Diagnostic completed: " + preview))
  }

  function OutputAnalyzed(t: Task, i: nat, x: Input): (o: Outcome)
    requires i < |t.actions|
    ensures !o.Raised? ==> |o.task.actions| == |t.actions|
  {
    if t.observations == [] then Failed(t, UNEXPECTED_OUTPUT, "Nothing to analyze yet.")
    else
      var summary := "Based on: " + t.observations[|t.observations| - 1].summary;
      var finding := Evidence(x.ids.evidence, FINDING, summary, Some(t.actions[i].id), x.now);
      Done(Summarized(t, i, summary).(findings := t.findings + [finding], evidence := t.evidence + [finding]))
  }

  /** The last finding that is not verified. */
  function LastPending(findings: seq<Evidence>): (k: Option<nat>)
    ensures k.Some? ==> k.value < |findings| && findings[k.value].kind == FINDING
                        && forall j :: k.value < j < |findings| ==> findings[j].kind != FINDING
    ensures k.None? ==> forall j :: 0 <= j < |findings| ==> findings[j].kind != FINDING
  {
    if findings == [] then None
    else if findings[|findings| - 1].kind == FINDING then Some(|findings| - 1)
    else LastPending(findings[..|findings| - 1])
  }

  function Summaries(es: seq<Evidence>): seq<string> {
    if es == [] then [] else [es[0].summary] + Summaries(es[1..])
  }

  /** `VerificationEngine.verify`: without corroboration a finding stays a finding. */
  function Promoted(finding: Evidence, corroboration: seq<string>, now: Time): Evidence {
    if corroboration == [] then finding
    else finding.(kind := VERIFIED_FINDING, createdAt := now,
                  summary := finding.summary + " | verified by: " + JoinWith("; ", corroboration))
  }

  function ReplacedById(findings: seq<Evidence>, e: Evidence): (r: seq<Evidence>)
    ensures |r| == |findings|
    ensures forall k :: 0 <= k < |r| ==> r[k] == if findings[k].id == e.id then e else findings[k]
  {
    if findings == [] then []
    else [if findings[0].id == e.id then e else findings[0]] + ReplacedById(findings[1..], e)
  }

  function LastThree(es: seq<Evidence>): seq<Evidence> {
    es[Max(0, |es| - 3)..]
  }

  function FindingVerified(t: Task, i: nat, x: Input): (o: Outcome)
    requires i < |t.actions|
    ensures !o.Raised? ==> |o.task.actions| == |t.actions|
  {
    match LastPending(t.findings)
    case None => Failed(t, UNEXPECTED_OUTPUT, "No finding to verify.")
    case Some(k) =>
      var verified := Promoted(t.findings[k], Summaries(LastThree(t.observations)), x.now);
      Done(Summarized(t, i, verified.summary)
           .(findings := ReplacedById(t.findings, verified),
             evidence := t.evidence + [verified],
             verificationResults := t.verificationResults[verified.id := verified.kind == VERIFIED_FINDING]))
  }

  // --- Recovery ----------------------------------------------------------------------------------------------------

  function AskReason(f: FailureClass): string {
    "'" + FailureText(f) + "' likely needs a different tool/capability choice."
  }

  function Proposal(x: Input, action: Uuid, f: FailureClass, kind: string): Recovery {
    Recovery(x.ids.proposal, action, FailureText(f), "proposed:" + kind, "pending", x.now)
  }

  function Attempted(x: Input, action: Uuid, f: FailureClass, strategy: string): Recovery {
    Recovery(x.ids.recovery, action, FailureText(f), strategy, "pending", x.now)
  }

  function ErrorNoted(t: Task, i: nat, f: FailureClass, message: string, x: Input): (u: Task)
    requires i < |t.actions|
    ensures |u.actions| == |t.actions|
  {
    t.(actions := t.actions[i := t.actions[i].(errorCategory := Some(FailureText(f)), resultSummary := Some(message))],
       errors := t.errors + [AgentError(x.ids.error, Some(t.actions[i].id), FailureText(f), message, x.now)])
  }

  /** The failure on record: on the action, among the errors, and with a healing proposal if there is one. */
  function Noted(t: Task, i: nat, f: FailureClass, message: string, x: Input): (u: Task)
    requires i < |t.actions|
    ensures |u.actions| == |t.actions|
  {
    var u := ErrorNoted(t, i, f, message, x);
    if x.services.proposal.None? then u
    else u.(recoveryAttempts := u.recoveryAttempts + [Proposal(x, u.actions[i].id, f, x.services.proposal.value)])
  }

  function Recovered(t: Task, i: nat, f: FailureClass, message: string, b: Budget, x: Input): Task
    requires i < |t.actions|
  {
    var u := Noted(t, i, f, message, x);
    match Decide(u, b.maxRetries, u.actions[i].actionType, f)
    case RETRY => Retried(u, i, f, x)
    case ASK => UserConsulted(u, i, f, x)
    case FAIL => GivenUp(u, x)
  }

  function Retried(t: Task, i: nat, f: FailureClass, x: Input): Task
    requires i < |t.actions|
  {
    Saved(RetryCounted(t, t.actions[i].actionType, f)
          .(recoveryAttempts := t.recoveryAttempts + [Attempted(x, t.actions[i].id, f, "retry")], phase := RECOVERING),
          x.now)
  }

  function RetryCounted(t: Task, key: ActionType, f: FailureClass): (u: Task)
    ensures u.recoveryAttempts == t.recoveryAttempts && u.actions == t.actions
  {
    t.(retryCountByAction := t.retryCountByAction[ActionText(key) := RetryCount(t.retryCountByAction, key) + 1],
       lastErrorSignature := Some(Signature(key, f)))
  }

  function UserConsulted(t: Task, i: nat, f: FailureClass, x: Input): Task
    requires i < |t.actions|
  {
    Saved(t.(recoveryAttempts := t.recoveryAttempts + [Attempted(x, t.actions[i].id, f, "ask_user")],
             clarificationQuestion := Some(AskReason(f)),
             phase := Phase.WAITING_FOR_AUTHORIZATION), x.now)
  }

  function GivenUp(t: Task, x: Input): Task {
    Closed(t, Phase.FAILED, x.now)
  }

  // --- Operations --------------------------------------------------------------------------------------------------

  function Apply(t: Task, b: Budget, op: Op): Stepped {
    match op
    case Pause(now) => Paused(t, now)
    case Resume(now) => Resumed(t, now)
    case Cancel(now) => Cancelled(t, now)
    case Clarify(now, answer, evidence) => Clarified(t, now, answer, evidence)
    case ApproveAction(now) => ActionApproved(t, now)
    case RejectAction(now, reason) => ActionRejected(t, now, reason)
    case Step(x) => Advanced(t, b, x)
  }
}
