/** What an agent task consists of. */
module AgentModels {
  import opened Prelude

  /** The names of the fields of a snapshot and of the entries of its lists. */
  datatype Key =
    | Id | Objective | UserRequest | TargetKey | TargetType | AuthorizationStatus | TargetId | Scope | PhaseKey
    | CurrentSubtaskId | Subtasks | SelectedTools | ToolCapabilities | InstallationState | ExecutionState | Actions
    | Observations | Findings | EvidenceKey | Outputs | Errors | RecoveryAttempts | VerificationResults | ConfidenceKey
    | Assumptions | Unknowns | NextAction | ApprovalStateKey | PendingActionId | CancellationStateKey
    | ClarificationQuestion | ActionCount | ModelCallCount | InstallationCount | RetryCountByAction | LastErrorSignature
    | CreatedAt | UpdatedAt | StartedAt | CompletedAt
    | Kind | Summary | SourceActionId | ActionTypeKey | Capability | ToolKey | Parameters | RequiresApproval
    | ExpectedResult | VerificationRequirement | ReasoningSummary | ResultSummary | ErrorCategory
    | Description | CategoryKey | Status | DependsOn | ActionId | Message | StrategyKey | OutcomeKey

  /** JSON values. A time or an identifier written as text is kept as such, and so are the known field names of a
      record. */
  datatype Json =
    | JNull
    | JBool(flag: bool)
    | JInt(whole: int)
    | JNumber(number: real)
    | JText(text: string)
    | JTime(time: Time)
    | JId(id: Uuid)
    | JList(items: seq<Json>)
    | JObject(fields: map<string, Json>)
    | JById(entries: map<Uuid, Json>)
    | JRecord(record: map<Key, Json>)

  /** Python's truth value. */
  predicate Truthy(j: Json) {
    match j
    case JNull => false
    case JBool(b) => b
    case JInt(n) => n != 0
    case JNumber(x) => x != 0.0
    case JText(s) => s != ""
    case JTime(_) => true
    case JId(_) => true
    case JList(items) => items != []
    case JObject(fields) => fields != map[]
    case JById(entries) => entries != map[]
    case JRecord(record) => record != map[]
  }

  datatype Phase =
    | CREATED | UNDERSTANDING | RESEARCHING | PLANNING | WAITING_FOR_AUTHORIZATION | WAITING_FOR_APPROVAL | PREPARING
    | EXECUTING | OBSERVING | ANALYZING | VERIFYING | RECOVERING | PAUSED | CANCELLED | COMPLETED | FAILED | BLOCKED

  datatype ApprovalState = NOT_REQUIRED | PENDING | APPROVED | REJECTED

  datatype CancellationState = NONE | REQUESTED | CANCELLED

  datatype SubtaskStatus = PENDING | IN_PROGRESS | COMPLETED | BLOCKED | FAILED

  datatype EvidenceKind = FACT | OBSERVATION | ASSUMPTION | UNKNOWN | FINDING | VERIFIED_FINDING

  datatype ActionType =
    | DISCOVER_TARGET | CHECK_ENVIRONMENT | RESEARCH_TOOL | INSTALL_TOOL | RUN_DIAGNOSTIC | COLLECT_INFORMATION
    | ANALYZE_OUTPUT | VERIFY_FINDING | GENERATE_REPORT | ASK_USER | WAIT_FOR_APPROVAL | COMPLETE_TASK

  const TERMINAL_PHASES := {Phase.CANCELLED, Phase.COMPLETED, Phase.FAILED, Phase.BLOCKED}

  /** The actions that may change the world: never without authorisation and approval. */
  predicate IsExecution(t: ActionType) {
    t == RUN_DIAGNOSTIC || t == INSTALL_TOOL
  }

  datatype Evidence = Evidence(id: Uuid, kind: EvidenceKind, summary: string, source: Option<Uuid>, createdAt: Time)

  datatype Subtask = Subtask(
    id: Uuid, description: string, category: string, status: SubtaskStatus, dependsOn: seq<Uuid>)

  datatype Action = Action(
    id: Uuid, actionType: ActionType, target: Json, capability: Option<string>, tool: Option<string>,
    parameters: map<string, Json>, requiresApproval: bool, approvalState: ApprovalState, expectedResult: string,
    verificationRequirement: string, reasoningSummary: string, confidence: real, resultSummary: Option<string>,
    errorCategory: Option<string>, createdAt: Time, completedAt: Option<Time>)

  datatype AgentError = AgentError(id: Uuid, actionId: Option<Uuid>, category: string, message: string, createdAt: Time)

  datatype Recovery = Recovery(
    id: Uuid, actionId: Uuid, category: string, strategy: string, outcome: string, createdAt: Time)

  /** What the orchestrator never changes once a task exists. */
  datatype Header = Header(
    id: Uuid, objective: string, userRequest: string, target: Option<string>, targetType: Option<string>,
    authorizationStatus: string, targetId: Option<Uuid>, scope: seq<string>, currentSubtaskId: Option<Uuid>,
    subtasks: seq<Subtask>, executionState: string, assumptions: seq<string>, createdAt: Time, startedAt: Option<Time>)

  /** The value of a task. */
  datatype Task = Task(
    header: Header,
    phase: Phase,
    selectedTools: seq<string>,
    toolCapabilities: map<string, seq<string>>,
    installationState: map<string, string>,
    actions: seq<Action>,
    observations: seq<Evidence>,
    findings: seq<Evidence>,
    evidence: seq<Evidence>,
    outputs: seq<string>,
    errors: seq<AgentError>,
    recoveryAttempts: seq<Recovery>,
    verificationResults: map<Uuid, bool>,
    confidence: real,
    unknowns: seq<string>,
    nextAction: Option<string>,
    approvalState: ApprovalState,
    pendingActionId: Option<Uuid>,
    cancellationState: CancellationState,
    clarificationQuestion: Option<string>,
    actionCount: int,
    modelCallCount: int,
    installationCount: int,
    retryCountByAction: map<string, int>,
    lastErrorSignature: Option<string>,
    updatedAt: Time,
    completedAt: Option<Time>)

  predicate IsTerminal(t: Task) {
    t.phase in TERMINAL_PHASES
  }

  function Active(tasks: map<Uuid, Task>): set<Uuid> {
    set id | id in tasks && !IsTerminal(tasks[id])
  }

  /** `action_type.value` */
  function ActionText(t: ActionType): string {
    match t
    case DISCOVER_TARGET => "DISCOVER_TARGET"
    case CHECK_ENVIRONMENT => "CHECK_ENVIRONMENT"
    case RESEARCH_TOOL => "RESEARCH_TOOL"
    case INSTALL_TOOL => "INSTALL_TOOL"
    case RUN_DIAGNOSTIC => "RUN_DIAGNOSTIC"
    case COLLECT_INFORMATION => "COLLECT_INFORMATION"
    case ANALYZE_OUTPUT => "ANALYZE_OUTPUT"
    case VERIFY_FINDING => "VERIFY_FINDING"
    case GENERATE_REPORT => "GENERATE_REPORT"
    case ASK_USER => "ASK_USER"
    case WAIT_FOR_APPROVAL => "WAIT_FOR_APPROVAL"
    case COMPLETE_TASK => "COMPLETE_TASK"
  }

  /** The inverse of `ActionText`; texts of no action type are refused. */
  function ParseAction(s: string): Option<ActionType> {
    if s == "DISCOVER_TARGET" then Some(DISCOVER_TARGET)
    else if s == "CHECK_ENVIRONMENT" then Some(CHECK_ENVIRONMENT)
    else if s == "RESEARCH_TOOL" then Some(RESEARCH_TOOL)
    else if s == "INSTALL_TOOL" then Some(INSTALL_TOOL)
    else if s == "RUN_DIAGNOSTIC" then Some(RUN_DIAGNOSTIC)
    else if s == "COLLECT_INFORMATION" then Some(COLLECT_INFORMATION)
    else if s == "ANALYZE_OUTPUT" then Some(ANALYZE_OUTPUT)
    else if s == "VERIFY_FINDING" then Some(VERIFY_FINDING)
    else if s == "GENERATE_REPORT" then Some(GENERATE_REPORT)
    else if s == "ASK_USER" then Some(ASK_USER)
    else if s == "WAIT_FOR_APPROVAL" then Some(WAIT_FOR_APPROVAL)
    else if s == "COMPLETE_TASK" then Some(COMPLETE_TASK)
    else None
  }

  lemma ParseActionText(t: ActionType)
    ensures ParseAction(ActionText(t)) == Some(t)
  {
  }

  lemma ActionTextInjective(a: ActionType, b: ActionType)
    ensures ActionText(a) == ActionText(b) ==> a == b
  {
    hide ActionText, ParseAction;
    ParseActionText(a);
    ParseActionText(b);
  }

  /** Action types spell no colon, so a signature can be taken apart again. */
  lemma NoColon(t: ActionType)
    ensures ':' !in ActionText(t)
  {
  }
}
