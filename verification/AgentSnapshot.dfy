/** The snapshot that makes a task survive a restart: its JSON form, and reading it back. */
module AgentSnapshot {
  import opened Prelude
  import opened AgentModels

  // --- Texts of the enumerations -----------------------------------------------------------------------------------

  function PhaseText(p: Phase): string {
    match p
    case CREATED => "CREATED"
    case UNDERSTANDING => "UNDERSTANDING"
    case RESEARCHING => "RESEARCHING"
    case PLANNING => "PLANNING"
    case WAITING_FOR_AUTHORIZATION => "WAITING_FOR_AUTHORIZATION"
    case WAITING_FOR_APPROVAL => "WAITING_FOR_APPROVAL"
    case PREPARING => "PREPARING"
    case EXECUTING => "EXECUTING"
    case OBSERVING => "OBSERVING"
    case ANALYZING => "ANALYZING"
    case VERIFYING => "VERIFYING"
    case RECOVERING => "RECOVERING"
    case PAUSED => "PAUSED"
    case CANCELLED => "CANCELLED"
    case COMPLETED => "COMPLETED"
    case FAILED => "FAILED"
    case BLOCKED => "BLOCKED"
  }

  function ParsePhase(s: string): Option<Phase> {
    if s == "CREATED" then Some(Phase.CREATED)
    else if s == "UNDERSTANDING" then Some(UNDERSTANDING)
    else if s == "RESEARCHING" then Some(RESEARCHING)
    else if s == "PLANNING" then Some(PLANNING)
    else if s == "WAITING_FOR_AUTHORIZATION" then Some(Phase.WAITING_FOR_AUTHORIZATION)
    else if s == "WAITING_FOR_APPROVAL" then Some(Phase.WAITING_FOR_APPROVAL)
    else if s == "PREPARING" then Some(PREPARING)
    else if s == "EXECUTING" then Some(EXECUTING)
    else if s == "OBSERVING" then Some(OBSERVING)
    else ParseLatePhase(s)
  }

  function ParseLatePhase(s: string): Option<Phase> {
    if s == "ANALYZING" then Some(ANALYZING)
    else if s == "VERIFYING" then Some(Phase.VERIFYING)
    else if s == "RECOVERING" then Some(RECOVERING)
    else if s == "PAUSED" then Some(PAUSED)
    else if s == "CANCELLED" then Some(Phase.CANCELLED)
    else if s == "COMPLETED" then Some(Phase.COMPLETED)
    else if s == "FAILED" then Some(Phase.FAILED)
    else if s == "BLOCKED" then Some(Phase.BLOCKED)
    else None
  }

  lemma PhaseRoundTrip(p: Phase)
    ensures ParsePhase(PhaseText(p)) == Some(p)
  {
  }

  function ApprovalText(a: ApprovalState): string {
    match a
    case NOT_REQUIRED => "NOT_REQUIRED"
    case PENDING => "PENDING"
    case APPROVED => "APPROVED"
    case REJECTED => "REJECTED"
  }

  function ParseApproval(s: string): Option<ApprovalState> {
    if s == "NOT_REQUIRED" then Some(NOT_REQUIRED)
    else if s == "PENDING" then Some(ApprovalState.PENDING)
    else if s == "APPROVED" then Some(APPROVED)
    else if s == "REJECTED" then Some(REJECTED)
    else None
  }

  function CancellationText(c: CancellationState): string {
    match c
    case NONE => "NONE"
    case REQUESTED => "REQUESTED"
    case CANCELLED => "CANCELLED"
  }

  function ParseCancellation(s: string): Option<CancellationState> {
    if s == "NONE" then Some(NONE)
    else if s == "REQUESTED" then Some(REQUESTED)
    else if s == "CANCELLED" then Some(CancellationState.CANCELLED)
    else None
  }

  function StatusText(x: SubtaskStatus): string {
    match x
    case PENDING => "PENDING"
    case IN_PROGRESS => "IN_PROGRESS"
    case COMPLETED => "COMPLETED"
    case BLOCKED => "BLOCKED"
    case FAILED => "FAILED"
  }

  function ParseStatus(s: string): Option<SubtaskStatus> {
    if s == "PENDING" then Some(SubtaskStatus.PENDING)
    else if s == "IN_PROGRESS" then Some(IN_PROGRESS)
    else if s == "COMPLETED" then Some(SubtaskStatus.COMPLETED)
    else if s == "BLOCKED" then Some(SubtaskStatus.BLOCKED)
    else if s == "FAILED" then Some(SubtaskStatus.FAILED)
    else None
  }

  function KindText(k: EvidenceKind): string {
    match k
    case FACT => "FACT"
    case OBSERVATION => "OBSERVATION"
    case ASSUMPTION => "ASSUMPTION"
    case UNKNOWN => "UNKNOWN"
    case FINDING => "FINDING"
    case VERIFIED_FINDING => "VERIFIED_FINDING"
  }

  function ParseKind(s: string): Option<EvidenceKind> {
    if s == "FACT" then Some(FACT)
    else if s == "OBSERVATION" then Some(OBSERVATION)
    else if s == "ASSUMPTION" then Some(ASSUMPTION)
    else if s == "UNKNOWN" then Some(UNKNOWN)
    else if s == "FINDING" then Some(FINDING)
    else if s == "VERIFIED_FINDING" then Some(VERIFIED_FINDING)
    else None
  }

  lemma EnumsRoundTrip(a: ApprovalState, c: CancellationState, x: SubtaskStatus, k: EvidenceKind)
    ensures ParseApproval(ApprovalText(a)) == Some(a)
    ensures ParseCancellation(CancellationText(c)) == Some(c)
    ensures ParseStatus(StatusText(x)) == Some(x)
    ensures ParseKind(KindText(k)) == Some(k)
  {
  }

  // --- Reading single values: `None` stands for the exception the reader raises ------------------------------------

  /** `data[k]` and `data.get(k, default)`, with `default` given. */
  function Item(j: Json, k: Key, default: Option<Json>): Option<Json> {
    if !j.JRecord? then None else if k in j.record then Some(j.record[k]) else default
  }

  function TextAt(j: Json, k: Key, default: Option<string>): Option<string> {
    var x := Item(j, k, if default.Some? then Some(JText(default.value)) else None);
    if x.Some? && x.value.JText? then Some(x.value.text) else None
  }

  function OptTextAt(j: Json, k: Key): Option<Option<string>> {
    var x := Item(j, k, Some(JNull));
    if x.None? then None
    else if x.value.JNull? then Some(None)
    else if x.value.JText? then Some(Some(x.value.text))
    else None
  }

  function AsId(j: Json): Option<Uuid> {
    if j.JId? then Some(j.id) else None
  }

  function IdAt(j: Json, k: Key): Option<Uuid> {
    var x := Item(j, k, None);
    if x.Some? then AsId(x.value) else None
  }

  /** `UUID(x) if x else None` */
  function OptIdAt(j: Json, k: Key): Option<Option<Uuid>> {
    var x := Item(j, k, Some(JNull));
    if x.None? then None
    else if !Truthy(x.value) then Some(None)
    else if x.value.JId? then Some(Some(x.value.id)) else None
  }

  /** `_dt` */
  function OptTimeAt(j: Json, k: Key): Option<Option<Time>> {
    var x := Item(j, k, Some(JNull));
    if x.None? then None
    else if !Truthy(x.value) then Some(None)
    else if x.value.JTime? then Some(Some(x.value.time)) else None
  }

  function TimeAt(j: Json, k: Key): Option<Time> {
    var x := Item(j, k, None);
    if x.Some? && x.value.JTime? then Some(x.value.time) else None
  }

  function NumberAt(j: Json, k: Key, default: real): Option<real> {
    var x := Item(j, k, Some(JNumber(default)));
    if x.Some? && x.value.JNumber? then Some(x.value.number) else None
  }

  function IntAt(j: Json, k: Key, default: int): Option<int> {
    var x := Item(j, k, Some(JInt(default)));
    if x.Some? && x.value.JInt? then Some(x.value.whole) else None
  }

  function BoolAt(j: Json, k: Key, default: bool): Option<bool> {
    var x := Item(j, k, Some(JBool(default)));
    if x.Some? && x.value.JBool? then Some(x.value.flag) else None
  }

  function JsonAt(j: Json, k: Key): Option<Json> {
    Item(j, k, Some(JNull))
  }

  function PhaseAt(j: Json, k: Key): Option<Phase> {
    var s := TextAt(j, k, None);
    if s.Some? then ParsePhase(s.value) else None
  }

  function ActionTypeAt(j: Json, k: Key): Option<ActionType> {
    var s := TextAt(j, k, None);
    if s.Some? then ParseAction(s.value) else None
  }

  function KindAt(j: Json, k: Key): Option<EvidenceKind> {
    var s := TextAt(j, k, None);
    if s.Some? then ParseKind(s.value) else None
  }

  function StatusAt(j: Json, k: Key): Option<SubtaskStatus> {
    var s := TextAt(j, k, Some("PENDING"));
    if s.Some? then ParseStatus(s.value) else None
  }

  function ApprovalAt(j: Json, k: Key): Option<ApprovalState> {
    var s := TextAt(j, k, Some("NOT_REQUIRED"));
    if s.Some? then ParseApproval(s.value) else None
  }

  function CancellationAt(j: Json, k: Key): Option<CancellationState> {
    var s := TextAt(j, k, Some("NONE"));
    if s.Some? then ParseCancellation(s.value) else None
  }

  function DecodeAll<T>(items: seq<Json>, f: Json -> Option<T>): Option<seq<T>> {
    if items == [] then Some([])
    else
      match f(items[0])
      case None => None
      case Some(x) =>
        match DecodeAll(items[1..], f)
        case None => None
        case Some(xs) => Some([x] + xs)
  }

  function EncodeAll<T>(xs: seq<T>, g: T -> Json): seq<Json> {
    if xs == [] then [] else [g(xs[0])] + EncodeAll(xs[1..], g)
  }

  /** `data.get(k, [])`, element by element. */
  function ListAt<T>(j: Json, k: Key, f: Json -> Option<T>): Option<seq<T>> {
    var x := Item(j, k, Some(JList([])));
    if x.Some? && x.value.JList? then DecodeAll(x.value.items, f) else None
  }

  function AsText(j: Json): Option<string> {
    if j.JText? then Some(j.text) else None
  }

  /** `data.get(k) or []`, for a list of texts. */
  function TextsAt(j: Json, k: Key): Option<seq<string>> {
    var x := Item(j, k, Some(JNull));
    if x.None? then None
    else if !Truthy(x.value) then Some([])
    else AsTexts(x.value)
  }

  function AsTexts(j: Json): Option<seq<string>> {
    if j.JList? then DecodeAll(j.items, AsText) else None
  }

  /** `data.get(k) or {}` */
  function FieldsAt(j: Json, k: Key): Option<map<string, Json>> {
    var x := Item(j, k, Some(JNull));
    if x.None? then None
    else if !Truthy(x.value) then Some(map[])
    else if x.value.JObject? then Some(x.value.fields)
    else None
  }

  function TextListsAt(j: Json, k: Key): Option<map<string, seq<string>>> {
    var x := FieldsAt(j, k);
    if x.Some? && forall n :: n in x.value ==> AsTexts(x.value[n]).Some?
    then Some(map n | n in x.value :: AsTexts(x.value[n]).value) else None
  }

  function TextMapAt(j: Json, k: Key): Option<map<string, string>> {
    var x := FieldsAt(j, k);
    if x.Some? && forall n :: n in x.value ==> x.value[n].JText?
    then Some(map n | n in x.value :: x.value[n].text) else None
  }

  function IntMapAt(j: Json, k: Key): Option<map<string, int>> {
    var x := FieldsAt(j, k);
    if x.Some? && forall n :: n in x.value ==> x.value[n].JInt?
    then Some(map n | n in x.value :: x.value[n].whole) else None
  }

  function VerdictsAt(j: Json, k: Key): Option<map<Uuid, bool>> {
    var x := Item(j, k, Some(JNull));
    if x.None? then None
    else if !Truthy(x.value) then Some(map[])
    else if x.value.JById? && forall n :: n in x.value.entries ==> x.value.entries[n].JBool? then
      Some(map n | n in x.value.entries :: x.value.entries[n].flag)
    else None
  }

  // --- Writing single values ---------------------------------------------------------------------------------------

  function OptText(o: Option<string>): Json {
    if o.Some? then JText(o.value) else JNull
  }

  function OptId(o: Option<Uuid>): Json {
    if o.Some? then JId(o.value) else JNull
  }

  function OptTime(o: Option<Time>): Json {
    if o.Some? then JTime(o.value) else JNull
  }

  function TextJson(x: string): Json {
    JText(x)
  }

  function IdJson(x: Uuid): Json {
    JId(x)
  }

  function Texts(xs: seq<string>): Json {
    JList(EncodeAll(xs, TextJson))
  }

  lemma {:induction false} AllRoundTrip<T>(xs: seq<T>, g: T -> Json, f: Json -> Option<T>)
    requires forall x :: x in xs ==> f(g(x)) == Some(x)
    ensures DecodeAll(EncodeAll(xs, g), f) == Some(xs)
  {
    if xs != [] {
      assert xs[0] in xs;
      AllRoundTrip(xs[1..], g, f);
      assert EncodeAll(xs, g)[1..] == EncodeAll(xs[1..], g);
      assert [xs[0]] + xs[1..] == xs;
    }
  }

  lemma TextsRoundTrip(xs: seq<string>)
    ensures AsTexts(Texts(xs)) == Some(xs)
  {
    AllRoundTrip(xs, TextJson, AsText);
  }

  // --- Elements ----------------------------------------------------------------------------------------------------

  function EvidenceToJson(e: Evidence): Json {
    JRecord(map[
      Id := JId(e.id), Kind := JText(KindText(e.kind)), Summary := JText(e.summary), SourceActionId := OptId(e.source),
      CreatedAt := JTime(e.createdAt)])
  }

  function EvidenceFromJson(j: Json): Option<Evidence> {
    var id, kind, summary := IdAt(j, Id), KindAt(j, Kind), TextAt(j, Summary, None);
    var source, createdAt := OptIdAt(j, SourceActionId), TimeAt(j, CreatedAt);
    if id.Some? && kind.Some? && summary.Some? && source.Some? && createdAt.Some?
    then Some(Evidence(id.value, kind.value, summary.value, source.value, createdAt.value)) else None
  }

  /** The entry of an action's dictionary under `k`, if it has one. */
  function ActionEntry(a: Action, k: Key): Option<Json> {
    match k
    case Id => Some(JId(a.id))
    case ActionTypeKey => Some(JText(ActionText(a.actionType)))
    case TargetKey => Some(a.target)
    case Capability => Some(OptText(a.capability))
    case ToolKey => Some(OptText(a.tool))
    case Parameters => Some(JObject(a.parameters))
    case RequiresApproval => Some(JBool(a.requiresApproval))
    case ApprovalStateKey => Some(JText(ApprovalText(a.approvalState)))
    case ExpectedResult => Some(JText(a.expectedResult))
    case VerificationRequirement => Some(JText(a.verificationRequirement))
    case ReasoningSummary => Some(JText(a.reasoningSummary))
    case ConfidenceKey => Some(JNumber(a.confidence))
    case ResultSummary => Some(OptText(a.resultSummary))
    case ErrorCategory => Some(OptText(a.errorCategory))
    case CreatedAt => Some(JTime(a.createdAt))
    case CompletedAt => Some(OptTime(a.completedAt))
    case _ => None
  }

  function ActionToJson(a: Action): Json {
    JRecord(map k: Key | ActionEntry(a, k).Some? :: ActionEntry(a, k).value)
  }

  function ActionFromJson(j: Json): Option<Action> {
    var id, actionType, target := IdAt(j, Id), ActionTypeAt(j, ActionTypeKey), JsonAt(j, TargetKey);
    var capability, tool, parameters := OptTextAt(j, Capability), OptTextAt(j, ToolKey), FieldsAt(j, Parameters);
    var requiresApproval, approval := BoolAt(j, RequiresApproval, false), ApprovalAt(j, ApprovalStateKey);
    var expected, requirement := TextAt(j, ExpectedResult, Some("")), TextAt(j, VerificationRequirement, Some(""));
    var reasoning, confidence := TextAt(j, ReasoningSummary, Some("")), NumberAt(j, ConfidenceKey, 0.0);
    var result, category := OptTextAt(j, ResultSummary), OptTextAt(j, ErrorCategory);
    var createdAt, completedAt := TimeAt(j, CreatedAt), OptTimeAt(j, CompletedAt);
    if && id.Some? && actionType.Some? && target.Some? && capability.Some? && tool.Some? && parameters.Some?
       && requiresApproval.Some? && approval.Some? && expected.Some? && requirement.Some? && reasoning.Some?
       && confidence.Some? && result.Some? && category.Some? && createdAt.Some? && completedAt.Some?
    then
      Some(Action(id.value, actionType.value, target.value, capability.value, tool.value, parameters.value,
                  requiresApproval.value, approval.value, expected.value, requirement.value, reasoning.value,
                  confidence.value, result.value, category.value, createdAt.value, completedAt.value))
    else None
  }

  function SubtaskToJson(s: Subtask): Json {
    JRecord(map[
      Id := JId(s.id), Description := JText(s.description), CategoryKey := JText(s.category),
      Status := JText(StatusText(s.status)), DependsOn := JList(EncodeAll(s.dependsOn, IdJson))])
  }

  function SubtaskFromJson(j: Json): Option<Subtask> {
    var id, description, category := IdAt(j, Id), TextAt(j, Description, Some("")), TextAt(j, CategoryKey, Some(""));
    var status, dependsOn := StatusAt(j, Status), ListAt(j, DependsOn, AsId);
    if id.Some? && description.Some? && category.Some? && status.Some? && dependsOn.Some?
    then Some(Subtask(id.value, description.value, category.value, status.value, dependsOn.value)) else None
  }

  function ErrorToJson(e: AgentError): Json {
    JRecord(map[
      Id := JId(e.id), ActionId := OptId(e.actionId), CategoryKey := JText(e.category), Message := JText(e.message),
      CreatedAt := JTime(e.createdAt)])
  }

  function ErrorFromJson(j: Json): Option<AgentError> {
    var id, actionId, category := IdAt(j, Id), OptIdAt(j, ActionId), TextAt(j, CategoryKey, Some("unknown"));
    var message, createdAt := TextAt(j, Message, Some("")), TimeAt(j, CreatedAt);
    if id.Some? && actionId.Some? && category.Some? && message.Some? && createdAt.Some?
    then Some(AgentError(id.value, actionId.value, category.value, message.value, createdAt.value)) else None
  }

  function RecoveryToJson(r: Recovery): Json {
    JRecord(map[
      Id := JId(r.id), ActionId := JId(r.actionId), ErrorCategory := JText(r.category),
      StrategyKey := JText(r.strategy),
      OutcomeKey := JText(r.outcome), CreatedAt := JTime(r.createdAt)])
  }

  function RecoveryFromJson(j: Json): Option<Recovery> {
    var id, actionId, category := IdAt(j, Id), IdAt(j, ActionId), TextAt(j, ErrorCategory, None);
    var strategy, outcome := TextAt(j, StrategyKey, None), TextAt(j, OutcomeKey, Some("pending"));
    var createdAt := TimeAt(j, CreatedAt);
    if id.Some? && actionId.Some? && category.Some? && strategy.Some? && outcome.Some? && createdAt.Some?
    then Some(Recovery(id.value, actionId.value, category.value, strategy.value, outcome.value, createdAt.value))
    else None
  }

  lemma EvidenceRoundTrip(e: Evidence)
    ensures EvidenceFromJson(EvidenceToJson(e)) == Some(e)
  {
    hide KindText, ParseKind;
    EnumsRoundTrip(NOT_REQUIRED, NONE, IN_PROGRESS, e.kind);
  }

  lemma SubtaskRoundTrip(s: Subtask)
    ensures SubtaskFromJson(SubtaskToJson(s)) == Some(s)
  {
    hide StatusText, ParseStatus, EncodeAll, DecodeAll;
    EnumsRoundTrip(NOT_REQUIRED, NONE, s.status, FACT);
    AllRoundTrip(s.dependsOn, IdJson, AsId);
  }

  lemma ErrorRoundTrip(e: AgentError)
    ensures ErrorFromJson(ErrorToJson(e)) == Some(e)
  {
  }

  lemma RecoveryRoundTrip(r: Recovery)
    ensures RecoveryFromJson(RecoveryToJson(r)) == Some(r)
  {
  }

  lemma ActionItems(a: Action)
    ensures forall k, default ::
              Item(ActionToJson(a), k, default) == if ActionEntry(a, k).Some? then ActionEntry(a, k) else default
  {
    hide ActionEntry;
  }

  lemma ActionIntent(a: Action)
    ensures var j := ActionToJson(a);
            && IdAt(j, Id) == Some(a.id) && ActionTypeAt(j, ActionTypeKey) == Some(a.actionType)
            && JsonAt(j, TargetKey) == Some(a.target) && FieldsAt(j, Parameters) == Some(a.parameters)
  {
    hide ActionText, ParseAction, ActionToJson, Item;
    ActionItems(a);
    ParseActionText(a.actionType);
  }

  lemma ActionApproval(a: Action)
    ensures var j := ActionToJson(a);
            && BoolAt(j, RequiresApproval, false) == Some(a.requiresApproval)
            && ApprovalAt(j, ApprovalStateKey) == Some(a.approvalState)
            && NumberAt(j, ConfidenceKey, 0.0) == Some(a.confidence)
  {
    hide ApprovalText, ParseApproval, ActionToJson, Item;
    ActionItems(a);
    EnumsRoundTrip(a.approvalState, NONE, IN_PROGRESS, FACT);
  }

  lemma ActionTexts(a: Action)
    ensures var j := ActionToJson(a);
            && TextAt(j, ExpectedResult, Some("")) == Some(a.expectedResult)
            && TextAt(j, VerificationRequirement, Some("")) == Some(a.verificationRequirement)
            && TextAt(j, ReasoningSummary, Some("")) == Some(a.reasoningSummary)
  {
    hide ActionToJson, Item;
    ActionItems(a);
  }

  lemma ActionOptions(a: Action)
    ensures var j := ActionToJson(a);
            && OptTextAt(j, Capability) == Some(a.capability) && OptTextAt(j, ToolKey) == Some(a.tool)
            && OptTextAt(j, ResultSummary) == Some(a.resultSummary)
            && OptTextAt(j, ErrorCategory) == Some(a.errorCategory)
  {
    hide ActionToJson, Item;
    ActionItems(a);
  }

  lemma ActionTimes(a: Action)
    ensures var j := ActionToJson(a);
            TimeAt(j, CreatedAt) == Some(a.createdAt) && OptTimeAt(j, CompletedAt) == Some(a.completedAt)
  {
    hide ActionToJson, Item;
    ActionItems(a);
  }

  lemma ActionRoundTrip(a: Action)
    ensures ActionFromJson(ActionToJson(a)) == Some(a)
  {
    hide ActionToJson, Item, TextAt, OptTextAt, IdAt, OptIdAt, OptTimeAt, TimeAt, NumberAt, IntAt, BoolAt, JsonAt,
         PhaseAt, ActionTypeAt, KindAt, StatusAt, ApprovalAt, CancellationAt, ListAt, TextsAt, FieldsAt, TextListsAt,
         TextMapAt, IntMapAt, VerdictsAt;
    ActionIntent(a);
    ActionApproval(a);
    ActionTexts(a);
    ActionOptions(a);
    ActionTimes(a);
  }

  // --- The task ----------------------------------------------------------------------------------------------------

  function TextListsJson(m: map<string, seq<string>>): Json {
    JObject(map n | n in m :: Texts(m[n]))
  }

  function TextMapJson(m: map<string, string>): Json {
    JObject(map n | n in m :: JText(m[n]))
  }

  function IntMapJson(m: map<string, int>): Json {
    JObject(map n | n in m :: JInt(m[n]))
  }

  function VerdictsJson(m: map<Uuid, bool>): Json {
    JById(map n | n in m :: JBool(m[n]))
  }

  function HeaderEntry(h: Header, k: Key): Option<Json> {
    match k
    case Id => Some(JId(h.id))
    case Objective => Some(JText(h.objective))
    case UserRequest => Some(JText(h.userRequest))
    case TargetKey => Some(OptText(h.target))
    case TargetType => Some(OptText(h.targetType))
    case AuthorizationStatus => Some(JText(h.authorizationStatus))
    case TargetId => Some(OptId(h.targetId))
    case Scope => Some(Texts(h.scope))
    case CurrentSubtaskId => Some(OptId(h.currentSubtaskId))
    case Subtasks => Some(JList(EncodeAll(h.subtasks, SubtaskToJson)))
    case ExecutionState => Some(JText(h.executionState))
    case Assumptions => Some(Texts(h.assumptions))
    case CreatedAt => Some(JTime(h.createdAt))
    case StartedAt => Some(OptTime(h.startedAt))
    case _ => None
  }

  function TaskEntry(t: Task, k: Key): Option<Json> {
    match k
    case PhaseKey => Some(JText(PhaseText(t.phase)))
    case SelectedTools => Some(Texts(t.selectedTools))
    case ToolCapabilities => Some(TextListsJson(t.toolCapabilities))
    case InstallationState => Some(TextMapJson(t.installationState))
    case Actions => Some(JList(EncodeAll(t.actions, ActionToJson)))
    case Observations => Some(JList(EncodeAll(t.observations, EvidenceToJson)))
    case Findings => Some(JList(EncodeAll(t.findings, EvidenceToJson)))
    case EvidenceKey => Some(JList(EncodeAll(t.evidence, EvidenceToJson)))
    case Outputs => Some(Texts(t.outputs))
    case Errors => Some(JList(EncodeAll(t.errors, ErrorToJson)))
    case RecoveryAttempts => Some(JList(EncodeAll(t.recoveryAttempts, RecoveryToJson)))
    case VerificationResults => Some(VerdictsJson(t.verificationResults))
    case ConfidenceKey => Some(JNumber(t.confidence))
    case Unknowns => Some(Texts(t.unknowns))
    case NextAction => Some(OptText(t.nextAction))
    case ApprovalStateKey => Some(JText(ApprovalText(t.approvalState)))
    case PendingActionId => Some(OptId(t.pendingActionId))
    case CancellationStateKey => Some(JText(CancellationText(t.cancellationState)))
    case ClarificationQuestion => Some(OptText(t.clarificationQuestion))
    case ActionCount => Some(JInt(t.actionCount))
    case ModelCallCount => Some(JInt(t.modelCallCount))
    case InstallationCount => Some(JInt(t.installationCount))
    case RetryCountByAction => Some(IntMapJson(t.retryCountByAction))
    case LastErrorSignature => Some(OptText(t.lastErrorSignature))
    case UpdatedAt => Some(JTime(t.updatedAt))
    case CompletedAt => Some(OptTime(t.completedAt))
    case _ => HeaderEntry(t.header, k)
  }

  /** `state_to_snapshot` */
  function Snapshot(t: Task): Json {
    JRecord(map k: Key | TaskEntry(t, k).Some? :: TaskEntry(t, k).value)
  }

  function HeaderFromJson(j: Json): Option<Header> {
    var id, objective, userRequest := IdAt(j, Id), TextAt(j, Objective, None), TextAt(j, UserRequest, Some(""));
    var target, targetType := OptTextAt(j, TargetKey), OptTextAt(j, TargetType);
    var authorization, targetId := TextAt(j, AuthorizationStatus, Some("UNKNOWN")), OptIdAt(j, TargetId);
    var scope, current := TextsAt(j, Scope), OptIdAt(j, CurrentSubtaskId);
    var subtasks, execution := ListAt(j, Subtasks, SubtaskFromJson), TextAt(j, ExecutionState, Some("idle"));
    var assumptions, createdAt, startedAt := TextsAt(j, Assumptions), TimeAt(j, CreatedAt), OptTimeAt(j, StartedAt);
    if && id.Some? && objective.Some? && userRequest.Some? && target.Some? && targetType.Some? && authorization.Some?
       && targetId.Some? && scope.Some? && current.Some? && subtasks.Some? && execution.Some? && assumptions.Some?
       && createdAt.Some? && startedAt.Some?
    then
      Some(Header(id.value, objective.value, userRequest.value, target.value, targetType.value, authorization.value,
                  targetId.value, scope.value, current.value, subtasks.value, execution.value, assumptions.value,
                  createdAt.value, startedAt.value))
    else None
  }

  /** The parts of a task that grow: its history. */
  datatype History = History(
    actions: seq<Action>, observations: seq<Evidence>, findings: seq<Evidence>, evidence: seq<Evidence>,
    errors: seq<AgentError>, recoveryAttempts: seq<Recovery>)

  function HistoryFromJson(j: Json): Option<History> {
    var actions, observations := ListAt(j, Actions, ActionFromJson), ListAt(j, Observations, EvidenceFromJson);
    var findings, evidence := ListAt(j, Findings, EvidenceFromJson), ListAt(j, EvidenceKey, EvidenceFromJson);
    var errors, recoveries := ListAt(j, Errors, ErrorFromJson), ListAt(j, RecoveryAttempts, RecoveryFromJson);
    if actions.Some? && observations.Some? && findings.Some? && evidence.Some? && errors.Some? && recoveries.Some?
    then Some(History(actions.value, observations.value, findings.value, evidence.value, errors.value,
                      recoveries.value))
    else None
  }

  /** `snapshot_to_state`; `None` stands for the exception it raises. */
  function FromSnapshot(j: Json): Option<Task> {
    var header, history, phase := HeaderFromJson(j), HistoryFromJson(j), PhaseAt(j, PhaseKey);
    var tools, capabilities, installations :=
      TextsAt(j, SelectedTools), TextListsAt(j, ToolCapabilities), TextMapAt(j, InstallationState);
    var outputs, verdicts, confidence := TextsAt(j, Outputs), VerdictsAt(j, VerificationResults),
        NumberAt(j, ConfidenceKey, 0.0);
    var unknowns, next, approval := TextsAt(j, Unknowns), OptTextAt(j, NextAction), ApprovalAt(j, ApprovalStateKey);
    var pending, cancellation := OptIdAt(j, PendingActionId), CancellationAt(j, CancellationStateKey);
    var question, actionCount := OptTextAt(j, ClarificationQuestion), IntAt(j, ActionCount, 0);
    var modelCalls, installs := IntAt(j, ModelCallCount, 0), IntAt(j, InstallationCount, 0);
    var retries, signature := IntMapAt(j, RetryCountByAction), OptTextAt(j, LastErrorSignature);
    var updatedAt, completedAt := TimeAt(j, UpdatedAt), OptTimeAt(j, CompletedAt);
    if && header.Some? && history.Some? && phase.Some? && tools.Some? && capabilities.Some? && installations.Some?
       && outputs.Some? && verdicts.Some? && confidence.Some? && unknowns.Some? && next.Some? && approval.Some?
       && pending.Some? && cancellation.Some? && question.Some? && actionCount.Some? && modelCalls.Some?
       && installs.Some? && retries.Some? && signature.Some? && updatedAt.Some? && completedAt.Some?
    then
      Some(Task(header.value, phase.value, tools.value, capabilities.value, installations.value, history.value.actions,
                history.value.observations, history.value.findings, history.value.evidence, outputs.value,
                history.value.errors, history.value.recoveryAttempts, verdicts.value, confidence.value, unknowns.value,
                next.value, approval.value, pending.value, cancellation.value, question.value, actionCount.value,
                modelCalls.value, installs.value, retries.value, signature.value, updatedAt.value, completedAt.value))
    else None
  }

  lemma TaskItems(t: Task)
    ensures forall k, default :: Item(Snapshot(t), k, default) ==
              if TaskEntry(t, k).Some? then TaskEntry(t, k) else default
  {
    hide TaskEntry;
  }

  lemma HeaderTexts(t: Task)
    ensures var j, h := Snapshot(t), t.header;
            && IdAt(j, Id) == Some(h.id) && TextAt(j, Objective, None) == Some(h.objective)
            && TextAt(j, UserRequest, Some("")) == Some(h.userRequest)
            && TextAt(j, AuthorizationStatus, Some("UNKNOWN")) == Some(h.authorizationStatus)
  {
    hide Snapshot, Item, Texts, EncodeAll, PhaseText, ApprovalText, CancellationText, TextListsJson, TextMapJson,
         IntMapJson, VerdictsJson;
    TaskItems(t);
  }

  lemma HeaderOptions(t: Task)
    ensures var j, h := Snapshot(t), t.header;
            && OptTextAt(j, TargetKey) == Some(h.target) && OptTextAt(j, TargetType) == Some(h.targetType)
            && OptIdAt(j, TargetId) == Some(h.targetId) && OptIdAt(j, CurrentSubtaskId) == Some(h.currentSubtaskId)
  {
    hide Snapshot, Item, Texts, EncodeAll, PhaseText, ApprovalText, CancellationText, TextListsJson, TextMapJson,
         IntMapJson, VerdictsJson;
    TaskItems(t);
  }

  lemma HeaderTimes(t: Task)
    ensures var j, h := Snapshot(t), t.header;
            && TextAt(j, ExecutionState, Some("idle")) == Some(h.executionState)
            && TimeAt(j, CreatedAt) == Some(h.createdAt) && OptTimeAt(j, StartedAt) == Some(h.startedAt)
  {
    hide Snapshot, Item, Texts, EncodeAll, PhaseText, ApprovalText, CancellationText, TextListsJson, TextMapJson,
         IntMapJson, VerdictsJson;
    TaskItems(t);
  }

  lemma HeaderLists(t: Task)
    ensures var j, h := Snapshot(t), t.header;
            && TextsAt(j, Scope) == Some(h.scope) && TextsAt(j, Assumptions) == Some(h.assumptions)
            && ListAt(j, Subtasks, SubtaskFromJson) == Some(h.subtasks)
  {
    hide Snapshot, Item, AsTexts, Texts, Truthy, EncodeAll, DecodeAll, SubtaskToJson, SubtaskFromJson, PhaseText,
         ApprovalText, CancellationText, TextListsJson, TextMapJson, IntMapJson, VerdictsJson;
    TaskItems(t);
    var h := t.header;
    TextsRoundTrip(h.scope);
    TextsRoundTrip(h.assumptions);
    EmptyTexts(h.scope);
    EmptyTexts(h.assumptions);
    forall s | s in h.subtasks ensures SubtaskFromJson(SubtaskToJson(s)) == Some(s) { SubtaskRoundTrip(s); }
    AllRoundTrip(h.subtasks, SubtaskToJson, SubtaskFromJson);
  }

  lemma EmptyTexts(xs: seq<string>)
    ensures Truthy(Texts(xs)) <==> xs != []
  {
  }

  lemma HistoryFields(t: Task)
    ensures var j := Snapshot(t);
            && ListAt(j, Actions, ActionFromJson) == Some(t.actions)
            && ListAt(j, Errors, ErrorFromJson) == Some(t.errors)
            && ListAt(j, RecoveryAttempts, RecoveryFromJson) == Some(t.recoveryAttempts)
  {
    hide Snapshot, Item, EncodeAll, DecodeAll, ActionToJson, ActionFromJson, EvidenceToJson, ErrorToJson, ErrorFromJson,
         RecoveryToJson, RecoveryFromJson, PhaseText, ApprovalText, CancellationText, HeaderEntry, Texts, TextListsJson,
         TextMapJson, IntMapJson, VerdictsJson;
    TaskItems(t);
    forall a | a in t.actions ensures ActionFromJson(ActionToJson(a)) == Some(a) { ActionRoundTrip(a); }
    AllRoundTrip(t.actions, ActionToJson, ActionFromJson);
    forall e | e in t.errors ensures ErrorFromJson(ErrorToJson(e)) == Some(e) { ErrorRoundTrip(e); }
    AllRoundTrip(t.errors, ErrorToJson, ErrorFromJson);
    forall r | r in t.recoveryAttempts ensures RecoveryFromJson(RecoveryToJson(r)) == Some(r) { RecoveryRoundTrip(r); }
    AllRoundTrip(t.recoveryAttempts, RecoveryToJson, RecoveryFromJson);
  }

  lemma EvidenceFields(t: Task)
    ensures var j := Snapshot(t);
            && ListAt(j, Observations, EvidenceFromJson) == Some(t.observations)
            && ListAt(j, Findings, EvidenceFromJson) == Some(t.findings)
            && ListAt(j, EvidenceKey, EvidenceFromJson) == Some(t.evidence)
  {
    hide Snapshot, Item, EncodeAll, DecodeAll, ActionToJson, EvidenceToJson, EvidenceFromJson, ErrorToJson,
         RecoveryToJson, PhaseText, ApprovalText, CancellationText, HeaderEntry, Texts, TextListsJson, TextMapJson,
         IntMapJson, VerdictsJson;
    TaskItems(t);
    forall e: Evidence ensures EvidenceFromJson(EvidenceToJson(e)) == Some(e) { EvidenceRoundTrip(e); }
    AllRoundTrip(t.observations, EvidenceToJson, EvidenceFromJson);
    AllRoundTrip(t.findings, EvidenceToJson, EvidenceFromJson);
    AllRoundTrip(t.evidence, EvidenceToJson, EvidenceFromJson);
  }

  lemma HeaderRoundTrip(t: Task)
    ensures HeaderFromJson(Snapshot(t)) == Some(t.header)
  {
    hide Snapshot, Item, TextAt, OptTextAt, IdAt, OptIdAt, OptTimeAt, TimeAt, NumberAt, IntAt, BoolAt, JsonAt, PhaseAt,
         ActionTypeAt, KindAt, StatusAt, ApprovalAt, CancellationAt, ListAt, TextsAt, FieldsAt, TextListsAt, TextMapAt,
         IntMapAt, VerdictsAt;
    HeaderTexts(t);
    HeaderOptions(t);
    HeaderTimes(t);
    HeaderLists(t);
  }

  lemma HistoryRoundTrip(t: Task)
    ensures HistoryFromJson(Snapshot(t)) ==
            Some(History(t.actions, t.observations, t.findings, t.evidence, t.errors, t.recoveryAttempts))
  {
    hide Snapshot, Item, TextAt, OptTextAt, IdAt, OptIdAt, OptTimeAt, TimeAt, NumberAt, IntAt, BoolAt, JsonAt, PhaseAt,
         ActionTypeAt, KindAt, StatusAt, ApprovalAt, CancellationAt, ListAt, TextsAt, FieldsAt, TextListsAt, TextMapAt,
         IntMapAt, VerdictsAt;
    HistoryFields(t);
    EvidenceFields(t);
  }

  lemma TextListsRoundTrip(j: Json, k: Key, m: map<string, seq<string>>)
    requires Item(j, k, Some(JNull)) == Some(TextListsJson(m))
    ensures TextListsAt(j, k) == Some(m)
  {
    hide AsTexts, Texts;
    forall n | n in m ensures AsTexts(Texts(m[n])) == Some(m[n]) { TextsRoundTrip(m[n]); }
    var x := FieldsAt(j, k);
    assert x == Some(map n | n in m :: Texts(m[n]));
    assert (map n | n in x.value :: AsTexts(x.value[n]).value) == m;
  }

  lemma TextMapRoundTrip(j: Json, k: Key, m: map<string, string>)
    requires Item(j, k, Some(JNull)) == Some(TextMapJson(m))
    ensures TextMapAt(j, k) == Some(m)
  {
    var x := FieldsAt(j, k);
    assert x == Some(map n | n in m :: JText(m[n]));
    assert (map n | n in x.value :: x.value[n].text) == m;
  }

  lemma IntMapRoundTrip(j: Json, k: Key, m: map<string, int>)
    requires Item(j, k, Some(JNull)) == Some(IntMapJson(m))
    ensures IntMapAt(j, k) == Some(m)
  {
    var x := FieldsAt(j, k);
    assert x == Some(map n | n in m :: JInt(m[n]));
    assert (map n | n in x.value :: x.value[n].whole) == m;
  }

  lemma VerdictsRoundTrip(j: Json, k: Key, m: map<Uuid, bool>)
    requires Item(j, k, Some(JNull)) == Some(VerdictsJson(m))
    ensures VerdictsAt(j, k) == Some(m)
  {
    var entries := map n | n in m :: JBool(m[n]);
    assert (map n | n in entries :: entries[n].flag) == m;
    if m == map[] {
      assert entries == map[];
    } else if n :| n in m {
      assert n in entries;
    }
  }

  lemma ResourceFields(t: Task)
    ensures var j := Snapshot(t);
            && TextsAt(j, SelectedTools) == Some(t.selectedTools) && TextsAt(j, Outputs) == Some(t.outputs)
            && TextsAt(j, Unknowns) == Some(t.unknowns)
            && TextListsAt(j, ToolCapabilities) == Some(t.toolCapabilities)
            && TextMapAt(j, InstallationState) == Some(t.installationState)
            && IntMapAt(j, RetryCountByAction) == Some(t.retryCountByAction)
            && VerdictsAt(j, VerificationResults) == Some(t.verificationResults)
  {
    hide Snapshot, Item, EncodeAll, DecodeAll, ActionToJson, EvidenceToJson, ErrorToJson, RecoveryToJson, HeaderEntry,
         AsTexts, PhaseText, ApprovalText, CancellationText, TextListsJson, TextMapJson, IntMapJson, VerdictsJson,
         TextListsAt, TextMapAt, IntMapAt, VerdictsAt;
    TaskItems(t);
    var j := Snapshot(t);
    TextsRoundTrip(t.selectedTools);
    TextsRoundTrip(t.outputs);
    TextsRoundTrip(t.unknowns);
    EmptyTexts(t.selectedTools);
    EmptyTexts(t.outputs);
    EmptyTexts(t.unknowns);
    TextListsRoundTrip(j, ToolCapabilities, t.toolCapabilities);
    TextMapRoundTrip(j, InstallationState, t.installationState);
    IntMapRoundTrip(j, RetryCountByAction, t.retryCountByAction);
    VerdictsRoundTrip(j, VerificationResults, t.verificationResults);
  }

  lemma StatusFields(t: Task)
    ensures var j := Snapshot(t);
            && PhaseAt(j, PhaseKey) == Some(t.phase) && ApprovalAt(j, ApprovalStateKey) == Some(t.approvalState)
            && CancellationAt(j, CancellationStateKey) == Some(t.cancellationState)
  {
    hide Snapshot, Item, EncodeAll, HeaderEntry, Texts, PhaseText, ApprovalText, CancellationText, TextListsJson,
         TextMapJson, IntMapJson, VerdictsJson, ParsePhase, ParseApproval, ParseCancellation;
    TaskItems(t);
    PhaseRoundTrip(t.phase);
    EnumsRoundTrip(t.approvalState, t.cancellationState, IN_PROGRESS, FACT);
  }

  lemma OptionFields(t: Task)
    ensures var j := Snapshot(t);
            && OptTextAt(j, NextAction) == Some(t.nextAction) && OptIdAt(j, PendingActionId) == Some(t.pendingActionId)
            && OptTextAt(j, ClarificationQuestion) == Some(t.clarificationQuestion)
            && OptTextAt(j, LastErrorSignature) == Some(t.lastErrorSignature)
  {
    hide Snapshot, Item, EncodeAll, HeaderEntry, Texts, PhaseText, ApprovalText, CancellationText, TextListsJson,
         TextMapJson, IntMapJson, VerdictsJson;
    TaskItems(t);
  }

  lemma CountFields(t: Task)
    ensures var j := Snapshot(t);
            && IntAt(j, ActionCount, 0) == Some(t.actionCount) && IntAt(j, ModelCallCount, 0) == Some(t.modelCallCount)
            && IntAt(j, InstallationCount, 0) == Some(t.installationCount)
  {
    hide Snapshot, Item, EncodeAll, HeaderEntry, Texts, PhaseText, ApprovalText, CancellationText, TextListsJson,
         TextMapJson, IntMapJson, VerdictsJson;
    TaskItems(t);
  }

  lemma TimeFields(t: Task)
    ensures var j := Snapshot(t);
            && NumberAt(j, ConfidenceKey, 0.0) == Some(t.confidence)
            && TimeAt(j, UpdatedAt) == Some(t.updatedAt) && OptTimeAt(j, CompletedAt) == Some(t.completedAt)
  {
    hide Snapshot, Item, EncodeAll, HeaderEntry, Texts, PhaseText, ApprovalText, CancellationText, TextListsJson,
         TextMapJson, IntMapJson, VerdictsJson;
    TaskItems(t);
  }

  /** A task survives being written and read back, whatever it has been through. */
  lemma RoundTrip(t: Task)
    ensures FromSnapshot(Snapshot(t)) == Some(t)
  {
    hide Snapshot, HeaderFromJson, HistoryFromJson, Item, TextAt, OptTextAt, IdAt, OptIdAt, OptTimeAt, TimeAt, NumberAt,
         IntAt, BoolAt, JsonAt, PhaseAt, ActionTypeAt, KindAt, StatusAt, ApprovalAt, CancellationAt, ListAt, TextsAt,
         FieldsAt, TextListsAt, TextMapAt, IntMapAt, VerdictsAt;
    HeaderRoundTrip(t);
    HistoryRoundTrip(t);
    ResourceFields(t);
    StatusFields(t);
    OptionFields(t);
    CountFields(t);
    TimeFields(t);
  }
}
