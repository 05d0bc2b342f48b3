/** The orchestrator's objects: tasks whose fields the operations update in place, and the registry that holds them. */
module AgentOrchestrator {
  import opened Prelude
  import opened AgentModels
  import opened AgentRecovery
  import opened AgentTask
  import opened Text
  import T = Terminal

  class AgentTaskState {
    const header: Header
    var phase: Phase
    var selectedTools: seq<string>
    var toolCapabilities: map<string, seq<string>>
    var installationState: map<string, string>
    var actions: seq<Action>
    var observations: seq<Evidence>
    var findings: seq<Evidence>
    var evidence: seq<Evidence>
    var outputs: seq<string>
    var errors: seq<AgentError>
    var recoveryAttempts: seq<Recovery>
    var verificationResults: map<Uuid, bool>
    var confidence: real
    var unknowns: seq<string>
    var nextAction: Option<string>
    var approvalState: ApprovalState
    var pendingActionId: Option<Uuid>
    var cancellationState: CancellationState
    var clarificationQuestion: Option<string>
    var actionCount: int
    var modelCallCount: int
    var installationCount: int
    var retryCountByAction: map<string, int>
    var lastErrorSignature: Option<string>
    var updatedAt: Time
    var completedAt: Option<Time>

    // The task as the registry last received it.
    ghost var saved: Option<Task>

    constructor (header: Header, now: Time)
      ensures this.header == header && Value() == Created(header, now).(phase := UNDERSTANDING)
    {
      this.header := header;
      phase, selectedTools, toolCapabilities, installationState := UNDERSTANDING, [], map[], map[];
      actions, observations, findings, evidence, outputs, errors, recoveryAttempts := [], [], [], [], [], [], [];
      verificationResults, confidence, unknowns, nextAction := map[], 0.0, [], None;
      approvalState, pendingActionId, cancellationState, clarificationQuestion := NOT_REQUIRED, None, NONE, None;
      actionCount, modelCallCount, installationCount, retryCountByAction := 0, 0, 0, map[];
      lastErrorSignature, updatedAt, completedAt := None, now, None;
    }

    ghost function Value(): Task
      reads this
    {
      Task(header, phase, selectedTools, toolCapabilities, installationState, actions, observations, findings, evidence,
           outputs, errors, recoveryAttempts, verificationResults, confidence, unknowns, nextAction, approvalState,
           pendingActionId, cancellationState, clarificationQuestion, actionCount, modelCallCount, installationCount,
           retryCountByAction, lastErrorSignature, updatedAt, completedAt)
    }

    /** Nothing was changed since the task was last saved. */
    ghost predicate Synced()
      reads this
    {
      saved == Some(Value())
    }

    predicate Terminal()
      reads this
      ensures Terminal() == IsTerminal(Value())
    {
      phase in TERMINAL_PHASES
    }

    /** `registry.save` */
    method Save(now: Time)
      modifies this`updatedAt, this`saved
      ensures updatedAt == now && Synced()
    {
      updatedAt := now;
      saved := Some(Value());
    }
  }

  /** How an action's work ends, when it does not simply end. */
  datatype Signal = Completes | FailsWith(failure: FailureClass, message: string) | Leaves | Throws(reply: Reply)

  /** The outcome that a signal and the state left behind amount to. */
  function OutcomeOf(s: Signal, t: Task): Outcome {
    match s
    case Completes => Done(t)
    case FailsWith(f, message) => Failed(t, f, message)
    case Leaves => Finished(t)
    case Throws(reply) => Raised(reply)
  }

  class AgentOrchestrator {
    const budget: Budget
    var tasks: map<Uuid, AgentTaskState>

    constructor (budget: Budget)
      ensures this.budget == budget && tasks == map[] && Valid()
    {
      this.budget, tasks := budget, map[];
    }

    ghost predicate Valid()
      reads this, tasks.Values
    {
      forall id :: id in tasks ==> tasks[id].header.id == id && tasks[id].Synced()
    }

    ghost function Tasks(): map<Uuid, Task>
      reads this, tasks.Values
    {
      map id | id in tasks :: tasks[id].Value()
    }

    /** The task an operation may change; all others keep their value. */
    function Concerned(id: Uuid): set<AgentTaskState>
      reads this
    {
      if id in tasks then {tasks[id]} else {}
    }

    method CountActive() returns (n: nat)
      ensures n == |Active(Tasks())|
    {
      var unseen := tasks.Keys;
      ghost var seen: set<Uuid> := {};
      n := 0;
      while unseen != {}
        invariant unseen <= tasks.Keys
        invariant seen == set id | id in tasks && id !in unseen && !tasks[id].Terminal()
        invariant n == |seen|
        decreases |unseen|
      {
        var id :| id in unseen;
        if !tasks[id].Terminal() {
          n := n + 1;
          seen := seen + {id};
        }
        unseen := unseen - {id};
      }
      assert seen == Active(Tasks());
    }

    method CreateTask(header: Header, now: Time) returns (reply: Reply)
      requires Valid()
      modifies this`tasks
      ensures Valid()
      ensures reply == if |Active(old(Tasks()))| >= budget.maxConcurrent then ConcurrentLimit else Fine
      ensures reply == ConcurrentLimit ==> tasks == old(tasks)
      ensures reply == Fine ==>
                && header.id in tasks && fresh(tasks[header.id]) && tasks == old(tasks)[header.id := tasks[header.id]]
                && tasks[header.id].Value() == Created(header, now)
    {
      hide Active, FirstPhase;
      var active := CountActive();
      if active >= budget.maxConcurrent {
        return ConcurrentLimit;
      }
      var state := new AgentTaskState(header, now);
      tasks := tasks[header.id := state];
      Admit(state, now);
      return Fine;
    }

    method Admit(state: AgentTaskState, now: Time)
      modifies state
      ensures state.Value() == Saved(old(state.Value()).(phase := FirstPhase(state.header)), now)
      ensures state.Synced()
    {
      hide FirstPhase;
      state.phase := FirstPhase(state.header);
      state.Save(now);
    }

    /** How every operation on a task is specified: the registry's task, and the reply, are what `Apply` says. */
    ghost predicate Does(id: Uuid, before: Task, op: Op, reply: Reply)
      reads this, tasks.Values
    {
      id in tasks && Stepped(tasks[id].Value(), reply) == Apply(before, budget, op)
    }

    method PauseTask(id: Uuid, now: Time) returns (reply: Reply)
      requires Valid()
      modifies Concerned(id)
      ensures id !in tasks ==> reply == TaskNotFound
      ensures id in tasks ==> Does(id, old(tasks[id].Value()), Pause(now), reply)
      ensures Valid()
    {
      hide Paused, Resumed, Cancelled, Clarified, ActionApproved, ActionRejected, Advanced;
      if id !in tasks {
        return TaskNotFound;
      }
      reply := PauseState(tasks[id], now);
    }

    method PauseState(state: AgentTaskState, now: Time) returns (reply: Reply)
      modifies state
      ensures Stepped(state.Value(), reply) == Paused(old(state.Value()), now)
      ensures old(state.Synced()) ==> state.Synced()
    {
      if state.Terminal() {
        return InvalidTransition;
      }
      state.phase := PAUSED;
      state.Save(now);
      return Fine;
    }

    method ResumeTask(id: Uuid, now: Time) returns (reply: Reply)
      requires Valid()
      modifies Concerned(id)
      ensures id !in tasks ==> reply == TaskNotFound
      ensures id in tasks ==> Does(id, old(tasks[id].Value()), Resume(now), reply)
      ensures Valid()
    {
      hide Paused, Resumed, Cancelled, Clarified, ActionApproved, ActionRejected, Advanced;
      if id !in tasks {
        return TaskNotFound;
      }
      reply := ResumeState(tasks[id], now);
    }

    method ResumeState(state: AgentTaskState, now: Time) returns (reply: Reply)
      modifies state
      ensures Stepped(state.Value(), reply) == Resumed(old(state.Value()), now)
      ensures old(state.Synced()) ==> state.Synced()
    {
      if state.phase != PAUSED {
        return InvalidTransition;
      }
      state.phase := PLANNING;
      state.Save(now);
      return Fine;
    }

    method CancelTask(id: Uuid, now: Time) returns (reply: Reply)
      requires Valid()
      modifies Concerned(id)
      ensures id !in tasks ==> reply == TaskNotFound
      ensures id in tasks ==> Does(id, old(tasks[id].Value()), Cancel(now), reply)
      ensures Valid()
    {
      hide Paused, Resumed, Cancelled, Clarified, ActionApproved, ActionRejected, Advanced;
      if id !in tasks {
        return TaskNotFound;
      }
      reply := CancelState(tasks[id], now);
    }

    method CancelState(state: AgentTaskState, now: Time) returns (reply: Reply)
      modifies state
      ensures Stepped(state.Value(), reply) == Cancelled(old(state.Value()), now)
      ensures old(state.Synced()) ==> state.Synced()
    {
      if state.Terminal() {
        return Fine;
      }
      state.cancellationState := CancellationState.CANCELLED;
      Close(state, Phase.CANCELLED, now);
      return Fine;
    }

    method ProvideClarification(id: Uuid, now: Time, answer: string, evidence: Uuid) returns (reply: Reply)
      requires Valid()
      modifies Concerned(id)
      ensures id !in tasks ==> reply == TaskNotFound
      ensures id in tasks ==> Does(id, old(tasks[id].Value()), Clarify(now, answer, evidence), reply)
      ensures Valid()
    {
      hide Paused, Resumed, Cancelled, Clarified, ActionApproved, ActionRejected, Advanced;
      if id !in tasks {
        return TaskNotFound;
      }
      reply := ClarifyState(tasks[id], now, answer, evidence);
    }

    method ClarifyState(state: AgentTaskState, now: Time, answer: string, evidence: Uuid) returns (reply: Reply)
      modifies state
      ensures Stepped(state.Value(), reply) == Clarified(old(state.Value()), now, answer, evidence)
      ensures old(state.Synced()) ==> state.Synced()
    {
      hide AnswerTaken;
      if state.phase != Phase.WAITING_FOR_AUTHORIZATION {
        return InvalidTransition;
      }
      TakeAnswer(state, now, answer, Evidence(evidence, OBSERVATION, "User clarification: " + answer, None, now));
      return Fine;
    }

    method TakeAnswer(state: AgentTaskState, now: Time, answer: string, note: Evidence)
      modifies state
      ensures state.Value() == AnswerTaken(old(state.Value()), now, answer, note)
      ensures state.Synced()
    {
      hide Unanswered;
      state.observations := state.observations + [note];
      state.clarificationQuestion := None;
      state.unknowns := Unanswered(state.unknowns, answer);
      state.phase := PLANNING;
      state.Save(now);
    }

    method FindAction(state: AgentTaskState, action: Uuid) returns (i: Option<nat>)
      ensures i == IndexOf(state.actions, action)
    {
      for k := 0 to |state.actions|
        invariant forall j :: 0 <= j < k ==> state.actions[j].id != action
      {
        if state.actions[k].id == action {
          return Some(k);
        }
      }
      return None;
    }

    method Approve(id: Uuid, now: Time) returns (reply: Reply)
      requires Valid()
      modifies Concerned(id)
      ensures id !in tasks ==> reply == TaskNotFound
      ensures id in tasks ==> Does(id, old(tasks[id].Value()), ApproveAction(now), reply)
      ensures Valid()
    {
      hide Paused, Resumed, Cancelled, Clarified, ActionApproved, ActionRejected, Advanced;
      if id !in tasks {
        return TaskNotFound;
      }
      reply := ApproveState(tasks[id], now);
    }

    method ApproveState(state: AgentTaskState, now: Time) returns (reply: Reply)
      modifies state
      ensures Stepped(state.Value(), reply) == ActionApproved(old(state.Value()), now)
      ensures old(state.Synced()) ==> state.Synced()
    {
      hide IndexOf, WithApproval, WithRejection, Closed;
      if state.phase != Phase.WAITING_FOR_APPROVAL || state.pendingActionId.None? {
        return NotWaiting;
      }
      var i := FindAction(state, state.pendingActionId.value);
      if i.None? {
        return InvalidTransition;
      }
      MarkApproved(state, i.value, now);
      return Fine;
    }

    method MarkApproved(state: AgentTaskState, i: nat, now: Time)
      requires i < |state.actions|
      modifies state
      ensures state.Value() == WithApproval(old(state.Value()), i, now)
      ensures state.Synced()
    {
      state.actions := state.actions[i := state.actions[i].(approvalState := APPROVED)];
      state.approvalState := APPROVED;
      state.phase := PREPARING;
      state.Save(now);
    }

    method Reject(id: Uuid, now: Time, reason: string) returns (reply: Reply)
      requires Valid()
      modifies Concerned(id)
      ensures id !in tasks ==> reply == TaskNotFound
      ensures id in tasks ==> Does(id, old(tasks[id].Value()), RejectAction(now, reason), reply)
      ensures Valid()
    {
      hide Paused, Resumed, Cancelled, Clarified, ActionApproved, ActionRejected, Advanced;
      if id !in tasks {
        return TaskNotFound;
      }
      reply := RejectState(tasks[id], now, reason);
    }

    method RejectState(state: AgentTaskState, now: Time, reason: string) returns (reply: Reply)
      modifies state
      ensures Stepped(state.Value(), reply) == ActionRejected(old(state.Value()), now, reason)
      ensures old(state.Synced()) ==> state.Synced()
    {
      hide IndexOf, WithApproval, WithRejection, Closed;
      if state.phase != Phase.WAITING_FOR_APPROVAL || state.pendingActionId.None? {
        return NotWaiting;
      }
      var i := FindAction(state, state.pendingActionId.value);
      if i.None? {
        return InvalidTransition;
      }
      MarkRejected(state, i.value, "Rejected: " + reason);
      Close(state, Phase.BLOCKED, now);
      return Fine;
    }

    method MarkRejected(state: AgentTaskState, i: nat, summary: string)
      requires i < |state.actions|
      modifies state
      ensures state.Value() == WithRejection(old(state.Value()), i, summary)
    {
      state.actions := state.actions[i := state.actions[i].(approvalState := REJECTED, resultSummary := Some(summary))];
      state.approvalState := REJECTED;
      state.pendingActionId := None;
    }

    /** The task ends. */
    method Close(state: AgentTaskState, phase: Phase, now: Time)
      modifies state`phase, state`completedAt, state`updatedAt, state`saved
      ensures state.Value() == Closed(old(state.Value()), phase, now)
      ensures state.Synced()
    {
      state.phase := phase;
      state.completedAt := Some(now);
      state.Save(now);
    }

    method TakeStep(id: Uuid, x: Input) returns (reply: Reply)
      requires Valid()
      modifies Concerned(id)
      ensures id !in tasks ==> reply == TaskNotFound
      ensures id in tasks ==> Does(id, old(tasks[id].Value()), Step(x), reply)
      ensures Valid()
    {
      hide Paused, Resumed, Cancelled, Clarified, ActionApproved, ActionRejected, Advanced;
      if id !in tasks {
        return TaskNotFound;
      }
      reply := StepState(tasks[id], x);
    }

    method StepState(state: AgentTaskState, x: Input) returns (reply: Reply)
      modifies state
      ensures Stepped(state.Value(), reply) == Advanced(old(state.Value()), budget, x)
      ensures old(state.Synced()) ==> state.Synced()
    {
      hide PendingExecuted, Taken, ExceededBudget, Blocked, BlockedWithError;
      if state.Terminal()
         || state.phase in {Phase.PAUSED, Phase.WAITING_FOR_APPROVAL, Phase.WAITING_FOR_AUTHORIZATION} {
        return Fine;
      }
      if state.phase == PREPARING && state.pendingActionId.Some? {
        reply := ExecutePending(state, x);
        return;
      }
      var exceeded := CheckBudgets(state, x.now);
      if exceeded.Some? {
        Block(state, exceeded.value, x.now);
        return Fine;
      }
      match x.reasoning {
        case Breaks =>
          return ServiceRaised;
        case Fails(message) =>
          BlockWithError(state, AgentError(x.ids.error, None, "invalid_decision", message, x.now),
                         "Reasoning failed: " + message, x.now);
          return Fine;
        case Decides(d) =>
          state.modelCallCount := state.modelCallCount + 1;
          reply := TakeDecision(state, d, x);
      }
    }

    /** Exactly the approved action is executed, rather than a new one reasoned about. */
    method ExecutePending(state: AgentTaskState, x: Input) returns (reply: Reply)
      requires state.pendingActionId.Some?
      modifies state
      ensures Stepped(state.Value(), reply) == PendingExecuted(old(state.Value()), budget, x)
      ensures old(state.Synced()) ==> state.Synced()
    {
      hide Executed, IndexOf;
      var i := FindAction(state, state.pendingActionId.value);
      if i.None? {
        return InvalidTransition;
      }
      state.pendingActionId := None;
      reply := Execute(state, i.value, x);
    }

    method CheckBudgets(state: AgentTaskState, now: Time) returns (exceeded: Option<string>)
      ensures exceeded == ExceededBudget(state.Value(), budget, now)
    {
      if state.actionCount >= budget.maxActions {
        return Some("Maximum action budget reached.");
      }
      if state.header.startedAt.Some? {
        var elapsed := now - state.header.startedAt.value;
        if elapsed >= budget.maxDuration {
          return Some("Maximum task duration reached.");
        }
      }
      if state.modelCallCount >= budget.maxModelCalls {
        return Some("Maximum model call budget reached.");
      }
      return None;
    }

    method Block(state: AgentTaskState, reason: string, now: Time)
      modifies state
      ensures state.Value() == Blocked(old(state.Value()), reason, now)
      ensures state.Synced()
    {
      state.nextAction := Some(reason);
      Close(state, Phase.BLOCKED, now);
    }

    method BlockWithError(state: AgentTaskState, e: AgentError, reason: string, now: Time)
      modifies state
      ensures state.Value() == BlockedWithError(old(state.Value()), e, reason, now)
      ensures state.Synced()
    {
      hide Blocked;
      state.errors := state.errors + [e];
      Block(state, reason, now);
    }

    method TakeDecision(state: AgentTaskState, d: Decision, x: Input) returns (reply: Reply)
      modifies state
      ensures Stepped(state.Value(), reply) == Taken(old(state.Value()), d, budget, x)
      ensures state.Synced()
    {
      hide Executed, Gated, BuiltAction, BlockedWithError, ActionRecorded, AuthorizationAsked, ApprovalAsked;
      var gate := Gated(state.header, d);
      if gate.OutOfScope? {
        BlockWithError(state, AgentError(x.ids.error, None, "out_of_scope", gate.message, x.now), gate.message, x.now);
        return Fine;
      }
      var action := BuiltAction(d, gate, x.ids.action, x.now);
      var last := |state.actions|;
      RecordAction(state, action);
      if gate.Disallowed? {
        AskForAuthorization(state, last, gate.reason, x.now);
        return Fine;
      }
      if action.requiresApproval {
        AskForApproval(state, last, x.now);
        return Fine;
      }
      reply := Execute(state, last, x);
    }

    method RecordAction(state: AgentTaskState, action: Action)
      modifies state
      ensures state.Value() == ActionRecorded(old(state.Value()), action)
    {
      state.actions := state.actions + [action];
      state.actionCount := state.actionCount + 1;
    }

    method AskForAuthorization(state: AgentTaskState, i: nat, reason: string, now: Time)
      requires i < |state.actions|
      modifies state
      ensures state.Value() == AuthorizationAsked(old(state.Value()), i, reason, now)
      ensures state.Synced()
    {
      state.actions := state.actions[i := state.actions[i].(resultSummary := Some(reason))];
      state.phase := Phase.WAITING_FOR_AUTHORIZATION;
      state.clarificationQuestion := Some(reason);
      state.Save(now);
    }

    method AskForApproval(state: AgentTaskState, i: nat, now: Time)
      requires i < |state.actions|
      modifies state
      ensures state.Value() == ApprovalAsked(old(state.Value()), i, now)
      ensures state.Synced()
    {
      state.phase := Phase.WAITING_FOR_APPROVAL;
      state.pendingActionId := Some(state.actions[i].id);
      state.approvalState := ApprovalState.PENDING;
      state.Save(now);
    }

    method Execute(state: AgentTaskState, i: nat, x: Input) returns (reply: Reply)
      requires i < |state.actions|
      modifies state
      ensures Stepped(state.Value(), reply) == Executed(old(state.Value()), i, budget, x)
      ensures state.Synced()
    {
      hide Performed, Recovered, Concluded;
      BeginExecution(state, x.now);
      var signal := Perform(state, i, x);
      reply := Settle(state, i, signal, x);
    }

    method BeginExecution(state: AgentTaskState, now: Time)
      modifies state
      ensures state.Value() == Saved(old(state.Value()).(phase := EXECUTING), now)
      ensures state.Synced()
    {
      state.phase := EXECUTING;
      state.Save(now);
    }

    /** Nothing may have changed since the last save when an exception passes through. */
    method Settle(state: AgentTaskState, i: nat, signal: Signal, x: Input) returns (reply: Reply)
      requires i < |state.actions| && (signal.Throws? ==> state.Synced())
      modifies state
      ensures Stepped(state.Value(), reply) ==
              Settled(old(state.Value()), OutcomeOf(signal, old(state.Value())), i, budget, x)
      ensures state.Synced()
    {
      hide Recovered, Concluded;
      match signal {
        case Throws(r) =>
          return r;
        case Leaves =>
          state.Save(x.now);
        case FailsWith(f, message) =>
          HandleFailure(state, i, f, message, x);
        case Completes =>
          Conclude(state, i, x.now);
      }
      return Fine;
    }

    method Conclude(state: AgentTaskState, i: nat, now: Time)
      requires i < |state.actions|
      modifies state
      ensures state.Value() == Concluded(old(state.Value()), i, now)
      ensures state.Synced()
    {
      state.actions := state.actions[i := state.actions[i].(completedAt := Some(now))];
      state.confidence := state.actions[i].confidence;
      state.phase := PhaseAfter(state.actions[i].actionType);
      state.Save(now);
    }

    /** The dispatch on the action type. An exception leaves the task as it was saved. */
    method Perform(state: AgentTaskState, i: nat, x: Input) returns (s: Signal)
      requires i < |state.actions|
      modifies state
      ensures OutcomeOf(s, state.Value()) == Performed(old(state.Value()), i, budget, x)
      ensures s.Throws? ==> state.Value() == old(state.Value())
      ensures state.saved == old(state.saved)
    {
      hide TargetDiscovered, ToolResearched, ToolInstalled, DiagnosticRun, OutputAnalyzed, FindingVerified,
           EnvironmentChecked, Completed, UserAsked, ApprovalAwaited;
      match state.actions[i].actionType {
        case CHECK_ENVIRONMENT =>
          s := DoCheckEnvironment(state, i, x);
        case DISCOVER_TARGET =>
          s := DoDiscoverTarget(state, i, x);
        case RESEARCH_TOOL =>
          s := DoResearchTool(state, i, x);
        case INSTALL_TOOL =>
          s := DoInstallTool(state, i, x);
        case RUN_DIAGNOSTIC =>
          s := DoRunDiagnostic(state, i, x);
        case COLLECT_INFORMATION =>
          s := DoRunDiagnostic(state, i, x);
        case ANALYZE_OUTPUT =>
          s := DoAnalyze(state, i, x);
        case VERIFY_FINDING =>
          s := DoVerify(state, i, x);
        case ASK_USER =>
          DoAskUser(state, i);
          s := Leaves;
        case WAIT_FOR_APPROVAL =>
          AwaitApproval(state, i);
          s := Leaves;
        case _ =>
          DoComplete(state, i, x);
          s := Leaves;
      }
    }

    method DoAskUser(state: AgentTaskState, i: nat)
      requires i < |state.actions|
      modifies state
      ensures state.Value() == UserAsked(old(state.Value()), i)
      ensures state.saved == old(state.saved)
    {
      state.clarificationQuestion := Some(state.actions[i].expectedResult);
      state.phase := Phase.WAITING_FOR_AUTHORIZATION;
      state.actions := state.actions[i := state.actions[i].(resultSummary := Some("Awaiting user clarification."))];
    }

    method AwaitApproval(state: AgentTaskState, i: nat)
      requires i < |state.actions|
      modifies state
      ensures state.Value() == ApprovalAwaited(old(state.Value()), i)
      ensures state.saved == old(state.saved)
    {
      state.phase := Phase.WAITING_FOR_APPROVAL;
      state.pendingActionId := Some(state.actions[i].id);
    }

    method Summarize(state: AgentTaskState, i: nat, summary: string)
      requires i < |state.actions|
      modifies state`actions
      ensures state.Value() == Summarized(old(state.Value()), i, summary)
    {
      state.actions := state.actions[i := state.actions[i].(resultSummary := Some(summary))];
    }

    method Observe(state: AgentTaskState, i: nat, x: Input, summary: string)
      requires i < |state.actions|
      modifies state`observations, state`actions
      ensures state.Value() == Observed(old(state.Value()), i, x, summary)
    {
      state.observations :=
        state.observations + [Evidence(x.ids.evidence, OBSERVATION, summary, Some(state.actions[i].id), x.now)];
      Summarize(state, i, summary);
    }

    method DoCheckEnvironment(state: AgentTaskState, i: nat, x: Input) returns (s: Signal)
      requires i < |state.actions|
      modifies state
      ensures OutcomeOf(s, state.Value()) == EnvironmentChecked(old(state.Value()), i, x)
      ensures s.Throws? ==> state.Value() == old(state.Value())
      ensures state.saved == old(state.saved)
    {
      if x.services.environment.None? {
        return Throws(ServiceRaised);
      }
      Observe(state, i, x, x.services.environment.value);
      return Completes;
    }

    method DoDiscoverTarget(state: AgentTaskState, i: nat, x: Input) returns (s: Signal)
      requires i < |state.actions|
      modifies state
      ensures OutcomeOf(s, state.Value()) == TargetDiscovered(old(state.Value()), i, x)
      ensures s.Throws? ==> state.Value() == old(state.Value())
      ensures state.saved == old(state.saved)
    {
      if state.header.target.None? || state.header.target.value == "" {
        return FailsWith(INVALID_ARGUMENT, "No target is known yet.");
      }
      var kind := "unknown type";
      if state.header.targetType.Some? && state.header.targetType.value != "" {
        kind := state.header.targetType.value;
      }
      Observe(state, i, x, "Target confirmed: " + state.header.target.value + " (" + kind + ").");
      return Completes;
    }

    method DoResearchTool(state: AgentTaskState, i: nat, x: Input) returns (s: Signal)
      requires i < |state.actions|
      modifies state
      ensures OutcomeOf(s, state.Value()) == ToolResearched(old(state.Value()), i, x)
      ensures s.Throws? ==> state.Value() == old(state.Value())
      ensures state.saved == old(state.saved)
    {
      var capability := if state.actions[i].capability.Some? then state.actions[i].capability.value else "";
      if x.services.discovery.DiscoveryRaises? {
        return Throws(ServiceRaised);
      }
      var names := x.services.discovery.names;
      if names == [] {
        return FailsWith(TOOL_UNAVAILABLE, "No candidates found for '" + capability + "'.");
      }
      state.toolCapabilities := state.toolCapabilities[capability := names];
      Observe(state, i, x, "Found candidate(s) for '" + capability + "': " + JoinWith(", ", names));
      return Completes;
    }

    method DoInstallTool(state: AgentTaskState, i: nat, x: Input) returns (s: Signal)
      requires i < |state.actions|
      modifies state
      ensures OutcomeOf(s, state.Value()) == ToolInstalled(old(state.Value()), i, budget, x)
      ensures s.Throws? ==> state.Value() == old(state.Value())
      ensures state.saved == old(state.saved)
    {
      hide InstallationRecorded;
      var tool := state.actions[i].tool;
      if tool.None? || tool.value == "" {
        return FailsWith(INVALID_ARGUMENT, "No tool name specified.");
      }
      if state.installationCount >= budget.maxInstallations {
        return Throws(BudgetExceeded);
      }
      if !x.services.toolRegistered {
        return FailsWith(TOOL_UNAVAILABLE, "Tool '" + tool.value + "' is not registered.");
      }
      if !x.hasScope {
        return FailsWith(POLICY_RESTRICTION, "No target scope available for installation.");
      }
      match x.services.installation {
        case Refused(message) =>
          return FailsWith(POLICY_RESTRICTION, message);
        case InstallationRaises =>
          return Throws(ServiceRaised);
        case Ended(installed, end, message) =>
          s := RecordInstallation(state, i, tool.value, x);
      }
    }

    method RecordInstallation(state: AgentTaskState, i: nat, name: string, x: Input) returns (s: Signal)
      requires i < |state.actions| && x.services.installation.Ended?
      modifies state
      ensures OutcomeOf(s, state.Value()) == InstallationRecorded(old(state.Value()), i, name, x) && !s.Throws?
      ensures state.saved == old(state.saved)
    {
      state.installationCount := state.installationCount + 1;
      state.installationState := state.installationState[name := x.services.installation.state];
      if !x.services.installation.installed {
        return FailsWith(TOOL_UNAVAILABLE, x.services.installation.message);
      }
      state.selectedTools := state.selectedTools + [name];
      Observe(state, i, x, "Installed and verified '" + name + "'.");
      return Completes;
    }

    method DoRunDiagnostic(state: AgentTaskState, i: nat, x: Input) returns (s: Signal)
      requires i < |state.actions|
      modifies state
      ensures OutcomeOf(s, state.Value()) == DiagnosticRun(old(state.Value()), i, x)
      ensures s.Throws? ==> state.Value() == old(state.Value())
      ensures state.saved == old(state.saved)
    {
      hide Classified;
      if !x.hasScope {
        return FailsWith(POLICY_RESTRICTION, "No target scope available for execution.");
      }
      match x.services.diagnostic {
        case Denied(message) =>
          return FailsWith(POLICY_RESTRICTION, message);
        case EngineRaises =>
          return Throws(ServiceRaised);
        case Ran(r) =>
          if r.status != T.COMPLETED {
            var failure := Classify(r.status == T.TIMEOUT, r.status == T.REJECTED, r.exitCode, r.stderr);
            return FailsWith(failure, if r.errorMessage.Some? then r.errorMessage.value else "Diagnostic failed.");
          }
          var stdout := if r.stdout.Some? then r.stdout.value else "";
          state.outputs := state.outputs + [stdout];
          Observe(state, i, x, "Diagnostic completed: " + if stdout != "" then Strip(stdout) else "(no output)");
          return Completes;
      }
    }

    method DoAnalyze(state: AgentTaskState, i: nat, x: Input) returns (s: Signal)
      requires i < |state.actions|
      modifies state
      ensures OutcomeOf(s, state.Value()) == OutputAnalyzed(old(state.Value()), i, x)
      ensures s.Throws? ==> state.Value() == old(state.Value())
      ensures state.saved == old(state.saved)
    {
      if state.observations == [] {
        return FailsWith(UNEXPECTED_OUTPUT, "Nothing to analyze yet.");
      }
      var latest := state.observations[|state.observations| - 1];
      var finding := Evidence(x.ids.evidence, FINDING, "Based on: " + latest.summary, Some(state.actions[i].id), x.now);
      state.findings := state.findings + [finding];
      state.evidence := state.evidence + [finding];
      Summarize(state, i, finding.summary);
      return Completes;
    }

    method DoVerify(state: AgentTaskState, i: nat, x: Input) returns (s: Signal)
      requires i < |state.actions|
      modifies state
      ensures OutcomeOf(s, state.Value()) == FindingVerified(old(state.Value()), i, x)
      ensures s.Throws? ==> state.Value() == old(state.Value())
      ensures state.saved == old(state.saved)
    {
      hide LastPending, Promoted, Summaries, LastThree, ReplacedById;
      var k := LastPending(state.findings);
      if k.None? {
        return FailsWith(UNEXPECTED_OUTPUT, "No finding to verify.");
      }
      var verified := Promoted(state.findings[k.value], Summaries(LastThree(state.observations)), x.now);
      state.findings := ReplacedById(state.findings, verified);
      state.evidence := state.evidence + [verified];
      state.verificationResults := state.verificationResults[verified.id := verified.kind == VERIFIED_FINDING];
      Summarize(state, i, verified.summary);
      return Completes;
    }

    method DoComplete(state: AgentTaskState, i: nat, x: Input)
      requires i < |state.actions|
      modifies state
      ensures state.Value() == Completed(old(state.Value()), i, x)
      ensures state.saved == old(state.saved)
    {
      state.actions :=
        state.actions[i := state.actions[i].(resultSummary := Some("Task marked complete."),
                                             completedAt := Some(x.now))];
      state.phase := Phase.COMPLETED;
      state.completedAt := Some(x.now);
    }

    method HandleFailure(state: AgentTaskState, i: nat, f: FailureClass, message: string, x: Input)
      requires i < |state.actions|
      modifies state
      ensures state.Value() == Recovered(old(state.Value()), i, f, message, budget, x)
      ensures state.Synced()
    {
      hide Noted, Decide, Retried, UserConsulted, GivenUp;
      NoteFailure(state, i, f, message, x);
      var strategy := Adapt(state, state.actions[i].actionType, f);
      match strategy {
        case RETRY =>
          Retry(state, i, f, x);
        case ASK =>
          ConsultUser(state, i, f, x);
        case FAIL =>
          GiveUp(state, x);
      }
    }

    method NoteFailure(state: AgentTaskState, i: nat, f: FailureClass, message: string, x: Input)
      requires i < |state.actions|
      modifies state
      ensures state.Value() == Noted(old(state.Value()), i, f, message, x)
    {
      hide FailureText, ErrorNoted;
      NoteError(state, i, f, message, x);
      if x.services.proposal.Some? {
        state.recoveryAttempts :=
          state.recoveryAttempts + [Proposal(x, state.actions[i].id, f, x.services.proposal.value)];
      }
    }

    method NoteError(state: AgentTaskState, i: nat, f: FailureClass, message: string, x: Input)
      requires i < |state.actions|
      modifies state
      ensures state.Value() == ErrorNoted(old(state.Value()), i, f, message, x)
    {
      hide FailureText;
      state.actions :=
        state.actions[i := state.actions[i].(errorCategory := Some(FailureText(f)), resultSummary := Some(message))];
      var action := state.actions[i];
      state.errors := state.errors + [AgentError(x.ids.error, Some(action.id), FailureText(f), message, x.now)];
    }

    method Retry(state: AgentTaskState, i: nat, f: FailureClass, x: Input)
      requires i < |state.actions|
      modifies state
      ensures state.Value() == Retried(old(state.Value()), i, f, x)
      ensures state.Synced()
    {
      hide RetryCounted, Attempted;
      CountRetry(state, state.actions[i].actionType, f);
      state.recoveryAttempts := state.recoveryAttempts + [Attempted(x, state.actions[i].id, f, "retry")];
      state.phase := RECOVERING;
      state.Save(x.now);
    }

    method CountRetry(state: AgentTaskState, key: ActionType, f: FailureClass)
      modifies state
      ensures state.Value() == RetryCounted(old(state.Value()), key, f)
    {
      hide ActionText, Signature, RetryCount;
      state.retryCountByAction :=
        state.retryCountByAction[ActionText(key) := RetryCount(state.retryCountByAction, key) + 1];
      state.lastErrorSignature := Some(Signature(key, f));
    }

    method ConsultUser(state: AgentTaskState, i: nat, f: FailureClass, x: Input)
      requires i < |state.actions|
      modifies state
      ensures state.Value() == UserConsulted(old(state.Value()), i, f, x)
      ensures state.Synced()
    {
      hide AskReason, Attempted;
      state.recoveryAttempts := state.recoveryAttempts + [Attempted(x, state.actions[i].id, f, "ask_user")];
      state.clarificationQuestion := Some(AskReason(f));
      state.phase := Phase.WAITING_FOR_AUTHORIZATION;
      state.Save(x.now);
    }

    method GiveUp(state: AgentTaskState, x: Input)
      modifies state
      ensures state.Value() == GivenUp(old(state.Value()), x)
      ensures state.Synced()
    {
      Close(state, Phase.FAILED, x.now);
    }

    /** `AdaptationEngine.decide` */
    method Adapt(state: AgentTaskState, key: ActionType, f: FailureClass) returns (strategy: Strategy)
      ensures strategy == Decide(state.Value(), budget.maxRetries, key, f)
    {
      hide Signature, ActionText;
      if state.lastErrorSignature == Some(Signature(key, f)) {
        return FAIL;
      }
      if NeverRetried(f) {
        return FAIL;
      }
      if RetryCount(state.retryCountByAction, key) >= budget.maxRetries {
        return FAIL;
      }
      if f == MISSING_DEPENDENCY || f == TOOL_UNAVAILABLE {
        return ASK;
      }
      return RETRY;
    }
  }
}
