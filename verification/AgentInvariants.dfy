/** What every operation keeps, on every task: one action's execution first, then the step, then all operations. */
module AgentInvariants {
  import opened Prelude
  import opened AgentModels
  import opened AgentRecovery
  import opened AgentTask
  import opened Text
  import T = Terminal

  // --- Executing an action: what changes and what does not ---------------------------------------------------------

  /** The same action, however it went. */
  predicate SameAction(a: Action, b: Action) {
    && a.id == b.id && a.actionType == b.actionType && a.tool == b.tool && a.target == b.target
    && a.approvalState == b.approvalState && a.requiresApproval == b.requiresApproval && SameOrder(a, b)
  }

  /** What was ordered with the action, and when. */
  predicate SameOrder(a: Action, b: Action) {
    && a.capability == b.capability && a.parameters == b.parameters && a.expectedResult == b.expectedResult
    && a.verificationRequirement == b.verificationRequirement && a.reasoningSummary == b.reasoningSummary
    && a.confidence == b.confidence && a.createdAt == b.createdAt
  }

  predicate SameActions(a: seq<Action>, b: seq<Action>) {
    |a| == |b| && forall j :: 0 <= j < |a| ==> SameAction(a[j], b[j])
  }

  /** Neither the counters, nor the operator's side of the task. */
  predicate SameBooks(t: Task, u: Task) {
    && u.header == t.header
    && u.actionCount == t.actionCount && u.modelCallCount == t.modelCallCount
    && u.cancellationState == t.cancellationState
  }

  /** Installations are only ever counted on behalf of an INSTALL_TOOL action, within the budget. */
  predicate InstallationsCounted(t: Task, u: Task, a: Action, b: Budget) {
    u.installationCount == t.installationCount
    || (a.actionType == INSTALL_TOOL && u.installationCount == t.installationCount + 1 <= b.maxInstallations)
  }

  predicate SameRetries(t: Task, u: Task) {
    && u.recoveryAttempts == t.recoveryAttempts && u.retryCountByAction == t.retryCountByAction
    && u.lastErrorSignature == t.lastErrorSignature
  }

  predicate SameEvidence(t: Task, u: Task) {
    && u.findings == t.findings && u.evidence == t.evidence && u.verificationResults == t.verificationResults
  }

  /** An outcome leaves the books alone, moves the task on only when it is `Finished`, and hands a failure over
      untouched. */
  predicate OutcomeShape(t: Task, o: Outcome, a: Action, b: Budget) {
    match o
    case Raised(reply) => reply == BudgetExceeded || reply == ServiceRaised
    case Done(u) =>
      && SameActions(t.actions, u.actions) && SameBooks(t, u) && SameRetries(t, u) && InstallationsCounted(t, u, a, b)
      && u.phase == t.phase && u.pendingActionId == t.pendingActionId && u.completedAt == t.completedAt
    case Failed(u, _, _) =>
      && SameActions(t.actions, u.actions) && SameBooks(t, u) && SameRetries(t, u) && InstallationsCounted(t, u, a, b)
      && u.phase == t.phase && u.pendingActionId == t.pendingActionId && u.completedAt == t.completedAt
      && SameEvidence(t, u) && u.observations == t.observations
    case Finished(u) =>
      && SameActions(t.actions, u.actions) && SameBooks(t, u) && SameRetries(t, u)
      && u.installationCount == t.installationCount && SameEvidence(t, u) && u.observations == t.observations
      && match u.phase {
           case WAITING_FOR_AUTHORIZATION => u.pendingActionId == t.pendingActionId && u.completedAt == t.completedAt
           case WAITING_FOR_APPROVAL =>
             a.actionType == WAIT_FOR_APPROVAL && u.pendingActionId == Some(a.id) && u.completedAt == t.completedAt
           case COMPLETED => u.pendingActionId == t.pendingActionId && u.completedAt.Some?
           case _ => false
         }
  }

  lemma EnvironmentShape(t: Task, i: nat, b: Budget, x: Input)
    requires i < |t.actions|
    ensures OutcomeShape(t, EnvironmentChecked(t, i, x), t.actions[i], b)
  {
  }

  lemma TargetShape(t: Task, i: nat, b: Budget, x: Input)
    requires i < |t.actions|
    ensures OutcomeShape(t, TargetDiscovered(t, i, x), t.actions[i], b)
  {
  }

  lemma ResearchShape(t: Task, i: nat, b: Budget, x: Input)
    requires i < |t.actions|
    ensures OutcomeShape(t, ToolResearched(t, i, x), t.actions[i], b)
  {
    hide JoinWith;
  }

  lemma InstallShape(t: Task, i: nat, b: Budget, x: Input)
    requires i < |t.actions| && t.actions[i].actionType == INSTALL_TOOL
    ensures OutcomeShape(t, ToolInstalled(t, i, b, x), t.actions[i], b)
  {
    hide InstallationRecorded;
    if x.services.installation.Ended? && t.installationCount < b.maxInstallations {
      InstallationShape(t, i, b, x);
    }
  }

  lemma InstallationShape(t: Task, i: nat, b: Budget, x: Input)
    requires i < |t.actions| && t.actions[i].actionType == INSTALL_TOOL && t.installationCount < b.maxInstallations
    requires x.services.installation.Ended?
    ensures forall name :: OutcomeShape(t, InstallationRecorded(t, i, name, x), t.actions[i], b)
  {
  }

  lemma DiagnosticShape(t: Task, i: nat, b: Budget, x: Input)
    requires i < |t.actions|
    ensures OutcomeShape(t, DiagnosticRun(t, i, x), t.actions[i], b)
  {
    hide Classified, Strip;
  }

  lemma AnalysisShape(t: Task, i: nat, b: Budget, x: Input)
    requires i < |t.actions|
    ensures OutcomeShape(t, OutputAnalyzed(t, i, x), t.actions[i], b)
  {
  }

  lemma VerificationShape(t: Task, i: nat, b: Budget, x: Input)
    requires i < |t.actions|
    ensures OutcomeShape(t, FindingVerified(t, i, x), t.actions[i], b)
  {
    hide LastPending, Promoted, Summaries, LastThree, ReplacedById;
  }

  lemma WaitingShape(t: Task, i: nat, b: Budget)
    requires i < |t.actions|
    ensures OutcomeShape(t, Finished(UserAsked(t, i)), t.actions[i], b)
    ensures t.actions[i].actionType == WAIT_FOR_APPROVAL ==>
        OutcomeShape(t, Finished(ApprovalAwaited(t, i)), t.actions[i], b)
  {
  }

  lemma CompletedShape(t: Task, i: nat, b: Budget, x: Input)
    requires i < |t.actions|
    ensures OutcomeShape(t, Finished(Completed(t, i, x)), t.actions[i], b)
  {
  }

  lemma PerformedShape(t: Task, i: nat, b: Budget, x: Input)
    requires i < |t.actions|
    ensures OutcomeShape(t, Performed(t, i, b, x), t.actions[i], b)
  {
    hide EnvironmentChecked, TargetDiscovered, ToolResearched, ToolInstalled, DiagnosticRun, OutputAnalyzed,
         FindingVerified, UserAsked, ApprovalAwaited, Completed, OutcomeShape;
    EnvironmentShape(t, i, b, x);
    TargetShape(t, i, b, x);
    DiagnosticShape(t, i, b, x);
    ResearchShape(t, i, b, x);
    AnalysisShape(t, i, b, x);
    VerificationShape(t, i, b, x);
    WaitingShape(t, i, b);
    CompletedShape(t, i, b, x);
    if t.actions[i].actionType == INSTALL_TOOL {
      InstallShape(t, i, b, x);
    }
  }

  /** What `_execute` does to a task, whatever the action and however it goes. */
  predicate ExecutionShape(t: Task, u: Task, a: Action, b: Budget) {
    && SameActions(t.actions, u.actions) && SameBooks(t, u) && InstallationsCounted(t, u, a, b)
    && u.phase in {EXECUTING, OBSERVING, ANALYZING, Phase.VERIFYING, RESEARCHING, RECOVERING,
                   Phase.WAITING_FOR_AUTHORIZATION, Phase.WAITING_FOR_APPROVAL, Phase.COMPLETED, Phase.FAILED}
    && (if u.phase == Phase.WAITING_FOR_APPROVAL
        then a.actionType == WAIT_FOR_APPROVAL && u.pendingActionId == Some(a.id)
        else u.pendingActionId == t.pendingActionId)
    && (if IsTerminal(u) then u.completedAt.Some? else u.completedAt == t.completedAt)
  }

  /** What a recovery decision does to a task, once the failure is on record. */
  predicate RecoveryShape(t: Task, u: Task) {
    && SameActions(t.actions, u.actions) && SameBooks(t, u) && u.installationCount == t.installationCount
    && u.phase in {RECOVERING, Phase.WAITING_FOR_AUTHORIZATION, Phase.FAILED}
    && u.pendingActionId == t.pendingActionId
    && (if IsTerminal(u) then u.completedAt.Some? else u.completedAt == t.completedAt)
    && SameEvidence(t, u) && u.observations == t.observations
  }

  lemma NotedShape(t: Task, i: nat, f: FailureClass, message: string, x: Input)
    requires i < |t.actions|
    ensures var u := Noted(t, i, f, message, x);
            && SameActions(t.actions, u.actions) && SameBooks(t, u) && u.installationCount == t.installationCount
            && u.phase == t.phase && u.pendingActionId == t.pendingActionId && u.completedAt == t.completedAt
            && SameEvidence(t, u) && u.observations == t.observations
  {
    hide FailureText;
  }

  lemma StrategyShape(t: Task, i: nat, f: FailureClass, x: Input)
    requires i < |t.actions|
    ensures RecoveryShape(t, Retried(t, i, f, x))
    ensures RecoveryShape(t, UserConsulted(t, i, f, x))
    ensures RecoveryShape(t, GivenUp(t, x))
  {
    hide Attempted, ActionText, Signature, AskReason, RetryCount;
  }

  lemma RecoveredShape(t: Task, i: nat, f: FailureClass, message: string, b: Budget, x: Input)
    requires i < |t.actions|
    ensures RecoveryShape(t, Recovered(t, i, f, message, b, x))
  {
    hide Decide, Noted, Retried, UserConsulted, GivenUp;
    NotedShape(t, i, f, message, x);
    StrategyShape(Noted(t, i, f, message, x), i, f, x);
  }

  lemma ExecutedShape(t: Task, i: nat, b: Budget, x: Input)
    requires i < |t.actions|
    ensures ExecutionShape(t, Executed(t, i, b, x).task, t.actions[i], b)
  {
    hide Performed, Recovered, SameEvidence, SameRetries;
    var s := Saved(t.(phase := EXECUTING), x.now);
    PerformedShape(s, i, b, x);
    match Performed(s, i, b, x)
    case Raised(_) =>
    case Finished(_) =>
    case Done(_) =>
    case Failed(u, f, message) => RecoveredShape(u, i, f, message, b, x);
  }

  /** An installing action uses up its budget exactly if the installation call is made and returns, installed or not:
      one that is refused or raises is not counted. */
  lemma InstallationCountedExactly(t: Task, i: nat, b: Budget, x: Input)
    requires i < |t.actions| && t.actions[i].actionType == INSTALL_TOOL
    ensures Executed(t, i, b, x).task.installationCount ==
            t.installationCount + if InstallationReturns(t, t.actions[i], b, x) then 1 else 0
    ensures InstallationAsked(t, t.actions[i], b, x) && x.services.installation.InstallationRaises? ==>
              Executed(t, i, b, x) == Stepped(Saved(t.(phase := EXECUTING), x.now), ServiceRaised)
  {
    hide Recovered, Observed;
    var s := Saved(t.(phase := EXECUTING), x.now);
    var o := Performed(s, i, b, x);
    if o.Failed? {
      RecoveredShape(o.task, i, o.failure, o.message, b, x);
    } else if o.Done? {
      ObservedCount(s, i, x);
    }
  }

  predicate InstallationAsked(t: Task, a: Action, b: Budget, x: Input) {
    && a.tool.Some? && a.tool.value != "" && t.installationCount < b.maxInstallations
    && x.services.toolRegistered && x.hasScope
  }

  predicate InstallationReturns(t: Task, a: Action, b: Budget, x: Input) {
    InstallationAsked(t, a, b, x) && x.services.installation.Ended?
  }

  lemma ObservedCount(t: Task, i: nat, x: Input)
    requires i < |t.actions|
    ensures forall u: Task, summary | u.actions == t.actions ::
              Observed(u, i, x, summary).installationCount == u.installationCount
  {
  }
}
