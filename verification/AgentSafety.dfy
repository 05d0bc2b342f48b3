/** What agent tasks can never do, in any run: act without approval, act twice on one approval, or come back once they
    are over. */
module AgentSafety {
  import opened Prelude
  import opened AgentModels
  import opened AgentRecovery
  import opened AgentTask
  import opened AgentInvariants
  import opened AgentControl

  // --- Which action an operation executes --------------------------------------------------------------------------

  /** A decision that passes the gate without needing approval. */
  predicate RunsAtOnce(h: Header, d: Decision) {
    Gated(h, d) == Allowed(false)
  }

  /** The index of the action that the operation hands to `_execute`, if it does. */
  function Reached(t: Task, b: Budget, op: Op): Option<nat> {
    if !op.Step? || IsTerminal(t) || Waits(t) then None
    else if t.phase == PREPARING && t.pendingActionId.Some? then IndexOf(t.actions, t.pendingActionId.value)
    else if ExceededBudget(t, b, op.input.now).Some? || !op.input.reasoning.Decides? then None
    else if RunsAtOnce(t.header, op.input.reasoning.decision) then Some(|t.actions|)
    else None
  }

  /** The task as `_execute` finds it. */
  function Prepared(t: Task, x: Input): Task {
    if t.phase == PREPARING && t.pendingActionId.Some? then t.(pendingActionId := None)
    else if x.reasoning.Decides? then
      ActionRecorded(t.(modelCallCount := t.modelCallCount + 1),
                     BuiltAction(x.reasoning.decision, Allowed(false), x.ids.action, x.now))
    else t
  }

  /** `Reached` tells the truth: those operations are executions. */
  lemma ReachedExecutes(t: Task, b: Budget, op: Op)
    requires Reached(t, b, op).Some?
    ensures var i := Reached(t, b, op).value;
            && i < |Prepared(t, op.input).actions|
            && Apply(t, b, op) == Executed(Prepared(t, op.input), i, b, op.input)
  {
    hide Executed, IndexOf, ExceededBudget, LeavesScope;
  }

  /** What happens short of an execution: at most one action is recorded and an answer noted, nothing is installed,
      retried or found, and no output is added. */
  predicate Quiet(t: Task, u: Task) {
    && u.header == t.header && u.installationCount == t.installationCount && u.outputs == t.outputs
    && SameRetries(t, u) && SameEvidence(t, u) && t.observations <= u.observations
    && |t.actions| <= |u.actions| <= |t.actions| + 1
    && (forall j :: 0 <= j < |t.actions| ==>
          && u.actions[j].id == t.actions[j].id && u.actions[j].actionType == t.actions[j].actionType
          && u.actions[j].tool == t.actions[j].tool && u.actions[j].target == t.actions[j].target
          && u.actions[j].requiresApproval == t.actions[j].requiresApproval && SameOrder(t.actions[j], u.actions[j])
          && (u.actions[j].approvalState == t.actions[j].approvalState || t.pendingActionId == Some(t.actions[j].id)))
    && (u.pendingActionId == t.pendingActionId || u.pendingActionId == None
        || (|u.actions| == |t.actions| + 1 && u.pendingActionId == Some(u.actions[|t.actions|].id)))
  }

  lemma OperatorQuiet(t: Task, b: Budget, op: Op)
    requires !op.Step?
    ensures Quiet(t, Apply(t, b, op).task) && |Apply(t, b, op).task.actions| == |t.actions|
  {
    hide Quiet, Paused, Resumed, Cancelled, Clarified, IndexOf, WithApproval, WithRejection, Closed;
    QuietReflexive(t);
    if op.Pause? || op.Resume? || op.Cancel? {
      PausedQuiet(t, op.at);
      ResumedQuiet(t, op.at);
      CancelledQuiet(t, op.at);
    } else if op.Clarify? {
      ClarifiedQuiet(t, op.at, op.answer, op.evidence);
    } else if t.phase == Phase.WAITING_FOR_APPROVAL && t.pendingActionId.Some? {
      var i := IndexOf(t.actions, t.pendingActionId.value);
      if i.Some? {
        VerdictQuiet(t, i.value, op.at, if op.RejectAction? then "Rejected: " + op.reason else "");
      }
    }
  }

  lemma PausedQuiet(t: Task, now: Time)
    ensures Quiet(t, Paused(t, now).task) && Paused(t, now).task.actions == t.actions
  {
  }

  lemma ResumedQuiet(t: Task, now: Time)
    ensures Quiet(t, Resumed(t, now).task) && Resumed(t, now).task.actions == t.actions
  {
  }

  lemma CancelledQuiet(t: Task, now: Time)
    ensures Quiet(t, Cancelled(t, now).task) && Cancelled(t, now).task.actions == t.actions
  {
  }

  lemma ClarifiedQuiet(t: Task, now: Time, answer: string, evidence: Uuid)
    ensures Quiet(t, Clarified(t, now, answer, evidence).task)
        && Clarified(t, now, answer, evidence).task.actions == t.actions
  {
    hide Unanswered;
  }

  lemma VerdictQuiet(t: Task, i: nat, now: Time, summary: string)
    requires i < |t.actions| && t.pendingActionId == Some(t.actions[i].id)
    ensures Quiet(t, WithApproval(t, i, now)) && |WithApproval(t, i, now).actions| == |t.actions|
    ensures var u := Closed(WithRejection(t, i, summary), Phase.BLOCKED, now);
            Quiet(t, u) && |u.actions| == |t.actions|
  {
  }

  lemma RecordedQuiet(t: Task, calls: int, action: Action, reason: string, now: Time)
    ensures var r := ActionRecorded(t.(modelCallCount := calls), action);
            var u := AuthorizationAsked(r, |t.actions|, reason, now);
            Quiet(t, u) && AtRest(u) && u.actions[|t.actions|].id == action.id
    ensures var r := ActionRecorded(t.(modelCallCount := calls), action);
            var u := ApprovalAsked(r, |t.actions|, now);
            Quiet(t, u) && AtRest(u) && u.actions[|t.actions|].id == action.id
  {
  }

  lemma BlockedQuiet(t: Task, calls: int, e: AgentError, reason: string, now: Time)
    ensures var u := BlockedWithError(t.(modelCallCount := calls), e, reason, now);
            Quiet(t, u) && AtRest(u) && u.actions == t.actions
    ensures var u := Blocked(t, reason, now);
            Quiet(t, u) && AtRest(u) && u.actions == t.actions
  {
  }

  lemma DecisionQuiet(t: Task, d: Decision, b: Budget, x: Input)
    requires !RunsAtOnce(t.header, d)
    ensures var u := Taken(t.(modelCallCount := t.modelCallCount + 1), d, b, x).task;
            && Quiet(t, u) && AtRest(u)
            && (|u.actions| > |t.actions| ==> u.actions[|t.actions|].id == x.ids.action)
  {
    hide Executed, LeavesScope, Quiet, AtRest, ActionRecorded, AuthorizationAsked, ApprovalAsked, BlockedWithError;
    var g := Gated(t.header, d);
    if g.OutOfScope? {
      BlockedQuiet(t, t.modelCallCount + 1, AgentError(x.ids.error, None, "out_of_scope", g.message, x.now), g.message,
                   x.now);
    } else {
      RecordedQuiet(t, t.modelCallCount + 1, BuiltAction(d, g, x.ids.action, x.now),
                    if g.Disallowed? then g.reason else "", x.now);
    }
  }

  lemma StepQuiet(t: Task, b: Budget, x: Input)
    requires Reached(t, b, Step(x)).None?
    ensures var u := Apply(t, b, Step(x)).task;
            && Quiet(t, u)
            && (|u.actions| > |t.actions| ==> u.actions[|t.actions|].id == x.ids.action)
            && (u == t || AtRest(u))
  {
    hide Taken, IndexOf, ExceededBudget, RunsAtOnce, Quiet, BlockedWithError, Blocked;
    assert Quiet(t, t) by {
      QuietReflexive(t);
    }
    if !AtRest(t) && !(t.phase == PREPARING && t.pendingActionId.Some?) {
      if ExceededBudget(t, b, x.now).Some? {
        BlockedQuiet(t, 0, AgentError(x.ids.error, None, "", "", x.now), ExceededBudget(t, b, x.now).value, x.now);
      } else if x.reasoning.Decides? {
        DecisionQuiet(t, x.reasoning.decision, b, x);
      } else if x.reasoning.Fails? {
        var e := AgentError(x.ids.error, None, "invalid_decision", x.reasoning.message, x.now);
        BlockedQuiet(t, t.modelCallCount, e, "Reasoning failed: " + x.reasoning.message, x.now);
        assert t.(modelCallCount := t.modelCallCount) == t;
      }
    }
  }

  lemma QuietReflexive(t: Task)
    ensures Quiet(t, t)
  {
  }

  /** The reached action is of a gated kind. */
  predicate ReachesGated(t: Task, b: Budget, op: Op) {
    var i := Reached(t, b, op);
    && i.Some? && i.value < |Prepared(t, op.input).actions|
    && IsExecution(Prepared(t, op.input).actions[i.value].actionType)
  }

  lemma ReachedApproved(t: Task, b: Budget, op: Op)
    requires ControlSound(t, b) && ReachesGated(t, b, op)
    ensures var i := Reached(t, b, op).value;
            && i < |t.actions| && t.actions[i].approvalState == APPROVED
            && t.phase == PREPARING && t.pendingActionId == Some(t.actions[i].id)
            && Authorized(t.header) && Prepared(t, op.input) == t.(pendingActionId := None)
  {
    hide IndexOf, UniqueIds, Counted, PhaseSound, InstallsSound, LeavesScope, ExceededBudget;
  }

  /** A diagnostic or an installation reaches execution only as a recorded action that an operator approved, in an
      authorised task. */
  lemma ExecutionIsApproved(h: Header, b: Budget, now: Time, ops: seq<Op>, op: Op)
    requires FreshRun(Created(h, now), b, ops) && ReachesGated(Run(Created(h, now), b, ops), b, op)
    ensures var t := Run(Created(h, now), b, ops);
            var i := Reached(t, b, op).value;
            && i < |t.actions| && t.actions[i].approvalState == APPROVED
            && t.phase == PREPARING && t.pendingActionId == Some(t.actions[i].id)
            && Authorized(t.header)
  {
    hide Run, FreshRun, ReachesGated, ControlSound;
    CreatedSound(h, b, now);
    RunSound(Created(h, now), b, ops);
    ReachedApproved(Run(Created(h, now), b, ops), b, op);
  }

  // --- At most once ------------------------------------------------------------------------------------------------

  /** Action `i` is of a gated kind and is not the pending one. */
  predicate Spent(t: Task, i: nat) {
    i < |t.actions| && IsExecution(t.actions[i].actionType) && t.pendingActionId != Some(t.actions[i].id)
  }

  lemma SpentIsNotReached(t: Task, b: Budget, op: Op, i: nat)
    requires Spent(t, i) && UniqueIds(t.actions)
    ensures Reached(t, b, op) != Some(i)
  {
    hide RunsAtOnce, ExceededBudget;
  }

  lemma ReachedIsSpent(t: Task, b: Budget, op: Op)
    requires ControlSound(t, b) && Fresh(t, op) && ReachesGated(t, b, op)
    ensures Spent(Apply(t, b, op).task, Reached(t, b, op).value)
  {
    hide Executed, Counted, PhaseSound, InstallsSound, LeavesScope, ExceededBudget;
    var i := Reached(t, b, op).value;
    ReachedExecutes(t, b, op);
    ExecutedShape(Prepared(t, op.input), i, b, op.input);
    assert SameAction(Prepared(t, op.input).actions[i], Apply(t, b, op).task.actions[i]);
  }

  lemma SpentByExecution(t: Task, b: Budget, op: Op, i: nat)
    requires Spent(t, i) && UniqueIds(t.actions) && Fresh(t, op) && Reached(t, b, op).Some?
    ensures Spent(Apply(t, b, op).task, i)
  {
    hide Executed, LeavesScope, ExceededBudget, IndexOf;
    var k := Reached(t, b, op).value;
    var p, u := Prepared(t, op.input), Apply(t, b, op).task;
    ReachedExecutes(t, b, op);
    ExecutedShape(p, k, b, op.input);
    assert SameAction(p.actions[i], u.actions[i]) && SameAction(p.actions[k], u.actions[k]);
    assert t.actions[i] in t.actions;
    assert k < |t.actions| && k != i ==> t.actions[k].id != t.actions[i].id;
  }

  lemma SpentOtherwise(t: Task, b: Budget, op: Op, i: nat)
    requires Spent(t, i) && UniqueIds(t.actions) && Fresh(t, op) && Reached(t, b, op).None?
    ensures Spent(Apply(t, b, op).task, i)
  {
    hide Apply, Reached;
    assert t.actions[i] in t.actions;
    if op.Step? {
      StepQuiet(t, b, op.input);
    } else {
      OperatorQuiet(t, b, op);
    }
  }

  lemma SpentForGood(t: Task, b: Budget, ops: seq<Op>, i: nat)
    requires ControlSound(t, b) && FreshRun(t, b, ops) && Spent(t, i)
    ensures Spent(Run(t, b, ops), i) && ControlSound(Run(t, b, ops), b)
    decreases |ops|
  {
    hide Apply, Fresh, Reached, Spent;
    if ops != [] {
      ApplySound(t, b, ops[0]);
      assert UniqueIds(t.actions);
      if Reached(t, b, ops[0]).Some? {
        SpentByExecution(t, b, ops[0], i);
      } else {
        SpentOtherwise(t, b, ops[0], i);
      }
      SpentForGood(Apply(t, b, ops[0]).task, b, ops[1..], i);
    }
  }

  /** What was approved and spent stays approved and spent. */
  lemma GrantKept(t: Task, b: Budget, op: Op, i: nat)
    requires ControlSound(t, b) && Fresh(t, op) && Spent(t, i)
    ensures var u := Apply(t, b, op).task;
            && Spent(u, i) && u.header == t.header
            && u.actions[i].approvalState == t.actions[i].approvalState
            && u.actions[i].actionType == t.actions[i].actionType && u.actions[i].tool == t.actions[i].tool
  {
    hide Apply, Reached, Executed, Prepared, ControlSound, Fresh;
    assert UniqueIds(t.actions) by { UniqueOf(t, b); }
    if Reached(t, b, op).Some? {
      SpentByExecution(t, b, op, i);
      GrantKeptByExecution(t, b, op, i);
    } else {
      SpentOtherwise(t, b, op, i);
      if op.Step? {
        StepQuiet(t, b, op.input);
      } else {
        OperatorQuiet(t, b, op);
      }
    }
  }

  lemma UniqueOf(t: Task, b: Budget)
    requires ControlSound(t, b)
    ensures UniqueIds(t.actions)
  {
  }

  lemma GrantKeptByExecution(t: Task, b: Budget, op: Op, i: nat)
    requires i < |t.actions| && Reached(t, b, op).Some?
    ensures var u := Apply(t, b, op).task;
            && u.header == t.header && i < |u.actions|
            && u.actions[i].approvalState == t.actions[i].approvalState
            && u.actions[i].actionType == t.actions[i].actionType && u.actions[i].tool == t.actions[i].tool
  {
    hide Apply, Executed, IndexOf, LeavesScope, ExceededBudget;
    var k := Reached(t, b, op).value;
    var p := Prepared(t, op.input);
    ReachedExecutes(t, b, op);
    ExecutedShape(p, k, b, op.input);
    assert SameAction(p.actions[i], Apply(t, b, op).task.actions[i]);
  }

  /** One approval, one execution: after a diagnostic or an installation has been executed, no mix of pauses,
      resumptions, approvals, rejections, clarifications, cancellations and further steps executes it again. */
  lemma AtMostOnce(h: Header, b: Budget, now: Time, before: seq<Op>, op: Op, after: seq<Op>, again: Op)
    requires FreshRun(Created(h, now), b, before)
    requires Fresh(Run(Created(h, now), b, before), op)
    requires FreshRun(Apply(Run(Created(h, now), b, before), b, op).task, b, after)
    requires ReachesGated(Run(Created(h, now), b, before), b, op)
    ensures var t := Run(Created(h, now), b, before);
            Reached(Run(Apply(t, b, op).task, b, after), b, again) != Reached(t, b, op)
  {
    var t := Run(Created(h, now), b, before);
    hide Run, Apply, Fresh, FreshRun, Reached, Spent, Prepared;
    CreatedSound(h, b, now);
    RunSound(Created(h, now), b, before);
    var i := Reached(t, b, op).value;
    ReachedIsSpent(t, b, op);
    ApplySound(t, b, op);
    var u := Apply(t, b, op).task;
    SpentForGood(u, b, after, i);
    SpentIsNotReached(Run(u, b, after), b, again, i);
  }

  // --- It stays over -----------------------------------------------------------------------------------------------

  predicate AtRest(t: Task) {
    IsTerminal(t) || Waits(t)
  }

  /** No operation changes a task that is over, and none but a second `cancel` and `step` even pretends to succeed. */
  lemma TerminalAbsorbs(t: Task, b: Budget, op: Op)
    requires IsTerminal(t)
    ensures Apply(t, b, op).task == t
    ensures Apply(t, b, op).reply == Fine <==> op.Cancel? || op.Step?
  {
    hide Executed, Taken, IndexOf, Unanswered;
  }

  lemma {:induction false} TerminalForever(t: Task, b: Budget, ops: seq<Op>)
    requires IsTerminal(t)
    ensures Run(t, b, ops) == t
    decreases |ops|
  {
    hide Apply, IsTerminal;
    if ops != [] {
      TerminalAbsorbs(t, b, ops[0]);
      TerminalForever(t, b, ops[1..]);
    }
  }

  /** Every reachable task has an end time exactly when it is over, and is CANCELLED exactly when it was cancelled. */
  lemma EndsAreRecorded(h: Header, b: Budget, now: Time, ops: seq<Op>)
    requires FreshRun(Created(h, now), b, ops)
    ensures PhaseSound(Run(Created(h, now), b, ops))
  {
    hide Run, FreshRun, PhaseSound, Counted;
    CreatedSound(h, b, now);
    RunSound(Created(h, now), b, ops);
  }
}
