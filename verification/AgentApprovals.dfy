/** What an operator's approval is worth: when it takes effect, when it is lost, and which executions happen without
    one. */
module AgentApprovals {
  import opened Prelude
  import opened AgentModels
  import opened AgentRecovery
  import opened AgentTask
  import opened AgentInvariants
  import opened AgentControl
  import opened AgentSafety
  import opened Text

  // --- When an approval takes effect -------------------------------------------------------------------------------

  /** The operations that put an approved action aside. */
  predicate Interrupts(op: Op) {
    op.Pause? || op.Cancel?
  }

  predicate OperatorsOnly(ops: seq<Op>) {
    forall op :: op in ops ==> !op.Step?
  }

  lemma {:induction false} UninterruptedStays(t: Task, b: Budget, ops: seq<Op>)
    requires t.phase == PREPARING && OperatorsOnly(ops) && forall op :: op in ops ==> !Interrupts(op)
    ensures Run(t, b, ops) == t
    decreases |ops|
  {
    hide IndexOf;
    if ops != [] {
      assert ops[0] in ops;
      assert forall op :: op in ops[1..] ==> op in ops;
      UninterruptedStays(t, b, ops[1..]);
    }
  }

  /** Paused, resumed or cancelled: the actions are as they were. */
  predicate Interrupted(t: Task, u: Task) {
    u.actions == t.actions && u.phase in {Phase.PAUSED, PLANNING, Phase.CANCELLED}
  }

  lemma {:induction false} InterruptedStays(t: Task, u: Task, b: Budget, ops: seq<Op>)
    requires Interrupted(t, u) && OperatorsOnly(ops)
    ensures Interrupted(t, Run(u, b, ops))
    decreases |ops|
  {
    hide IndexOf;
    if ops != [] {
      assert ops[0] in ops;
      assert forall op :: op in ops[1..] ==> op in ops;
      InterruptedStays(t, Apply(u, b, ops[0]).task, b, ops[1..]);
    }
  }

  lemma {:induction false} OnceInterrupted(t: Task, b: Budget, ops: seq<Op>)
    requires t.phase == PREPARING && OperatorsOnly(ops) && exists op :: op in ops && Interrupts(op)
    ensures Interrupted(t, Run(t, b, ops))
    decreases |ops|
  {
    hide IndexOf;
    assert ops[0] in ops;
    assert forall op :: op in ops[1..] ==> op in ops;
    if Interrupts(ops[0]) {
      InterruptedStays(t, Apply(t, b, ops[0]).task, b, ops[1..]);
    } else {
      OnceInterrupted(t, b, ops[1..]);
    }
  }

  lemma InterruptedMisses(t: Task, u: Task, b: Budget, x: Input, i: nat)
    requires Interrupted(t, u) && i < |t.actions|
    ensures Reached(u, b, Step(x)) != Some(i)
  {
    hide RunsAtOnce, ExceededBudget, IndexOf;
  }

  lemma ApprovedReaches(t: Task, b: Budget, now: Time, x: Input)
    requires ControlSound(t, b) && t.phase == Phase.WAITING_FOR_APPROVAL
    ensures var u := Apply(t, b, ApproveAction(now)).task;
            && Apply(t, b, ApproveAction(now)).reply == Fine && u.phase == PREPARING
            && |u.actions| == |t.actions|
            && Reached(u, b, Step(x)) == IndexOf(t.actions, t.pendingActionId.value)
            && t.pendingActionId.Some? && IndexOf(t.actions, t.pendingActionId.value).Some?
  {
    hide IndexOf, UniqueIds, Counted, InstallsSound, ExceededBudget;
    var i := IndexOf(t.actions, t.pendingActionId.value).value;
    IndexOfSame(t.actions, WithApproval(t, i, now).actions, t.pendingActionId.value);
  }

  /** After an approval, and whatever operators do before the next step, that step executes the approved action exactly
      if nobody paused or cancelled the task in between. */
  lemma ApprovalTakesEffectExactly(t: Task, b: Budget, now: Time, between: seq<Op>, x: Input)
    requires ControlSound(t, b) && t.phase == Phase.WAITING_FOR_APPROVAL && OperatorsOnly(between)
    ensures var u := Run(Apply(t, b, ApproveAction(now)).task, b, between);
            && Apply(t, b, ApproveAction(now)).reply == Fine
            && IndexOf(t.actions, t.pendingActionId.value).Some?
            && (Reached(u, b, Step(x)) == IndexOf(t.actions, t.pendingActionId.value) <==>
                forall op :: op in between ==> !Interrupts(op))
  {
    hide Apply, ControlSound, Reached, Interrupts, Run, Interrupted;
    ApprovedReaches(t, b, now, x);
    var v := Apply(t, b, ApproveAction(now)).task;
    if forall op :: op in between ==> !Interrupts(op) {
      UninterruptedStays(v, b, between);
    } else {
      OnceInterrupted(v, b, between);
      InterruptedMisses(v, Run(v, b, between), b, x, IndexOf(t.actions, t.pendingActionId.value).value);
    }
  }

  /** The case that operators meet: approve, pause, resume. The task is planning again, with the action still marked
      approved and still on its desk, and the next step asks the reasoner for another one. */
  lemma ApprovalLost(t: Task, b: Budget, now: Time, paused: Time, resumed: Time, x: Input)
    requires ControlSound(t, b) && t.phase == Phase.WAITING_FOR_APPROVAL
    ensures var u := Run(Apply(t, b, ApproveAction(now)).task, b, [Pause(paused), Resume(resumed)]);
            var i := IndexOf(t.actions, t.pendingActionId.value);
            && u.phase == PLANNING && u.pendingActionId == t.pendingActionId
            && i.Some? && i.value < |u.actions| && u.actions[i.value].approvalState == APPROVED
            && Reached(u, b, Step(x)) != i
  {
    hide ControlSound, ExceededBudget, RunsAtOnce, IndexOf, Apply, Reached;
    ApprovedReaches(t, b, now, x);
    ApprovedOnDesk(t, b, now);
    PausedAndResumed(Apply(t, b, ApproveAction(now)).task, b, paused, resumed);
    var u := Run(Apply(t, b, ApproveAction(now)).task, b, [Pause(paused), Resume(resumed)]);
    InterruptedMisses(u, u, b, x, IndexOf(t.actions, t.pendingActionId.value).value);
  }

  lemma ApprovedOnDesk(t: Task, b: Budget, now: Time)
    requires t.phase == Phase.WAITING_FOR_APPROVAL && t.pendingActionId.Some?
    requires IndexOf(t.actions, t.pendingActionId.value).Some?
    ensures var u := Apply(t, b, ApproveAction(now)).task;
            var i := IndexOf(t.actions, t.pendingActionId.value).value;
            u.pendingActionId == t.pendingActionId && i < |u.actions| && u.actions[i].approvalState == APPROVED
  {
    hide IndexOf;
  }

  lemma PausedAndResumed(v: Task, b: Budget, paused: Time, resumed: Time)
    requires v.phase == PREPARING
    ensures Run(v, b, [Pause(paused), Resume(resumed)]) == v.(phase := PLANNING, updatedAt := resumed)
  {
    var ops := [Pause(paused), Resume(resumed)];
    var w := Apply(v, b, ops[0]).task;
    assert ops[1..] == [ops[1]] && [ops[1]][1..] == [];
    assert Run(v, b, ops) == Run(w, b, [ops[1]]) == Run(Apply(w, b, ops[1]).task, b, []);
  }

  // --- Lost for good -----------------------------------------------------------------------------------------------

  /** Action `i` is not about to run, nor put before the operator. */
  predicate Shelved(t: Task, i: nat) {
    i < |t.actions| && (t.pendingActionId == Some(t.actions[i].id) ==>
                        t.phase !in {PREPARING, Phase.WAITING_FOR_APPROVAL})
  }

  lemma ShelvedIsNotReached(t: Task, b: Budget, op: Op, i: nat)
    requires Shelved(t, i)
    ensures Reached(t, b, op) != Some(i)
  {
    hide RunsAtOnce, ExceededBudget;
  }

  lemma ShelvedByExecution(t: Task, b: Budget, op: Op, i: nat)
    requires Shelved(t, i) && UniqueIds(t.actions) && Fresh(t, op) && Reached(t, b, op).Some?
    ensures Shelved(Apply(t, b, op).task, i)
  {
    hide Executed, LeavesScope, ExceededBudget, IndexOf;
    var k := Reached(t, b, op).value;
    var p, u := Prepared(t, op.input), Apply(t, b, op).task;
    ShelvedIsNotReached(t, b, op, i);
    ReachedExecutes(t, b, op);
    ExecutedShape(p, k, b, op.input);
    assert SameAction(p.actions[i], u.actions[i]) && SameAction(p.actions[k], u.actions[k]);
    assert t.actions[i] in t.actions;
    assert k < |t.actions| && k != i ==> t.actions[k].id != t.actions[i].id;
  }

  predicate Asks(t: Task, u: Task, id: Uuid) {
    || (u.phase !in {PREPARING, Phase.WAITING_FOR_APPROVAL} && u.pendingActionId == t.pendingActionId)
    || (u.pendingActionId == Some(id) && |u.actions| == |t.actions| + 1 && u.actions[|t.actions|].requiresApproval)
  }

  lemma DecisionAsks(t: Task, d: Decision, b: Budget, x: Input)
    requires !RunsAtOnce(t.header, d)
    ensures Asks(t, Taken(t.(modelCallCount := t.modelCallCount + 1), d, b, x).task, x.ids.action)
  {
    hide Executed, LeavesScope, JoinWith;
  }

  /** A step that executes nothing puts at most its own new action before the operator, one that needs approval. */
  lemma UnreachedAsks(t: Task, b: Budget, x: Input)
    requires Reached(t, b, Step(x)).None?
    ensures var u := Apply(t, b, Step(x)).task; u == t || Asks(t, u, x.ids.action)
  {
    hide Taken, IndexOf, ExceededBudget, RunsAtOnce;
    if !AtRest(t) && !(t.phase == PREPARING && t.pendingActionId.Some?) && ExceededBudget(t, b, x.now).None?
       && x.reasoning.Decides? {
      DecisionAsks(t, x.reasoning.decision, b, x);
    }
  }

  lemma ShelvedOtherwise(t: Task, b: Budget, op: Op, i: nat)
    requires Shelved(t, i) && Fresh(t, op) && Reached(t, b, op).None?
    ensures Shelved(Apply(t, b, op).task, i)
  {
    assert t.actions[i] in t.actions;
    if op.Step? {
      hide Apply, Reached;
      StepQuiet(t, b, op.input);
      UnreachedAsks(t, b, op.input);
    } else {
      hide Reached, IndexOf, Unanswered, Quiet;
      OperatorQuiet(t, b, op);
    }
  }

  lemma ShelvedStays(t: Task, b: Budget, op: Op, i: nat)
    requires ControlSound(t, b) && Fresh(t, op) && Shelved(t, i)
    ensures Shelved(Apply(t, b, op).task, i)
  {
    hide Apply, Reached, Fresh, Shelved, ControlSound;
    UniqueOf(t, b);
    if Reached(t, b, op).Some? {
      ShelvedByExecution(t, b, op, i);
    } else {
      ShelvedOtherwise(t, b, op, i);
    }
  }

  lemma {:induction false} ShelvedForGood(t: Task, b: Budget, ops: seq<Op>, i: nat)
    requires ControlSound(t, b) && FreshRun(t, b, ops) && Shelved(t, i)
    ensures Shelved(Run(t, b, ops), i)
    decreases |ops|
  {
    hide Apply, Fresh, Shelved, ControlSound;
    if ops != [] {
      ApplySound(t, b, ops[0]);
      ShelvedStays(t, b, ops[0], i);
      ShelvedForGood(Apply(t, b, ops[0]).task, b, ops[1..], i);
    }
  }

  /** An approval that was interrupted is lost for good: no later run executes the approved action. */
  lemma LostForGood(t: Task, b: Budget, now: Time, between: seq<Op>, after: seq<Op>, x: Input)
    requires ControlSound(t, b) && t.phase == Phase.WAITING_FOR_APPROVAL && OperatorsOnly(between)
    requires exists op :: op in between && Interrupts(op)
    requires FreshRun(Run(Apply(t, b, ApproveAction(now)).task, b, between), b, after)
    ensures var u := Run(Apply(t, b, ApproveAction(now)).task, b, between);
            Reached(Run(u, b, after), b, Step(x)) != IndexOf(t.actions, t.pendingActionId.value)
  {
    hide Apply, ControlSound, Reached, Interrupts, Fresh, Interrupted, Shelved, Run;
    ApprovedReaches(t, b, now, x);
    var v := Apply(t, b, ApproveAction(now)).task;
    var i := IndexOf(t.actions, t.pendingActionId.value).value;
    ApplySound(t, b, ApproveAction(now)) by { OperatorsAreFresh(t, ApproveAction(now)); }
    FreshOperators(v, b, between);
    RunSound(v, b, between);
    OnceInterrupted(v, b, between);
    var u := Run(v, b, between);
    InterruptedIsShelved(v, u, i);
    ShelvedForGood(u, b, after, i);
    ShelvedIsNotReached(Run(u, b, after), b, Step(x), i);
  }

  lemma OperatorsAreFresh(t: Task, op: Op)
    requires !op.Step?
    ensures Fresh(t, op)
  {
  }

  lemma {:induction false} FreshOperators(t: Task, b: Budget, ops: seq<Op>)
    requires OperatorsOnly(ops)
    ensures FreshRun(t, b, ops)
    decreases |ops|
  {
    hide Apply;
    if ops != [] {
      assert ops[0] in ops;
      assert forall op :: op in ops[1..] ==> op in ops;
      FreshOperators(Apply(t, b, ops[0]).task, b, ops[1..]);
    }
  }

  lemma InterruptedIsShelved(t: Task, u: Task, i: nat)
    requires Interrupted(t, u) && i < |t.actions|
    ensures Shelved(u, i)
  {
  }

  // --- Executions without approval ---------------------------------------------------------------------------------

  /** What waits for the operator needs approval, or is itself the request to be asked. */
  predicate DeskSound(t: Task) {
    forall j :: 0 <= j < |t.actions| && t.pendingActionId == Some(t.actions[j].id) ==> NeedsOperator(t.actions[j])
  }

  predicate NeedsOperator(a: Action) {
    a.requiresApproval || a.actionType == WAIT_FOR_APPROVAL
  }

  /** The action is what the reasoner decided in the call `x`; it needs approval if the decision says so, and if its
      kind is gated in any case. */
  predicate DecidedAs(x: Input, a: Action) {
    && x.reasoning.Decides? && a.id == x.ids.action
    && a.actionType == x.reasoning.decision.actionType && a.tool == x.reasoning.decision.tool
    && a.target == TargetArgument(x.reasoning.decision)
    && a.requiresApproval == (x.reasoning.decision.requiresApproval || IsExecution(a.actionType))
    && OrderedBy(x.reasoning.decision, a) && a.createdAt == x.now
  }

  /** The rest of what the decision says about the action. */
  predicate OrderedBy(d: Decision, a: Action) {
    && a.capability == d.capability && a.parameters == d.arguments && a.expectedResult == d.nextAction
    && a.verificationRequirement == JoinWith("; ", d.verificationPlan) && a.reasoningSummary == d.reasoningSummary
    && a.confidence == d.confidence
  }

  predicate Decided(past: seq<Op>, a: Action) {
    exists op :: op in past && op.Step? && DecidedAs(op.input, a)
  }

  predicate ActionsDecided(past: seq<Op>, t: Task) {
    forall j :: 0 <= j < |t.actions| ==> Decided(past, t.actions[j])
  }

  predicate KeepsKind(a: Action, b: Action) {
    && a.id == b.id && a.actionType == b.actionType && a.tool == b.tool && a.target == b.target
    && a.requiresApproval == b.requiresApproval && SameOrder(a, b)
  }

  /** What an operation does to the list of actions and to the operator's desk. */
  predicate Develops(t: Task, u: Task, op: Op) {
    && |t.actions| <= |u.actions| <= |t.actions| + (if op.Step? then 1 else 0)
    && (forall j :: 0 <= j < |t.actions| ==> KeepsKind(t.actions[j], u.actions[j]))
    && (|u.actions| > |t.actions| ==> DecidedAs(op.input, u.actions[|t.actions|]))
    && (u.pendingActionId == t.pendingActionId || u.pendingActionId.None?
        || exists k :: 0 <= k < |u.actions| && u.pendingActionId == Some(u.actions[k].id)
            && NeedsOperator(u.actions[k]))
  }

  /** A recorded action that stops the step is the action as it was built, behind all the earlier ones. */
  predicate Records(t: Task, u: Task, action: Action) {
    && |u.actions| == |t.actions| + 1 && u.actions[..|t.actions|] == t.actions
    && KeepsKind(action, u.actions[|t.actions|]) && u.actions[|t.actions|].approvalState == action.approvalState
  }

  lemma AskedRecords(t: Task, calls: int, action: Action, reason: string, now: Time)
    ensures var r := ActionRecorded(t.(modelCallCount := calls), action);
            && Records(t, AuthorizationAsked(r, |t.actions|, reason, now), action)
            && Records(t, ApprovalAsked(r, |t.actions|, now), action)
  {
  }

  lemma BuiltKind(t: Task, d: Decision, g: Gate, x: Input)
    requires g == Gated(t.header, d) && !g.OutOfScope? && x.reasoning == Decides(d)
    ensures var action := BuiltAction(d, g, x.ids.action, x.now);
            DecidedAs(x, action) && action.approvalState != APPROVED
  {
    hide LeavesScope, JoinWith;
  }

  lemma DecisionRecords(t: Task, d: Decision, b: Budget, x: Input)
    requires !RunsAtOnce(t.header, d) && x.reasoning == Decides(d)
    ensures var u := Taken(t.(modelCallCount := t.modelCallCount + 1), d, b, x).task;
            || u.actions == t.actions
            || exists action :: Records(t, u, action) && DecidedAs(x, action) && action.approvalState != APPROVED
  {
    hide Executed, LeavesScope, ActionRecorded, AuthorizationAsked, ApprovalAsked, BlockedWithError, BuiltAction,
         Records, DecidedAs;
    var g := Gated(t.header, d);
    if g.OutOfScope? {
      BlockedQuiet(t, t.modelCallCount + 1, AgentError(x.ids.error, None, "out_of_scope", g.message, x.now), g.message,
                   x.now);
    } else {
      BuiltKind(t, d, g, x);
      AskedRecords(t, t.modelCallCount + 1, BuiltAction(d, g, x.ids.action, x.now),
                   if g.Disallowed? then g.reason else "", x.now);
      BuiltNeeds(d, g, x.ids.action, x.now);
    }
  }

  lemma BuiltNeeds(d: Decision, g: Gate, id: Uuid, now: Time)
    requires !g.OutOfScope?
    ensures BuiltAction(d, g, id, now).requiresApproval == (g.Disallowed? || g.requiresApproval)
  {
    hide JoinWith;
  }

  lemma UnreachedRecords(t: Task, b: Budget, x: Input)
    requires Reached(t, b, Step(x)).None?
    ensures var u := Apply(t, b, Step(x)).task;
            || u.actions == t.actions
            || exists action :: Records(t, u, action) && DecidedAs(x, action) && action.approvalState != APPROVED
  {
    hide Taken, IndexOf, ExceededBudget, RunsAtOnce, DecidedAs, Records, Blocked, BlockedWithError;
    if !AtRest(t) && !(t.phase == PREPARING && t.pendingActionId.Some?) {
      if ExceededBudget(t, b, x.now).Some? {
        BlockedQuiet(t, 0, AgentError(x.ids.error, None, "", "", x.now), ExceededBudget(t, b, x.now).value, x.now);
      } else if x.reasoning.Decides? {
        DecisionRecords(t, x.reasoning.decision, b, x);
      } else if x.reasoning.Fails? {
        var e := AgentError(x.ids.error, None, "invalid_decision", x.reasoning.message, x.now);
        BlockedQuiet(t, t.modelCallCount, e, "Reasoning failed: " + x.reasoning.message, x.now);
        assert t.(modelCallCount := t.modelCallCount) == t;
      }
    }
  }

  lemma RecordedAs(t: Task, u: Task, x: Input, action: Action)
    requires Records(t, u, action) && DecidedAs(x, action)
    ensures DecidedAs(x, u.actions[|t.actions|])
  {
  }

  lemma UnreachedDevelops(t: Task, b: Budget, x: Input)
    requires Reached(t, b, Step(x)).None?
    ensures Develops(t, Apply(t, b, Step(x)).task, Step(x))
  {
    hide Apply, Reached, DecidedAs;
    StepQuiet(t, b, x);
    UnreachedAsks(t, b, x);
    UnreachedRecords(t, b, x);
    var u := Apply(t, b, Step(x)).task;
    if action :| Records(t, u, action) && DecidedAs(x, action) {
      RecordedAs(t, u, x, action);
    }
  }

  lemma OperatorDevelops(t: Task, b: Budget, op: Op)
    requires !op.Step?
    ensures Develops(t, Apply(t, b, op).task, op)
  {
    hide Apply;
    OperatorQuiet(t, b, op);
  }

  lemma PreparedDevelops(t: Task, b: Budget, x: Input)
    requires Reached(t, b, Step(x)).Some?
    ensures var p := Prepared(t, x);
            && |t.actions| <= |p.actions| <= |t.actions| + 1 && p.actions[..|t.actions|] == t.actions
            && (|p.actions| > |t.actions| ==> DecidedAs(x, p.actions[|t.actions|]))
            && (p.pendingActionId == t.pendingActionId || p.pendingActionId.None?)
  {
    hide IndexOf, ExceededBudget, LeavesScope, JoinWith;
  }

  lemma ReachedDevelops(t: Task, b: Budget, x: Input)
    requires Reached(t, b, Step(x)).Some?
    ensures Develops(t, Apply(t, b, Step(x)).task, Step(x))
  {
    hide Apply, Reached, Prepared, Executed, InstallationsCounted, SameBooks, IsTerminal;
    var i := Reached(t, b, Step(x)).value;
    var p, u := Prepared(t, x), Apply(t, b, Step(x)).task;
    PreparedDevelops(t, b, x);
    ReachedExecutes(t, b, Step(x));
    ExecutedShape(p, i, b, x);
    forall j | 0 <= j < |p.actions|
      ensures KeepsKind(p.actions[j], u.actions[j])
    {
      assert SameAction(p.actions[j], u.actions[j]);
    }
    assert forall j :: 0 <= j < |t.actions| ==> p.actions[j] == t.actions[j];
  }

  lemma ApplyDevelops(t: Task, b: Budget, op: Op)
    ensures Develops(t, Apply(t, b, op).task, op)
  {
    hide Apply, Reached, Develops;
    if !op.Step? {
      OperatorDevelops(t, b, op);
    } else if Reached(t, b, op).Some? {
      ReachedDevelops(t, b, op.input);
    } else {
      UnreachedDevelops(t, b, op.input);
    }
  }

  lemma DeskKept(t: Task, b: Budget, op: Op)
    requires ControlSound(t, b) && Fresh(t, op) && DeskSound(t)
    ensures DeskSound(Apply(t, b, op).task)
  {
    hide Apply, Counted, PhaseSound, InstallsSound, ApprovalSound, Fresh, DecidedAs;
    var u := Apply(t, b, op).task;
    ApplyDevelops(t, b, op);
    ApplySound(t, b, op);
    assert UniqueIds(u.actions);
    if u.pendingActionId == t.pendingActionId && u.pendingActionId.Some? {
      var i := IndexOf(t.actions, t.pendingActionId.value).value;
      assert KeepsKind(t.actions[i], u.actions[i]);
    }
  }

  lemma DecidedKept(past: seq<Op>, t: Task, b: Budget, op: Op)
    requires ActionsDecided(past, t)
    ensures ActionsDecided(past + [op], Apply(t, b, op).task)
  {
    hide Apply;
    var u := Apply(t, b, op).task;
    ApplyDevelops(t, b, op);
    assert op in past + [op];
    forall j | 0 <= j < |u.actions|
      ensures Decided(past + [op], u.actions[j])
    {
      if j < |t.actions| {
        assert KeepsKind(t.actions[j], u.actions[j]);
        var o :| o in past && o.Step? && DecidedAs(o.input, t.actions[j]);
        assert o in past + [op] && DecidedAs(o.input, u.actions[j]);
      }
    }
  }

  lemma {:induction false} RunDecided(past: seq<Op>, t: Task, b: Budget, ops: seq<Op>)
    requires ControlSound(t, b) && FreshRun(t, b, ops) && DeskSound(t) && ActionsDecided(past, t)
    ensures DeskSound(Run(t, b, ops)) && ActionsDecided(past + ops, Run(t, b, ops))
    decreases |ops|
  {
    hide Apply, Fresh, DeskSound, ControlSound, ActionsDecided;
    if ops == [] {
      assert past + ops == past;
    } else {
      ApplySound(t, b, ops[0]);
      DeskKept(t, b, ops[0]);
      DecidedKept(past, t, b, ops[0]);
      RunDecided(past + [ops[0]], Apply(t, b, ops[0]).task, b, ops[1..]);
      assert past + [ops[0]] + ops[1..] == past + ops;
    }
  }

  /** A reached action is an approved one or one that has just been decided on without need of approval. */
  lemma ReachedCarries(t: Task, b: Budget, x: Input)
    requires ControlSound(t, b) && DeskSound(t) && Reached(t, b, Step(x)).Some?
    ensures var i := Reached(t, b, Step(x)).value;
            && i < |Prepared(t, x).actions|
            && var a := Prepared(t, x).actions[i];
               if i < |t.actions| then a == t.actions[i] && a.approvalState == APPROVED && NeedsOperator(a)
               else a.approvalState != APPROVED && DecidedAs(x, a) && !a.requiresApproval
  {
    hide Reached, Prepared, ControlSound, DeskSound, DecidedAs, NeedsOperator;
    if t.phase == PREPARING && t.pendingActionId.Some? {
      PendingCarries(t, b, x);
    } else {
      DecidedCarries(t, b, x);
    }
  }

  lemma PendingCarries(t: Task, b: Budget, x: Input)
    requires ControlSound(t, b) && DeskSound(t) && Reached(t, b, Step(x)).Some?
    requires t.phase == PREPARING && t.pendingActionId.Some?
    ensures Prepared(t, x).actions == t.actions
    ensures var i := Reached(t, b, Step(x)).value;
            i < |t.actions| && t.actions[i].approvalState == APPROVED && NeedsOperator(t.actions[i])
  {
    hide IndexOf, UniqueIds, Counted, PhaseSound, InstallsSound, ExceededBudget, RunsAtOnce;
  }

  lemma DecidedCarries(t: Task, b: Budget, x: Input)
    requires Reached(t, b, Step(x)).Some? && !(t.phase == PREPARING && t.pendingActionId.Some?)
    ensures Reached(t, b, Step(x)) == Some(|t.actions|) && |Prepared(t, x).actions| == |t.actions| + 1
    ensures var a := Prepared(t, x).actions[|t.actions|];
            a.approvalState != APPROVED && DecidedAs(x, a) && !a.requiresApproval
  {
    hide IndexOf, ExceededBudget, LeavesScope, BuiltAction;
    BuiltKind(t, x.reasoning.decision, Allowed(false), x);
    BuiltNeeds(x.reasoning.decision, Allowed(false), x.ids.action, x.now);
  }

  /** The reached action asks the engine for the diagnostic. */
  predicate IsDiagnosis(a: Action) {
    a.actionType == RUN_DIAGNOSTIC || a.actionType == COLLECT_INFORMATION
  }

  /** Over every run: the action that a step executes was approved exactly if it had to be, for every kind but the
      request to be asked itself; and it had to be exactly if the decision behind it said so or its kind is gated. A
      diagnostic process that is started for COLLECT_INFORMATION therefore had an operator's approval only where the
      reasoner asked for it. */
  lemma ApprovedExactly(h: Header, b: Budget, now: Time, ops: seq<Op>, x: Input)
    requires FreshRun(Created(h, now), b, ops) && Reached(Run(Created(h, now), b, ops), b, Step(x)).Some?
    ensures var t := Run(Created(h, now), b, ops);
            var i := Reached(t, b, Step(x)).value;
            && i < |Prepared(t, x).actions|
            && var a := Prepared(t, x).actions[i];
               && Decided(ops + [Step(x)], a)
               && (a.actionType != WAIT_FOR_APPROVAL ==> (a.approvalState == APPROVED <==> a.requiresApproval))
               && (IsDiagnosis(a) && a.approvalState != APPROVED ==> a.actionType == COLLECT_INFORMATION)
  {
    hide Run, FreshRun, ControlSound, Reached, Prepared, DeskSound;
    var t := Run(Created(h, now), b, ops);
    CreatedSound(h, b, now);
    RunSound(Created(h, now), b, ops);
    CreatedDesk(h, now);
    RunDecided([], Created(h, now), b, ops);
    assert [] + ops == ops;
    ReachedCarries(t, b, x);
    var i := Reached(t, b, Step(x)).value;
    var a := Prepared(t, x).actions[i];
    assert Step(x) in ops + [Step(x)];
    if i < |t.actions| {
      var op :| op in ops && op.Step? && DecidedAs(op.input, a);
      assert op in ops + [Step(x)];
    }
  }

  lemma CreatedDesk(h: Header, now: Time)
    ensures DeskSound(Created(h, now)) && ActionsDecided([], Created(h, now))
  {
  }

  /** Only the operator's approval marks an action approved: the one on the desk, while the task waits for it. */
  lemma OnlyOperatorsApprove(t: Task, b: Budget, op: Op, j: nat)
    requires j < |Apply(t, b, op).task.actions| && Apply(t, b, op).task.actions[j].approvalState == APPROVED
    ensures j < |t.actions|
    ensures t.actions[j].approvalState == APPROVED
            || (op.ApproveAction? && t.phase == Phase.WAITING_FOR_APPROVAL
                && t.pendingActionId == Some(t.actions[j].id))
  {
    hide Apply, Reached;
    if op.Step? {
      if Reached(t, b, op).Some? {
        ReachedApprovals(t, b, op.input, j);
      } else {
        UnreachedApprovals(t, b, op.input, j);
      }
    } else {
      OperatorApprovals(t, b, op, j);
    }
  }

  lemma OperatorApprovals(t: Task, b: Budget, op: Op, j: nat)
    requires !op.Step? && j < |Apply(t, b, op).task.actions|
             && Apply(t, b, op).task.actions[j].approvalState == APPROVED
    ensures j < |t.actions|
    ensures t.actions[j].approvalState == APPROVED
            || (op.ApproveAction? && t.phase == Phase.WAITING_FOR_APPROVAL
                && t.pendingActionId == Some(t.actions[j].id))
  {
    hide IndexOf, Paused, Resumed, Cancelled, Clarified, ActionRejected, Quiet;
    if op.Clarify? {
      ClarifiedQuiet(t, op.at, op.answer, op.evidence);
    } else if op.RejectAction? {
      RejectionApprovals(t, op.at, op.reason, j);
    } else if !op.ApproveAction? {
      PausedQuiet(t, op.at);
      ResumedQuiet(t, op.at);
      CancelledQuiet(t, op.at);
    }
  }

  lemma RejectionApprovals(t: Task, now: Time, reason: string, j: nat)
    requires j < |ActionRejected(t, now, reason).task.actions|
    requires ActionRejected(t, now, reason).task.actions[j].approvalState == APPROVED
    ensures j < |t.actions| && t.actions[j].approvalState == APPROVED
  {
    hide IndexOf;
  }

  lemma ReachedApprovals(t: Task, b: Budget, x: Input, j: nat)
    requires Reached(t, b, Step(x)).Some?
    requires j < |Apply(t, b, Step(x)).task.actions| && Apply(t, b, Step(x)).task.actions[j].approvalState == APPROVED
    ensures j < |t.actions| && t.actions[j].approvalState == APPROVED
  {
    hide Apply, Executed, IndexOf, LeavesScope, ExceededBudget, JoinWith;
    ReachedExecutes(t, b, Step(x));
    ExecutedShape(Prepared(t, x), Reached(t, b, Step(x)).value, b, x);
    assert SameAction(Prepared(t, x).actions[j], Apply(t, b, Step(x)).task.actions[j]);
  }

  lemma UnreachedApprovals(t: Task, b: Budget, x: Input, j: nat)
    requires Reached(t, b, Step(x)).None?
    requires j < |Apply(t, b, Step(x)).task.actions| && Apply(t, b, Step(x)).task.actions[j].approvalState == APPROVED
    ensures j < |t.actions| && t.actions[j].approvalState == APPROVED
  {
    hide Apply, Reached, DecidedAs;
    UnreachedRecords(t, b, x);
    var u := Apply(t, b, Step(x)).task;
    if u.actions != t.actions {
      var action :| Records(t, u, action) && action.approvalState != APPROVED;
      if j < |t.actions| {
        assert u.actions[j] == u.actions[..|t.actions|][j];
      }
    }
  }

  /** It does happen, and even in a task that was never authorised: once an operator has answered its question, a
      decision to collect information runs at once, without approval, whatever tool or reasoner it comes from. */
  lemma CollectsUnapproved(h: Header, b: Budget, now: Time, answer: Op, x: Input)
    requires !Authorized(h) && answer.Clarify?
    requires x.reasoning.Decides? && x.reasoning.decision.actionType == COLLECT_INFORMATION
    requires !x.reasoning.decision.requiresApproval && !LeavesScope(h, x.reasoning.decision)
    requires ExceededBudget(Created(h, now), b, x.now).None?
    ensures var t := Run(Created(h, now), b, [answer]);
            && !Authorized(t.header)
            && Reached(t, b, Step(x)) == Some(0)
            && |Prepared(t, x).actions| == 1 && IsDiagnosis(Prepared(t, x).actions[0])
            && Prepared(t, x).actions[0].approvalState == NOT_REQUIRED
  {
    hide LeavesScope, JoinWith, Unanswered;
    assert [answer][1..] == [];
    assert Run(Created(h, now), b, [answer]) == Run(Apply(Created(h, now), b, answer).task, b, []);
  }
}
