/** Counters, phases and approvals: what holds of a task in every run, and the bound on how long it can go on by
    itself. */
module AgentControl {
  import opened Prelude
  import opened AgentModels
  import opened AgentRecovery
  import opened AgentTask
  import opened AgentInvariants

  // --- Runs --------------------------------------------------------------------------------------------------------

  function Run(t: Task, b: Budget, ops: seq<Op>): Task
    decreases |ops|
  {
    if ops == [] then t else Run(Apply(t, b, ops[0]).task, b, ops[1..])
  }

  /** New actions and new pieces of evidence get identifiers that were not used before. */
  predicate Fresh(t: Task, op: Op) {
    op.Step? ==>
      && (forall a :: a in t.actions ==> a.id != op.input.ids.action)
      && (forall e :: e in t.findings ==> e.id != op.input.ids.evidence)
  }

  predicate FreshRun(t: Task, b: Budget, ops: seq<Op>)
    decreases |ops|
  {
    ops == [] || (Fresh(t, ops[0]) && FreshRun(Apply(t, b, ops[0]).task, b, ops[1..]))
  }

  // --- The invariant -----------------------------------------------------------------------------------------------

  predicate UniqueIds(actions: seq<Action>) {
    forall j, k :: 0 <= j < k < |actions| ==> actions[j].id != actions[k].id
  }

  predicate Authorized(h: Header) {
    h.authorizationStatus == "AUTHORIZED"
  }

  /** The counters agree with the history and stay within their budgets. */
  predicate Counted(t: Task, b: Budget) {
    && t.actionCount == |t.actions| && |t.actions| <= Max(0, b.maxActions)
    && t.modelCallCount <= Max(0, b.maxModelCalls)
    && t.actionCount <= t.modelCallCount <= t.actionCount + (if IsTerminal(t) then 1 else 0)
    && t.installationCount <= Max(0, b.maxInstallations)
  }

  /** A task is closed exactly when its phase is terminal, and cancelled exactly when it was. */
  predicate PhaseSound(t: Task) {
    && (t.completedAt.Some? <==> IsTerminal(t))
    && (t.cancellationState == CancellationState.CANCELLED <==> t.phase == Phase.CANCELLED)
    && t.cancellationState != REQUESTED
  }

  /** The pending action is one of the task's, and may run only if the task is authorised. */
  predicate PendingSound(t: Task) {
    t.pendingActionId.Some? ==>
      var i := IndexOf(t.actions, t.pendingActionId.value);
      i.Some? && (IsExecution(t.actions[i.value].actionType) ==> Authorized(t.header))
  }

  predicate ApprovalSound(t: Task) {
    && (t.phase == Phase.WAITING_FOR_APPROVAL ==> t.pendingActionId.Some?)
    && (t.phase == PREPARING ==>
          && t.pendingActionId.Some?
          && var i := IndexOf(t.actions, t.pendingActionId.value);
             i.Some? && t.actions[i.value].approvalState == APPROVED)
    && (forall j :: 0 <= j < |t.actions| && IsExecution(t.actions[j].actionType)
                     && t.actions[j].approvalState == APPROVED ==>
          Authorized(t.header))
  }

  /** Approved installations that are not, or no longer, waiting to run. */
  function SpentInstalls(t: Task): set<nat> {
    set j: nat | j < |t.actions| && t.actions[j].actionType == INSTALL_TOOL && t.actions[j].approvalState == APPROVED
                 && t.pendingActionId != Some(t.actions[j].id)
  }

  predicate InstallsSound(t: Task) {
    t.installationCount <= |SpentInstalls(t)|
  }

  predicate ControlSound(t: Task, b: Budget) {
    && Counted(t, b) && UniqueIds(t.actions) && PhaseSound(t) && PendingSound(t) && ApprovalSound(t) && InstallsSound(t)
  }

  // --- Looking up actions ------------------------------------------------------------------------------------------

  lemma IndexOfSame(a: seq<Action>, b: seq<Action>, id: Uuid)
    requires |a| == |b| && forall j :: 0 <= j < |a| ==> a[j].id == b[j].id
    ensures IndexOf(a, id) == IndexOf(b, id)
  {
    hide IndexOf;
    var i, j := IndexOf(a, id), IndexOf(b, id);
    assert i.Some? ==> b[i.value].id == id;
    assert j.Some? ==> a[j.value].id == id;
  }

  lemma IndexOfAppended(a: seq<Action>, new_: Action, id: Uuid)
    requires forall j :: 0 <= j < |a| ==> a[j].id != new_.id
    ensures IndexOf(a + [new_], id) == if id == new_.id then Some(|a|) else IndexOf(a, id)
  {
    hide IndexOf;
    var c := a + [new_];
    var i, j := IndexOf(a, id), IndexOf(c, id);
    assert c[|a|].id == new_.id;
    assert forall k :: 0 <= k < |a| ==> c[k].id == a[k].id;
    assert i.Some? ==> c[i.value].id == id;
    assert j.Some? && j.value < |a| ==> a[j.value].id == id;
  }

  lemma IndexOfAt(a: seq<Action>, i: nat)
    requires UniqueIds(a) && i < |a|
    ensures IndexOf(a, a[i].id) == Some(i)
  {
    hide IndexOf;
    var k := IndexOf(a, a[i].id);
    assert k.Some?;
  }

  // --- Executing ---------------------------------------------------------------------------------------------------

  /** A task about to run its action `i`: gated kinds were approved under authorisation and are not waiting any more. */
  predicate ReadyToRun(t: Task, i: nat, b: Budget) {
    && i < |t.actions| && Counted(t, b) && t.modelCallCount == t.actionCount && UniqueIds(t.actions)
    && t.completedAt.None? && t.cancellationState == NONE
    && PendingSound(t)
    && (forall j :: 0 <= j < |t.actions| && IsExecution(t.actions[j].actionType)
                     && t.actions[j].approvalState == APPROVED ==>
          Authorized(t.header))
    && (IsExecution(t.actions[i].actionType) ==>
          t.actions[i].approvalState == APPROVED && t.pendingActionId != Some(t.actions[i].id))
    && t.installationCount <= |SpentInstalls(t) - {i}|
  }

  lemma SpentAfter(t: Task, u: Task, i: nat, b: Budget)
    requires ReadyToRun(t, i, b) && ExecutionShape(t, u, t.actions[i], b)
    ensures InstallsSound(u)
  {
    hide PendingSound, Counted, IsTerminal;
    forall j | j in SpentInstalls(t)
      ensures j in SpentInstalls(u)
    {
      assert SameAction(t.actions[j], u.actions[j]);
      assert j != i ==> t.actions[j].id != t.actions[i].id;
    }
    SubsetSmaller(SpentInstalls(t), SpentInstalls(u));
    SubsetSmaller(SpentInstalls(t) - {i}, SpentInstalls(t));
    if u.installationCount != t.installationCount {
      assert i in SpentInstalls(t);
    }
  }

  lemma ExecutedSound(t: Task, i: nat, b: Budget, x: Input)
    requires ReadyToRun(t, i, b)
    ensures ControlSound(Executed(t, i, b, x).task, b)
  {
    hide Executed, SpentInstalls;
    var u := Executed(t, i, b, x).task;
    ExecutedShape(t, i, b, x);
    SpentAfter(t, u, i, b);
    assert forall j :: 0 <= j < |t.actions| ==> SameAction(t.actions[j], u.actions[j]);
    PendingAfter(t, u, i, b);
  }

  lemma PendingAfter(t: Task, u: Task, i: nat, b: Budget)
    requires ReadyToRun(t, i, b) && ExecutionShape(t, u, t.actions[i], b)
    ensures PendingSound(u)
  {
    hide Counted, IsTerminal, InstallationsCounted, SpentInstalls, IndexOf;
    if u.pendingActionId.Some? {
      IndexOfSame(t.actions, u.actions, u.pendingActionId.value);
      var k := if u.phase == Phase.WAITING_FOR_APPROVAL then i else IndexOf(t.actions, t.pendingActionId.value).value;
      IndexOfAt(t.actions, i);
      assert SameAction(t.actions[k], u.actions[k]);
    }
  }

  // --- Stepping ----------------------------------------------------------------------------------------------------

  lemma RecordedReady(t: Task, action: Action, b: Budget)
    requires ControlSound(t, b) && !IsTerminal(t) && |t.actions| < b.maxActions && t.modelCallCount < b.maxModelCalls
    requires forall a :: a in t.actions ==> a.id != action.id
    requires action.approvalState != APPROVED
    ensures var r := ActionRecorded(t.(modelCallCount := t.modelCallCount + 1), action);
            && Counted(r, b) && UniqueIds(r.actions) && PendingSound(r)
            && r.installationCount <= |SpentInstalls(r)|
            && |t.actions| !in SpentInstalls(r)
            && IndexOf(r.actions, action.id) == Some(|t.actions|)
  {
    hide IndexOf;
    var r := ActionRecorded(t.(modelCallCount := t.modelCallCount + 1), action);
    assert forall j :: 0 <= j < |t.actions| ==> t.actions[j] in t.actions;
    if t.pendingActionId.Some? {
      IndexOfAppended(t.actions, action, t.pendingActionId.value);
    }
    IndexOfAppended(t.actions, action, action.id);
    forall j | j in SpentInstalls(t)
      ensures j in SpentInstalls(r)
    {
    }
    SubsetSmaller(SpentInstalls(t), SpentInstalls(r));
  }

  lemma TakenSound(t: Task, d: Decision, b: Budget, x: Input)
    requires ControlSound(t, b) && !IsTerminal(t) && |t.actions| < b.maxActions && t.modelCallCount < b.maxModelCalls
    requires forall a :: a in t.actions ==> a.id != x.ids.action
    ensures ControlSound(Taken(t.(modelCallCount := t.modelCallCount + 1), d, b, x).task, b)
  {
    hide Executed, SpentInstalls, LeavesScope, IndexOf, UniqueIds;
    var m := t.(modelCallCount := t.modelCallCount + 1);
    var g := Gated(t.header, d);
    if g.OutOfScope? {
      var e := AgentError(x.ids.error, None, "out_of_scope", g.message, x.now);
      BlockedWithErrorSound(t, m.modelCallCount, b, e, g.message, x.now);
    } else {
      var action := BuiltAction(d, g, x.ids.action, x.now);
      RecordedReady(t, action, b);
      var r := ActionRecorded(m, action);
      var i := |t.actions|;
      if g.Disallowed? {
        StoppedSound(r, i, b, g.reason, x.now);
      } else if action.requiresApproval {
        AskedSound(r, i, b, x.now);
      } else {
        assert SpentInstalls(r) - {i} == SpentInstalls(r);
        ExecutedSound(r, i, b, x);
      }
    }
  }

  lemma BlockedSound(t: Task, b: Budget, reason: string, now: Time)
    requires ControlSound(t, b) && !IsTerminal(t)
    ensures ControlSound(Blocked(t, reason, now), b)
  {
    hide IndexOf, UniqueIds;
    assert SpentInstalls(Blocked(t, reason, now)) == SpentInstalls(t);
  }

  lemma BlockedWithErrorSound(t: Task, calls: int, b: Budget, e: AgentError, reason: string, now: Time)
    requires ControlSound(t, b) && !IsTerminal(t) && t.modelCallCount <= calls <= t.modelCallCount + 1
    requires calls <= Max(0, b.maxModelCalls)
    ensures ControlSound(BlockedWithError(t.(modelCallCount := calls), e, reason, now), b)
  {
    hide IndexOf, UniqueIds;
    assert SpentInstalls(BlockedWithError(t.(modelCallCount := calls), e, reason, now)) == SpentInstalls(t);
  }

  /** A task with a freshly recorded action `i`. */
  predicate Recorded(r: Task, i: nat, b: Budget) {
    && i < |r.actions| && Counted(r, b) && r.modelCallCount == r.actionCount && UniqueIds(r.actions) && PendingSound(r)
    && r.completedAt.None? && r.cancellationState == NONE
    && (forall j :: 0 <= j < |r.actions| && IsExecution(r.actions[j].actionType)
                     && r.actions[j].approvalState == APPROVED ==>
          Authorized(r.header))
    && r.installationCount <= |SpentInstalls(r)| && i !in SpentInstalls(r)
  }

  lemma StoppedSound(r: Task, i: nat, b: Budget, reason: string, now: Time)
    requires Recorded(r, i, b)
    ensures ControlSound(AuthorizationAsked(r, i, reason, now), b)
  {
    hide IndexOf;
    var u := AuthorizationAsked(r, i, reason, now);
    if u.pendingActionId.Some? {
      IndexOfSame(r.actions, u.actions, u.pendingActionId.value);
    }
    assert SpentInstalls(u) == SpentInstalls(r);
  }

  lemma AskedSound(r: Task, i: nat, b: Budget, now: Time)
    requires Recorded(r, i, b) && IndexOf(r.actions, r.actions[i].id) == Some(i)
    requires IsExecution(r.actions[i].actionType) ==> Authorized(r.header)
    ensures ControlSound(ApprovalAsked(r, i, now), b)
  {
    hide IndexOf;
    var v := ApprovalAsked(r, i, now);
    forall j | j in SpentInstalls(r)
      ensures j in SpentInstalls(v)
    {
    }
    SubsetSmaller(SpentInstalls(r), SpentInstalls(v));
  }

  /** The approved action is taken off the desk just before it runs. */
  lemma ApprovedReady(t: Task, i: nat, b: Budget)
    requires ControlSound(t, b) && t.phase == PREPARING && IndexOf(t.actions, t.pendingActionId.value) == Some(i)
    ensures ReadyToRun(t.(pendingActionId := None), i, b)
  {
    hide IndexOf;
    var u := t.(pendingActionId := None);
    assert i < |t.actions| && t.actions[i].id == t.pendingActionId.value;
    forall j | j in SpentInstalls(t)
      ensures j in SpentInstalls(u) - {i}
    {
    }
    SubsetSmaller(SpentInstalls(t), SpentInstalls(u) - {i});
  }

  lemma AdvancedSound(t: Task, b: Budget, x: Input)
    requires ControlSound(t, b) && Fresh(t, Step(x))
    ensures ControlSound(Advanced(t, b, x).task, b)
  {
    hide Executed, Taken, IndexOf, BlockedWithError, Blocked, SpentInstalls, UniqueIds, InstallsSound, PendingSound;
    if !IsTerminal(t) && !Waits(t) {
      if t.phase == PREPARING && t.pendingActionId.Some? {
        var i := IndexOf(t.actions, t.pendingActionId.value).value;
        ApprovedReady(t, i, b);
        ExecutedSound(t.(pendingActionId := None), i, b, x);
      } else if ExceededBudget(t, b, x.now).Some? {
        BlockedSound(t, b, ExceededBudget(t, b, x.now).value, x.now);
      } else {
        match x.reasoning
        case Breaks =>
        case Fails(message) =>
          BlockedWithErrorSound(t, t.modelCallCount, b,
                                AgentError(x.ids.error, None, "invalid_decision", message, x.now),
                       "Reasoning failed: " + message, x.now);
          assert t.(modelCallCount := t.modelCallCount) == t;
        case Decides(d) => TakenSound(t, d, b, x);
      }
    }
  }

  // --- The operator ------------------------------------------------------------------------------------------------

  lemma OperatorSound(t: Task, b: Budget, op: Op)
    requires ControlSound(t, b) && (op.Pause? || op.Resume? || op.Cancel? || op.Clarify?)
    ensures ControlSound(Apply(t, b, op).task, b)
  {
    hide IndexOf, Unanswered, UniqueIds;
    assert SpentInstalls(Apply(t, b, op).task) == SpentInstalls(t);
  }

  lemma ApprovedSound(t: Task, i: nat, b: Budget, now: Time)
    requires ControlSound(t, b) && t.phase == Phase.WAITING_FOR_APPROVAL
    requires IndexOf(t.actions, t.pendingActionId.value) == Some(i)
    ensures ControlSound(WithApproval(t, i, now), b)
  {
    hide IndexOf;
    var u := WithApproval(t, i, now);
    IndexOfSame(t.actions, u.actions, t.pendingActionId.value);
    assert SpentInstalls(u) == SpentInstalls(t);
  }

  lemma RejectedSound(t: Task, i: nat, b: Budget, summary: string, now: Time)
    requires ControlSound(t, b) && t.phase == Phase.WAITING_FOR_APPROVAL
    requires IndexOf(t.actions, t.pendingActionId.value) == Some(i)
    ensures ControlSound(Closed(WithRejection(t, i, summary), Phase.BLOCKED, now), b)
  {
    hide IndexOf;
    var u := Closed(WithRejection(t, i, summary), Phase.BLOCKED, now);
    forall j | j in SpentInstalls(t)
      ensures j in SpentInstalls(u)
    {
    }
    SubsetSmaller(SpentInstalls(t), SpentInstalls(u));
  }

  lemma VerdictSound(t: Task, b: Budget, op: Op)
    requires ControlSound(t, b) && (op.ApproveAction? || op.RejectAction?)
    ensures ControlSound(Apply(t, b, op).task, b)
  {
    hide IndexOf, Counted, UniqueIds, PhaseSound, SpentInstalls, WithApproval, WithRejection, Closed;
    if t.phase == Phase.WAITING_FOR_APPROVAL {
      var i := IndexOf(t.actions, t.pendingActionId.value).value;
      if op.ApproveAction? {
        ApprovedSound(t, i, b, op.at);
      } else {
        RejectedSound(t, i, b, "Rejected: " + op.reason, op.at);
      }
    }
  }

  lemma ApplySound(t: Task, b: Budget, op: Op)
    requires ControlSound(t, b) && Fresh(t, op)
    ensures ControlSound(Apply(t, b, op).task, b)
  {
    hide ControlSound, Fresh, Advanced, Paused, Resumed, Cancelled, Clarified, ActionApproved, ActionRejected;
    if op.Step? {
      AdvancedSound(t, b, op.input);
    } else if op.ApproveAction? || op.RejectAction? {
      VerdictSound(t, b, op);
    } else {
      OperatorSound(t, b, op);
    }
  }

  lemma {:induction false} RunSound(t: Task, b: Budget, ops: seq<Op>)
    requires ControlSound(t, b) && FreshRun(t, b, ops)
    ensures ControlSound(Run(t, b, ops), b)
    decreases |ops|
  {
    hide ControlSound, Apply, Fresh;
    if ops != [] {
      ApplySound(t, b, ops[0]);
      RunSound(Apply(t, b, ops[0]).task, b, ops[1..]);
    }
  }

  lemma CreatedSound(h: Header, b: Budget, now: Time)
    ensures ControlSound(Created(h, now), b)
  {
    assert SpentInstalls(Created(h, now)) == {};
  }

  function InstallActions(t: Task): set<nat> {
    set j: nat | j < |t.actions| && t.actions[j].actionType == INSTALL_TOOL
  }

  /** Every reachable task keeps its books: one count per recorded action, all budgets respected, at most one more model
      call than actions and that only at the end, and no installation without an action of its own. */
  lemma BooksBalance(h: Header, b: Budget, now: Time, ops: seq<Op>)
    requires FreshRun(Created(h, now), b, ops)
    ensures var t := Run(Created(h, now), b, ops);
            && t.actionCount == |t.actions| <= Max(0, b.maxActions)
            && t.modelCallCount <= Max(0, b.maxModelCalls)
            && (if IsTerminal(t) then t.actionCount <= t.modelCallCount <= t.actionCount + 1
                else t.modelCallCount == t.actionCount)
            && t.installationCount <= Max(0, b.maxInstallations)
            && t.installationCount <= |InstallActions(t)|
  {
    CreatedSound(h, b, now);
    RunSound(Created(h, now), b, ops);
    var t := Run(Created(h, now), b, ops);
    hide Run, FreshRun, PendingSound, ApprovalSound, PhaseSound;
    assert SpentInstalls(t) <= InstallActions(t);
    SubsetSmaller(SpentInstalls(t), InstallActions(t));
  }
}
