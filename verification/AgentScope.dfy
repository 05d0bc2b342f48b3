/** The gate in front of every action: whatever the reasoner proposes, nothing is executed for another target than the
    task's, and a proposal is stopped for scope only if it names another target. */
module AgentScope {
  import opened Prelude
  import opened AgentModels
  import opened AgentRecovery
  import opened AgentTask
  import opened AgentInvariants
  import opened AgentControl
  import opened AgentSafety
  import opened AgentApprovals
  import opened Text

  // --- Naming a target ---------------------------------------------------------------------------------------------

  /** The decision's target argument, if it is true in Python's sense. */
  predicate NamesTarget(d: Decision) {
    "target" in d.arguments && Truthy(d.arguments["target"])
  }

  /** That argument as `str` prints it. */
  function NamedTarget(d: Decision): string
    requires NamesTarget(d)
  {
    match d.arguments["target"]
    case JText(s) => s
    case _ => d.targetText
  }

  predicate HasTarget(h: Header) {
    h.target.Some? && h.target.value != ""
  }

  /** The same text but for the case of letters and blanks around it. */
  predicate SameName(a: string, b: string) {
    SameText(Strip(a), Strip(b))
  }

  predicate NamesAnother(h: Header, d: Decision) {
    NamesTarget(d) && HasTarget(h) && !SameName(NamedTarget(d), h.target.value)
  }

  /** The kinds that need an authorised task. */
  predicate NeedsAuthority(d: Decision) {
    d.actionType == RUN_DIAGNOSTIC || d.actionType == INSTALL_TOOL
  }

  predicate IsAuthorised(h: Header) {
    h.authorizationStatus == "AUTHORIZED"
  }

  lemma LeavesExactly(h: Header, d: Decision)
    ensures LeavesScope(h, d) <==> NamesAnother(h, d)
  {
    hide Lower, Strip, SameText;
    if NamesTarget(d) && HasTarget(h) {
      LowerMeans(Strip(NamedTarget(d)), Strip(h.target.value));
    }
  }

  /** What the gate says: an unauthorised task stops the kinds that need authority before anything else is looked at; a
      decision that names another target is out of scope; everything else passes, with approval if the decision asks for
      it or its kind needs authority. */
  lemma GateMeans(h: Header, d: Decision)
    ensures var g := Gated(h, d);
            && (g.Disallowed? <==> NeedsAuthority(d) && !IsAuthorised(h))
            && (g.OutOfScope? <==> !(NeedsAuthority(d) && !IsAuthorised(h)) && NamesAnother(h, d))
            && (g.Allowed? ==> (g.requiresApproval <==> d.requiresApproval || NeedsAuthority(d)))
  {
    hide LeavesScope, NamesAnother;
    LeavesExactly(h, d);
  }

  // --- One step ----------------------------------------------------------------------------------------------------

  /** The step asks the reasoner, and it answers `d`. */
  predicate Considers(t: Task, b: Budget, x: Input, d: Decision) {
    && !AtRest(t) && !(t.phase == PREPARING && t.pendingActionId.Some?) && x.reasoning == Decides(d)
    && BudgetLeft(t, b, x.now)
  }

  /** Actions, time and model calls are left. */
  predicate BudgetLeft(t: Task, b: Budget, now: Time) {
    && t.actionCount < b.maxActions && t.modelCallCount < b.maxModelCalls
    && (t.header.startedAt.Some? ==> now < t.header.startedAt.value + b.maxDuration)
  }

  lemma BudgetExactly(t: Task, b: Budget, now: Time)
    ensures ExceededBudget(t, b, now).None? <==> BudgetLeft(t, b, now)
  {
  }

  /** Without budget the step ends the task BLOCKED, asks nobody and records nothing but the reason. */
  lemma NoBudgetBlocks(t: Task, b: Budget, x: Input)
    requires !AtRest(t) && !(t.phase == PREPARING && t.pendingActionId.Some?) && !BudgetLeft(t, b, x.now)
    ensures var s := Apply(t, b, Step(x));
            && s.reply == Fine && s.task.phase == Phase.BLOCKED && s.task.completedAt == Some(x.now)
            && s.task.actions == t.actions && s.task.errors == t.errors && s.task.modelCallCount == t.modelCallCount
            && Reached(t, b, Step(x)) == None
  {
    hide IndexOf, Taken;
  }

  /** When reasoning fails, the step ends the task BLOCKED, with one more error of category "invalid_decision" that
      keeps the message, and nothing recorded. */
  lemma NoDecisionBlocks(t: Task, b: Budget, x: Input, message: string)
    requires !AtRest(t) && !(t.phase == PREPARING && t.pendingActionId.Some?) && BudgetLeft(t, b, x.now)
    requires x.reasoning == Fails(message)
    ensures var s := Apply(t, b, Step(x));
            && s.reply == Fine && s.task.phase == Phase.BLOCKED && s.task.completedAt == Some(x.now)
            && s.task.errors == t.errors + [AgentError(x.ids.error, None, "invalid_decision", message, x.now)]
            && s.task.actions == t.actions && s.task.modelCallCount == t.modelCallCount
            && Reached(t, b, Step(x)) == None
  {
    hide IndexOf, ExceededBudget, BudgetLeft;
    BudgetExactly(t, b, x.now);
  }

  /** A decision that names another target, in a task that is not stopped for want of authority first: the task is
      BLOCKED, with one more error of category "out_of_scope", no action recorded and nothing executed. */
  lemma AnotherTargetBlocks(t: Task, b: Budget, x: Input, d: Decision)
    requires Considers(t, b, x, d) && NamesAnother(t.header, d) && (NeedsAuthority(d) ==> IsAuthorised(t.header))
    ensures var s := Apply(t, b, Step(x));
            && s.reply == Fine && s.task.phase == Phase.BLOCKED && s.task.completedAt == Some(x.now)
            && |s.task.errors| == |t.errors| + 1 && s.task.errors[..|t.errors|] == t.errors
            && s.task.errors[|t.errors|].category == "out_of_scope"
            && s.task.actions == t.actions && s.task.outputs == t.outputs && s.task.observations == t.observations
            && Reached(t, b, Step(x)) == None
  {
    hide LeavesScope, NamesAnother, ExceededBudget, BudgetLeft, Gated, IndexOf, Executed;
    BudgetExactly(t, b, x.now);
    GateMeans(t.header, d);
  }

  /** A decision that names the task's own target, or none, is never stopped for scope: its action is recorded. It then
      waits for authorisation, waits for approval, or is executed at once. */
  lemma OwnTargetPasses(t: Task, b: Budget, x: Input, d: Decision)
    requires Considers(t, b, x, d) && !NamesAnother(t.header, d)
    ensures var u := Apply(t, b, Step(x)).task;
            && |u.actions| == |t.actions| + 1
            && u.actions[|t.actions|].id == x.ids.action && u.actions[|t.actions|].actionType == d.actionType
            && (NeedsAuthority(d) && !IsAuthorised(t.header) ==>
                  u.phase == Phase.WAITING_FOR_AUTHORIZATION && Reached(t, b, Step(x)) == None)
            && (!(NeedsAuthority(d) && !IsAuthorised(t.header)) && (d.requiresApproval || NeedsAuthority(d)) ==>
                  && u.phase == Phase.WAITING_FOR_APPROVAL && u.pendingActionId == Some(x.ids.action)
                  && Reached(t, b, Step(x)) == None)
            && (!(d.requiresApproval || NeedsAuthority(d)) ==> Reached(t, b, Step(x)) == Some(|t.actions|))
  {
    hide LeavesScope, NamesAnother, ExceededBudget, BudgetLeft, IndexOf, Executed, BuiltAction, Reached, Gated, Taken;
    BudgetExactly(t, b, x.now);
    GateMeans(t.header, d);
    if Gated(t.header, d) == Allowed(false) {
      RunsNow(t, b, x, d);
    } else {
      RecordsOnly(t, b, x, d);
    }
  }

  lemma RunsNow(t: Task, b: Budget, x: Input, d: Decision)
    requires !AtRest(t) && !(t.phase == PREPARING && t.pendingActionId.Some?) && x.reasoning == Decides(d)
    requires ExceededBudget(t, b, x.now).None? && Gated(t.header, d) == Allowed(false)
    ensures var u := Apply(t, b, Step(x)).task;
            && Reached(t, b, Step(x)) == Some(|t.actions|)
            && |u.actions| == |t.actions| + 1
            && u.actions[|t.actions|].id == x.ids.action && u.actions[|t.actions|].actionType == d.actionType
  {
    hide Apply, Gated, ExceededBudget, IndexOf, BuiltAction, Executed;
    ReachedExecutes(t, b, Step(x));
    ExecutedShape(Prepared(t, x), |t.actions|, b, x);
    BuiltIdentity(d, Allowed(false), x.ids.action, x.now);
    assert SameAction(Prepared(t, x).actions[|t.actions|], Apply(t, b, Step(x)).task.actions[|t.actions|]);
  }

  lemma BuiltIdentity(d: Decision, g: Gate, id: Uuid, now: Time)
    requires !g.OutOfScope?
    ensures var a := BuiltAction(d, g, id, now);
            a.id == id && a.actionType == d.actionType && a.requiresApproval == (g.Disallowed? || g.requiresApproval)
  {
    hide JoinWith;
  }

  lemma RecordsOnly(t: Task, b: Budget, x: Input, d: Decision)
    requires !AtRest(t) && !(t.phase == PREPARING && t.pendingActionId.Some?) && x.reasoning == Decides(d)
    requires ExceededBudget(t, b, x.now).None?
    requires var g := Gated(t.header, d); g.Disallowed? || (g.Allowed? && g.requiresApproval)
    ensures var u, g := Apply(t, b, Step(x)).task, Gated(t.header, d);
            && Reached(t, b, Step(x)) == None
            && |u.actions| == |t.actions| + 1
            && u.actions[|t.actions|].id == x.ids.action && u.actions[|t.actions|].actionType == d.actionType
            && (g.Disallowed? ==> u.phase == Phase.WAITING_FOR_AUTHORIZATION)
            && (g.Allowed? ==> u.phase == Phase.WAITING_FOR_APPROVAL && u.pendingActionId == Some(x.ids.action))
  {
    hide Gated, ExceededBudget, IndexOf, BuiltAction, Executed;
    BuiltIdentity(d, Gated(t.header, d), x.ids.action, x.now);
  }

  // --- All runs ----------------------------------------------------------------------------------------------------

  /** The action comes from a decision that does not name another target, or is one that the task has no authority
      for. */
  predicate InScope(past: seq<Op>, h: Header, a: Action) {
    exists op :: op in past && op.Step? && DecidedAs(op.input, a)
                 && (!NamesAnother(h, op.input.reasoning.decision) || (IsExecution(a.actionType) && !Authorized(h)))
  }

  predicate ActionsInScope(past: seq<Op>, t: Task) {
    forall j :: 0 <= j < |t.actions| ==> InScope(past, t.header, t.actions[j])
  }

  /** A step that records an action had a decision within scope, or no authority. */
  lemma RecordedInScope(t: Task, b: Budget, x: Input)
    requires |Apply(t, b, Step(x)).task.actions| > |t.actions|
    ensures x.reasoning.Decides?
    ensures var d := x.reasoning.decision; !NamesAnother(t.header, d) || (NeedsAuthority(d) && !IsAuthorised(t.header))
  {
    if !(x.reasoning.Decides? && Considers(t, b, x, x.reasoning.decision)) {
      NothingConsidered(t, b, x);
    } else if NamesAnother(t.header, x.reasoning.decision)
              && (NeedsAuthority(x.reasoning.decision) ==> IsAuthorised(t.header)) {
      hide Apply, NamesAnother, BudgetLeft;
      AnotherTargetBlocks(t, b, x, x.reasoning.decision);
    }
  }

  lemma NothingConsidered(t: Task, b: Budget, x: Input)
    requires !(x.reasoning.Decides? && Considers(t, b, x, x.reasoning.decision))
    ensures |Apply(t, b, Step(x)).task.actions| == |t.actions|
  {
    hide Taken, IndexOf, Executed, ExceededBudget, BudgetLeft;
    BudgetExactly(t, b, x.now);
    if !AtRest(t) && t.phase == PREPARING && t.pendingActionId.Some? {
      var i := IndexOf(t.actions, t.pendingActionId.value);
      if i.Some? {
        ExecutedShape(t.(pendingActionId := None), i.value, b, x);
      }
    }
  }

  lemma ApplyKeepsHeader(t: Task, b: Budget, op: Op)
    ensures Apply(t, b, op).task.header == t.header
  {
    hide Apply, Reached, Prepared, Executed, IndexOf;
    if !op.Step? {
      OperatorQuiet(t, b, op);
    } else if Reached(t, b, op).Some? {
      ReachedExecutes(t, b, op);
      ExecutedShape(Prepared(t, op.input), Reached(t, b, op).value, b, op.input);
      PreparedHeader(t, op.input);
    } else {
      StepQuiet(t, b, op.input);
    }
  }

  lemma PreparedHeader(t: Task, x: Input)
    ensures Prepared(t, x).header == t.header
  {
    hide BuiltAction;
  }

  lemma ScopeKept(past: seq<Op>, t: Task, b: Budget, op: Op)
    requires ActionsInScope(past, t)
    ensures ActionsInScope(past + [op], Apply(t, b, op).task)
  {
    hide Apply, NamesAnother;
    var u := Apply(t, b, op).task;
    ApplyDevelops(t, b, op);
    ApplyKeepsHeader(t, b, op);
    assert op in past + [op];
    forall j | 0 <= j < |u.actions|
      ensures InScope(past + [op], u.header, u.actions[j])
    {
      if j < |t.actions| {
        assert KeepsKind(t.actions[j], u.actions[j]);
        assert InScope(past, t.header, t.actions[j]);
        var o :| o in past && o.Step? && DecidedAs(o.input, t.actions[j])
                 && (!NamesAnother(t.header, o.input.reasoning.decision)
                     || (IsExecution(t.actions[j].actionType) && !Authorized(t.header)));
        assert o in past + [op] && DecidedAs(o.input, u.actions[j]);
      } else {
        RecordedInScope(t, b, op.input);
        assert DecidedAs(op.input, u.actions[j]);
      }
    }
  }

  lemma {:induction false} RunInScope(past: seq<Op>, t: Task, b: Budget, ops: seq<Op>)
    requires ActionsInScope(past, t)
    ensures ActionsInScope(past + ops, Run(t, b, ops)) && Run(t, b, ops).header == t.header
    decreases |ops|
  {
    hide Apply, ActionsInScope;
    if ops == [] {
      assert past + ops == past;
    } else {
      ScopeKept(past, t, b, ops[0]);
      ApplyKeepsHeader(t, b, ops[0]);
      RunInScope(past + [ops[0]], Apply(t, b, ops[0]).task, b, ops[1..]);
      assert past + [ops[0]] + ops[1..] == past + ops;
    }
  }

  /** Over every run, an action that is executed comes from a decision that named no target, or the task's own, or the
      task has none: the recorded target argument is false in Python's sense, or the two texts are the same but for the
      case of letters and blanks around them. */
  lemma ExecutedInScope(h: Header, b: Budget, now: Time, ops: seq<Op>, x: Input)
    requires FreshRun(Created(h, now), b, ops) && Reached(Run(Created(h, now), b, ops), b, Step(x)).Some?
    ensures var t := Run(Created(h, now), b, ops);
            var i := Reached(t, b, Step(x)).value;
            && i < |Prepared(t, x).actions|
            && var a := Prepared(t, x).actions[i];
               exists op :: op in ops + [Step(x)] && op.Step? && DecidedAs(op.input, a)
                 && var d := op.input.reasoning.decision;
                    && a.target == (if "target" in d.arguments then d.arguments["target"] else JNull)
                    && (|| !NamesTarget(d) || !HasTarget(h)
                        || SameName(NamedTarget(d), h.target.value))
  {
    hide Run, FreshRun, ControlSound, Reached, Prepared, DeskSound, Apply, SameName;
    var t := Run(Created(h, now), b, ops);
    CreatedSound(h, b, now);
    RunSound(Created(h, now), b, ops);
    CreatedDesk(h, now);
    RunDecided([], Created(h, now), b, ops);
    NothingRecorded(h, now);
    RunInScope([], Created(h, now), b, ops);
    assert [] + ops == ops;
    ReachedCarries(t, b, x);
    var i := Reached(t, b, Step(x)).value;
    var a := Prepared(t, x).actions[i];
    if IsExecution(a.actionType) {
      GatedIsAuthorised(t, b, x);
    }
    if i < |t.actions| {
      assert InScope(ops, h, a);
      var op :| op in ops && op.Step? && DecidedAs(op.input, a)
                && (!NamesAnother(h, op.input.reasoning.decision) || (IsExecution(a.actionType) && !Authorized(h)));
      assert op in ops + [Step(x)];
    } else {
      ReachedRecords(t, b, x);
      RecordedInScope(t, b, x);
      assert Step(x) in ops + [Step(x)];
    }
  }

  lemma NothingRecorded(h: Header, now: Time)
    ensures ActionsInScope([], Created(h, now)) && Created(h, now).header == h
  {
  }

  lemma GatedIsAuthorised(t: Task, b: Budget, x: Input)
    requires ControlSound(t, b) && Reached(t, b, Step(x)).Some?
    requires var i := Reached(t, b, Step(x)).value;
             i < |Prepared(t, x).actions| && IsExecution(Prepared(t, x).actions[i].actionType)
    ensures Authorized(t.header)
  {
    hide ControlSound, Reached, Prepared;
    assert ReachesGated(t, b, Step(x));
    ReachedApproved(t, b, Step(x));
  }

  lemma ReachedRecords(t: Task, b: Budget, x: Input)
    requires Reached(t, b, Step(x)) == Some(|t.actions|)
             || (Reached(t, b, Step(x)).Some? && Reached(t, b, Step(x)).value >= |t.actions|)
    ensures |Apply(t, b, Step(x)).task.actions| > |t.actions|
  {
    hide Apply, Reached, Executed, Prepared;
    ReachedExecutes(t, b, Step(x));
    ExecutedShape(Prepared(t, x), Reached(t, b, Step(x)).value, b, x);
  }
}
