/** How long a task goes on by itself: which calls of `step` leave it where it is, how many move it, and what brings it
    to rest. */
module AgentRest {
  import opened Prelude
  import opened AgentModels
  import opened AgentRecovery
  import opened AgentTask
  import opened AgentInvariants
  import opened AgentControl
  import opened AgentSafety

  /** Actions left, the approved action if there is one, and the step that finds the budget used up. */
  function Remaining(t: Task, b: Budget): nat {
    if AtRest(t) then 0
    else Max(0, b.maxActions - t.actionCount) + 1 + (if t.phase == PREPARING then 1 else 0)
  }

  /** A step that is not broken off before the reasoner answers brings the task strictly closer to rest. */
  lemma StepDecreases(t: Task, b: Budget, x: Input)
    requires ControlSound(t, b) && Fresh(t, Step(x)) && !AtRest(t)
    ensures var u := Apply(t, b, Step(x)).task;
            u == t || Remaining(u, b) < Remaining(t, b)
    ensures !x.reasoning.Breaks? ==> Apply(t, b, Step(x)).task != t
  {
    hide Apply, Executed, IndexOf, LeavesScope, UniqueIds, InstallsSound, PhaseSound;
    var r := Reached(t, b, Step(x));
    if r.Some? {
      ReachedExecutes(t, b, Step(x));
      ExecutedShape(Prepared(t, x), r.value, b, x);
    } else {
      StepQuiet(t, b, x);
      if !x.reasoning.Breaks? {
        UnreachedRests(t, b, x);
      }
    }
  }

  lemma UnreachedRests(t: Task, b: Budget, x: Input)
    requires ControlSound(t, b) && !AtRest(t) && !x.reasoning.Breaks? && Reached(t, b, Step(x)).None?
    ensures AtRest(Apply(t, b, Step(x)).task)
  {
    hide Taken, IndexOf, ExceededBudget, RunsAtOnce, UniqueIds, InstallsSound, PhaseSound, Counted, Quiet;
    if ExceededBudget(t, b, x.now).None? && x.reasoning.Decides? {
      DecisionQuiet(t, x.reasoning.decision, b, x);
    }
  }

  function Steps(t: Task, b: Budget, xs: seq<Input>): Task
    decreases |xs|
  {
    if xs == [] then t else Steps(Apply(t, b, Step(xs[0])).task, b, xs[1..])
  }

  predicate FreshSteps(t: Task, b: Budget, xs: seq<Input>)
    decreases |xs|
  {
    xs == [] || (Fresh(t, Step(xs[0])) && FreshSteps(Apply(t, b, Step(xs[0])).task, b, xs[1..]))
  }

  /** The calls of `step` that changed the task. */
  function Changes(t: Task, b: Budget, xs: seq<Input>): nat
    decreases |xs|
  {
    if xs == [] then 0
    else
      var u := Apply(t, b, Step(xs[0])).task;
      (if u != t then 1 else 0) + Changes(u, b, xs[1..])
  }

  /** A call of `step` that gets nowhere: an unexpected exception before the reasoner answers, with no approved action
      waiting and no budget used up. */
  predicate Stuck(t: Task, b: Budget, x: Input) {
    && !AtRest(t) && x.reasoning.Breaks?
    && !(t.phase == PREPARING && t.pendingActionId.Some?) && ExceededBudget(t, b, x.now).None?
  }

  /** The calls of `step` that leave a task as it was are those at rest and the stuck ones. */
  lemma StuckExactly(t: Task, b: Budget, x: Input)
    requires ControlSound(t, b) && Fresh(t, Step(x))
    ensures Apply(t, b, Step(x)).task == t <==> AtRest(t) || Stuck(t, b, x)
    ensures Stuck(t, b, x) ==> Apply(t, b, Step(x)).reply == ServiceRaised
  {
    hide Taken, Executed, IndexOf, ExceededBudget, Counted, UniqueIds, InstallsSound, PhaseSound, RunsAtOnce;
    if AtRest(t) {
      RestIsIdentity(t, b, x);
    } else if !Stuck(t, b, x) {
      if x.reasoning.Breaks? && !(t.phase == PREPARING && t.pendingActionId.Some?) {
        assert Apply(t, b, Step(x)).task.phase == Phase.BLOCKED;
      } else {
        MovesOn(t, b, x);
      }
    }
  }

  /** The approved action runs whatever the reasoner does, and any answer of the reasoner changes the task. */
  lemma MovesOn(t: Task, b: Budget, x: Input)
    requires ControlSound(t, b) && Fresh(t, Step(x)) && !AtRest(t)
    requires !x.reasoning.Breaks? || (t.phase == PREPARING && t.pendingActionId.Some?)
    ensures Apply(t, b, Step(x)).task != t
  {
    hide Apply, Executed, IndexOf, LeavesScope, UniqueIds, InstallsSound, PhaseSound, ExceededBudget, Counted;
    if t.phase == PREPARING && t.pendingActionId.Some? {
      var r := Reached(t, b, Step(x));
      ReachedExecutes(t, b, Step(x));
      ExecutedShape(Prepared(t, x), r.value, b, x);
    } else {
      StepDecreases(t, b, x);
    }
  }

  /** The calls that are not stuck. */
  function Unstuck(t: Task, b: Budget, xs: seq<Input>): nat
    decreases |xs|
  {
    if xs == [] then 0
    else (if Stuck(t, b, xs[0]) then 0 else 1) + Unstuck(Apply(t, b, Step(xs[0])).task, b, xs[1..])
  }

  /** The calls in which the reasoner answers. */
  function Answered(xs: seq<Input>): nat {
    if xs == [] then 0 else (if xs[0].reasoning.Breaks? then 0 else 1) + Answered(xs[1..])
  }

  lemma {:induction false} AnsweredAreUnstuck(t: Task, b: Budget, xs: seq<Input>)
    ensures Answered(xs) <= Unstuck(t, b, xs)
    decreases |xs|
  {
    hide Apply, ExceededBudget, AtRest;
    if xs != [] {
      AnsweredAreUnstuck(Apply(t, b, Step(xs[0])).task, b, xs[1..]);
    }
  }

  lemma RestRemains(t: Task, b: Budget)
    ensures AtRest(t) <==> Remaining(t, b) == 0
    ensures Remaining(t, b) <= Max(0, b.maxActions - t.actionCount) + 2
  {
  }

  /** Without an operator, whatever the reasoner and the services return or raise: every call that changes the task
      brings it closer to rest, so at most `max_actions - action_count + 2` calls do; and that many calls which are not
      stuck, however many stuck ones lie between them, bring it to rest. */
  lemma {:induction false} ComesToRest(t: Task, b: Budget, xs: seq<Input>)
    requires ControlSound(t, b) && FreshSteps(t, b, xs)
    ensures Remaining(Steps(t, b, xs), b) + Changes(t, b, xs) <= Remaining(t, b)
    ensures Remaining(t, b) <= Max(0, b.maxActions - t.actionCount) + 2
    ensures Unstuck(t, b, xs) >= Remaining(t, b) ==> AtRest(Steps(t, b, xs))
    decreases |xs|
  {
    hide Apply, Fresh, ControlSound, ExceededBudget, Stuck, Remaining, AtRest;
    RestRemains(t, b);
    if xs != [] {
      var u := Apply(t, b, Step(xs[0])).task;
      ApplySound(t, b, Step(xs[0]));
      ComesToRest(u, b, xs[1..]);
      StuckExactly(t, b, xs[0]);
      if AtRest(t) {
        RestForever(t, b, xs);
      } else {
        StepDecreases(t, b, xs[0]);
      }
    }
  }

  lemma {:induction false} RestForever(t: Task, b: Budget, xs: seq<Input>)
    requires AtRest(t)
    ensures Steps(t, b, xs) == t
    decreases |xs|
  {
    hide Apply, AtRest;
    if xs != [] {
      RestIsIdentity(t, b, xs[0]);
      RestForever(t, b, xs[1..]);
    }
  }

  /** Calls leave a task that is not at rest where it was exactly when every one of them is stuck there: any number of
      calls that break before the reasoner answers, made while the budgets last, gets nowhere. */
  lemma {:induction false} NowhereExactly(t: Task, b: Budget, xs: seq<Input>)
    requires ControlSound(t, b) && FreshSteps(t, b, xs) && !AtRest(t)
    ensures Steps(t, b, xs) == t <==> forall x :: x in xs ==> Stuck(t, b, x)
    decreases |xs|
  {
    hide Apply, Fresh, ControlSound, ExceededBudget, Stuck, Remaining, AtRest;
    if xs != [] {
      var u := Apply(t, b, Step(xs[0])).task;
      ApplySound(t, b, Step(xs[0]));
      StuckExactly(t, b, xs[0]);
      assert xs[0] in xs;
      if Stuck(t, b, xs[0]) {
        NowhereExactly(t, b, xs[1..]);
        assert forall x :: x in xs <==> x == xs[0] || x in xs[1..];
      } else {
        ComesToRest(u, b, xs[1..]);
        StepDecreases(t, b, xs[0]);
      }
    }
  }

  predicate Late(h: Header, b: Budget, x: Input) {
    h.startedAt.Some? && x.now - h.startedAt.value >= b.maxDuration
  }

  lemma LateStep(t: Task, b: Budget, x: Input)
    requires ControlSound(t, b) && Fresh(t, Step(x)) && Late(t.header, b, x) && !AtRest(t)
    ensures var u := Apply(t, b, Step(x)).task;
            u.header == t.header && u.phase != PREPARING && (t.phase != PREPARING ==> AtRest(u))
  {
    hide Executed, IndexOf, LeavesScope, UniqueIds, InstallsSound, PhaseSound, Counted;
    if t.phase == PREPARING {
      ReachedExecutes(t, b, Step(x));
      ExecutedShape(Prepared(t, x), Reached(t, b, Step(x)).value, b, x);
    }
  }

  /** Once the task has lasted its maximum duration, two more calls bring it to rest whatever is returned or raised: one
      for an approved action, one for the budget. */
  lemma {:induction false} TimeIsUp(t: Task, b: Budget, xs: seq<Input>)
    requires ControlSound(t, b) && FreshSteps(t, b, xs)
    requires forall x :: x in xs ==> Late(t.header, b, x)
    ensures |xs| >= 2 || (|xs| == 1 && t.phase != PREPARING) ==> AtRest(Steps(t, b, xs))
    decreases |xs|
  {
    hide Apply, Fresh, ControlSound, Late, AtRest;
    if AtRest(t) {
      RestForever(t, b, xs);
    } else if xs != [] {
      assert xs[0] in xs;
      LateStep(t, b, xs[0]);
      ApplySound(t, b, Step(xs[0]));
      var u := Apply(t, b, Step(xs[0])).task;
      if AtRest(u) {
        RestForever(u, b, xs[1..]);
      } else {
        assert forall x :: x in xs[1..] ==> x in xs;
        TimeIsUp(u, b, xs[1..]);
      }
    }
  }

  lemma RestIsIdentity(t: Task, b: Budget, x: Input)
    requires AtRest(t)
    ensures Apply(t, b, Step(x)) == Stepped(t, Fine)
  {
    hide Executed, Taken;
  }
}
