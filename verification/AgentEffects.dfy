/** What failures are called, what is done about them, and what each kind of action brings about, in terms of the texts
    and outcomes themselves. */
module AgentEffects {
  import opened Prelude
  import opened Policy
  import opened AgentModels
  import opened AgentRecovery
  import opened AgentTask
  import opened AgentInvariants
  import opened Text
  import T = Terminal

  // --- Failures ----------------------------------------------------------------------------------------------------

  /** Each class under its own name. */
  lemma FailureTexts()
    ensures FailureText(MISSING_DEPENDENCY) == "missing_dependency"
        && FailureText(MISSING_EXECUTABLE) == "missing_executable"
    ensures FailureText(INCOMPATIBLE_VERSION) == "incompatible_version"
    ensures FailureText(UNSUPPORTED_PLATFORM) == "unsupported_platform"
    ensures FailureText(PERMISSION_ISSUE) == "permission_issue" && FailureText(INVALID_ARGUMENT) == "invalid_argument"
    ensures FailureText(CONFIGURATION_ISSUE) == "configuration_issue"
    ensures FailureText(NETWORK_CONNECTIVITY) == "network_connectivity"
        && FailureText(FailureClass.TIMEOUT) == "timeout"
    ensures FailureText(TOOL_UNAVAILABLE) == "tool_unavailable" && FailureText(UNEXPECTED_OUTPUT) == "unexpected_output"
    ensures FailureText(POLICY_RESTRICTION) == "policy_restriction" && FailureText(FailureClass.UNKNOWN) == "unknown"
  {
  }

  function TextOr(stderr: Option<string>): string {
    if stderr.Some? then stderr.value else ""
  }

  /** The class that what a process wrote to stderr suggests: the first of these, in this order, in whichever case. */
  function Suggested(stderr: string): Option<FailureClass> {
    if Mentions(stderr, "permission denied") then Some(PERMISSION_ISSUE)
    else if Mentions(stderr, "not found") || Mentions(stderr, "no such file") then Some(MISSING_EXECUTABLE)
    else if Mentions(stderr, "could not resolve") || Mentions(stderr, "network is unreachable")
            || Mentions(stderr, "connection refused") then Some(NETWORK_CONNECTIVITY)
    else if Mentions(stderr, "unsupported platform") then Some(UNSUPPORTED_PLATFORM)
    else if Mentions(stderr, "incompatible") then Some(INCOMPATIBLE_VERSION)
    else if Mentions(stderr, "invalid argument") then Some(INVALID_ARGUMENT)
    else if Mentions(stderr, "dependency") then Some(MISSING_DEPENDENCY)
    else None
  }

  lemma FilesAreLower()
    ensures IsLower("permission denied") && IsLower("not found") && IsLower("no such file")
  {
  }

  lemma NetworksAreLower()
    ensures IsLower("could not resolve") && IsLower("network is unreachable")
  {
  }

  lemma ConnectionsAreLower()
    ensures IsLower("connection refused") && IsLower("unsupported platform")
  {
  }

  lemma OthersAreLower()
    ensures IsLower("incompatible") && IsLower("invalid argument") && IsLower("dependency")
  {
  }

  lemma FirstHintStep(hints: seq<(string, FailureClass)>, text: string)
    requires hints != []
    ensures FirstHint(hints, text) ==
            if Contains(text, hints[0].0) then Some(hints[0].1) else FirstHint(hints[1..], text)
  {
  }

  lemma HintsAt(k: nat)
    requires k < 10
    ensures |STDERR_HINTS| == 10 && STDERR_HINTS[k..][0] == STDERR_HINTS[k]
        && STDERR_HINTS[k..][1..] == STDERR_HINTS[k + 1..]
  {
  }

  lemma HintSteps(text: string, k: nat)
    requires k < 10
    ensures FirstHint(STDERR_HINTS[k..], text) ==
            if Contains(text, STDERR_HINTS[k].0) then Some(STDERR_HINTS[k].1)
            else FirstHint(STDERR_HINTS[k + 1..], text)
  {
    hide FirstHint, Contains;
    HintsAt(k);
    FirstHintStep(STDERR_HINTS[k..], text);
  }

  lemma TenHints()
    ensures STDERR_HINTS[0] == ("permission denied", PERMISSION_ISSUE)
        && STDERR_HINTS[1] == ("not found", MISSING_EXECUTABLE)
    ensures STDERR_HINTS[2] == ("no such file", MISSING_EXECUTABLE)
    ensures STDERR_HINTS[3] == ("could not resolve", NETWORK_CONNECTIVITY)
    ensures STDERR_HINTS[4] == ("network is unreachable", NETWORK_CONNECTIVITY)
    ensures STDERR_HINTS[5] == ("connection refused", NETWORK_CONNECTIVITY)
    ensures STDERR_HINTS[6] == ("unsupported platform", UNSUPPORTED_PLATFORM)
    ensures STDERR_HINTS[7] == ("incompatible", INCOMPATIBLE_VERSION)
    ensures STDERR_HINTS[8] == ("invalid argument", INVALID_ARGUMENT)
        && STDERR_HINTS[9] == ("dependency", MISSING_DEPENDENCY)
    ensures |STDERR_HINTS| == 10
  {
  }

  lemma SuggestedExactly(stderr: string)
    ensures FirstHint(STDERR_HINTS, Lower(stderr)) == Suggested(stderr)
  {
    hide FirstHint, Contains, Mentions, Lower, IsLower;
    FilesAreLower();
    NetworksAreLower();
    ConnectionsAreLower();
    OthersAreLower();
    TenHints();
    forall k: nat | k < 10
      ensures Contains(Lower(stderr), STDERR_HINTS[k].0) <==> Mentions(stderr, STDERR_HINTS[k].0)
      ensures FirstHint(STDERR_HINTS[k..], Lower(stderr)) ==
              if Contains(Lower(stderr), STDERR_HINTS[k].0) then Some(STDERR_HINTS[k].1)
              else FirstHint(STDERR_HINTS[k + 1..], Lower(stderr))
    {
      assert IsLower(STDERR_HINTS[k].0);
      LoweredContains(stderr, STDERR_HINTS[k].0);
      HintSteps(Lower(stderr), k);
    }
    assert STDERR_HINTS[0..] == STDERR_HINTS && STDERR_HINTS[10..] == [];
    NoHints(Lower(stderr));
  }

  lemma NoHints(text: string)
    ensures FirstHint([], text) == None
  {
  }

  /** A refusal is POLICY_RESTRICTION; otherwise a timeout is TIMEOUT; otherwise the text of stderr decides; without a
      hint a nonzero exit code is UNEXPECTED_OUTPUT and anything else UNKNOWN. So the class is TIMEOUT exactly for
      timeouts that are no refusals. */
  lemma ClassifiedMeans(timedOut: bool, refused: bool, exitCode: Option<int>, stderr: Option<string>)
    ensures var f := Classified(timedOut, refused, exitCode, stderr);
            && (f == POLICY_RESTRICTION <==> refused)
            && (f == FailureClass.TIMEOUT <==> timedOut && !refused)
            && (!refused && !timedOut ==>
                  if Suggested(TextOr(stderr)).Some? then f == Suggested(TextOr(stderr)).value
                  else if exitCode.Some? && exitCode.value != 0 then f == UNEXPECTED_OUTPUT
                  else f == FailureClass.UNKNOWN)
  {
    hide FirstHint, Lower, Mentions;
    SuggestedExactly(TextOr(stderr));
  }

  // --- What is done about them -------------------------------------------------------------------------------------

  /** How often the action's kind has been retried. */
  function RetriesSoFar(t: Task, key: ActionType): int {
    if ActionText(key) in t.retryCountByAction then t.retryCountByAction[ActionText(key)] else 0
  }

  predicate GivesUp(t: Task, maxRetries: int, key: ActionType, f: FailureClass) {
    || t.lastErrorSignature == Some(ActionText(key) + ":" + FailureText(f))
    || FailureText(f) in {"policy_restriction", "permission_issue", "unsupported_platform"}
    || RetriesSoFar(t, key) >= maxRetries
  }

  predicate AsksUser(t: Task, maxRetries: int, key: ActionType, f: FailureClass) {
    !GivesUp(t, maxRetries, key, f) && FailureText(f) in {"missing_dependency", "tool_unavailable"}
  }

  /** The task gives up on the same failure of the same kind of action twice in a row, on failures whose class is one of
      three, and when the kind has been retried as often as allowed; the user is asked about a missing dependency or
      tool; anything else is retried. */
  lemma DecideMeans(t: Task, maxRetries: int, key: ActionType, f: FailureClass)
    ensures Decide(t, maxRetries, key, f) ==
            if GivesUp(t, maxRetries, key, f) then FAIL else if AsksUser(t, maxRetries, key, f) then ASK else RETRY
  {
    hide ActionText, FailureText;
    FailureTexts();
    ClassesDiffer(f);
  }

  lemma ClassesDiffer(f: FailureClass)
    ensures NeverRetried(f) <==> FailureText(f) in {"policy_restriction", "permission_issue", "unsupported_platform"}
    ensures f == MISSING_DEPENDENCY || f == TOOL_UNAVAILABLE <==>
        FailureText(f) in {"missing_dependency", "tool_unavailable"}
  {
    hide FailureText, ParseFailure;
    FailureTexts();
    SameClass(f, POLICY_RESTRICTION);
    SameClass(f, PERMISSION_ISSUE);
    SameClass(f, UNSUPPORTED_PLATFORM);
    SameClass(f, MISSING_DEPENDENCY);
    SameClass(f, TOOL_UNAVAILABLE);
  }

  lemma SameClass(f: FailureClass, g: FailureClass)
    ensures FailureText(f) == FailureText(g) <==> f == g
  {
    hide FailureText, ParseFailure;
    ParseFailureText(f);
    ParseFailureText(g);
  }

  /** The failure on record. */
  predicate OnRecord(t: Task, u: Task, i: nat, f: FailureClass, message: string, x: Input)
    requires i < |t.actions|
  {
    var a, text := t.actions[i], FailureText(f);
    && u.actions == t.actions[i := a.(errorCategory := Some(text), resultSummary := Some(message))]
    && u.errors == t.errors + [AgentError(x.ids.error, Some(a.id), text, message, x.now)]
    && t.recoveryAttempts <= u.recoveryAttempts
    && u.recoveryAttempts[|t.recoveryAttempts|..] ==
         (match x.services.proposal
          case None => []
          case Some(kind) => [Recovery(x.ids.proposal, a.id, text, "proposed:" + kind, "pending", x.now)])
    && u.retryCountByAction == t.retryCountByAction && u.lastErrorSignature == t.lastErrorSignature
  }

  lemma NotedMeans(t: Task, i: nat, f: FailureClass, message: string, x: Input)
    requires i < |t.actions|
    ensures OnRecord(t, Noted(t, i, f, message, x), i, f, message, x)
  {
    hide FailureText;
  }

  /** A failure is noted on its action and among the errors, with what the healing engine proposes, if anything. Then
      the task gives up, or asks the user, or recovers, with the strategy on record; only in the last case it counts a
      retry and remembers the failure. */
  lemma RecoveryMeans(t: Task, i: nat, f: FailureClass, message: string, b: Budget, x: Input)
    requires i < |t.actions|
    ensures var u, n, a, text := Recovered(t, i, f, message, b, x), Noted(t, i, f, message, x), t.actions[i],
                                 FailureText(f);
            && OnRecord(t, n, i, f, message, x) && u.actions == n.actions && u.errors == n.errors
            && if GivesUp(t, b.maxRetries, a.actionType, f) then
                 && u.phase == Phase.FAILED && u.completedAt == Some(x.now)
                 && u.recoveryAttempts == n.recoveryAttempts && u.retryCountByAction == t.retryCountByAction
                 && u.lastErrorSignature == t.lastErrorSignature
               else if AsksUser(t, b.maxRetries, a.actionType, f) then
                 && u.phase == Phase.WAITING_FOR_AUTHORIZATION && u.clarificationQuestion.Some?
                 && u.recoveryAttempts ==
                      n.recoveryAttempts + [Recovery(x.ids.recovery, a.id, text, "ask_user", "pending", x.now)]
                 && u.retryCountByAction == t.retryCountByAction && u.lastErrorSignature == t.lastErrorSignature
               else
                 && u.phase == RECOVERING
                 && u.recoveryAttempts ==
                      n.recoveryAttempts + [Recovery(x.ids.recovery, a.id, text, "retry", "pending", x.now)]
                 && u.retryCountByAction ==
                      t.retryCountByAction[ActionText(a.actionType) := RetriesSoFar(t, a.actionType) + 1]
                 && u.lastErrorSignature == Some(ActionText(a.actionType) + ":" + text)
  {
    hide ActionText, FailureText, GivesUp, AsksUser, Decide, AskReason, Noted;
    NotedMeans(t, i, f, message, x);
    var n := Noted(t, i, f, message, x);
    DecideMeans(n, b.maxRetries, t.actions[i].actionType, f);
    SameChoice(t, n, b.maxRetries, t.actions[i].actionType, f);
  }

  lemma SameChoice(t: Task, u: Task, maxRetries: int, key: ActionType, f: FailureClass)
    requires u.lastErrorSignature == t.lastErrorSignature && u.retryCountByAction == t.retryCountByAction
    ensures GivesUp(u, maxRetries, key, f) == GivesUp(t, maxRetries, key, f)
    ensures AsksUser(u, maxRetries, key, f) == AsksUser(t, maxRetries, key, f)
  {
    hide ActionText, FailureText;
  }

  // --- Creating and answering --------------------------------------------------------------------------------------

  /** A new task plans exactly if its status reads AUTHORIZED, and waits for authorisation otherwise; nothing has
      happened in it. */
  lemma CreatedMeans(h: Header, now: Time)
    ensures var t := Created(h, now);
            && t.header == h && t.updatedAt == now && t.completedAt == None && t.pendingActionId == None
            && (if h.authorizationStatus == "AUTHORIZED" then t.phase == PLANNING
                else t.phase == Phase.WAITING_FOR_AUTHORIZATION)
            && t.actions == [] && t.observations == [] && t.findings == [] && t.evidence == [] && t.errors == []
            && t.outputs == [] && t.recoveryAttempts == [] && t.retryCountByAction == map[]
            && t.lastErrorSignature == None
            && t.actionCount == t.modelCallCount == t.installationCount == 0
            && t.approvalState == NOT_REQUIRED && t.cancellationState == NONE
  {
  }

  predicate IsOver(t: Task) {
    t.phase == Phase.CANCELLED || t.phase == Phase.COMPLETED || t.phase == Phase.FAILED || t.phase == Phase.BLOCKED
  }

  /** The first recorded action that has the id on the operator's desk. */
  predicate OnDesk(t: Task, i: int) {
    && 0 <= i < |t.actions| && t.pendingActionId == Some(t.actions[i].id)
    && forall j :: 0 <= j < i ==> t.actions[j].id != t.actions[i].id
  }

  predicate Accepts(t: Task, op: Op) {
    match op
    case Pause(_) => !IsOver(t)
    case Resume(_) => t.phase == Phase.PAUSED
    case Cancel(_) => true
    case Clarify(_, _, _) => t.phase == Phase.WAITING_FOR_AUTHORIZATION
    case Step(_) => true
    case _ => t.phase == Phase.WAITING_FOR_APPROVAL && exists i :: 0 <= i < |t.actions| && OnDesk(t, i)
  }

  /** Which operations of an operator are accepted, and where they take the task. One that is refused, and the
      cancellation of a task that is over, change nothing. */
  lemma OperatorsMean(t: Task, b: Budget, op: Op)
    requires !op.Step?
    ensures var s := Apply(t, b, op);
            && (s.reply == Fine <==> Accepts(t, op))
            && (s.reply != Fine || (op.Cancel? && IsOver(t)) ==> s.task == t)
            && (s.reply == Fine && !(op.Cancel? && IsOver(t)) ==>
                  && s.task.updatedAt == op.at
                  && s.task.completedAt == (if op.Cancel? || op.RejectAction? then Some(op.at) else t.completedAt)
                  && s.task.cancellationState ==
                       (if op.Cancel? then CancellationState.CANCELLED else t.cancellationState)
                  && match op {
                       case Pause(_) => s.task.phase == Phase.PAUSED
                       case Cancel(_) => s.task.phase == Phase.CANCELLED
                       case ApproveAction(_) => s.task.phase == PREPARING
                       case RejectAction(_, _) => s.task.phase == Phase.BLOCKED
                       case _ => s.task.phase == PLANNING
                     })
  {
    hide IndexOf, Unanswered;
    if op.ApproveAction? || op.RejectAction? {
      DeskExactly(t);
    }
  }

  lemma DeskExactly(t: Task)
    ensures t.pendingActionId.Some? ==>
              var i := IndexOf(t.actions, t.pendingActionId.value);
              (i.Some? <==> exists j :: 0 <= j < |t.actions| && OnDesk(t, j)) && (i.Some? ==> OnDesk(t, i.value))
  {
    if t.pendingActionId.Some? && IndexOf(t.actions, t.pendingActionId.value).Some? {
      assert OnDesk(t, IndexOf(t.actions, t.pendingActionId.value).value);
    }
  }

  /** An answer becomes an observation, closes the question and settles the unknowns it mentions. */
  lemma AnswerMeans(t: Task, b: Budget, now: Time, answer: string, evidence: Uuid)
    requires t.phase == Phase.WAITING_FOR_AUTHORIZATION
    ensures var u := Apply(t, b, Clarify(now, answer, evidence)).task;
            && u.observations ==
                 t.observations + [Evidence(evidence, OBSERVATION, "User clarification: " + answer, None, now)]
            && u.clarificationQuestion == None
            && (forall x :: x in u.unknowns <==> x in t.unknowns && !Mentions(answer, x))
            && u.unknowns == KeptIn(t.unknowns, u.unknowns)
            && u.actions == t.actions && u.pendingActionId == t.pendingActionId
  {
    hide Unanswered, Mentions, KeptIn;
    UnansweredMeans(t.unknowns, answer);
  }

  /** Approving marks the action on the desk and leaves it there; rejecting takes it off, with the reason. */
  lemma VerdictMeans(t: Task, b: Budget, now: Time, reason: string, i: nat)
    requires t.phase == Phase.WAITING_FOR_APPROVAL && OnDesk(t, i)
    ensures var yes, no := Apply(t, b, ApproveAction(now)).task, Apply(t, b, RejectAction(now, reason)).task;
            && yes.actions == t.actions[i := t.actions[i].(approvalState := APPROVED)]
            && yes.approvalState == APPROVED && yes.pendingActionId == t.pendingActionId
            && no.actions ==
                 t.actions[i := t.actions[i].(approvalState := REJECTED, resultSummary := Some("Rejected: " + reason))]
            && no.approvalState == REJECTED && no.pendingActionId == None
  {
    hide IndexOf;
    DeskExactly(t);
  }

  /** Of the unknowns, an answer settles those that it mentions, in whichever case; the others stay, in order. */
  lemma {:induction false} UnansweredMeans(unknowns: seq<string>, answer: string)
    ensures var left := Unanswered(unknowns, answer);
            && (forall u :: u in left <==> u in unknowns && !Mentions(answer, u))
            && left == KeptIn(unknowns, left)
  {
    hide Contains, Mentions, Lower;
    if unknowns != [] {
      UnansweredMeans(unknowns[1..], answer);
      LoweredMentions(answer, unknowns[0]);
      assert forall u :: u in unknowns <==> u == unknowns[0] || u in unknowns[1..];
      var left, rest := Unanswered(unknowns, answer), Unanswered(unknowns[1..], answer);
      KeptSame(unknowns[1..], left, rest);
    }
  }

  /** Those of `xs` that are in `ys`, in their order. */
  function KeptIn(xs: seq<string>, ys: seq<string>): seq<string> {
    if xs == [] then [] else (if xs[0] in ys then [xs[0]] else []) + KeptIn(xs[1..], ys)
  }

  lemma {:induction false} KeptSame(xs: seq<string>, ys: seq<string>, zs: seq<string>)
    requires forall x :: x in xs ==> (x in ys <==> x in zs)
    ensures KeptIn(xs, ys) == KeptIn(xs, zs)
  {
    if xs != [] {
      assert xs[0] in xs && forall x :: x in xs[1..] ==> x in xs;
      KeptSame(xs[1..], ys, zs);
    }
  }

  lemma LoweredMentions(s: string, part: string)
    ensures Contains(Lower(s), Lower(part)) <==> Mentions(s, part)
  {
    hide Lower, SameText;
    forall i | 0 <= i <= |s| - |part|
      ensures OccursAt(Lower(s), Lower(part), i) <==> WrittenAt(s, part, i)
    {
      LowerPart(s, i, i + |part|);
      LowerMeans(s[i..i + |part|], part);
    }
    if Contains(Lower(s), Lower(part)) {
      var i :| 0 <= i <= |Lower(s)| && OccursAt(Lower(s), Lower(part), i);
      assert WrittenAt(s, part, i);
    }
    if Mentions(s, part) {
      var i :| 0 <= i <= |s| && WrittenAt(s, part, i);
      assert OccursAt(Lower(s), Lower(part), i);
    }
  }

  // --- What an action brings about ---------------------------------------------------------------------------------

  /** An action that is done ends at this time, gives the task its confidence, and leaves it analysing after an
      analysis, verifying after a verification, researching after a search for tools and observing after anything
      else. */
  lemma DoneMeans(t: Task, i: nat, b: Budget, x: Input)
    requires i < |t.actions| && Performed(t.(phase := EXECUTING, updatedAt := x.now), i, b, x).Done?
    ensures var s := Executed(t, i, b, x);
            && s.reply == Fine && |s.task.actions| == |t.actions|
            && s.task.actions[i].completedAt == Some(x.now) && s.task.confidence == s.task.actions[i].confidence
            && var kind := Performed(t.(phase := EXECUTING, updatedAt := x.now), i, b, x).task.actions[i].actionType;
               s.task.phase ==
               if kind == ANALYZE_OUTPUT then ANALYZING else if kind == VERIFY_FINDING then Phase.VERIFYING
               else if kind == RESEARCH_TOOL then RESEARCHING else OBSERVING
  {
    hide Performed, Recovered;
  }

  /** A fact the action observed: behind the earlier observations, from this action, at this time, and its summary. */
  predicate Observes(t: Task, u: Task, i: nat, x: Input, summary: string)
    requires i < |t.actions|
  {
    && u.observations == t.observations + [Evidence(x.ids.evidence, OBSERVATION, summary, Some(t.actions[i].id), x.now)]
    && |u.actions| == |t.actions| && u.actions[i] == t.actions[i].(resultSummary := Some(summary))
    && forall j :: 0 <= j < |t.actions| && j != i ==> u.actions[j] == t.actions[j]
  }

  /** Looking at the environment observes what the inspection says, or raises what it raises. */
  lemma EnvironmentMeans(t: Task, i: nat, b: Budget, x: Input)
    requires i < |t.actions| && t.actions[i].actionType == CHECK_ENVIRONMENT
    ensures var o := Performed(t, i, b, x);
            if x.services.environment.None? then o == Raised(ServiceRaised)
            else o.Done? && Observes(t, o.task, i, x, x.services.environment.value) && o.task.outputs == t.outputs
  {
  }

  function KindOfTarget(h: Header): string {
    if h.targetType.None? || h.targetType.value == "" then "unknown type" else h.targetType.value
  }

  /** Confirming the target observes it, with its kind, and fails if there is none. */
  lemma TargetMeans(t: Task, i: nat, b: Budget, x: Input)
    requires i < |t.actions| && t.actions[i].actionType == DISCOVER_TARGET
    ensures var o := Performed(t, i, b, x);
            if t.header.target.None? || t.header.target.value == ""
            then o == Failed(t, INVALID_ARGUMENT, "No target is known yet.")
            else
              && o.Done?
              && Observes(t, o.task, i, x,
                          "Target confirmed: " + t.header.target.value + " (" + KindOfTarget(t.header) + ").")
  {
  }

  /** Looking for tools records the candidates under the capability asked for, and fails if there are none. */
  lemma ResearchMeans(t: Task, i: nat, b: Budget, x: Input)
    requires i < |t.actions| && t.actions[i].actionType == RESEARCH_TOOL
    ensures var o := Performed(t, i, b, x);
            var wanted := if t.actions[i].capability.Some? then t.actions[i].capability.value else "";
            match x.services.discovery {
              case DiscoveryRaises => o == Raised(ServiceRaised)
              case Candidates(names) =>
                if names == [] then o.Failed? && o.task == t && o.failure == TOOL_UNAVAILABLE
                else
                  && o.Done? && o.task.toolCapabilities == t.toolCapabilities[wanted := names]
                  && |o.task.observations| == |t.observations| + 1
                  && o.task.observations[..|t.observations|] == t.observations
            }
  {
    hide JoinWith;
  }

  /** Asking the user leaves the question open and waits for the answer; asking for approval waits for it, with this
      action on the desk; a report or the end completes the task. */
  lemma FinishingMeans(t: Task, i: nat, b: Budget, x: Input)
    requires i < |t.actions| && t.actions[i].actionType in {ASK_USER, WAIT_FOR_APPROVAL, GENERATE_REPORT, COMPLETE_TASK}
    ensures var s := Executed(t, i, b, x);
            && s.reply == Fine
            && (t.actions[i].actionType == ASK_USER ==>
                  && s.task.phase == Phase.WAITING_FOR_AUTHORIZATION
                  && s.task.clarificationQuestion == Some(t.actions[i].expectedResult))
            && (t.actions[i].actionType == WAIT_FOR_APPROVAL ==>
                  s.task.phase == Phase.WAITING_FOR_APPROVAL && s.task.pendingActionId == Some(t.actions[i].id))
            && (t.actions[i].actionType in {GENERATE_REPORT, COMPLETE_TASK} ==>
                  s.task.phase == Phase.COMPLETED && s.task.completedAt == Some(x.now))
  {
    hide Recovered;
  }

  /** A diagnosis whose process was started and ended: it fails with class TIMEOUT exactly if the process timed out, it
      is done exactly if the process succeeded in time, with its output on record, and otherwise its class is what
      stderr and exit code suggest. */
  lemma DiagnosisMeans(t: Task, i: nat, b: Budget, x: Input, engine: T.Engine, c: T.CommandRequest, w: T.World)
    requires i < |t.actions| && t.actions[i].actionType in {RUN_DIAGNOSTIC, COLLECT_INFORMATION} && x.hasScope
    requires T.Launches(engine, c, w) && w.outcome.Ends?
    requires T.Executed(engine, c, w).result.Some?
        && x.services.diagnostic == Ran(T.Executed(engine, c, w).result.value)
    ensures var o := Performed(t, i, b, x);
            && (o.Done? <==> !w.outcome.timedOut && w.outcome.succeeded) && (o.Done? || o.Failed?)
            && (o.Failed? ==> o.task == t && (o.failure == FailureClass.TIMEOUT <==> w.outcome.timedOut))
            && (o.Failed? && !w.outcome.timedOut ==>
                  o.failure == Classified(false, false, w.outcome.exitCode, w.outcome.stderr))
            && (o.Done? ==>
                  o.task.outputs == t.outputs + [if w.outcome.stdout.Some? then w.outcome.stdout.value else ""])
  {
    hide T.Launches, T.Executed, Classified, Strip;
    T.StatusMeans(engine, c, w);
    var r := T.Executed(engine, c, w).result.value;
    ClassifiedMeans(r.status == T.TIMEOUT, r.status == T.REJECTED, r.exitCode, r.stderr);
  }

  /** Short of that, a diagnosis is refused without a target scope or by the policy, or raises with the engine. */
  lemma NoDiagnosisMeans(t: Task, i: nat, b: Budget, x: Input)
    requires i < |t.actions| && t.actions[i].actionType in {RUN_DIAGNOSTIC, COLLECT_INFORMATION}
    ensures var o := Performed(t, i, b, x);
            && (!x.hasScope ==> o.Failed? && o.failure == POLICY_RESTRICTION && o.task == t)
            && (x.hasScope && x.services.diagnostic.Denied? ==>
                  o == Failed(t, POLICY_RESTRICTION, x.services.diagnostic.message))
            && (x.hasScope && x.services.diagnostic.EngineRaises? ==> o == Raised(ServiceRaised))
  {
    hide Classified, Strip;
  }

  /** An analysis proposes one finding on the latest observation, and fails if there is none. */
  lemma AnalysisMeans(t: Task, i: nat, b: Budget, x: Input)
    requires i < |t.actions| && t.actions[i].actionType == ANALYZE_OUTPUT
    ensures var o := Performed(t, i, b, x);
            if t.observations == [] then o == Failed(t, UNEXPECTED_OUTPUT, "Nothing to analyze yet.")
            else
              var summary := "Based on: " + t.observations[|t.observations| - 1].summary;
              var finding := Evidence(x.ids.evidence, FINDING, summary, Some(t.actions[i].id), x.now);
              && o.Done? && o.task.findings == t.findings + [finding] && o.task.evidence == t.evidence + [finding]
              && |o.task.actions| == |t.actions| && o.task.actions[i].resultSummary == Some(summary)
  {
  }

  /** An installation: which of the possible refusals comes first, and what it leaves behind once the installer has
      answered. */
  lemma InstallationMeans(t: Task, i: nat, b: Budget, x: Input)
    requires i < |t.actions| && t.actions[i].actionType == INSTALL_TOOL
    ensures var o, tool := Performed(t, i, b, x), t.actions[i].tool;
            if tool.None? || tool.value == "" then o.Failed? && o.failure == INVALID_ARGUMENT && o.task == t
            else if t.installationCount >= b.maxInstallations then o == Raised(BudgetExceeded)
            else if !x.services.toolRegistered then o.Failed? && o.failure == TOOL_UNAVAILABLE && o.task == t
            else if !x.hasScope then o.Failed? && o.failure == POLICY_RESTRICTION && o.task == t
            else
              match x.services.installation {
                case Refused(message) => o == Failed(t, POLICY_RESTRICTION, message)
                case InstallationRaises => o == Raised(ServiceRaised)
                case Ended(installed, state, message) =>
                  && (if installed then o.Done? else o.Failed? && o.failure == TOOL_UNAVAILABLE && o.message == message)
                  && o.task.installationCount == t.installationCount + 1
                  && o.task.installationState == t.installationState[tool.value := state]
                  && o.task.selectedTools == t.selectedTools + if installed then [tool.value] else []
              }
  {
    hide EnvironmentChecked, TargetDiscovered, ToolResearched, DiagnosticRun, OutputAnalyzed, FindingVerified,
         Completed;
  }

  /** What is verified: the last finding that is not, on the strength of the last three observations, which its summary
      then names. */
  lemma CorroborationMeans(t: Task, i: nat, b: Budget, x: Input)
    requires i < |t.actions| && t.actions[i].actionType == VERIFY_FINDING
    requires LastPending(t.findings).Some? && t.observations != []
    ensures var o, k := Performed(t, i, b, x), LastPending(t.findings).value;
            var from := if |t.observations| <= 3 then 0 else |t.observations| - 3;
            && o.Done? && k < |t.findings| && |o.task.findings| == |t.findings|
            && o.task.findings[k].kind == VERIFIED_FINDING
            && exists texts: seq<string> ::
                 && |texts| == |t.observations| - from
                 && (forall j :: 0 <= j < |texts| ==> texts[j] == t.observations[from + j].summary)
                 && o.task.findings[k].summary == t.findings[k].summary + " | verified by: " + JoinWith("; ", texts)
  {
    hide JoinWith, LastPending, FindingVerified, Observed, UserAsked, ApprovalAwaited, EnvironmentChecked,
         TargetDiscovered, ToolResearched, ToolInstalled, DiagnosticRun, OutputAnalyzed, Completed;
    LastThreeMeans(t.observations);
    VerifiedSummary(t, i, x);
  }

  lemma LastThreeMeans(os: seq<Evidence>)
    ensures var from := if |os| <= 3 then 0 else |os| - 3;
            var texts := Summaries(LastThree(os));
            && |texts| == |os| - from && (forall j :: 0 <= j < |texts| ==> texts[j] == os[from + j].summary)
  {
    SummariesMean(LastThree(os));
  }

  lemma VerifiedSummary(t: Task, i: nat, x: Input)
    requires i < |t.actions| && LastPending(t.findings).Some? && Summaries(LastThree(t.observations)) != []
    ensures var o, k := FindingVerified(t, i, x), LastPending(t.findings).value;
            && o.Done? && k < |t.findings| && |o.task.findings| == |t.findings|
            && o.task.findings[k].kind == VERIFIED_FINDING
            && o.task.findings[k].summary ==
               t.findings[k].summary + " | verified by: " + JoinWith("; ", Summaries(LastThree(t.observations)))
  {
    hide JoinWith, LastPending, Summaries, LastThree, ReplacedById;
  }

  lemma {:induction false} SummariesMean(es: seq<Evidence>)
    ensures |Summaries(es)| == |es| && forall j :: 0 <= j < |es| ==> Summaries(es)[j] == es[j].summary
  {
    if es != [] {
      SummariesMean(es[1..]);
    }
  }
}
