/** Installation requests: planning, the attempt loop and the verification, as functions of values. A request's life is
    cut at the points where the service waits for the terminal engine. */
module Installation {
  import opened Prelude
  import opened Policy
  import opened Text
  import opened CommandTemplates
  import T = Terminal
  import ToolTrust

  // --- Entities ----------------------------------------------------------------------------------------------------

  datatype State =
    | DISCOVERED | REVIEWING | DEPENDENCIES_CHECKING | WAITING_FOR_APPROVAL | PREPARING | INSTALLING | VERIFYING
    | INSTALLED | FAILED | BLOCKED | CANCELLED | ROLLBACK_REQUIRED

  predicate IsTerminal(s: State) {
    s == INSTALLED || s == FAILED || s == BLOCKED || s == CANCELLED
  }

  datatype Plan = Plan(
    platform: string, manager: PackageManager, packageName: string, version: Option<string>, riskLevel: RiskTier,
    approvalRequired: bool)

  /** `category` is the status of a command that did not complete. */
  datatype Attempt = Attempt(number: int, exitCode: Option<int>, category: Option<T.CommandStatus>)

  datatype Verification = Verification(
    commandCompleted: ToolTrust.CheckStatus, exitCodeZero: ToolTrust.CheckStatus, outputPresent: ToolTrust.CheckStatus,
    executableFound: bool, versionOutput: Option<string>, verified: bool)

  datatype Problem =
    | NotReady(failed: seq<ToolTrust.CheckName>)
    | NoPackageManager
    | Denied(reasons: seq<string>)
    | Exhausted(attempts: nat)
    | Unconfirmed

  datatype Request = Request(
    id: Uuid, toolId: Uuid, targetId: Uuid, requestedBy: Option<string>, session: Option<Uuid>, plan: Option<Plan>,
    state: State, approvedBy: Option<string>, rejectionReason: Option<string>, attempts: seq<Attempt>,
    verification: Option<Verification>, problem: Option<Problem>)

  datatype Error =
    | RequestNotFound | InvalidTransition | ApprovalRequired | ToolNotFound | ToolNotApproved | InvalidCommand
    | EngineRaised

  // --- Planning ----------------------------------------------------------------------------------------------------

  function Preference(platform: string): seq<PackageManager> {
    if platform == "WINDOWS" then [WINGET, PIP]
    else if platform == "LINUX" then [APT, DNF, PACMAN, PIP]
    else if platform == "MACOS" then [BREW, PIP]
    else if platform == "ANDROID_TERMUX" then [TERMUX_PKG, PIP]
    else [PIP]
  }

  /** The first of `preference` that is available. */
  function Preferred(preference: seq<PackageManager>, available: seq<PackageManager>): Option<PackageManager> {
    if preference == [] then None
    else if preference[0] in available then Some(preference[0])
    else Preferred(preference[1..], available)
  }

  datatype Planning = Planned(plan: Plan) | WrongPlatform | Unavailable

  function BuildPlan(card: ToolTrust.Card, platform: string, available: seq<PackageManager>): Planning {
    if platform !in card.platforms then WrongPlatform
    else
      match Preferred(Preference(platform), available)
      case None => Unavailable
      case Some(m) =>
        Planned(Plan(platform, m, card.name, card.version, card.riskLevel, card.riskLevel in {MEDIUM, HIGH, CRITICAL}))
  }

  lemma {:induction false} PreferredMeans(preference: seq<PackageManager>, available: seq<PackageManager>)
    ensures var p := Preferred(preference, available);
            if p.Some? then FirstAvailable(preference, available, p.value)
            else forall m :: m in preference ==> m !in available
  {
    if preference != [] && preference[0] !in available {
      PreferredMeans(preference[1..], available);
      var p := Preferred(preference[1..], available);
      if p.Some? {
        var i :| 0 <= i < |preference[1..]| && preference[1..][i] == p.value
                 && p.value in available && forall j :: 0 <= j < i ==> preference[1..][j] !in available;
        assert preference[i + 1] == p.value;
        assert forall j :: 1 <= j < i + 1 ==> preference[j] == preference[1..][j - 1];
      }
    }
  }

  /** `m` is available, and nothing preferred to it is. */
  predicate FirstAvailable(preference: seq<PackageManager>, available: seq<PackageManager>, m: PackageManager) {
    exists i :: 0 <= i < |preference| && preference[i] == m && m in available
                && forall j :: 0 <= j < i ==> preference[j] !in available
  }

  /** There is a plan exactly if the tool supports the platform and one of the platform's managers is available. It then
      names the first of them and the card's own name as the package, and asks for approval unless the risk is low. */
  lemma PlanMeans(card: ToolTrust.Card, platform: string, available: seq<PackageManager>)
    ensures var p := BuildPlan(card, platform, available);
            && (p.Planned? <==> platform in card.platforms && exists m :: m in Preference(platform) && m in available)
            && (p.WrongPlatform? <==> platform !in card.platforms)
            && (p.Planned? ==>
                  && FirstAvailable(Preference(platform), available, p.plan.manager)
                  && p.plan.packageName == card.name && p.plan.riskLevel == card.riskLevel
                  && (p.plan.approvalRequired <==> card.riskLevel != LOW))
  {
    hide Preference, Preferred, FirstAvailable;
    PreferredMeans(Preference(platform), available);
    var p := Preferred(Preference(platform), available);
    if p.Some? {
      FirstIsThere(Preference(platform), available, p.value);
    }
  }

  lemma FirstIsThere(preference: seq<PackageManager>, available: seq<PackageManager>, m: PackageManager)
    requires FirstAvailable(preference, available, m)
    ensures m in preference && m in available
  {
  }

  // --- Verifying ---------------------------------------------------------------------------------------------------

  function Evaluated(result: T.CommandResult): Verification {
    var completed := result.status == T.COMPLETED;
    var zero := result.exitCode == Some(0);
    var output := Strip(if result.stdout.Some? then result.stdout.value else "");
    Verification(
      ToolTrust.PassIf(completed),
      if result.exitCode.None? then ToolTrust.INDEFINITE else ToolTrust.PassIf(zero),
      if output != "" then ToolTrust.PASS else ToolTrust.INDEFINITE,
      completed && zero,
      if output != "" then Some(output) else None,
      completed && zero && output != "")
  }

  /** A confirmation needs all three checks; an unknown one is never taken for a pass. */
  lemma VerifiedMeans(result: T.CommandResult)
    ensures var v := Evaluated(result);
            && (v.verified <==> v.commandCompleted == v.exitCodeZero == v.outputPresent == ToolTrust.PASS)
            && (v.verified ==> v.executableFound && v.versionOutput.Some?)
  {
  }

  // --- Asking for an installation ----------------------------------------------------------------------------------

  function FailedChecks(checks: seq<ToolTrust.Check>): seq<ToolTrust.CheckName> {
    if checks == [] then []
    else (if checks[0].status == ToolTrust.FAIL then [checks[0].name] else []) + FailedChecks(checks[1..])
  }

  datatype Asking = Asking(
    id: Uuid, toolId: Uuid, target: TargetScope, platform: string, requestedBy: Option<string>,
    available: seq<PackageManager>, policyNow: Time, scopeNow: Time)

  function Blank(a: Asking): Request {
    Request(a.id, a.toolId, a.target.id, a.requestedBy, None, None, DISCOVERED, None, None, [], None, None)
  }

  function Asked(tool: Option<ToolTrust.Tool>, a: Asking): Request {
    var report := ToolTrust.CheckReadiness(tool, a.target, a.platform, a.policyNow, a.scopeNow);
    if !ToolTrust.Ready(report) then
      Blank(a).(state := BLOCKED, problem := Some(NotReady(FailedChecks(report.checks))))
    else
      match BuildPlan(report.tool.value.card, a.platform, a.available)
      case Planned(plan) =>
        Blank(a).(plan := Some(plan), state := if plan.approvalRequired then WAITING_FOR_APPROVAL else PREPARING)
      case _ => Blank(a).(state := BLOCKED, problem := Some(NoPackageManager))
  }

  // --- Operator decisions ------------------------------------------------------------------------------------------

  function Approved(r: Request, approver: string): Request
    requires r.state == WAITING_FOR_APPROVAL
  {
    r.(approvedBy := Some(approver), state := PREPARING)
  }

  function RejectedBy(r: Request, reason: string): Request
    requires !IsTerminal(r.state)
  {
    r.(state := CANCELLED, rejectionReason := Some(reason))
  }

  /** With a command in flight, cancelling only asks the engine to stop it. */
  function CancelledBy(r: Request, commandRunning: bool): Request {
    if IsTerminal(r.state) || commandRunning then r else r.(state := CANCELLED)
  }

  // --- Running it --------------------------------------------------------------------------------------------------

  /** What one `start_installation` call holds on to. */
  datatype Call = Call(session: Uuid, target: TargetScope, entrypoint: Option<string>, maxAttempts: int,
                       interpreter: string)

  /** Where a call stands: over, waiting for the engine to run attempt `number`, or waiting for the verification
      command. */
  datatype Flight =
    | Landed
    | Attempting(number: int, last: Option<T.CommandStatus>, command: T.CommandRequest)
    | Confirming(command: T.CommandRequest)

  /** A request between two waits; `entry` is its row in the table of running commands. */
  datatype Leg = Leg(request: Request, entry: Option<Uuid>, flight: Flight, error: Option<Error>)

  /** What the next engine call will meet: the clock, a fresh command id and the adapter. */
  datatype Env = Env(now: Time, command: Uuid, world: T.World)

  function Raise(l: Leg, e: Error): Leg {
    l.(flight := Landed, error := Some(e))
  }

  function Decision(r: Request, actionType: string, risk: RiskTier, target: TargetScope, now: Time): PolicyDecision {
    Evaluate(ActionRequest(r.id, actionType, risk, target), now)
  }

  /** `start_installation` up to its first wait. */
  function Begun(l: Leg, tool: Option<ToolTrust.Tool>, call: Call, env: Env): Leg {
    var r := l.request;
    if r.state == WAITING_FOR_APPROVAL then Raise(l, ApprovalRequired)
    else if r.state != PREPARING || r.plan.None? then Raise(l, InvalidTransition)
    else
      var started := l.(request := r.(session := Some(call.session), state := INSTALLING));
      if tool.None? then Raise(started, ToolNotFound)
      else if tool.value.trust != ToolTrust.APPROVED then Raise(started, ToolNotApproved)
      else NextAttempt(started, call, 1, None, env)
  }

  /** The loop head: attempt `number` is submitted, or the loop ends. */
  function NextAttempt(l: Leg, call: Call, number: int, last: Option<T.CommandStatus>, env: Env): (next: Leg)
    requires l.request.plan.Some?
    ensures next.request.plan == l.request.plan
  {
    var r, plan := l.request, l.request.plan.value;
    if number > call.maxAttempts then GivenUp(l)
    else
      var argv := InstallCommand(call.interpreter, plan.manager, plan.packageName, plan.version);
      if argv.None? then Raise(l, InvalidCommand)
      else
        var decision := Decision(r, INSTALL_ACTION, plan.riskLevel, call.target, env.now);
        if decision.verdict == DENY then
          l.(request := r.(state := BLOCKED, problem := Some(Denied(decision.reasons))), flight := Landed)
        else
          var approvedByUser := decision.verdict == ALLOW || r.approvedBy.Some?;
          l.(entry := Some(env.command),
             flight := Attempting(number, last,
                                  T.CommandRequest(env.command, call.session, argv.value, decision, approvedByUser)))
  }

  function GivenUp(l: Leg): Leg {
    l.(request := l.request.(state := FAILED, problem := Some(Exhausted(|l.request.attempts|))), flight := Landed)
  }

  /** From the return of an install command to the next wait. */
  function AttemptReturned(l: Leg, call: Call, result: Option<T.CommandResult>, env: Env): Leg
    requires l.flight.Attempting? && l.request.plan.Some?
  {
    if result.None? then Raise(l, EngineRaised)
    else
      var status := result.value.status;
      var category := if status == T.COMPLETED then None else Some(status);
      var attempt := Attempt(l.flight.number, result.value.exitCode, category);
      var recorded := l.(flight := Landed, entry := None,
                         request := l.request.(attempts := l.request.attempts + [attempt]));
      if status == T.CANCELLED then recorded.(request := recorded.request.(state := CANCELLED))
      else if status == T.COMPLETED then ConfirmationSent(recorded, call, env)
      else if l.flight.last == category then GivenUp(recorded)
      else NextAttempt(recorded, call, l.flight.number + 1, category, env)
  }

  function ConfirmationSent(l: Leg, call: Call, env: Env): (next: Leg)
    requires l.request.plan.Some?
    ensures next.request.plan == l.request.plan
  {
    var verifying := l.(request := l.request.(state := VERIFYING));
    var plan := l.request.plan.value;
    var argv := VerificationCommand(call.interpreter, plan.manager, plan.packageName, call.entrypoint);
    if argv.None? then Raise(verifying, InvalidCommand)
    else
      var decision := Decision(l.request, VERIFY_ACTION, LOW, call.target, env.now);
      verifying.(flight := Confirming(
                   T.CommandRequest(env.command, call.session, argv.value, decision, decision.verdict == ALLOW)))
  }

  function ConfirmationReturned(l: Leg, result: Option<T.CommandResult>): Leg
    requires l.flight.Confirming?
  {
    if result.None? then Raise(l, EngineRaised)
    else
      var v := Evaluated(result.value);
      var seen := l.request.(verification := Some(v));
      l.(flight := Landed,
         request := if v.verified then seen.(state := INSTALLED)
                    else seen.(state := ROLLBACK_REQUIRED, problem := Some(Unconfirmed)))
  }

  /** The engine call a leg waits for ends with `result`. */
  function Returned(l: Leg, call: Call, result: Option<T.CommandResult>, env: Env): Leg
    requires !l.flight.Landed? && l.request.plan.Some?
    ensures var b := Returned(l, call, result, env); b.request.plan == l.request.plan && Ahead(b, call) < Ahead(l, call)
  {
    if l.flight.Attempting? then AttemptReturned(l, call, result, env) else ConfirmationReturned(l, result)
  }

  /** Waits still ahead, at most. */
  function Ahead(l: Leg, call: Call): nat {
    match l.flight
    case Landed => 0
    case Confirming(_) => 1
    case Attempting(number, _, _) => 2 + Max(0, call.maxAttempts - number)
  }

  datatype Journey = Journey(leg: Leg, engine: T.Engine)

  /** A leg and all that follow, when nothing interferes: the `k`-th engine call meets `envs(k)`. */
  function Flown(l: Leg, call: Call, engine: T.Engine, envs: nat -> Env, k: nat): Journey
    requires l.request.plan.Some? || l.flight.Landed?
    decreases Ahead(l, call)
  {
    if l.flight.Landed? then Journey(l, engine)
    else
      var x := T.Executed(engine, l.flight.command, envs(k).world);
      Flown(Returned(l, call, x.result, envs(k + 1)), call, x.after, envs, k + 1)
  }

  lemma FlownLanded(l: Leg, call: Call, engine: T.Engine, envs: nat -> Env, k: nat)
    requires l.flight.Landed?
    ensures Flown(l, call, engine, envs, k) == Journey(l, engine)
  {
  }

  lemma FlownOn(l: Leg, call: Call, engine: T.Engine, envs: nat -> Env, k: nat)
    requires !l.flight.Landed? && l.request.plan.Some?
    ensures var x := T.Executed(engine, l.flight.command, envs(k).world);
            Flown(l, call, engine, envs, k) ==
                Flown(Returned(l, call, x.result, envs(k + 1)), call, x.after, envs, k + 1)
  {
  }

  lemma NoMoreAttempts(l: Leg, call: Call, number: int, last: Option<T.CommandStatus>, env: Env)
    requires l.request.plan.Some? && number > call.maxAttempts
    ensures NextAttempt(l, call, number, last, env) == GivenUp(l)
  {
  }
}
