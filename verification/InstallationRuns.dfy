/** Everything operators, the tool registry and the terminal engine can do to any number of installation requests, in
    any order, and what holds throughout. */
module InstallationRuns {
  import opened Prelude
  import opened Policy
  import opened CommandTemplates
  import opened Installation
  import Text
  import T = Terminal
  import ToolTrust

  /** A request's `Leg` is its value together with the place where its start call is waiting. */
  datatype Installer = Installer(
    maxAttempts: int, interpreter: string, tools: ToolTrust.Registry, legs: map<Uuid, Leg>, calls: map<Uuid, Call>,
    engine: T.Engine)

  datatype Event =
    | ChangeTools(op: ToolTrust.Op)
    | Ask(asking: Asking)
    | Approve(id: Uuid, approver: string)
    | Reject(id: Uuid, reason: string)
    | Cancel(id: Uuid)
    | Start(id: Uuid, session: Uuid, target: TargetScope, env: Env)
    | Return(id: Uuid, world: T.World, env: Env)
    | SetSession(session: Uuid, status: T.SessionStatus)
    | Diagnose(action: Uuid, target: TargetScope, command: Uuid, session: Uuid, approved: bool, at: Time,
               world: T.World)

  /** The reviewed diagnostic, which the terminal route and the agent run on the same engine: the command is sent unless
      the policy denies it. */
  function Diagnosed(s: Installer, e: Event): Option<T.Execution>
    requires e.Diagnose?
  {
    var decision := Evaluate(ActionRequest(e.action, DIAGNOSTIC_ACTION, LOW, e.target), e.at);
    if decision.verdict == DENY then None
    else
      Some(T.Executed(s.engine,
                      T.CommandRequest(e.command, e.session, DiagnosticCommand(s.interpreter), decision, e.approved),
                      e.world))
  }

  function Started(s: Installer, id: Uuid, session: Uuid, target: TargetScope, env: Env): Installer
    requires id in s.legs
  {
    var tool := ToolTrust.Lookup(s.tools, s.legs[id].request.toolId);
    var entrypoint := if tool.Some? then tool.value.card.entrypoint else None;
    var call := Call(session, target, entrypoint, s.maxAttempts, s.interpreter);
    s.(legs := s.legs[id := Begun(s.legs[id], tool, call, env)], calls := s.calls[id := call])
  }

  function Resumed(s: Installer, id: Uuid, world: T.World, env: Env): Installer
    requires id in s.legs && id in s.calls && !s.legs[id].flight.Landed? && s.legs[id].request.plan.Some?
  {
    var x := T.Executed(s.engine, s.legs[id].flight.command, world);
    s.(legs := s.legs[id := Returned(s.legs[id], s.calls[id], x.result, env)], engine := x.after)
  }

  function WithRequest(s: Installer, id: Uuid, r: Request): Installer
    requires id in s.legs
  {
    s.(legs := s.legs[id := s.legs[id].(request := r)])
  }

  /** Operations that the service refuses, and returns of calls that are not there, change nothing. */
  function Step(s: Installer, e: Event): Installer {
    match e
    case ChangeTools(op) => s.(tools := ToolTrust.Apply(s.tools, op).after)
    case Ask(a) =>
      if a.id in s.legs then s
      else s.(legs := s.legs[a.id := Leg(Asked(ToolTrust.Lookup(s.tools, a.toolId), a), None, Landed, None)])
    case Approve(id, approver) =>
      if id in s.legs && s.legs[id].request.state == WAITING_FOR_APPROVAL
      then WithRequest(s, id, Approved(s.legs[id].request, approver)) else s
    case Reject(id, reason) =>
      if id in s.legs && !IsTerminal(s.legs[id].request.state)
      then WithRequest(s, id, RejectedBy(s.legs[id].request, reason)) else s
    case Cancel(id) =>
      if id in s.legs then WithRequest(s, id, CancelledBy(s.legs[id].request, s.legs[id].entry.Some?)) else s
    case Start(id, session, target, env) =>
      if id in s.legs && s.legs[id].request.state == PREPARING then Started(s, id, session, target, env) else s
    case Return(id, world, env) =>
      if id in s.legs && id in s.calls && !s.legs[id].flight.Landed? && s.legs[id].request.plan.Some?
      then Resumed(s, id, world, env) else s
    case SetSession(session, status) => s.(engine := s.engine.(sessions := s.engine.sessions[session := status]))
    case Diagnose(_, _, _, _, _, _, _) =>
      var x := Diagnosed(s, e);
      if x.Some? then s.(engine := x.value.after) else s
  }

  function Run(s: Installer, events: seq<Event>): Installer
    decreases |events|
  {
    if events == [] then s else Run(Step(s, events[0]), events[1..])
  }

  lemma {:induction false} RunAppend(s: Installer, a: seq<Event>, b: seq<Event>)
    ensures Run(s, a + b) == Run(Run(s, a), b)
    decreases |a|
  {
    hide Step;
    if a == [] {
      assert a + b == b;
    } else {
      assert (a + b)[1..] == a[1..] + b;
      RunAppend(Step(s, a[0]), a[1..], b);
    }
  }

  /** No tools, no requests; terminal sessions as they may be. */
  function Initial(maxAttempts: int, interpreter: string, sessions: map<Uuid, T.SessionStatus>): Installer {
    Installer(maxAttempts, interpreter, map[], map[], map[], T.Engine(sessions, map[], map[], []))
  }

  // --- One request -------------------------------------------------------------------------------------------------

  predicate Failure(a: Attempt) {
    a.category.Some? && a.category.value != T.CANCELLED && a.category.value != T.COMPLETED
  }

  /** Attempts are numbered from one, all but the last failed, and only the last two may have failed the same way. */
  predicate WellRetried(attempts: seq<Attempt>, limit: int) {
    && |attempts| <= Max(0, limit)
    && (forall i :: 0 <= i < |attempts| ==> attempts[i].number == i + 1)
    && (forall i :: 0 <= i < |attempts| - 1 ==> Failure(attempts[i]))
    && (forall i :: 0 <= i < |attempts| - 2 ==> attempts[i].category != attempts[i + 1].category)
  }

  predicate LastSucceeded(attempts: seq<Attempt>) {
    attempts != [] && attempts[|attempts| - 1].category.None?
  }

  /** Every attempt failed, each differently from the one before, and another is allowed. */
  predicate MayRetry(attempts: seq<Attempt>, number: int, last: Option<T.CommandStatus>, limit: int) {
    && number == |attempts| + 1
    && (attempts == [] ==> last.None?)
    && (attempts != [] ==> Failure(attempts[|attempts| - 1]) && last == attempts[|attempts| - 1].category)
    && (forall i :: 0 <= i < |attempts| - 1 ==> attempts[i].category != attempts[i + 1].category)
    && number - 1 <= Max(0, limit)
  }

  /** The plan's risk is low, or somebody is on record as having approved. */
  predicate Cleared(r: Request) {
    r.plan.Some? && (r.plan.value.riskLevel == LOW || r.approvedBy.Some?)
  }

  /** No attempt is left, or the last two failed the same way. */
  predicate UsedUp(attempts: seq<Attempt>, limit: int) {
    || |attempts| >= limit
    || (|attempts| >= 2 && attempts[|attempts| - 1].category == attempts[|attempts| - 2].category)
  }

  predicate RequestSound(r: Request, limit: int) {
    && WellRetried(r.attempts, limit)
    && (r.plan.Some? ==> (r.plan.value.approvalRequired <==> r.plan.value.riskLevel != LOW))
    && (r.state in {WAITING_FOR_APPROVAL, PREPARING} ==> r.attempts == [] && r.plan.Some?)
    && (r.state in {PREPARING, INSTALLING, VERIFYING, INSTALLED, FAILED, ROLLBACK_REQUIRED} ==> Cleared(r))
    && (r.state in {VERIFYING, INSTALLED, ROLLBACK_REQUIRED} ==> LastSucceeded(r.attempts))
    && (r.state == FAILED ==> !LastSucceeded(r.attempts) && UsedUp(r.attempts, limit))
    && (r.state == INSTALLED ==> r.verification.Some? && r.verification.value.verified)
    && (r.state == ROLLBACK_REQUIRED ==> r.verification.Some? && !r.verification.value.verified)
    && (r.attempts != [] ==> Cleared(r))
  }

  predicate FlightSound(l: Leg, limit: int) {
    match l.flight
    case Landed => true
    case Attempting(number, last, command) =>
      && l.entry == Some(command.id)
      && Cleared(l.request)
      && number <= limit
      && MayRetry(l.request.attempts, number, last, limit)
      && l.request.state in {INSTALLING, CANCELLED}
      && Approves(command.authorization, command.approvedByUser)
    case Confirming(_) =>
      && Cleared(l.request)
      && LastSucceeded(l.request.attempts)
      && l.request.state in {VERIFYING, CANCELLED}
  }

  predicate LegSound(l: Leg, limit: int) {
    RequestSound(l.request, limit) && FlightSound(l, limit)
  }

  lemma GivenUpSound(l: Leg, limit: int)
    requires RequestSound(l.request, limit) && Cleared(l.request) && !LastSucceeded(l.request.attempts)
    requires UsedUp(l.request.attempts, limit)
    ensures LegSound(GivenUp(l), limit)
  {
  }

  lemma NextAttemptSound(l: Leg, call: Call, number: int, last: Option<T.CommandStatus>, env: Env)
    requires RequestSound(l.request, call.maxAttempts) && Cleared(l.request)
    requires l.request.state in {INSTALLING, CANCELLED}
    requires MayRetry(l.request.attempts, number, last, call.maxAttempts)
    ensures LegSound(NextAttempt(l, call, number, last, env), call.maxAttempts)
  {
    hide WellRetried, InstallCommand, Evaluate;
    if number > call.maxAttempts {
      GivenUpSound(l, call.maxAttempts);
    } else {
      var risk := l.request.plan.value.riskLevel;
      TokenMeans(ActionRequest(l.request.id, INSTALL_ACTION, risk, call.target), env.now, true);
      LowIsAllowed(ActionRequest(l.request.id, INSTALL_ACTION, risk, call.target), env.now);
    }
  }

  lemma LowIsAllowed(r: ActionRequest, now: Time)
    ensures var d := Evaluate(r, now); d.verdict != DENY ==> (d.verdict == ALLOW <==> r.riskTier == LOW)
  {
  }

  lemma BegunSound(l: Leg, tool: Option<ToolTrust.Tool>, call: Call, env: Env)
    requires LegSound(l, call.maxAttempts) && l.request.state == PREPARING
    ensures LegSound(Begun(l, tool, call, env), call.maxAttempts)
  {
    hide NextAttempt;
    var started := l.(request := l.request.(session := Some(call.session), state := INSTALLING));
    NextAttemptSound(started, call, 1, None, env);
  }

  lemma RecordedSound(attempts: seq<Attempt>, number: int, last: Option<T.CommandStatus>, limit: int, a: Attempt)
    requires WellRetried(attempts, limit) && MayRetry(attempts, number, last, limit) && number <= limit
    requires a.number == number
    ensures WellRetried(attempts + [a], limit)
    ensures LastSucceeded(attempts + [a]) <==> a.category.None?
    ensures a.category.Some? && last == a.category ==> UsedUp(attempts + [a], limit)
    ensures Failure(a) && last != a.category ==> MayRetry(attempts + [a], number + 1, a.category, limit)
  {
  }

  lemma ReturnedSound(l: Leg, call: Call, result: Option<T.CommandResult>, env: Env)
    requires LegSound(l, call.maxAttempts) && !l.flight.Landed? && l.request.plan.Some?
    ensures LegSound(Returned(l, call, result, env), call.maxAttempts)
  {
    hide WellRetried, MayRetry, LastSucceeded, NextAttempt, VerificationCommand, Evaluate;
    if l.flight.Attempting? && result.Some? {
      var status := result.value.status;
      var category := if status == T.COMPLETED then None else Some(status);
      var attempt := Attempt(l.flight.number, result.value.exitCode, category);
      RecordedSound(l.request.attempts, l.flight.number, l.flight.last, call.maxAttempts, attempt);
      var recorded := l.(flight := Landed, entry := None,
                         request := l.request.(attempts := l.request.attempts + [attempt]));
      if status != T.COMPLETED && status != T.CANCELLED {
        if l.flight.last == category {
          GivenUpSound(recorded, call.maxAttempts);
        } else {
          NextAttemptSound(recorded, call, l.flight.number + 1, category, env);
        }
      }
    }
  }

  lemma AskedSound(tool: Option<ToolTrust.Tool>, a: Asking, limit: int)
    ensures LegSound(Leg(Asked(tool, a), None, Landed, None), limit)
  {
    hide ToolTrust.CheckReadiness, Preferred, Preference;
  }

  // --- All runs ----------------------------------------------------------------------------------------------------

  predicate Sound(s: Installer) {
    && (forall id :: id in s.legs ==> LegSound(s.legs[id], s.maxAttempts))
    && (forall id :: id in s.calls ==> s.calls[id].maxAttempts == s.maxAttempts)
    && (forall id :: id in s.legs && !s.legs[id].flight.Landed? ==> id in s.calls)
  }

  lemma DecisionsSound(l: Leg, limit: int, approver: string, reason: string)
    requires LegSound(l, limit)
    ensures l.request.state == WAITING_FOR_APPROVAL ==> LegSound(l.(request := Approved(l.request, approver)), limit)
    ensures !IsTerminal(l.request.state) ==> LegSound(l.(request := RejectedBy(l.request, reason)), limit)
    ensures LegSound(l.(request := CancelledBy(l.request, l.entry.Some?)), limit)
  {
    hide WellRetried, MayRetry, LastSucceeded;
  }

  lemma StepSound(s: Installer, e: Event)
    requires Sound(s)
    ensures Sound(Step(s, e))
  {
    hide Begun, Returned, Asked, LegSound, Approved, RejectedBy, CancelledBy, T.Executed, ToolTrust.Apply, Cleared,
         Diagnosed;
    match e
    case ChangeTools(_) =>
    case Ask(a) => AskedSound(ToolTrust.Lookup(s.tools, a.toolId), a, s.maxAttempts);
    case Approve(id, approver) => if id in s.legs { DecisionsSound(s.legs[id], s.maxAttempts, approver, ""); }
    case Reject(id, reason) => if id in s.legs { DecisionsSound(s.legs[id], s.maxAttempts, "", reason); }
    case Cancel(id) => if id in s.legs { DecisionsSound(s.legs[id], s.maxAttempts, "", ""); }
    case Start(id, session, target, env) =>
      if id in s.legs && s.legs[id].request.state == PREPARING {
        var tool := ToolTrust.Lookup(s.tools, s.legs[id].request.toolId);
        BegunSound(s.legs[id], tool, Started(s, id, session, target, env).calls[id], env);
      }
    case Return(id, world, env) =>
      if id in s.legs && id in s.calls && !s.legs[id].flight.Landed? && s.legs[id].request.plan.Some? {
        ReturnedSound(s.legs[id], s.calls[id], T.Executed(s.engine, s.legs[id].flight.command, world).result, env);
      }
    case _ =>
  }

  lemma {:induction false} RunSound(s: Installer, events: seq<Event>)
    requires Sound(s)
    ensures Sound(Run(s, events))
    decreases |events|
  {
    hide Step, Sound;
    if events != [] {
      StepSound(s, events[0]);
      RunSound(Step(s, events[0]), events[1..]);
    }
  }

  /** What every request of every run satisfies, whatever is interleaved with its attempts. */
  lemma EveryRequest(s: Installer, events: seq<Event>, id: Uuid)
    requires s == Initial(s.maxAttempts, s.interpreter, s.engine.sessions) && id in Run(s, events).legs
    ensures var r := Run(s, events).legs[id].request;
            && WellRetried(r.attempts, s.maxAttempts)
            && (r.attempts != [] || r.state == INSTALLED ==> Cleared(r))
            && (r.state == FAILED ==> !LastSucceeded(r.attempts) && UsedUp(r.attempts, s.maxAttempts))
            && (r.state == INSTALLED ==>
                  LastSucceeded(r.attempts) && r.verification.Some? && r.verification.value.verified)
  {
    hide Step, WellRetried, MayRetry;
    RunSound(s, events);
    SettingsFixed(s, events);
  }

  lemma {:induction false} SettingsFixed(s: Installer, events: seq<Event>)
    ensures Run(s, events).maxAttempts == s.maxAttempts && Run(s, events).interpreter == s.interpreter
    decreases |events|
  {
    hide Begun, Returned, Asked, T.Executed, ToolTrust.Apply, Diagnosed;
    if events != [] {
      SettingsFixed(Step(s, events[0]), events[1..]);
    }
  }

  // --- Final states ------------------------------------------------------------------------------------------------

  lemma FinalStep(s: Installer, e: Event, id: Uuid)
    requires id in s.legs && IsTerminal(s.legs[id].request.state) && s.legs[id].flight.Landed?
    ensures id in Step(s, e).legs && Step(s, e).legs[id] == s.legs[id]
  {
    hide Begun, Returned, Asked, T.Executed, ToolTrust.Apply, Diagnosed;
  }

  /** A request that is over, with no call waiting for the engine on its behalf, is never changed again. */
  lemma {:induction false} FinalForever(s: Installer, events: seq<Event>, id: Uuid)
    requires id in s.legs && IsTerminal(s.legs[id].request.state) && s.legs[id].flight.Landed?
    ensures id in Run(s, events).legs && Run(s, events).legs[id] == s.legs[id]
    decreases |events|
  {
    hide Step;
    if events != [] {
      FinalStep(s, events[0], id);
      FinalForever(Step(s, events[0]), events[1..], id);
    }
  }

  /** `reject` at any point of a start call, and `cancel` during its verification, end the request while the call goes
      on. */
  predicate Overtakes(s: Installer, e: Event) {
    (e.Reject? || e.Cancel?) && e.id in s.legs
    && (if e.Reject? then !s.legs[e.id].flight.Landed? else s.legs[e.id].flight.Confirming?)
  }

  predicate Orderly(s: Installer, events: seq<Event>)
    decreases |events|
  {
    events == [] || (!Overtakes(s, events[0]) && Orderly(Step(s, events[0]), events[1..]))
  }

  predicate Settled(s: Installer) {
    forall id :: id in s.legs && IsTerminal(s.legs[id].request.state) ==> s.legs[id].flight.Landed?
  }

  lemma LegSettled(l: Leg, tool: Option<ToolTrust.Tool>, call: Call, result: Option<T.CommandResult>, env: Env)
    requires LegSound(l, call.maxAttempts) && (IsTerminal(l.request.state) ==> l.flight.Landed?)
    ensures l.request.state == PREPARING ==>
              var b := Begun(l, tool, call, env); IsTerminal(b.request.state) ==> b.flight.Landed?
    ensures !l.flight.Landed? && l.request.plan.Some? ==>
              var b := Returned(l, call, result, env); IsTerminal(b.request.state) ==> b.flight.Landed?
  {
    hide InstallCommand, VerificationCommand, Evaluate, Evaluated, WellRetried, MayRetry;
  }

  lemma StepSettled(s: Installer, e: Event)
    requires Sound(s) && Settled(s) && !Overtakes(s, e)
    ensures Settled(Step(s, e))
  {
    hide Asked, Begun, Returned, T.Executed, ToolTrust.Apply, RequestSound, Diagnosed;
    if e.Start? && e.id in s.legs && s.legs[e.id].request.state == PREPARING {
      var tool := ToolTrust.Lookup(s.tools, s.legs[e.id].request.toolId);
      LegSettled(s.legs[e.id], tool, Started(s, e.id, e.session, e.target, e.env).calls[e.id], None, e.env);
    }
    if e.Return? && e.id in s.legs && e.id in s.calls && !s.legs[e.id].flight.Landed?
        && s.legs[e.id].request.plan.Some? {
      var result := T.Executed(s.engine, s.legs[e.id].flight.command, e.world).result;
      LegSettled(s.legs[e.id], None, s.calls[e.id], result, e.env);
    }
  }

  /** As long as nobody overtakes a call, the four final states are final: no request leaves them, and no call outlives
      them. */
  lemma {:induction false} TerminalStatesAbsorb(s: Installer, events: seq<Event>)
    requires Sound(s) && Settled(s) && Orderly(s, events)
    ensures Settled(Run(s, events))
    ensures forall id :: id in s.legs && IsTerminal(s.legs[id].request.state) ==>
              id in Run(s, events).legs && Run(s, events).legs[id] == s.legs[id]
    decreases |events|
  {
    hide Step, Sound, Overtakes;
    forall id | id in s.legs && IsTerminal(s.legs[id].request.state)
      ensures id in Run(s, events).legs && Run(s, events).legs[id] == s.legs[id]
    {
      FinalForever(s, events, id);
    }
    if events != [] {
      StepSound(s, events[0]);
      StepSettled(s, events[0]);
      TerminalStatesAbsorb(Step(s, events[0]), events[1..]);
    }
  }

  const FINE := T.World(false, false, T.Ends(false, true, Some(0), Some("1"), None))

  lemma FineCommandRuns(e: T.Engine, c: T.CommandRequest)
    requires T.Active(e.sessions, c.session) && T.ValidArgv(c.argv) && Approves(c.authorization, c.approvedByUser)
    ensures var x := T.Executed(e, c, FINE);
            && x.result == Some(T.CommandResult(T.COMPLETED, Some(0), Some("1"), None, None))
            && T.Active(x.after.sessions, c.session)
  {
    hide T.ValidArgv, Approves;
  }

  lemma BegunWaits(l: Leg, tool: ToolTrust.Tool, call: Call, env: Env)
    requires LegSound(l, call.maxAttempts) && l.request.state == PREPARING && 0 < call.maxAttempts
    requires tool.trust == ToolTrust.APPROVED && IsAuthorized(call.target, env.now)
    requires var plan := l.request.plan.value;
             InstallCommand(call.interpreter, plan.manager, plan.packageName, plan.version).Some?
    ensures var b := Begun(l, Some(tool), call, env);
            && b.flight.Attempting? && b.request == l.request.(session := Some(call.session), state := INSTALLING)
            && b.flight.command.session == call.session
            && Approves(b.flight.command.authorization, b.flight.command.approvedByUser)
            && var plan := l.request.plan.value;
               Some(b.flight.command.argv) ==
                   InstallCommand(call.interpreter, plan.manager, plan.packageName, plan.version)
  {
    hide InstallCommand, WellRetried;
    LowIsAllowed(ActionRequest(l.request.id, INSTALL_ACTION, l.request.plan.value.riskLevel, call.target), env.now);
    TokenMeans(ActionRequest(l.request.id, INSTALL_ACTION, l.request.plan.value.riskLevel, call.target), env.now, true);
  }

  lemma CompletedIsConfirmed(l: Leg, call: Call, completed: T.CommandResult, env: Env)
    requires l.flight.Attempting? && l.request.plan.Some? && completed.status == T.COMPLETED
    requires IsAuthorized(call.target, env.now)
    requires var plan := l.request.plan.value;
             VerificationCommand(call.interpreter, plan.manager, plan.packageName, call.entrypoint).Some?
    ensures var b := Returned(l, call, Some(completed), env);
            && b.flight.Confirming? && b.request.state == VERIFYING
            && b.request.plan == l.request.plan && b.request.rejectionReason == l.request.rejectionReason
            && b.flight.command.session == call.session
            && Approves(b.flight.command.authorization, b.flight.command.approvedByUser)
            && var plan := l.request.plan.value;
               Some(b.flight.command.argv) ==
               VerificationCommand(call.interpreter, plan.manager, plan.packageName, call.entrypoint)
  {
    hide VerificationCommand;
    TokenMeans(ActionRequest(l.request.id, VERIFY_ACTION, LOW, call.target), env.now, false);
    LowIsAllowed(ActionRequest(l.request.id, VERIFY_ACTION, LOW, call.target), env.now);
  }

  /** What it takes for a start to succeed: a trusted tool, an authorised target, commands the templates accept and a
      session in use. */
  predicate Startable(s: Installer, id: Uuid, session: Uuid, target: TargetScope, now: Time) {
    && id in s.legs && s.legs[id].request.state == PREPARING && 0 < s.maxAttempts
    && s.legs[id].request.plan.Some?
    && IsAuthorized(target, now) && T.Active(s.engine.sessions, session)
    && var tool := ToolTrust.Lookup(s.tools, s.legs[id].request.toolId);
       && tool.Some? && tool.value.trust == ToolTrust.APPROVED
       && var plan := s.legs[id].request.plan.value;
          var install := InstallCommand(s.interpreter, plan.manager, plan.packageName, plan.version);
          var confirm := VerificationCommand(s.interpreter, plan.manager, plan.packageName, tool.value.card.entrypoint);
          install.Some? && confirm.Some? && T.ValidArgv(install.value) && T.ValidArgv(confirm.value)
  }

  /** A call waits for an install command that will run, and its verification can be sent. */
  predicate AnswerableLeg(l: Leg, call: Call, sessions: map<Uuid, T.SessionStatus>, env: Env) {
    && l.flight.Attempting? && l.request.plan.Some?
    && var plan := l.request.plan.value;
       var confirm := VerificationCommand(call.interpreter, plan.manager, plan.packageName, call.entrypoint);
       && l.flight.command.session == call.session && T.Active(sessions, call.session)
       && T.ValidArgv(l.flight.command.argv) && confirm.Some? && T.ValidArgv(confirm.value)
       && Approves(l.flight.command.authorization, l.flight.command.approvedByUser)
       && IsAuthorized(call.target, env.now)
  }

  predicate Answerable(s: Installer, id: Uuid, env: Env) {
    id in s.legs && id in s.calls && AnswerableLeg(s.legs[id], s.calls[id], s.engine.sessions, env)
  }

  lemma BegunIsAnswerable(s: Installer, id: Uuid, call: Call, env: Env)
    requires Startable(s, id, call.session, call.target, env.now) && LegSound(s.legs[id], s.maxAttempts)
    requires var tool := ToolTrust.Lookup(s.tools, s.legs[id].request.toolId).value;
             call == Call(call.session, call.target, tool.card.entrypoint, s.maxAttempts, s.interpreter)
    ensures var begun := Begun(s.legs[id], ToolTrust.Lookup(s.tools, s.legs[id].request.toolId), call, env);
            AnswerableLeg(begun, call, s.engine.sessions, env) && begun.request.state == INSTALLING
  {
    hide InstallCommand, VerificationCommand, LegSound, T.ValidArgv, Begun, Approves, IsAuthorized, T.Active;
    BegunWaits(s.legs[id], ToolTrust.Lookup(s.tools, s.legs[id].request.toolId).value, call, env);
  }

  lemma StartIsAnswerable(s: Installer, id: Uuid, session: Uuid, target: TargetScope, env: Env)
    requires Startable(s, id, session, target, env.now) && LegSound(s.legs[id], s.maxAttempts)
    ensures var s1 := Step(s, Start(id, session, target, env));
            Answerable(s1, id, env) && s1.legs[id].request.state == INSTALLING
  {
    hide AnswerableLeg, LegSound, Begun, InstallCommand, VerificationCommand, T.Active, IsAuthorized, T.ValidArgv;
    var tool := ToolTrust.Lookup(s.tools, s.legs[id].request.toolId).value;
    BegunIsAnswerable(s, id, Call(session, target, tool.card.entrypoint, s.maxAttempts, s.interpreter), env);
  }

  lemma RejectedIsAnswerable(s: Installer, id: Uuid, env: Env, reason: string)
    requires Answerable(s, id, env) && s.legs[id].request.state == INSTALLING
    ensures var s2 := Step(s, Reject(id, reason));
            Answerable(s2, id, env) && s2.legs[id].request.rejectionReason == Some(reason)
  {
    hide VerificationCommand, T.ValidArgv, Approves, IsAuthorized, T.Active;
  }

  /** It does happen: any request that can be started at all, if its commands run well, ends INSTALLED although somebody
      rejected it meanwhile, and with the rejection on record. */
  lemma RejectedYetInstalled(s: Installer, id: Uuid, session: Uuid, target: TargetScope, env: Env, reason: string)
    requires Sound(s) && Startable(s, id, session, target, env.now)
    ensures var events := [Start(id, session, target, env), Reject(id, reason), Return(id, FINE, env),
                           Return(id, FINE, env)];
            var end := Run(s, events);
            && id in end.legs
            && end.legs[id].request.state == INSTALLED
            && end.legs[id].request.rejectionReason == Some(reason)
  {
    assert id in s.legs && LegSound(s.legs[id], s.maxAttempts);
    hide Step, LegSound, Sound, Startable, Run;
    RunFour(s, [Start(id, session, target, env), Reject(id, reason), Return(id, FINE, env), Return(id, FINE, env)]);
    StartIsAnswerable(s, id, session, target, env);
    var s1 := Step(s, Start(id, session, target, env));
    RejectedIsAnswerable(s1, id, env, reason);
    AnswersInstall(Step(s1, Reject(id, reason)), id, env);
  }

  lemma AnswersInstall(s: Installer, id: Uuid, env: Env)
    requires Answerable(s, id, env)
    ensures var end := Step(Step(s, Return(id, FINE, env)), Return(id, FINE, env));
            && id in end.legs && end.legs[id].request.state == INSTALLED
            && end.legs[id].request.rejectionReason == s.legs[id].request.rejectionReason
  {
    hide VerificationCommand, T.ValidArgv, T.Executed, Returned, Approves, IsAuthorized, T.Active;
    var l, call := s.legs[id], s.calls[id];
    FineCommandRuns(s.engine, l.flight.command);
    var x := T.Executed(s.engine, l.flight.command, FINE);
    CompletedIsConfirmed(l, call, x.result.value, env);
    var s1 := Step(s, Return(id, FINE, env));
    var l1 := s1.legs[id];
    assert l1 == Returned(l, call, x.result, env) && s1.engine == x.after && s1.calls == s.calls;
    FineCommandRuns(s1.engine, l1.flight.command);
    Installs(l1, call, env);
  }

  lemma Installs(l: Leg, call: Call, env: Env)
    requires l.flight.Confirming? && l.request.plan.Some?
    ensures var b := Returned(l, call, Some(T.CommandResult(T.COMPLETED, Some(0), Some("1"), None, None)), env);
            b.request.state == INSTALLED && b.request.rejectionReason == l.request.rejectionReason
  {
    assert Text.Strip("1") == "1";
  }

  lemma RunFour(s: Installer, events: seq<Event>)
    requires |events| == 4
    ensures Run(s, events) == Step(Step(Step(Step(s, events[0]), events[1]), events[2]), events[3])
  {
    hide Step;
    var s1 := Step(s, events[0]);
    var s2 := Step(s1, events[1]);
    var s3 := Step(s2, events[2]);
    var s4 := Step(s3, events[3]);
    assert events[1..][1..] == events[2..] && events[2..][1..] == events[3..] && events[3..][1..] == [];
    assert Run(s, events) == Run(s1, events[1..]) == Run(s2, events[2..]) == Run(s3, events[3..]) == Run(s4, []) == s4;
  }

  // --- A call nobody interferes with -------------------------------------------------------------------------------

  /** The answers the engine gives to the call that stands at `l`, one after the other. */
  function Answers(id: Uuid, l: Leg, call: Call, engine: T.Engine, envs: nat -> Env, k: nat): seq<Event>
    requires l.request.plan.Some? || l.flight.Landed?
    decreases Ahead(l, call)
  {
    if l.flight.Landed? then []
    else
      var x := T.Executed(engine, l.flight.command, envs(k).world);
      [Return(id, envs(k).world, envs(k + 1))]
      + Answers(id, Returned(l, call, x.result, envs(k + 1)), call, x.after, envs, k + 1)
  }

  /** The whole-call view is one of the runs: what `Flown` computes is where a run of nothing but those answers ends. */
  lemma {:induction false} WholeCallIsARun(s: Installer, id: Uuid, envs: nat -> Env, k: nat)
    requires id in s.legs && id in s.calls && (s.legs[id].request.plan.Some? || s.legs[id].flight.Landed?)
    ensures var end := Run(s, Answers(id, s.legs[id], s.calls[id], s.engine, envs, k));
            var journey := Flown(s.legs[id], s.calls[id], s.engine, envs, k);
            end == s.(legs := s.legs[id := journey.leg], engine := journey.engine)
    decreases Ahead(s.legs[id], s.calls[id])
  {
    hide Returned, T.Executed;
    var l, call := s.legs[id], s.calls[id];
    if l.flight.Landed? {
      assert s.legs[id := l] == s.legs;
    } else {
      var x := T.Executed(s.engine, l.flight.command, envs(k).world);
      var next := Step(s, Return(id, envs(k).world, envs(k + 1)));
      assert next == s.(legs := s.legs[id := Returned(l, call, x.result, envs(k + 1))], engine := x.after);
      WholeCallIsARun(next, id, envs, k + 1);
      var rest := Answers(id, next.legs[id], call, x.after, envs, k + 1);
      var all := Answers(id, l, call, s.engine, envs, k);
      assert all == [Return(id, envs(k).world, envs(k + 1))] + rest && all[1..] == rest;
      var journey := Flown(l, call, s.engine, envs, k);
      assert s.legs[id := next.legs[id]][id := journey.leg] == s.legs[id := journey.leg];
    }
  }
}
