/** What the installer's decisions come to, in terms of the tool's card, the engine's answers and the process's end. */
module InstallationLaws {
  import opened Prelude
  import opened Policy
  import opened CommandTemplates
  import opened Installation
  import opened Text
  import T = Terminal
  import ToolTrust
  import Reading = CommandReading

  // --- Asking ------------------------------------------------------------------------------------------------------

  /** Which managers a platform has, in order of preference. */
  lemma PreferenceTable()
    ensures Preference("WINDOWS") == [WINGET, PIP]
    ensures Preference("LINUX") == [APT, DNF, PACMAN, PIP]
    ensures Preference("MACOS") == [BREW, PIP]
    ensures Preference("ANDROID_TERMUX") == [TERMUX_PKG, PIP]
    ensures forall p :: p !in {"WINDOWS", "LINUX", "MACOS", "ANDROID_TERMUX"} ==> Preference(p) == [PIP]
  {
    assert "WINDOWS"[0] == 'W' && "LINUX"[0] == 'L' && "MACOS"[0] == 'M' && "ANDROID_TERMUX"[0] == 'A';
  }

  /** The tool is there, from an official source, for this platform and approved; the target is authorised at both
      readings of the clock; and a manager for the platform is at hand. */
  predicate MayInstall(tool: Option<ToolTrust.Tool>, a: Asking) {
    && tool.Some? && tool.value.trust == ToolTrust.APPROVED
    && tool.value.card.sourceType in
       {ToolTrust.OFFICIAL_WEBSITE, ToolTrust.OFFICIAL_GITHUB, ToolTrust.OFFICIAL_PACKAGE_REGISTRY}
    && a.platform in tool.value.card.platforms
    && IsAuthorized(a.target, a.policyNow) && IsAuthorized(a.target, a.scopeNow)
    && exists m :: m in Preference(a.platform) && m in a.available
  }

  /** A new request is blocked unless it may be installed; else it waits for approval exactly if the tool's risk is not
      LOW, and its plan is about the tool's own name and version. */
  lemma AskedMeans(tool: Option<ToolTrust.Tool>, a: Asking)
    ensures var r := Asked(tool, a);
            && r.id == a.id && r.toolId == a.toolId && r.approvedBy == None && r.attempts == []
            && (r.state == BLOCKED <==> !MayInstall(tool, a))
            && (MayInstall(tool, a) ==>
                  && r.plan.Some?
                  && var card := tool.value.card;
                     && r.plan.value.packageName == card.name && r.plan.value.version == card.version
                     && r.plan.value.riskLevel == card.riskLevel && r.plan.value.platform == a.platform
                     && FirstAvailable(Preference(a.platform), a.available, r.plan.value.manager)
                     && r.state == if card.riskLevel == LOW then PREPARING else WAITING_FOR_APPROVAL)
  {
    hide Preference, Preferred, FirstAvailable, ToolTrust.CheckReadiness, ToolTrust.Ready, IsAuthorized;
    if tool.Some? {
      ToolTrust.ReadyUnfolds(tool.value, a.target, a.platform, a.policyNow, a.scopeNow);
      PlanMeans(tool.value.card, a.platform, a.available);
    } else {
      NoTool(a);
    }
  }

  lemma NoTool(a: Asking)
    ensures !ToolTrust.Ready(ToolTrust.CheckReadiness(None, a.target, a.platform, a.policyNow, a.scopeNow))
  {
    var report := ToolTrust.CheckReadiness(None, a.target, a.platform, a.policyNow, a.scopeNow);
    assert report.tool == None;
  }

  // --- Starting and trying again -----------------------------------------------------------------------------------

  /** A further attempt can be sent: one is left, the command templates know manager, name and version, and the target
      is authorised at that moment. */
  predicate Sendable(plan: Plan, call: Call, number: int, now: Time) {
    && number <= call.maxAttempts
    && plan.manager != UNKNOWN && Reading.Accepted(plan.packageName, plan.version)
    && IsAuthorized(call.target, now)
  }

  lemma NextMeans(l: Leg, call: Call, number: int, last: Option<T.CommandStatus>, env: Env)
    requires l.request.plan.Some? && l.flight.Landed?
    ensures var plan, m := l.request.plan.value, NextAttempt(l, call, number, last, env);
            && (!m.flight.Landed? <==> Sendable(plan, call, number, env.now))
            && (!m.flight.Landed? ==>
                  && m.flight.Attempting? && m.flight.number == number && m.flight.last == last
                  && m.flight.command.id == env.command && m.entry == Some(env.command) && m.request == l.request)
            && (m.flight.Landed? ==>
                  if number > call.maxAttempts then m.request.state == FAILED
                  else if plan.manager == UNKNOWN || !Reading.Accepted(plan.packageName, plan.version)
                  then m.request == l.request && m.error == Some(InvalidCommand)
                  else m.request.state == BLOCKED)
  {
    hide InstallCommand, Reading.Read, Reading.Accepted, IsAuthorized;
    var plan := l.request.plan.value;
    Reading.InstallRoundTrip(call.interpreter, plan.manager, plan.packageName, plan.version);
    var asked := ActionRequest(l.request.id, INSTALL_ACTION, plan.riskLevel, call.target);
    hide Evaluate;
    TokenMeans(asked, env.now, true);
    DeniedExactly(asked, env.now);
  }

  /** Reviewed kinds of action are denied exactly for targets that are not authorised. */
  lemma DeniedExactly(r: ActionRequest, now: Time)
    requires r.actionType in {"diagnostics.echo_test", "tool_install.package_manager_install",
                              "tool_install.package_manager_verify"}
    ensures Evaluate(r, now).verdict == DENY <==>
        !(r.target.isActive && (r.target.expiresAt.Some? ==> now < r.target.expiresAt.value))
    ensures Evaluate(r, now).verdict == ALLOW <==> Evaluate(r, now).verdict != DENY && r.riskTier == LOW
  {
  }

  /** `start_installation` sends a first attempt exactly if the request is prepared and has a plan, the tool is still
      there and APPROVED, and the attempt can be sent; otherwise the caller learns which of these failed first, and
      nothing is sent. */
  lemma StartMeans(l: Leg, tool: Option<ToolTrust.Tool>, call: Call, env: Env)
    requires l.flight.Landed?
    ensures var m := Begun(l, tool, call, env);
            && (!m.flight.Landed? <==>
                  && l.request.state == PREPARING && l.request.plan.Some?
                  && tool.Some? && tool.value.trust == ToolTrust.APPROVED
                  && Sendable(l.request.plan.value, call, 1, env.now))
            && (l.request.state == WAITING_FOR_APPROVAL ==> m == l.(error := Some(ApprovalRequired)))
            && (l.request.state !in {WAITING_FOR_APPROVAL, PREPARING} ==> m == l.(error := Some(InvalidTransition)))
            && (l.request.state == PREPARING && l.request.plan.Some? && tool.None? ==>
                  m.error == Some(ToolNotFound) && m.request.state == INSTALLING)
            && (l.request.state == PREPARING && l.request.plan.Some? && tool.Some?
                && tool.value.trust != ToolTrust.APPROVED ==>
                  m.error == Some(ToolNotApproved) && m.request.state == INSTALLING)
  {
    hide NextAttempt, Sendable;
    if l.request.plan.Some? {
      NextMeans(l.(request := l.request.(session := Some(call.session), state := INSTALLING)), call, 1, None, env);
    }
  }

  /** After an attempt that failed, another is sent exactly if it failed differently from the one before and can be
      sent; after two alike, or when none is left, the request is FAILED. */
  lemma RetryMeans(l: Leg, call: Call, result: T.CommandResult, env: Env)
    requires l.flight.Attempting? && l.request.plan.Some? && result.status !in {T.COMPLETED, T.CommandStatus.CANCELLED}
    ensures var m := Returned(l, call, Some(result), env);
            && (!m.flight.Landed? <==>
                  && l.flight.last != Some(result.status)
                  && Sendable(l.request.plan.value, call, l.flight.number + 1, env.now))
            && (l.flight.last == Some(result.status) || l.flight.number >= call.maxAttempts ==>
                m.request.state == FAILED)
  {
    hide NextAttempt, Sendable;
    var attempt := Attempt(l.flight.number, result.exitCode, Some(result.status));
    var recorded := l.(flight := Landed, entry := None,
                       request := l.request.(attempts := l.request.attempts + [attempt]));
    NextMeans(recorded, call, l.flight.number + 1, Some(result.status), env);
    assert l.flight.number >= call.maxAttempts ==>
        !Sendable(l.request.plan.value, call, l.flight.number + 1, env.now) by {
      NotAfterLast(l.request.plan.value, call, l.flight.number + 1, env.now);
    }
  }

  lemma NotAfterLast(plan: Plan, call: Call, number: int, now: Time)
    ensures number > call.maxAttempts ==> !Sendable(plan, call, number, now)
  {
  }

  // --- Attempts and confirmations ----------------------------------------------------------------------------------

  /** An attempt is recorded with its process's own exit code, and with category TIMEOUT exactly if the process timed
      out, none exactly if it succeeded in time, FAILED otherwise, or CANCELLED if it was cancelled. */
  lemma AttemptMeans(l: Leg, call: Call, engine: T.Engine, world: T.World, env: Env)
    requires l.flight.Attempting? && l.request.plan.Some? && T.Launches(engine, l.flight.command, world)
    requires !world.outcome.Raises?
    ensures var r := Returned(l, call, T.Executed(engine, l.flight.command, world).result, env).request;
            && |r.attempts| == |l.request.attempts| + 1 && r.attempts[..|l.request.attempts|] == l.request.attempts
            && var a := r.attempts[|l.request.attempts|];
               && a.number == l.flight.number
               && (world.outcome.Ends? ==>
                     && a.exitCode == world.outcome.exitCode
                     && (a.category == Some(T.TIMEOUT) <==> world.outcome.timedOut)
                     && (a.category == None <==> !world.outcome.timedOut && world.outcome.succeeded)
                     && (a.category == Some(T.CommandStatus.FAILED) <==>
                           !world.outcome.timedOut && !world.outcome.succeeded))
               && (world.outcome.IsCancelled? ==> a.category == Some(T.CommandStatus.CANCELLED))
  {
    hide T.Executed, T.Launches, InstallCommand, VerificationCommand, Evaluate;
    T.StatusMeans(engine, l.flight.command, world);
  }

  /** A confirmation needs a command that completed with exit code zero and printed something that is not blank. */
  lemma ConfirmedExactly(result: T.CommandResult)
    ensures Evaluated(result).verified <==>
            && result.status == T.COMPLETED && result.exitCode == Some(0)
            && result.stdout.Some? && exists i :: 0 <= i < |result.stdout.value| && !IsBlank(result.stdout.value[i])
    ensures Evaluated(result).verified ==>
              exists l, r :: AllBlank(l) && AllBlank(r)
                             && result.stdout == Some(l + Evaluated(result).versionOutput.value + r)
  {
    hide IsBlank, Strip;
    var text := if result.stdout.Some? then result.stdout.value else "";
    VisibleExactly(text);
    var l, r := StripLeaves(text);
  }

  lemma VisibleExactly(text: string)
    ensures Strip(text) == "" <==> AllBlank(text)
  {
    hide IsBlank, Strip;
    var l, r := StripLeaves(text);
    if AllBlank(text) {
      StripMeans(text, "", "");
      assert text + "" + "" == text;
    }
    if Strip(text) == "" {
      assert text == l + r;
    }
  }

  /** What becomes of a request when its verification command has run: INSTALLED exactly if the command completed in
      time with exit code zero and visible output. */
  lemma ConfirmationMeans(l: Leg, call: Call, engine: T.Engine, world: T.World, env: Env)
    requires l.flight.Confirming? && l.request.plan.Some? && T.Launches(engine, l.flight.command, world)
    requires world.outcome.Ends?
    ensures var m := Returned(l, call, T.Executed(engine, l.flight.command, world).result, env);
            && m.flight.Landed?
            && m.request.state == (if && !world.outcome.timedOut && world.outcome.succeeded
                                      && world.outcome.exitCode == Some(0) && world.outcome.stdout.Some?
                                      && !AllBlank(world.outcome.stdout.value)
                                   then INSTALLED else ROLLBACK_REQUIRED)
  {
    hide T.Executed, T.Launches, Evaluated, IsBlank;
    T.StatusMeans(engine, l.flight.command, world);
    ConfirmedExactly(T.Executed(engine, l.flight.command, world).result.value);
  }
}
