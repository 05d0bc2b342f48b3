/** Safety of the whole system, over all its runs. */
module AgentSystemSafety {
  import opened Prelude
  import opened Policy
  import opened AgentModels
  import opened AgentTask
  import opened AgentControl
  import opened AgentSafety
  import opened AgentApprovals
  import opened AgentSystem
  import T = Terminal
  import ToolTrust
  import C = CommandTemplates
  import I = Installation
  import Runs = InstallationRuns
  import Launches = InstallationLaunches

  // --- Who approved an installation request ------------------------------------------------------------------------

  /** A request that was there keeps its approver, its plan included; a new one has none. */
  predicate ApproverKept(before: map<Uuid, I.Leg>, after: map<Uuid, I.Leg>, id: Uuid) {
    id in after ==>
      if id in before
      then after[id].request.approvedBy == before[id].request.approvedBy
          && after[id].request.plan == before[id].request.plan
      else after[id].request.approvedBy.None?
  }

  lemma LegKeepsApprover(l: I.Leg, tool: Option<ToolTrust.Tool>, call: I.Call, result: Option<T.CommandResult>,
                         env: I.Env)
    ensures var r := I.Begun(l, tool, call, env).request;
            r.approvedBy == l.request.approvedBy && r.plan == l.request.plan
    ensures !l.flight.Landed? && l.request.plan.Some? ==>
              var r := I.Returned(l, call, result, env).request;
              r.approvedBy == l.request.approvedBy && r.plan == l.request.plan
  {
    hide C.InstallCommand, C.VerificationCommand, Evaluate, I.Evaluated;
  }

  lemma StepKeepsApprover(s: Runs.Installer, e: Runs.Event, id: Uuid)
    requires !(e.Approve? && e.id == id)
    ensures ApproverKept(s.legs, Runs.Step(s, e).legs, id)
  {
    hide I.Begun, I.Returned, T.Executed, ToolTrust.Apply, ToolTrust.CheckReadiness, I.BuildPlan, Runs.Diagnosed;
    if e.Start? && e.id in s.legs && s.legs[e.id].request.state == I.PREPARING {
      var tool := ToolTrust.Lookup(s.tools, s.legs[e.id].request.toolId);
      LegKeepsApprover(s.legs[e.id], tool, Runs.Started(s, e.id, e.session, e.target, e.env).calls[e.id], None, e.env);
    }
    if e.Return? && e.id in s.legs && e.id in s.calls && !s.legs[e.id].flight.Landed?
        && s.legs[e.id].request.plan.Some? {
      var result := T.Executed(s.engine, s.legs[e.id].flight.command, e.world).result;
      LegKeepsApprover(s.legs[e.id], None, s.calls[e.id], result, e.env);
    }
  }

  predicate NoApprovals(events: seq<Runs.Event>, id: Uuid) {
    forall e :: e in events && e.Approve? ==> e.id != id
  }

  lemma {:induction false} RunKeepsApprover(s: Runs.Installer, events: seq<Runs.Event>, id: Uuid)
    requires NoApprovals(events, id)
    ensures ApproverKept(s.legs, Runs.Run(s, events).legs, id)
    decreases |events|
  {
    hide Runs.Step;
    if events != [] {
      assert events[0] in events;
      StepKeepsApprover(s, events[0], id);
      if id in s.legs {
        Launches.StepGrows(s, events[0]);
      }
      assert forall e :: e in events[1..] ==> e in events;
      RunKeepsApprover(Runs.Step(s, events[0]), events[1..], id);
    }
  }

  lemma AnswersAreReturns(id: Uuid, l: I.Leg, call: I.Call, engine: T.Engine, envs: nat -> I.Env, k: nat)
    requires l.request.plan.Some? || l.flight.Landed?
    ensures forall e :: e in Runs.Answers(id, l, call, engine, envs, k) ==> e.Return?
    decreases I.Ahead(l, call)
  {
    hide I.Returned, T.Executed;
    if !l.flight.Landed? {
      var x := T.Executed(engine, l.flight.command, envs(k).world);
      AnswersAreReturns(id, I.Returned(l, call, x.result, envs(k + 1)), call, x.after, envs, k + 1);
    }
  }

  // --- The installer's part of a run -------------------------------------------------------------------------------

  lemma InstallIsARun(s: Runs.Installer, tool: Uuid, x: StepInput)
    requires x.scope.Some?
    ensures Install(s, tool, x).after == Runs.Run(s, InstallEvents(s, tool, x))
  {
    hide Runs.Step, AnswerEvents, StartEvents, ApproveEvents, RequestEvents, StateText;
    var id := x.install.request;
    var e1 := RequestEvents(tool, x);
    var s1 := Runs.Run(s, e1);
    if id !in s.legs && id in s1.legs && s1.legs[id].request.state != I.BLOCKED {
      var e2 := ApproveEvents(s1.legs[id].request);
      Runs.RunAppend(s, e1, e2);
      if x.install.session.Some? {
        var s3 := Runs.Run(Runs.Run(s1, e2), StartEvents(x));
        Runs.RunAppend(s, e1 + e2, StartEvents(x));
        Runs.RunAppend(s, e1 + e2 + StartEvents(x), AnswerEvents(s3, x));
      }
    }
  }

  lemma DiagnoseIsARun(s: Runs.Installer, x: StepInput)
    requires x.scope.Some?
    ensures Diagnose(s, x).after == Runs.Run(s, DiagnoseEvents(x))
  {
    hide Runs.Step, Runs.Diagnosed, Evaluate;
    if DiagnoseEvents(x) != [] {
      var events := DiagnoseEvents(x);
      assert events[1..] == [events[1]] && [events[1]][1..] == [];
      assert Runs.Run(s, events) == Runs.Run(Runs.Step(s, events[0]), [events[1]])
          == Runs.Run(Runs.Step(Runs.Step(s, events[0]), events[1]), []);
    }
  }

  lemma RunOne(s: Runs.Installer, e: Runs.Event)
    ensures Runs.Run(s, [e]) == Runs.Step(s, e)
  {
    hide Runs.Step;
    assert [e][1..] == [];
    assert Runs.Run(s, [e]) == Runs.Run(Runs.Step(s, e), []);
  }

  lemma DrivenIsARun(s: System, b: Budget, id: Uuid, x: StepInput)
    requires id in s.tasks
    ensures Driven(s, b, id, x).installer == Runs.Run(s.installer, DrivenEvents(s, b, id, x))
  {
    hide Runs.Step, Apply, Install, Diagnose, InstallEvents, DiagnoseEvents, ReachedAction, AsksInstaller, AsksEngine,
         ToolNamed, Asked;
    var t := s.tasks[id];
    var a := ReachedAction(t, b, Asked(t, s, x, ""));
    if a.Some? {
      var name := if a.value.tool.Some? then a.value.tool.value else "";
      AsksNeedScope(s, t, b, a.value, x, name);
      if AsksInstaller(t, b, a.value, Asked(t, s, x, name)) {
        InstallIsARun(s.installer, ToolNamed(s.installer.tools, name).value, x);
      } else if AsksEngine(a.value, Asked(t, s, x, name)) {
        DiagnoseIsARun(s.installer, x);
      }
    }
  }

  lemma NextIsARun(s: System, b: Budget, e: Event)
    ensures Next(s, b, e).installer == Runs.Run(s.installer, CallsOf(s, b, e))
  {
    hide Runs.Step, Apply, Driven, DrivenEvents;
    match e
    case Serve(call) => RunOne(s.installer, call);
    case AgentStep(id, x) =>
      if id in s.tasks {
        DrivenIsARun(s, b, id, x);
      }
    case _ =>
  }

  lemma AsksNeedScope(s: System, t: Task, b: Budget, a: Action, x: StepInput, name: string)
    ensures var asked := Asked(t, s, x, name);
            && (AsksInstaller(t, b, a, asked) ==>
                x.scope.Some? && ToolNamed(s.installer.tools, name).Some? && a.tool.Some?)
            && (AsksEngine(a, asked) ==> x.scope.Some?)
  {
    hide ToolNamed;
  }

  /** The installer of the whole system lives one of the installer's runs. */
  lemma {:induction false} InstallerIsARun(s: System, b: Budget, events: seq<Event>)
    ensures AgentSystem.Run(s, b, events).installer == Runs.Run(s.installer, Calls(s, b, events))
    decreases |events|
  {
    hide Next, CallsOf, Runs.Step;
    if events != [] {
      var next := Next(s, b, events[0]);
      NextIsARun(s, b, events[0]);
      InstallerIsARun(next, b, events[1..]);
      Runs.RunAppend(s.installer, CallsOf(s, b, events[0]), Calls(next, b, events[1..]));
    }
  }

  // --- An installation on behalf of an agent -----------------------------------------------------------------------

  lemma AskedPackage(tool: ToolTrust.Tool, a: I.Asking)
    ensures var r := I.Asked(Some(tool), a);
            r.id == a.id && r.approvedBy.None? && (r.plan.Some? ==> r.plan.value.packageName == tool.card.name)
  {
    hide ToolTrust.CheckReadiness, I.Preferred, I.Preference;
  }

  /** After the first call the request is there, about the named tool. */
  lemma RequestMade(s: Runs.Installer, tool: Uuid, x: StepInput)
    requires x.scope.Some? && tool in s.tools && x.install.request !in s.legs
    ensures var s1 := Runs.Run(s, RequestEvents(tool, x));
            && x.install.request in s1.legs && s1.legs[x.install.request].request.id == x.install.request
            && var plan := s1.legs[x.install.request].request.plan;
               plan.Some? ==> plan.value.packageName == s.tools[tool].card.name
  {
    hide I.Asked, ToolTrust.Apply, Runs.Diagnosed;
    var ask := RequestEvents(tool, x)[0];
    RunOne(s, ask);
    AskedPackage(s.tools[tool], ask.asking);
  }

  /** An installation approves its own request and no other. */
  lemma InstallApprovesOwn(s: Runs.Installer, tool: Uuid, x: StepInput, r: Uuid)
    requires x.scope.Some? && tool in s.tools && r != x.install.request
    ensures NoApprovals(InstallEvents(s, tool, x), r)
  {
    hide Runs.Run, Runs.Answers;
    var id := x.install.request;
    if id !in s.legs {
      RequestMade(s, tool, x);
      var s1 := Runs.Run(s, RequestEvents(tool, x));
      var s2 := Runs.Run(s1, ApproveEvents(s1.legs[id].request));
      if x.install.session.Some? {
        var s3 := Runs.Run(s2, StartEvents(x));
        if id in s3.legs && id in s3.calls && (s3.legs[id].request.plan.Some? || s3.legs[id].flight.Landed?) {
          AnswersAreReturns(id, s3.legs[id], s3.calls[id], s3.engine, x.install.envs, 0);
        }
      }
    }
  }

  lemma InstallStarts(s: Runs.Installer, tool: Uuid, x: StepInput)
    requires x.scope.Some? && tool in s.tools && x.install.request !in s.legs
    ensures var events := InstallEvents(s, tool, x);
            |events| >= 1 && [events[0]] == RequestEvents(tool, x)
  {
    hide Runs.Run, AnswerEvents, StartEvents, ApproveEvents;
    RequestMade(s, tool, x);
  }

  /** Of all requests an installation adds its own, for the named tool, and changes the approver of no other. */
  lemma InstallApprovals(s: Runs.Installer, tool: Uuid, x: StepInput)
    requires x.scope.Some? && tool in s.tools
    ensures var after := Install(s, tool, x).after;
            && (forall r :: r != x.install.request ==> ApproverKept(s.legs, after.legs, r))
            && (forall r :: r in s.legs ==> r in after.legs)
            && (x.install.request in s.legs ==> after == s)
            && (x.install.request !in s.legs ==>
                  && x.install.request in after.legs
                  && var plan := after.legs[x.install.request].request.plan;
                     plan.Some? ==> plan.value.packageName == s.tools[tool].card.name)
  {
    hide InstallEvents, RequestEvents, ApproverKept, Runs.Step;
    var events := InstallEvents(s, tool, x);
    InstallIsARun(s, tool, x);
    Launches.RunGrows(s, events);
    forall r | r != x.install.request
      ensures ApproverKept(s.legs, Runs.Run(s, events).legs, r)
    {
      InstallApprovesOwn(s, tool, x, r);
      RunKeepsApprover(s, events, r);
    }
    if x.install.request !in s.legs {
      RequestMade(s, tool, x);
      InstallStarts(s, tool, x);
      var s1 := Runs.Run(s, RequestEvents(tool, x));
      RunOne(s, events[0]);
      Launches.RunGrows(s1, events[1..]);
    }
  }

  lemma DiagnoseKeepsLegs(s: Runs.Installer, x: StepInput)
    requires x.scope.Some?
    ensures Diagnose(s, x).after.legs == s.legs
  {
    hide Evaluate, T.Executed;
  }

  // --- The invariant -----------------------------------------------------------------------------------------------

  /** The action is an installation that an operator approved, in an authorised task, and that has been carried out or
      given up: it cannot be approved or executed again. */
  predicate Stands(tasks: map<Uuid, Task>, g: Grant) {
    && g.task in tasks && Spent(tasks[g.task], g.action) && Authorized(tasks[g.task].header)
    && tasks[g.task].actions[g.action].actionType == INSTALL_TOOL
    && tasks[g.task].actions[g.action].approvalState == APPROVED
  }

  /** A request made on behalf of an action is about the tool the action names. */
  predicate Backed(s: System, r: Uuid, g: Grant) {
    && r in s.installer.legs && Stands(s.tasks, g)
    && var plan := s.installer.legs[r].request.plan;
       plan.Some? ==> s.tasks[g.task].actions[g.action].tool == Some(plan.value.packageName)
  }

  /** Every request approved in the agent's name is backed by an action of its own. */
  predicate GrantsSound(s: System, grants: map<Uuid, Grant>) {
    && (forall r :: r in s.installer.legs && s.installer.legs[r].request.approvedBy == Some(AGENT) ==> r in grants)
    && (forall r :: r in grants ==> Backed(s, r, grants[r]))
    && (forall r, q :: r in grants && q in grants && grants[r] == grants[q] ==> r == q)
  }

  predicate TasksSound(tasks: map<Uuid, Task>, b: Budget) {
    forall id :: id in tasks ==> ControlSound(tasks[id], b) && DeskSound(tasks[id])
  }

  predicate SystemSound(s: System, b: Budget, grants: map<Uuid, Grant>) {
    TasksSound(s.tasks, b) && GrantsSound(s, grants)
  }

  /** Fresh identifiers; and nobody but the orchestrator approves under its name. */
  predicate Admissible(s: System, e: Event) {
    match e
    case Serve(call) => call.Approve? ==> call.approver != AGENT
    case AgentStep(id, x) =>
      id in s.tasks ==>
        && (forall a :: a in s.tasks[id].actions ==> a.id != x.ids.action)
        && (forall v :: v in s.tasks[id].findings ==> v.id != x.ids.evidence)
    case _ => true
  }

  ghost predicate AdmissibleRun(s: System, b: Budget, events: seq<Event>)
    decreases |events|
  {
    events == [] || (Admissible(s, events[0]) && AdmissibleRun(Next(s, b, events[0]), b, events[1..]))
  }

  lemma SoundTask(tasks: map<Uuid, Task>, b: Budget, id: Uuid)
    requires TasksSound(tasks, b) && id in tasks
    ensures ControlSound(tasks[id], b) && DeskSound(tasks[id])
  {
  }

  lemma TaskStep(tasks: map<Uuid, Task>, b: Budget, id: Uuid, op: Op)
    requires TasksSound(tasks, b) && id in tasks && Fresh(tasks[id], op)
    ensures TasksSound(tasks[id := Apply(tasks[id], b, op).task], b)
  {
    hide Apply, ControlSound, Fresh, DeskSound;
    ApplySound(tasks[id], b, op);
    DeskKept(tasks[id], b, op);
  }

  /** What an operation on one task does to the actions behind the installations. */
  lemma GrantStands(tasks: map<Uuid, Task>, b: Budget, id: Uuid, op: Op, g: Grant)
    requires TasksSound(tasks, b) && id in tasks && Fresh(tasks[id], op) && Stands(tasks, g)
    ensures var after := tasks[id := Apply(tasks[id], b, op).task];
            Stands(after, g) && after[g.task].actions[g.action].tool == tasks[g.task].actions[g.action].tool
  {
    hide Apply, ControlSound, Fresh, Spent, Authorized, DeskSound;
    if g.task == id {
      GrantKept(tasks[id], b, op, g.action);
      SpentIsThere(Apply(tasks[id], b, op).task, g.action);
      SameAuthority(tasks[id], Apply(tasks[id], b, op).task);
    }
  }

  lemma SpentIsThere(t: Task, k: nat)
    requires Spent(t, k)
    ensures k < |t.actions|
  {
  }

  lemma SameAuthority(t: Task, u: Task)
    requires t.header == u.header
    ensures Authorized(t.header) == Authorized(u.header)
  {
  }

  /** Steps that leave the requests' plans and the agent's approvals as they were. */
  lemma GrantsKept(s: System, after: System, b: Budget, id: Uuid, op: Op, grants: map<Uuid, Grant>)
    requires SystemSound(s, b, grants) && id in s.tasks && Fresh(s.tasks[id], op)
    requires after.tasks == s.tasks[id := Apply(s.tasks[id], b, op).task] && after.installer.legs == s.installer.legs
    ensures SystemSound(after, b, grants)
  {
    hide Apply, TasksSound, Stands, Fresh;
    TaskStep(s.tasks, b, id, op);
    forall r | r in grants
      ensures Backed(after, r, grants[r])
    {
      assert Backed(s, r, grants[r]);
      GrantStands(s.tasks, b, id, op, grants[r]);
    }
  }

  /** An action that is about to be installed was approved; it is spent afterwards, and no earlier request was made for
      it. */
  lemma InstallGranted(tasks: map<Uuid, Task>, b: Budget, id: Uuid, x: Input)
    requires TasksSound(tasks, b) && id in tasks && Fresh(tasks[id], Step(x))
    requires ReachedAction(tasks[id], b, x).Some? && ReachedAction(tasks[id], b, x).value.actionType == INSTALL_TOOL
    ensures var g := Grant(id, Reached(tasks[id], b, Step(x)).value);
            var after := tasks[id := Apply(tasks[id], b, Step(x)).task];
            && !Stands(tasks, g) && Stands(after, g)
            && after[id].actions[g.action].tool == ReachedAction(tasks[id], b, x).value.tool
  {
    var t := tasks[id];
    var i := Reached(t, b, Step(x)).value;
    assert ReachesGated(t, b, Step(x));
    hide Apply, Reached, Prepared, ControlSound, Fresh, Authorized, ReachesGated, DeskSound, TasksSound;
    SoundTask(tasks, b, id);
    ReachedApproved(t, b, Step(x));
    ReachedIsSpent(t, b, Step(x));
    GrantKeptByExecution(t, b, Step(x), i);
    SameAuthority(t, Apply(t, b, Step(x)).task);
  }

  lemma ServeSafe(s: System, b: Budget, call: Runs.Event, grants: map<Uuid, Grant>)
    requires SystemSound(s, b, grants) && Admissible(s, Serve(call))
    ensures SystemSound(Next(s, b, Serve(call)), b, grants)
  {
    hide Runs.Step, TasksSound, Stands;
    var after := Runs.Step(s.installer, call);
    Launches.StepGrows(s.installer, call);
    forall r | r in after.legs && after.legs[r].request.approvedBy == Some(AGENT)
      ensures r in grants
    {
      if call.Approve? && call.id == r {
        ApproverIs(s.installer, call);
      } else {
        StepKeepsApprover(s.installer, call, r);
      }
    }
    forall r | r in grants
      ensures Backed(Next(s, b, Serve(call)), r, grants[r])
    {
      assert Backed(s, r, grants[r]);
    }
  }

  /** An approval leaves its approver's name, or changes nothing. */
  lemma ApproverIs(s: Runs.Installer, e: Runs.Event)
    requires e.Approve? && e.id in Runs.Step(s, e).legs
    ensures e.id in s.legs
    ensures var r, was := Runs.Step(s, e).legs[e.id].request, s.legs[e.id].request;
            r == was || (r.approvedBy == Some(e.approver) && r.plan == was.plan)
  {
    hide I.Begun, I.Returned, I.Asked, T.Executed, ToolTrust.Apply, Runs.Diagnosed;
  }

  lemma StepSafe(s: System, b: Budget, id: Uuid, x: StepInput, grants: map<Uuid, Grant>)
    requires SystemSound(s, b, grants) && Admissible(s, AgentStep(id, x)) && id in s.tasks
    ensures SystemSound(Driven(s, b, id, x), b, grants + NewGrants(s, b, AgentStep(id, x)))
  {
    hide Apply, Install, Diagnose, SystemSound, Reached, Prepared, ToolNamed, Admissible;
    var t := s.tasks[id];
    var a := ReachedAction(t, b, Asked(t, s, x, ""));
    var after := Driven(s, b, id, x);
    var name := if a.Some? && a.value.tool.Some? then a.value.tool.value else "";
    var asked := Asked(t, s, x, name);
    StepsAreFresh(s, id, x);
    if a.Some? && AsksInstaller(t, b, a.value, asked) {
      InstallStepSafe(s, b, id, x, a.value, name, grants);
    } else {
      assert grants + NewGrants(s, b, AgentStep(id, x)) == grants;
      if a.None? {
        GrantsKept(s, after, b, id, Step(Asked(t, s, x, "")), grants);
      } else if AsksEngine(a.value, asked) {
        var done := Diagnose(s.installer, x);
        DiagnoseKeepsLegs(s.installer, x);
        GrantsKept(s, after, b, id, Step(asked.(services := asked.services.(diagnostic := done.outcome))), grants);
      } else {
        GrantsKept(s, after, b, id, Step(asked), grants);
      }
    }
  }

  lemma StepsAreFresh(s: System, id: Uuid, x: StepInput)
    requires Admissible(s, AgentStep(id, x)) && id in s.tasks
    ensures forall input: Input :: input.ids == x.ids ==> Fresh(s.tasks[id], Step(input))
  {
  }

  lemma ToolHasName(tools: ToolTrust.Registry, name: string)
    ensures var t := ToolNamed(tools, name); t.Some? ==> t.value in tools && tools[t.value].card.name == name
  {
  }

  lemma InstallStepSafe(s: System, b: Budget, id: Uuid, x: StepInput, a: Action, name: string, grants: map<Uuid, Grant>)
    requires SystemSound(s, b, grants) && Admissible(s, AgentStep(id, x)) && id in s.tasks
    requires ReachedAction(s.tasks[id], b, Asked(s.tasks[id], s, x, "")) == Some(a) && a.tool == Some(name)
    requires AsksInstaller(s.tasks[id], b, a, Asked(s.tasks[id], s, x, name))
    ensures SystemSound(Driven(s, b, id, x), b, grants + NewGrants(s, b, AgentStep(id, x)))
  {
    hide Apply, Install, SystemSound, Admissible, ReachedAction, Reached, Fresh, ToolNamed;
    var t := s.tasks[id];
    var asked := Asked(t, s, x, name);
    var tool := ToolNamed(s.installer.tools, name).value;
    var done := Install(s.installer, tool, x);
    var input := asked.(services := asked.services.(installation := done.outcome));
    StepsAreFresh(s, id, x);
    ToolHasName(s.installer.tools, name);
    InstallApprovals(s.installer, tool, x);
    SameReached(t, b, Asked(t, s, x, ""), input);
    ReachedActionIs(t, b, Asked(t, s, x, ""));
    var g := Grant(id, Reached(t, b, Step(Asked(t, s, x, ""))).value);
    var after := Driven(s, b, id, x);
    if x.install.request in s.installer.legs {
      assert grants + NewGrants(s, b, AgentStep(id, x)) == grants;
      GrantsKept(s, after, b, id, Step(input), grants);
    } else {
      assert NewGrants(s, b, AgentStep(id, x)) == map[x.install.request := g];
      GrantAdded(s, after, b, id, input, x.install.request, name, grants);
    }
  }

  /** A request that was not there, made for the action the step executes. */
  lemma GrantAdded(s: System, after: System, b: Budget, id: Uuid, input: Input, request: Uuid, name: string,
                   grants: map<Uuid, Grant>)
    requires SystemSound(s, b, grants) && id in s.tasks && Fresh(s.tasks[id], Step(input))
    requires ReachedAction(s.tasks[id], b, input).Some?
    requires var a := ReachedAction(s.tasks[id], b, input).value; a.actionType == INSTALL_TOOL && a.tool == Some(name)
    requires after.tasks == s.tasks[id := Apply(s.tasks[id], b, Step(input)).task]
    requires request !in s.installer.legs && request in after.installer.legs
    requires forall r :: r != request ==> ApproverKept(s.installer.legs, after.installer.legs, r)
    requires forall r :: r in s.installer.legs ==> r in after.installer.legs
    requires var plan := after.installer.legs[request].request.plan; plan.Some? ==> plan.value.packageName == name
    ensures Reached(s.tasks[id], b, Step(input)).Some?
    ensures SystemSound(after, b, grants + map[request := Grant(id, Reached(s.tasks[id], b, Step(input)).value)])
  {
    assert Reached(s.tasks[id], b, Step(input)).Some?;
    var g := Grant(id, Reached(s.tasks[id], b, Step(input)).value);
    GrantedOnce(s, after, b, id, input, request, name, grants, g);
  }

  lemma GrantedOnce(
    s: System, after: System, b: Budget, id: Uuid, input: Input, request: Uuid, name: string,
    grants: map<Uuid, Grant>, g: Grant)
    requires SystemSound(s, b, grants) && id in s.tasks && Fresh(s.tasks[id], Step(input))
    requires ReachedAction(s.tasks[id], b, input).Some? && Reached(s.tasks[id], b, Step(input)).Some?
    requires var a := ReachedAction(s.tasks[id], b, input).value; a.actionType == INSTALL_TOOL && a.tool == Some(name)
    requires g == Grant(id, Reached(s.tasks[id], b, Step(input)).value)
    requires after.tasks == s.tasks[id := Apply(s.tasks[id], b, Step(input)).task]
    requires request !in s.installer.legs && request in after.installer.legs
    requires forall r :: r != request ==> ApproverKept(s.installer.legs, after.installer.legs, r)
    requires forall r :: r in s.installer.legs ==> r in after.installer.legs
    requires var plan := after.installer.legs[request].request.plan; plan.Some? ==> plan.value.packageName == name
    ensures SystemSound(after, b, grants + map[request := g])
  {
    hide Apply, TasksSound, Stands, Fresh, Reached, ReachedAction;
    TaskStep(s.tasks, b, id, Step(input));
    InstallGranted(s.tasks, b, id, input);
    var all := grants + map[request := g];
    forall r | r in grants
      ensures r != request && Backed(after, r, grants[r]) && grants[r] != g
    {
      assert Backed(s, r, grants[r]);
      GrantStands(s.tasks, b, id, Step(input), grants[r]);
      assert ApproverKept(s.installer.legs, after.installer.legs, r);
    }
    assert Backed(after, request, g);
    forall r | r in after.installer.legs && after.installer.legs[r].request.approvedBy == Some(AGENT)
      ensures r in all
    {
      assert r != request ==> ApproverKept(s.installer.legs, after.installer.legs, r);
    }
  }

  lemma ReachedActionIs(t: Task, b: Budget, x: Input)
    requires ReachedAction(t, b, x).Some?
    ensures Reached(t, b, Step(x)).Some?
  {
  }

  /** Which action is executed does not depend on what the services will answer. */
  lemma SameReached(t: Task, b: Budget, x: Input, y: Input)
    requires x.now == y.now && x.ids == y.ids && x.reasoning == y.reasoning
    ensures ReachedAction(t, b, x) == ReachedAction(t, b, y) && Reached(t, b, Step(x)) == Reached(t, b, Step(y))
  {
    hide IndexOf, ExceededBudget, RunsAtOnce;
  }

  lemma OperateSafe(s: System, b: Budget, id: Uuid, op: Op, grants: map<Uuid, Grant>)
    requires SystemSound(s, b, grants) && id in s.tasks && !op.Step?
    ensures SystemSound(Next(s, b, Operate(id, op)), b, grants)
  {
    hide Apply, SystemSound;
    GrantsKept(s, Next(s, b, Operate(id, op)), b, id, op, grants);
  }

  lemma StandsBeside(tasks: map<Uuid, Task>, g: Grant, id: Uuid, t: Task)
    requires Stands(tasks, g) && id !in tasks
    ensures Stands(tasks[id := t], g) && tasks[id := t][g.task] == tasks[g.task]
  {
    hide Spent, Authorized;
  }

  lemma CreateSafe(s: System, b: Budget, h: Header, now: Time, grants: map<Uuid, Grant>)
    requires SystemSound(s, b, grants)
    ensures SystemSound(Next(s, b, Create(h, now)), b, grants)
  {
    hide ControlSound, Created, DeskSound, Stands, Driven, Apply, Runs.Step;
    CreatedSound(h, b, now);
    CreatedDesk(h, now);
    forall r | r in grants
      ensures Backed(Next(s, b, Create(h, now)), r, grants[r])
    {
      assert Backed(s, r, grants[r]);
      if h.id !in s.tasks {
        StandsBeside(s.tasks, grants[r], h.id, Created(h, now));
      }
    }
  }

  lemma NextSafe(s: System, b: Budget, e: Event, grants: map<Uuid, Grant>)
    requires SystemSound(s, b, grants) && Admissible(s, e)
    ensures SystemSound(Next(s, b, e), b, grants + NewGrants(s, b, e))
  {
    hide SystemSound, Driven, Runs.Step, Apply, ReachedAction;
    if !e.AgentStep? || e.id !in s.tasks {
      assert grants + NewGrants(s, b, e) == grants;
    }
    match e
    case Serve(call) => ServeSafe(s, b, call, grants);
    case Create(h, now) => CreateSafe(s, b, h, now, grants);
    case Operate(id, op) => if id in s.tasks && !op.Step? { OperateSafe(s, b, id, op, grants); }
    case AgentStep(id, x) => if id in s.tasks { StepSafe(s, b, id, x, grants); }
  }

  lemma {:induction false} RunSafe(s: System, b: Budget, events: seq<Event>, grants: map<Uuid, Grant>)
    requires SystemSound(s, b, grants) && AdmissibleRun(s, b, events)
    ensures SystemSound(AgentSystem.Run(s, b, events), b, Grants(s, grants, b, events))
    decreases |events|
  {
    hide SystemSound, Next, Admissible, NewGrants;
    if events != [] {
      NextSafe(s, b, events[0], grants);
      RunSafe(Next(s, b, events[0]), b, events[1..], grants + NewGrants(s, b, events[0]));
    }
  }

  function Initial(maxAttempts: int, interpreter: string): System {
    System(map[], Runs.Initial(maxAttempts, interpreter, map[]))
  }

  // --- The guarantees ----------------------------------------------------------------------------------------------

  /** The installations requested on behalf of one task. */
  function RequestsOf(grants: map<Uuid, Grant>, task: Uuid): set<Uuid> {
    set r | r in grants && grants[r].task == task
  }

  lemma {:induction false} FewerRequests(grants: map<Uuid, Grant>, task: Uuid, rs: set<Uuid>, ks: set<nat>)
    requires forall r :: r in rs ==> r in grants && grants[r].task == task && grants[r].action in ks
    requires forall r, q :: r in grants && q in grants && grants[r] == grants[q] ==> r == q
    ensures |rs| <= |ks|
    decreases |rs|
  {
    if rs != {} {
      var r :| r in rs;
      FewerRequests(grants, task, rs - {r}, ks - {grants[r].action});
    }
  }

  /** A task has at most one installation requested for each of its approved and spent installing actions, and so no
      more than it may record actions. (The installation count does not bound them: a call that raises is not
      counted.) */
  lemma RequestsBounded(s: System, b: Budget, grants: map<Uuid, Grant>, task: Uuid)
    requires SystemSound(s, b, grants) && task in s.tasks
    ensures |RequestsOf(grants, task)| <= |SpentInstalls(s.tasks[task])| <= Max(0, b.maxActions)
  {
    hide IndexOf, UniqueIds, PhaseSound, PendingSound, ApprovalSound, InstallsSound, DeskSound;
    var t := s.tasks[task];
    forall r | r in RequestsOf(grants, task)
      ensures grants[r].action in SpentInstalls(t)
    {
      assert Backed(s, r, grants[r]);
    }
    FewerRequests(grants, task, RequestsOf(grants, task), SpentInstalls(t));
    FewerThan(SpentInstalls(t), |t.actions|);
  }

  lemma {:induction false} FewerThan(ks: set<nat>, n: nat)
    requires forall k :: k in ks ==> k < n
    ensures |ks| <= n
    decreases n
  {
    if n == 0 {
      assert ks == {};
    } else {
      FewerThan(ks - {n - 1}, n - 1);
    }
  }

  /** The whole system, from its start. What the installer and the engine went through is the list of calls that
      operators and tasks made, and every process ever started is justified by one of them: it is a command of a request
      or the reviewed diagnostic, on the policy's decision about exactly that, for the target its caller named, then
      authorised, at low risk or with an approver. Requests approved in the agent's name map one to one to installing
      actions that an operator approved, in authorised tasks, for that very tool, and that can never run again. */
  lemma EveryProcessAccountedFor(maxAttempts: int, interpreter: string, b: Budget, events: seq<Event>)
    requires AdmissibleRun(Initial(maxAttempts, interpreter), b, events)
    ensures var s0 := Initial(maxAttempts, interpreter);
            var s, calls, grants := AgentSystem.Run(s0, b, events), Calls(s0, b, events), Grants(s0, map[], b, events);
            && s.installer == Runs.Run(s0.installer, calls)
            && (forall i :: 0 <= i < |s.installer.engine.launches| ==>
                  Launches.LaunchJustified(calls, s.installer, s.installer.engine.launches[i]))
            && GrantsSound(s, grants)
            && (forall id :: id in s.tasks ==>
                |RequestsOf(grants, id)| <= |SpentInstalls(s.tasks[id])| <= Max(0, b.maxActions))
  {
    var s0 := Initial(maxAttempts, interpreter);
    assert SystemSound(s0, b, map[]);
    hide AgentSystem.Run, Runs.Run, Grants, GrantsSound, Calls, TasksSound, Launches.LaunchJustified, SpentInstalls,
         RequestsOf;
    RunSafe(s0, b, events, map[]);
    InstallerIsARun(s0, b, events);
    var s, calls := AgentSystem.Run(s0, b, events), Calls(s0, b, events);
    forall i | 0 <= i < |s.installer.engine.launches|
      ensures Launches.LaunchJustified(calls, s.installer, s.installer.engine.launches[i])
    {
      Launches.EveryLaunchJustified(s0.installer, calls, i);
    }
    forall id | id in s.tasks
      ensures |RequestsOf(Grants(s0, map[], b, events), id)| <= |SpentInstalls(s.tasks[id])| <= Max(0, b.maxActions)
    {
      RequestsBounded(s, b, Grants(s0, map[], b, events), id);
    }
  }

  /** What a call of a task's step at the installer or the engine means: an installing action that an operator approved
      in an authorised task, or a diagnosing action that was approved if it had to be, which RUN_DIAGNOSTIC always had
      to. */
  predicate CallMeans(t: Task, a: Action, call: Runs.Event) {
    && (call.Diagnose? ==> IsDiagnosis(a))
    && (call.Ask? || call.Approve? || call.Start? || call.Return? ==> a.actionType == INSTALL_TOOL)
    && (IsDiagnosis(a) || a.actionType == INSTALL_TOOL)
    && (a.approvalState == APPROVED <==> a.requiresApproval)
    && (IsExecution(a.actionType) ==> a.approvalState == APPROVED && Authorized(t.header))
  }

  lemma AgentCallsAccountedFor(maxAttempts: int, interpreter: string, b: Budget, events: seq<Event>, id: Uuid,
                               x: StepInput)
    requires AdmissibleRun(Initial(maxAttempts, interpreter), b, events)
    requires id in AgentSystem.Run(Initial(maxAttempts, interpreter), b, events).tasks
    ensures var s := AgentSystem.Run(Initial(maxAttempts, interpreter), b, events);
            var t := s.tasks[id];
            var a := ReachedAction(t, b, Asked(t, s, x, ""));
            forall call :: call in DrivenEvents(s, b, id, x) ==> a.Some? && CallMeans(t, a.value, call)
  {
    var s0 := Initial(maxAttempts, interpreter);
    assert SystemSound(s0, b, map[]);
    hide AgentSystem.Run, Grants, GrantsSound, ControlSound, DeskSound, CallMeans, DrivenEvents;
    RunSafe(s0, b, events, map[]);
    DrivenMeans(AgentSystem.Run(s0, b, events), b, id, x);
  }

  lemma GatedReached(t: Task, b: Budget, x: Input)
    requires ControlSound(t, b) && ReachedAction(t, b, x).Some? && IsExecution(ReachedAction(t, b, x).value.actionType)
    ensures ReachedAction(t, b, x).value.approvalState == APPROVED && Authorized(t.header)
  {
    hide ControlSound, Reached, Prepared;
    assert ReachesGated(t, b, Step(x));
    ReachedApproved(t, b, Step(x));
  }

  lemma InstallEventsPlain(s: Runs.Installer, tool: Uuid, x: StepInput)
    requires x.scope.Some?
    ensures forall call :: call in InstallEvents(s, tool, x) ==> !call.Diagnose?
  {
    hide Runs.Run, Runs.Answers;
    var id := x.install.request;
    var s1 := Runs.Run(s, RequestEvents(tool, x));
    if id !in s.legs && id in s1.legs && x.install.session.Some? {
      var s2 := Runs.Run(s1, ApproveEvents(s1.legs[id].request));
      var s3 := Runs.Run(s2, StartEvents(x));
      if id in s3.legs && id in s3.calls && (s3.legs[id].request.plan.Some? || s3.legs[id].flight.Landed?) {
        AnswersAreReturns(id, s3.legs[id], s3.calls[id], s3.engine, x.install.envs, 0);
      }
    }
  }

  lemma DiagnoseEventsPlain(x: StepInput)
    requires x.scope.Some?
    ensures forall call :: call in DiagnoseEvents(x) ==> call.Diagnose? || call.SetSession?
  {
    hide Evaluate;
  }

  lemma ReachedMeans(t: Task, b: Budget, x: Input)
    requires ControlSound(t, b) && DeskSound(t) && ReachedAction(t, b, x).Some?
    ensures var a := ReachedAction(t, b, x).value;
            && (a.actionType != WAIT_FOR_APPROVAL ==> (a.approvalState == APPROVED <==> a.requiresApproval))
            && (IsExecution(a.actionType) ==> a.approvalState == APPROVED && Authorized(t.header))
  {
    hide ControlSound, DeskSound, Reached, Prepared, DecidedAs;
    ReachedCarries(t, b, x);
    if IsExecution(ReachedAction(t, b, x).value.actionType) {
      GatedReached(t, b, x);
    }
  }

  lemma DrivenMeans(s: System, b: Budget, id: Uuid, x: StepInput)
    requires id in s.tasks && ControlSound(s.tasks[id], b) && DeskSound(s.tasks[id])
    ensures var t := s.tasks[id];
            var a := ReachedAction(t, b, Asked(t, s, x, ""));
            forall call :: call in DrivenEvents(s, b, id, x) ==> a.Some? && CallMeans(t, a.value, call)
  {
    hide ControlSound, DeskSound, ReachedAction, InstallEvents, DiagnoseEvents, Authorized, ToolNamed;
    var t := s.tasks[id];
    var blind := Asked(t, s, x, "");
    if ReachedAction(t, b, blind).Some? {
      ReachedMeans(t, b, blind);
      if x.scope.Some? {
        var a := ReachedAction(t, b, blind).value;
        var tool := ToolNamed(s.installer.tools, if a.tool.Some? then a.tool.value else "");
        if tool.Some? {
          InstallEventsPlain(s.installer, tool.value, x);
        }
        DiagnoseEventsPlain(x);
      }
    }
  }
}
