/** How requests end, and how they fail to: what `cancel` achieves, when a terminal state is final, and what an
    exception of the engine leaves behind. */
module InstallationEnds {
  import opened Prelude
  import opened Policy
  import opened CommandTemplates
  import opened Installation
  import opened InstallationRuns
  import opened InstallationLaunches
  import T = Terminal
  import ToolTrust

  // --- The table of running commands -------------------------------------------------------------------------------

  /** The table still names a command of the request, but no call waits for one. */
  predicate Stale(l: Leg) {
    l.entry.Some? && l.flight.Landed?
  }

  predicate EntrySound(l: Leg) {
    match l.flight
    case Landed => l.entry.Some? ==> l.request.state in {INSTALLING, CANCELLED}
    case Attempting(_, _, command) => l.entry == Some(command.id) && l.request.state in {INSTALLING, CANCELLED}
    case Confirming(_) => l.entry.None? && l.request.state in {VERIFYING, CANCELLED}
  }

  predicate EntriesSound(s: Installer) {
    forall id :: id in s.legs ==> EntrySound(s.legs[id])
  }

  /** The engine raises while request `id` waits for an install command. */
  predicate EngineBreaks(s: Installer, e: Event, id: Uuid) {
    && e.Return? && e.id == id && id in s.legs && id in s.calls
    && s.legs[id].flight.Attempting? && s.legs[id].request.plan.Some?
    && T.Executed(s.engine, s.legs[id].flight.command, e.world).result.None?
  }

  predicate EverBreaks(s: Installer, events: seq<Event>, id: Uuid)
    decreases |events|
  {
    events != [] && (EngineBreaks(s, events[0], id) || EverBreaks(Step(s, events[0]), events[1..], id))
  }

  lemma BegunEntry(l: Leg, tool: Option<ToolTrust.Tool>, call: Call, env: Env)
    requires EntrySound(l) && l.request.state == PREPARING
    ensures EntrySound(Begun(l, tool, call, env)) && !Stale(Begun(l, tool, call, env))
  {
    hide InstallCommand, Evaluate;
  }

  lemma ReturnedEntry(l: Leg, call: Call, result: Option<T.CommandResult>, env: Env)
    requires EntrySound(l) && !l.flight.Landed? && l.request.plan.Some?
    ensures EntrySound(Returned(l, call, result, env))
    ensures Stale(Returned(l, call, result, env)) <==> l.flight.Attempting? && result.None?
  {
    hide InstallCommand, VerificationCommand, Evaluate, Evaluated;
  }

  lemma DecisionsKeepEntry(l: Leg, approver: string, reason: string)
    requires EntrySound(l)
    ensures l.request.state == WAITING_FOR_APPROVAL ==> EntrySound(l.(request := Approved(l.request, approver)))
    ensures !IsTerminal(l.request.state) ==> EntrySound(l.(request := RejectedBy(l.request, reason)))
    ensures EntrySound(l.(request := CancelledBy(l.request, l.entry.Some?)))
  {
  }

  lemma StepEntry(s: Installer, e: Event, id: Uuid)
    requires id in s.legs && EntrySound(s.legs[id])
    ensures id in Step(s, e).legs && EntrySound(Step(s, e).legs[id])
    ensures Stale(Step(s, e).legs[id]) <==> Stale(s.legs[id]) || EngineBreaks(s, e, id)
  {
    hide Begun, Returned, Asked, T.Executed, ToolTrust.Apply, Diagnosed, Approved, RejectedBy, CancelledBy, EntrySound;
    var l := s.legs[id];
    DecisionsKeepEntry(l, if e.Approve? then e.approver else "", if e.Reject? then e.reason else "");
    if e.Start? && e.id == id && l.request.state == PREPARING {
      EntryOfNew(l);
      BegunEntry(l, ToolTrust.Lookup(s.tools, l.request.toolId), Started(s, id, e.session, e.target, e.env).calls[id],
                 e.env);
    }
    if e.Return? && e.id == id && id in s.calls && !l.flight.Landed? && l.request.plan.Some? {
      ReturnedEntry(l, s.calls[id], T.Executed(s.engine, l.flight.command, e.world).result, e.env);
    }
  }

  lemma EntryOfNew(l: Leg)
    requires EntrySound(l) && l.request.state == PREPARING
    ensures l.flight.Landed? && l.entry.None?
  {
  }

  lemma NewEntry(s: Installer, e: Event, id: Uuid)
    requires id !in s.legs && id in Step(s, e).legs
    ensures EntrySound(Step(s, e).legs[id]) && !Stale(Step(s, e).legs[id])
  {
    hide Begun, Returned, Asked, T.Executed, ToolTrust.Apply, Diagnosed;
    NewLegsAreAsked(s, e, id);
  }

  lemma StepEntries(s: Installer, e: Event)
    requires EntriesSound(s)
    ensures EntriesSound(Step(s, e))
  {
    hide Step, EntrySound;
    forall id | id in Step(s, e).legs
      ensures EntrySound(Step(s, e).legs[id])
    {
      if id in s.legs {
        StepEntry(s, e, id);
      } else {
        NewEntry(s, e, id);
      }
    }
  }

  lemma {:induction false} RunEntries(s: Installer, events: seq<Event>)
    requires EntriesSound(s)
    ensures EntriesSound(Run(s, events))
    decreases |events|
  {
    hide Step, EntriesSound;
    if events != [] {
      StepEntries(s, events[0]);
      RunEntries(Step(s, events[0]), events[1..]);
    }
  }

  lemma {:induction false} RunStale(s: Installer, events: seq<Event>, id: Uuid)
    requires EntriesSound(s) && id in Run(s, events).legs
    ensures Stale(Run(s, events).legs[id]) <==> (id in s.legs && Stale(s.legs[id])) || EverBreaks(s, events, id)
    decreases |events|
  {
    hide Step, EntrySound, Stale, EngineBreaks;
    if events != [] {
      StepEntries(s, events[0]);
      RunStale(Step(s, events[0]), events[1..], id);
      if id in s.legs {
        StepEntry(s, events[0], id);
      } else {
        assert !EngineBreaks(s, events[0], id) by { BreaksNeedsLeg(s, events[0], id); }
        if id in Step(s, events[0]).legs {
          NewEntry(s, events[0], id);
        }
      }
    }
  }

  lemma BreaksNeedsLeg(s: Installer, e: Event, id: Uuid)
    requires id !in s.legs
    ensures !EngineBreaks(s, e, id)
  {
  }

  /** In every reachable state, the table has an entry for a request whose call is over exactly when the engine raised
      at some time while the request waited for an install command. */
  lemma StaleExactly(s: Installer, events: seq<Event>, id: Uuid)
    requires s == Initial(s.maxAttempts, s.interpreter, s.engine.sessions) && id in Run(s, events).legs
    ensures Stale(Run(s, events).legs[id]) <==> EverBreaks(s, events, id)
  {
    hide Step;
    RunStale(s, events, id);
  }

  // --- Cancelling --------------------------------------------------------------------------------------------------

  /** `cancel` cancels a request that is not over exactly when the table has no entry for it; else nothing changes here.
      In reachable states the entry means that an install command is awaited, or that the engine raised during one. */
  lemma CancelsExactly(s: Installer, events: seq<Event>, id: Uuid)
    requires s == Initial(s.maxAttempts, s.interpreter, s.engine.sessions) && id in Run(s, events).legs
    requires !IsTerminal(Run(s, events).legs[id].request.state)
    ensures var end := Run(s, events);
            var after := Step(end, Cancel(id));
            && id in after.legs
            && (after.legs[id].request.state == CANCELLED <==> end.legs[id].entry.None?)
            && (after.legs[id].request.state != CANCELLED ==> after == end)
            && (end.legs[id].entry.Some? <==> end.legs[id].flight.Attempting? || EverBreaks(s, events, id))
  {
    StaleExactly(s, events, id);
    RunEntries(s, events);
    hide Run, EverBreaks;
    var end := Run(s, events);
    assert EntrySound(end.legs[id]);
    if end.legs[id].entry.Some? {
      assert end.legs[id := end.legs[id]] == end.legs;
    }
  }

  /** While an install command is awaited, `cancel` has it terminated; if the engine then answers CANCELLED, the request
      is cancelled, its call over, the entry gone and nothing sent after it. */
  lemma CancelledAttempt(s: Installer, id: Uuid, world: T.World, env: Env)
    requires id in s.legs && id in s.calls && s.legs[id].flight.Attempting? && s.legs[id].request.plan.Some?
    requires T.Launches(s.engine, s.legs[id].flight.command, world) && world.outcome.IsCancelled?
    ensures var after := Step(s, Return(id, world, env));
            && id in after.legs && after.legs[id].flight.Landed? && after.legs[id].entry.None?
            && after.legs[id].request.state == CANCELLED
            && |after.legs[id].request.attempts| == |s.legs[id].request.attempts| + 1
  {
    hide NextAttempt, ConfirmationSent;
  }

  // The same over runs: the cancellations that reach the process in time.

  /** The event has the engine terminate the command that request `id` waits for. */
  predicate Terminates(s: Installer, e: Event, id: Uuid) {
    e == Cancel(id) && id in s.legs && s.legs[id].entry.Some? && !IsTerminal(s.legs[id].request.state)
  }

  /** What the run has happen to the task of that command. */
  function Terminations(s: Installer, events: seq<Event>, id: Uuid): (ts: seq<T.TaskEvent>)
    ensures forall t :: t in ts ==> t.Terminate?
    decreases |events|
  {
    if events == [] then []
    else
      (if Terminates(s, events[0], id) then [T.Terminate] else []) + Terminations(Step(s, events[0]), events[1..], id)
  }

  predicate EverTerminates(s: Installer, events: seq<Event>, id: Uuid)
    decreases |events|
  {
    events != [] && (Terminates(s, events[0], id) || EverTerminates(Step(s, events[0]), events[1..], id))
  }

  lemma {:induction false} TerminationsCount(s: Installer, events: seq<Event>, id: Uuid)
    ensures |Terminations(s, events, id)| > 0 <==> EverTerminates(s, events, id)
    decreases |events|
  {
    hide Step, Terminates;
    if events != [] {
      TerminationsCount(Step(s, events[0]), events[1..], id);
    }
  }

  /** The task's life: `before` happens, then its process ends with `outcome`, then `after` happens. */
  function TaskLife(s: Installer, before: seq<Event>, outcome: T.AdapterOutcome, after: seq<Event>, id: Uuid)
    : seq<T.TaskEvent>
  {
    Terminations(s, before, id) + [T.End(outcome)] + Terminations(Run(s, before), after, id)
  }

  lemma TaskLifeEnds(s: Installer, before: seq<Event>, outcome: T.AdapterOutcome, after: seq<Event>, id: Uuid)
    ensures T.TaskRun(T.NEW_TASK, TaskLife(s, before, outcome, after, id)).ended ==
            Some(if EverTerminates(s, before, id) then T.IsCancelled else outcome)
  {
    hide Run, Terminations, EverTerminates, T.TaskRun;
    var ts, life := Terminations(s, before, id), TaskLife(s, before, outcome, after, id);
    TerminationsCount(s, before, id);
    assert life[..|ts|] == ts && life[|ts|] == T.End(outcome);
    assert forall j :: 0 <= j < |ts| ==> life[j] == ts[j] && ts[j] in ts;
    T.FirstEndDecides(T.NEW_TASK, life, |ts|);
  }

  predicate NoReturns(events: seq<Event>, id: Uuid) {
    forall e :: e in events ==> !(e.Return? && e.id == id)
  }

  /** An awaited install command stays awaited until its call returns. */
  lemma AwaitedStep(s: Installer, e: Event, id: Uuid)
    requires id in s.legs && id in s.calls && EntrySound(s.legs[id]) && s.legs[id].flight.Attempting?
    requires s.legs[id].request.plan.Some? && !(e.Return? && e.id == id)
    ensures var after := Step(s, e);
            && id in after.legs && id in after.calls && EntrySound(after.legs[id])
            && after.legs[id].flight == s.legs[id].flight && after.legs[id].request.plan.Some?
  {
    hide Begun, Returned, Asked, T.Executed, ToolTrust.Apply, Diagnosed;
  }

  lemma {:induction false} AwaitedRun(s: Installer, events: seq<Event>, id: Uuid)
    requires id in s.legs && id in s.calls && EntrySound(s.legs[id]) && s.legs[id].flight.Attempting?
    requires s.legs[id].request.plan.Some? && NoReturns(events, id)
    ensures var after := Run(s, events);
            && id in after.legs && id in after.calls && EntrySound(after.legs[id])
            && after.legs[id].flight == s.legs[id].flight && after.legs[id].request.plan.Some?
    decreases |events|
  {
    hide Step, EntrySound;
    if events != [] {
      assert events[0] in events;
      AwaitedStep(s, events[0], id);
      assert forall e :: e in events[1..] ==> e in events;
      AwaitedRun(Step(s, events[0]), events[1..], id);
    }
  }

  /** While a request waits for an install command, `before` happens, the process ends with `outcome`, `after` happens,
      and the call returns with what the command's task then reports. If a cancellation had the command terminated
      before its process ended, the request is CANCELLED, for good, whatever the process would have returned; otherwise
      the call returns as if nobody had cancelled, with the process's own outcome. */
  lemma CancelledInTime(
    s: Installer, id: Uuid, before: seq<Event>, outcome: T.AdapterOutcome, after: seq<Event>, world: T.World, env: Env,
    later: seq<Event>)
    requires id in s.legs && id in s.calls && EntrySound(s.legs[id]) && s.legs[id].flight.Attempting?
    requires s.legs[id].request.plan.Some? && NoReturns(before, id) && NoReturns(after, id)
    requires Some(world.outcome) == T.TaskRun(T.NEW_TASK, TaskLife(s, before, outcome, after, id)).ended
    requires T.Launches(Run(Run(s, before), after).engine, s.legs[id].flight.command, world)
    ensures var waiting := Run(Run(s, before), after);
            var end := Step(waiting, Return(id, world, env));
            && id in waiting.legs && id in waiting.calls && id in end.legs && id in Run(end, later).legs
            && (EverTerminates(s, before, id) ==>
                  && end.legs[id].request.state == CANCELLED && end.legs[id].flight.Landed?
                  && Run(end, later).legs[id] == end.legs[id])
            && (!EverTerminates(s, before, id) ==>
                  && !waiting.legs[id].flight.Landed? && waiting.legs[id].request.plan.Some?
                  && end.legs[id] == Returned(waiting.legs[id], waiting.calls[id],
                       T.Executed(waiting.engine, s.legs[id].flight.command, world.(outcome := outcome)).result, env))
  {
    hide Step, EntrySound, Run, TaskLife, EverTerminates, T.TaskRun, T.Executed, T.Launches, Returned;
    AwaitedRun(s, before, id);
    AwaitedRun(Run(s, before), after, id);
    TaskLifeEnds(s, before, outcome, after, id);
    var waiting := Run(Run(s, before), after);
    ReturnIs(waiting, id, world, env);
    var end := Step(waiting, Return(id, world, env));
    if EverTerminates(s, before, id) {
      CancelledAttempt(waiting, id, world, env);
      FinalForever(end, later, id);
    } else {
      assert world.(outcome := outcome) == world;
      LegsStay(end, later, id);
    }
  }

  lemma LegsStay(s: Installer, events: seq<Event>, id: Uuid)
    requires id in s.legs
    ensures id in Run(s, events).legs
  {
    hide Grows;
    RunGrows(s, events);
  }

  lemma ReturnIs(s: Installer, id: Uuid, world: T.World, env: Env)
    requires id in s.legs && id in s.calls && s.legs[id].flight.Attempting? && s.legs[id].request.plan.Some?
    ensures var end := Step(s, Return(id, world, env));
            && id in end.legs
            && end.legs[id] == Returned(s.legs[id], s.calls[id],
                                        T.Executed(s.engine, s.legs[id].flight.command, world).result, env)
  {
    hide Returned, T.Executed;
  }

  /** A request whose engine raised: no later run without a `reject` of it changes it, and only a `reject` makes it
      terminal. */
  lemma {:induction false} StaleForever(s: Installer, events: seq<Event>, id: Uuid)
    requires id in s.legs && EntrySound(s.legs[id]) && Stale(s.legs[id]) && !IsTerminal(s.legs[id].request.state)
    ensures id in Run(s, events).legs
    ensures IsTerminal(Run(s, events).legs[id].request.state) <==> exists e :: e in events && e.Reject? && e.id == id
    ensures !IsTerminal(Run(s, events).legs[id].request.state) ==> Run(s, events).legs[id] == s.legs[id]
    decreases |events|
  {
    hide Step, EntrySound;
    if events != [] {
      StaleStep(s, events[0], id);
      var next := Step(s, events[0]);
      if events[0].Reject? && events[0].id == id {
        FinalForever(next, events[1..], id);
        assert events[0] in events;
      } else {
        StaleForever(next, events[1..], id);
        assert forall e :: e in events <==> e == events[0] || e in events[1..];
      }
    }
  }

  lemma StaleStep(s: Installer, e: Event, id: Uuid)
    requires id in s.legs && EntrySound(s.legs[id]) && Stale(s.legs[id]) && !IsTerminal(s.legs[id].request.state)
    ensures id in Step(s, e).legs
    ensures if e.Reject? && e.id == id then Step(s, e).legs[id] == s.legs[id].(request := Step(s, e).legs[id].request)
                                            && IsTerminal(Step(s, e).legs[id].request.state)
            else Step(s, e).legs[id] == s.legs[id]
  {
    hide Begun, Returned, Asked, T.Executed, ToolTrust.Apply, Diagnosed;
  }

  const RAISING := T.World(false, false, T.Raises)

  /** It does happen, to any request that can be started: the engine raises, and the request stays INSTALLING; `cancel`
      changes nothing then or ever after. */
  lemma RaisedThenCancelled(s: Installer, id: Uuid, session: Uuid, target: TargetScope, env: Env)
    requires Sound(s) && Startable(s, id, session, target, env.now)
    ensures var events := [Start(id, session, target, env), Return(id, RAISING, env)];
            var s2 := Run(s, events);
            && id in s2.legs && s2.legs[id].request.state == INSTALLING && Stale(s2.legs[id])
            && Step(s2, Cancel(id)) == s2
  {
    assert id in s.legs && LegSound(s.legs[id], s.maxAttempts);
    hide Step, LegSound, Sound, Startable;
    StartIsAnswerable(s, id, session, target, env);
    var events := [Start(id, session, target, env), Return(id, RAISING, env)];
    var s1 := Step(s, events[0]);
    assert events[1..] == [events[1]] && [events[1]][1..] == [];
    assert Run(s, events) == Run(s1, [events[1]]) == Run(Step(s1, events[1]), []);
    StartIsSound(s, events[0]);
    RaisedIsStale(s1, id, env);
  }

  lemma StartIsSound(s: Installer, e: Event)
    requires Sound(s)
    ensures Sound(Step(s, e))
  {
    StepSound(s, e);
  }

  lemma RaisedIsStale(s: Installer, id: Uuid, env: Env)
    requires Sound(s) && Answerable(s, id, env) && s.legs[id].request.state == INSTALLING
    ensures var s2 := Step(s, Return(id, RAISING, env));
            && id in s2.legs && s2.legs[id].request.state == INSTALLING && Stale(s2.legs[id])
            && Step(s2, Cancel(id)) == s2
  {
    hide VerificationCommand, T.ValidArgv, Approves, IsAuthorized, RequestSound, MayRetry;
    assert LegSound(s.legs[id], s.maxAttempts);
    var s2 := Step(s, Return(id, RAISING, env));
    assert s2.legs[id] == Raise(s.legs[id], EngineRaised);
    assert s2.legs[id := s2.legs[id]] == s2.legs;
  }

  // --- When a terminal state is final ------------------------------------------------------------------------------

  ghost predicate MayLeave(s: Installer, id: Uuid)
    requires id in s.legs
  {
    exists events :: id in Run(s, events).legs && Run(s, events).legs[id].request.state != s.legs[id].request.state
  }

  /** In every reachable state, a terminal state is final exactly when no call waits for the engine on the request's
      behalf: otherwise some answers of the engine take the request out of it. */
  lemma FinalExactly(s0: Installer, past: seq<Event>, id: Uuid)
    requires s0 == Initial(s0.maxAttempts, s0.interpreter, s0.engine.sessions)
    requires id in Run(s0, past).legs && IsTerminal(Run(s0, past).legs[id].request.state)
    ensures Run(s0, past).legs[id].flight.Landed? <==> !MayLeave(Run(s0, past), id)
  {
    var s := Run(s0, past);
    hide Step, MayLeave;
    if s.legs[id].flight.Landed? {
      LandedStays(s, id);
    } else {
      ReachableLeg(s0, past, id);
      CallLeaves(past, s, id);
    }
  }

  lemma ReachableLeg(s0: Installer, past: seq<Event>, id: Uuid)
    requires s0 == Initial(s0.maxAttempts, s0.interpreter, s0.engine.sessions) && id in Run(s0, past).legs
    ensures EntrySound(Run(s0, past).legs[id]) && LegOrdered(past, Run(s0, past), id) && Sound(Run(s0, past))
  {
    assert AllOrdered([], s0);
    hide Step, LegOrdered, EntrySound, LaunchOrdered, LegSound;
    RunOrdered([], s0, past);
    RunEntries(s0, past);
    RunSound(s0, past);
    assert [] + past == past;
  }

  lemma LandedStays(s: Installer, id: Uuid)
    requires id in s.legs && IsTerminal(s.legs[id].request.state) && s.legs[id].flight.Landed?
    ensures !MayLeave(s, id)
  {
    hide Step;
    forall events
      ensures id in Run(s, events).legs && Run(s, events).legs[id] == s.legs[id]
    {
      FinalForever(s, events, id);
    }
  }

  lemma CallLeaves(past: seq<Event>, s: Installer, id: Uuid)
    requires id in s.legs && EntrySound(s.legs[id]) && LegOrdered(past, s, id) && Sound(s)
    requires !s.legs[id].flight.Landed? && IsTerminal(s.legs[id].request.state)
    ensures MayLeave(s, id)
  {
    hide Step, LegOrdered, EntrySound, Run, Sound;
    var env := Env(0, id, FAILING);
    var events := [SetSession(s.legs[id].flight.command.session, T.READY), Return(id, FAILING, env),
                   Return(id, FAILING, env)];
    AnswersMoveOn(past, s, id, env);
    RunThree(s, events);
    assert id in Run(s, events).legs && Run(s, events).legs[id].request.state != s.legs[id].request.state;
  }

  lemma RunThree(s: Installer, events: seq<Event>)
    requires |events| == 3
    ensures Run(s, events) == Step(Step(Step(s, events[0]), events[1]), events[2])
  {
    hide Step;
    var s1 := Step(s, events[0]);
    var s2 := Step(s1, events[1]);
    var s3 := Step(s2, events[2]);
    assert events[1..][1..] == events[2..] && events[2..][1..] == [];
    assert Run(s, events) == Run(s1, events[1..]) == Run(s2, events[2..]) == Run(s3, []) == s3;
  }

  /** The process ends with an error. */
  const FAILING := T.World(false, false, T.Ends(false, false, Some(1), None, None))

  /** How the engine reports that: a command with valid arguments fails, any other had never been started. */
  function FailureOf(c: T.CommandRequest): T.CommandStatus {
    if T.ValidArgv(c.argv) then T.CommandStatus.FAILED else T.REJECTED
  }

  lemma FailedAnswer(e: T.Engine, c: T.CommandRequest)
    requires T.Active(e.sessions, c.session)
    ensures var x := T.Executed(e, c, FAILING);
            && x.result.Some? && x.result.value.status in {T.CommandStatus.FAILED, T.REJECTED}
            && (Approves(c.authorization, c.approvedByUser) ==> x.result.value.status == FailureOf(c))
            && T.Active(x.after.sessions, c.session)
  {
    hide T.ValidArgv, Approves;
  }

  /** Where a failure leads: out of the terminal state, or on to the same command again, whose failure will end the
      request. */
  lemma FailureReturns(l: Leg, call: Call, result: T.CommandResult, env: Env)
    requires EntrySound(l) && !l.flight.Landed? && l.request.plan.Some? && IsTerminal(l.request.state)
    requires l.flight.Attempting? ==> IsInstallArgv(l.request, call, l.flight.command.argv)
    requires result.status in {T.CommandStatus.FAILED, T.REJECTED}
    ensures var m := Returned(l, call, Some(result), env);
            && m.request.plan == l.request.plan
            && (if m.flight.Landed? then m.request.state in {FAILED, BLOCKED, ROLLBACK_REQUIRED}
                else
                  && l.flight.Attempting? && l.flight.last != Some(result.status)
                  && m.flight.Attempting? && m.flight.last == Some(result.status)
                  && EntrySound(m) && m.request.state == l.request.state
                  && m.flight.command.session == call.session && m.flight.command.argv == l.flight.command.argv
                  && IsInstallArgv(m.request, call, m.flight.command.argv))
  {
    hide InstallCommand, Evaluate;
  }

  /** One failure, as a step. */
  lemma FailedStep(s: Installer, id: Uuid, env: Env)
    requires id in s.legs && id in s.calls && !s.legs[id].flight.Landed? && s.legs[id].request.plan.Some?
    requires T.Active(s.engine.sessions, s.legs[id].flight.command.session)
    ensures var after := Step(s, Return(id, FAILING, env));
            var c := s.legs[id].flight.command;
            var x := T.Executed(s.engine, c, FAILING);
            && x.result.Some? && x.result.value.status in {T.CommandStatus.FAILED, T.REJECTED}
            && (Approves(c.authorization, c.approvedByUser) ==> x.result.value.status == FailureOf(c))
            && id in after.legs && after.legs[id] == Returned(s.legs[id], s.calls[id], x.result, env)
            && after.calls == s.calls && T.Active(after.engine.sessions, c.session)
  {
    FailedAnswer(s.engine, s.legs[id].flight.command);
    hide Returned, T.Executed, T.Active, Approves;
  }

  lemma LandedStep(s: Installer, id: Uuid, env: Env)
    requires id in s.legs && s.legs[id].flight.Landed?
    ensures Step(s, Return(id, FAILING, env)) == s
  {
  }

  lemma AnswersMoveOn(past: seq<Event>, s: Installer, id: Uuid, env: Env)
    requires id in s.legs && EntrySound(s.legs[id]) && LegOrdered(past, s, id) && Sound(s)
    requires !s.legs[id].flight.Landed? && IsTerminal(s.legs[id].request.state)
    ensures var s1 := Step(s, SetSession(s.legs[id].flight.command.session, T.READY));
            var end := Step(Step(s1, Return(id, FAILING, env)), Return(id, FAILING, env));
            id in end.legs && end.legs[id].request.state != s.legs[id].request.state
  {
    hide Returned, T.Executed, Ordered, LegOrdered, IsInstallArgv, LegSound, EntrySound;
    PlanOrdered(past, s, id);
    var session := SetSession(s.legs[id].flight.command.session, T.READY);
    StepSound(s, session);
    MoveOn(Step(s, session), id, env);
  }

  lemma PlanOrdered(past: seq<Event>, s: Installer, id: Uuid)
    requires id in s.legs && LegOrdered(past, s, id) && !s.legs[id].flight.Landed?
    ensures id in s.calls && s.legs[id].request.plan.Some? && s.legs[id].flight.command.session == s.calls[id].session
    ensures s.legs[id].flight.Attempting? ==>
        IsInstallArgv(s.legs[id].request, s.calls[id], s.legs[id].flight.command.argv)
  {
    hide InstallCommand, VerificationCommand, Evaluate, Called;
    var l, call := s.legs[id], s.calls[id];
    var j: nat, k: nat :| OrderedAt(past, j, k, id, l.request, call, l.flight.command);
  }

  lemma TerminalInFlight(l: Leg)
    requires EntrySound(l) && !l.flight.Landed? && IsTerminal(l.request.state)
    ensures l.request.state == CANCELLED
  {
  }

  lemma AttemptApproved(s: Installer, id: Uuid)
    requires Sound(s) && id in s.legs && s.legs[id].flight.Attempting?
    ensures var c := s.legs[id].flight.command; Approves(c.authorization, c.approvedByUser)
  {
    assert LegSound(s.legs[id], s.maxAttempts);
    hide RequestSound, MayRetry;
  }

  lemma MoveOn(s: Installer, id: Uuid, env: Env)
    requires Sound(s) && id in s.legs && id in s.calls && EntrySound(s.legs[id]) && s.legs[id].request.plan.Some?
    requires !s.legs[id].flight.Landed? && IsTerminal(s.legs[id].request.state)
    requires s.legs[id].flight.command.session == s.calls[id].session
        && T.Active(s.engine.sessions, s.calls[id].session)
    requires s.legs[id].flight.Attempting? ==>
        IsInstallArgv(s.legs[id].request, s.calls[id], s.legs[id].flight.command.argv)
    ensures var end := Step(Step(s, Return(id, FAILING, env)), Return(id, FAILING, env));
            id in end.legs && end.legs[id].request.state != s.legs[id].request.state
  {
    hide Step, EntrySound, IsInstallArgv, T.Executed, Returned, T.Active, Sound, Approves;
    var l, call := s.legs[id], s.calls[id];
    TerminalInFlight(l);
    FailedStep(s, id, env);
    FailureReturns(l, call, T.Executed(s.engine, l.flight.command, FAILING).result.value, env);
    var s1 := Step(s, Return(id, FAILING, env));
    StepSound(s, Return(id, FAILING, env));
    var m := s1.legs[id];
    if m.flight.Landed? {
      LandedStep(s1, id, env);
    } else {
      AttemptApproved(s, id);
      AttemptApproved(s1, id);
      FailedStep(s1, id, env);
      FailureReturns(m, call, T.Executed(s1.engine, m.flight.command, FAILING).result.value, env);
    }
  }
}
