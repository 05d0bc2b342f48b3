/** The registry that keeps tasks as database rows, and why an orchestrator cannot tell it from the one in memory. */
module AgentLockstep {
  import opened Prelude
  import opened AgentModels
  import opened AgentTask
  import opened AgentSnapshot
  import AgentFleet

  // --- Rows --------------------------------------------------------------------------------------------------------

  /** The columns of a row that are read again. */
  datatype Row = Row(phase: Phase, snapshot: Json)

  function RowOf(t: Task): Row {
    Row(t.phase, Snapshot(t))
  }

  function ActiveRows(rows: map<Uuid, Row>): set<Uuid> {
    set id | id in rows && rows[id].phase !in TERMINAL_PHASES
  }

  class TaskRow {
    const id: Uuid
    var phase: Phase
    var stateSnapshot: Json

    constructor (state: Task)
      ensures id == state.header.id && Value() == RowOf(state)
    {
      id, phase, stateSnapshot := state.header.id, state.phase, Snapshot(state);
    }

    ghost function Value(): Row
      reads this
    {
      Row(phase, stateSnapshot)
    }
  }

  class SqlAlchemyAgentTaskRegistry {
    var rows: map<Uuid, TaskRow>

    constructor ()
      ensures rows == map[] && Valid()
    {
      rows := map[];
    }

    /** The phase column repeats the phase of the snapshot, and every snapshot can be read. */
    ghost predicate Valid()
      reads this, rows.Values
    {
      forall id :: id in rows ==>
        && rows[id].id == id
        && var t := FromSnapshot(rows[id].stateSnapshot);
           t.Some? && t.value.phase == rows[id].phase && t.value.header.id == id
    }

    ghost function Rows(): map<Uuid, Row>
      reads this, rows.Values
    {
      map id | id in rows :: rows[id].Value()
    }

    function Concerned(id: Uuid): set<TaskRow>
      reads this
    {
      if id in rows then {rows[id]} else {}
    }

    method Create(state: Task) returns (created: Option<Task>)
      requires Valid()
      modifies this
      ensures Valid() && created == Some(state)
      ensures state.header.id in rows && fresh(rows[state.header.id])
      ensures rows == old(rows)[state.header.id := rows[state.header.id]]
          && rows[state.header.id].Value() == RowOf(state)
    {
      hide Snapshot, FromSnapshot;
      RoundTrip(state);
      var row := new TaskRow(state);
      rows := rows[state.header.id := row];
      created := FromSnapshot(row.stateSnapshot);
    }

    /** What was saved last, as a value of its own; `None` means that the task was not found. */
    method Get(id: Uuid) returns (state: Option<Task>)
      requires Valid()
      ensures state == if id in rows then FromSnapshot(rows[id].stateSnapshot) else None
      ensures id in rows <==> state.Some?
    {
      if id !in rows {
        return None;
      }
      state := FromSnapshot(rows[id].stateSnapshot);
    }

    method Save(state: Task) returns (saved: Option<Task>)
      requires Valid()
      modifies Concerned(state.header.id)
      ensures Valid()
      ensures state.header.id !in rows ==> saved.None?
      ensures state.header.id in rows ==> saved == Some(state) && rows[state.header.id].Value() == RowOf(state)
    {
      hide Snapshot, FromSnapshot;
      RoundTrip(state);
      if state.header.id !in rows {
        return None;
      }
      var row := rows[state.header.id];
      row.phase := state.phase;
      row.stateSnapshot := Snapshot(state);
      saved := FromSnapshot(row.stateSnapshot);
    }

    method CountActive() returns (n: nat)
      ensures n == |ActiveRows(Rows())|
    {
      var unseen := rows.Keys;
      ghost var seen: set<Uuid> := {};
      n := 0;
      while unseen != {}
        invariant unseen <= rows.Keys
        invariant seen == set id | id in rows && id !in unseen && rows[id].phase !in TERMINAL_PHASES
        invariant n == |seen|
        decreases |unseen|
      {
        var id :| id in unseen;
        if rows[id].phase !in TERMINAL_PHASES {
          n := n + 1;
          seen := seen + {id};
        }
        unseen := unseen - {id};
      }
      assert seen == ActiveRows(Rows());
    }
  }

  // --- Lockstep ----------------------------------------------------------------------------------------------------

  /** The same task but for the time of its last update, which only the registry in memory refreshes. */
  predicate Alike(t: Task, u: Task) {
    t.(updatedAt := 0) == u.(updatedAt := 0)
  }

  function At(t: Task, time: Time): Task {
    t.(updatedAt := time)
  }

  /** No operation looks at the time of the last update: either it saves, and then overwrites it, or it changes
      nothing. */
  predicate IgnoresTime(t: Task, time: Time, s: Stepped, s': Stepped) {
    s.reply == s'.reply && (s.task == s'.task || (s.task == t && s'.task == At(t, time)))
  }

  lemma LifeCycleIgnoresTime(t: Task, time: Time, now: Time, answer: string, evidence: Uuid)
    ensures IgnoresTime(t, time, Paused(t, now), Paused(At(t, time), now))
    ensures IgnoresTime(t, time, Resumed(t, now), Resumed(At(t, time), now))
    ensures IgnoresTime(t, time, Cancelled(t, now), Cancelled(At(t, time), now))
    ensures IgnoresTime(t, time, Clarified(t, now, answer, evidence), Clarified(At(t, time), now, answer, evidence))
  {
    hide Unanswered;
  }

  lemma VerdictIgnoresTime(t: Task, time: Time, now: Time, reason: string)
    ensures IgnoresTime(t, time, ActionApproved(t, now), ActionApproved(At(t, time), now))
    ensures IgnoresTime(t, time, ActionRejected(t, now, reason), ActionRejected(At(t, time), now, reason))
  {
    hide IndexOf;
  }

  lemma ExecutedIgnoresTime(t: Task, time: Time, i: nat, b: Budget, x: Input)
    requires i < |t.actions|
    ensures Executed(At(t, time), i, b, x) == Executed(t, i, b, x)
  {
    hide Performed, Settled;
  }

  lemma BlockedIgnoresTime(t: Task, time: Time, e: AgentError, reason: string, now: Time)
    ensures Blocked(At(t, time), reason, now) == Blocked(t, reason, now)
    ensures BlockedWithError(At(t, time), e, reason, now) == BlockedWithError(t, e, reason, now)
  {
  }

  lemma TakenIgnoresTime(t: Task, time: Time, d: Decision, b: Budget, x: Input)
    ensures Taken(At(t, time), d, b, x) == Taken(t, d, b, x)
  {
    hide Executed, Gated, BuiltAction, BlockedWithError;
    var g := Gated(t.header, d);
    if g.OutOfScope? {
      BlockedIgnoresTime(t, time, AgentError(x.ids.error, None, "out_of_scope", g.message, x.now), g.message, x.now);
    } else {
      var r := ActionRecorded(t, BuiltAction(d, g, x.ids.action, x.now));
      assert ActionRecorded(At(t, time), BuiltAction(d, g, x.ids.action, x.now)) == At(r, time);
      ExecutedIgnoresTime(r, time, |t.actions|, b, x);
    }
  }

  lemma PendingIgnoresTime(t: Task, time: Time, b: Budget, x: Input)
    requires t.pendingActionId.Some?
    ensures IgnoresTime(t, time, PendingExecuted(t, b, x), PendingExecuted(At(t, time), b, x))
  {
    hide Executed, IndexOf;
    var i := IndexOf(t.actions, t.pendingActionId.value);
    if i.Some? {
      assert At(t, time).(pendingActionId := None) == At(t.(pendingActionId := None), time);
      ExecutedIgnoresTime(t.(pendingActionId := None), time, i.value, b, x);
    }
  }

  lemma AdvancedIgnoresTime(t: Task, time: Time, b: Budget, x: Input)
    ensures IgnoresTime(t, time, Advanced(t, b, x), Advanced(At(t, time), b, x))
  {
    hide PendingExecuted, Taken, Blocked, BlockedWithError;
    if !IsTerminal(t) && !Waits(t) {
      if t.phase == PREPARING && t.pendingActionId.Some? {
        PendingIgnoresTime(t, time, b, x);
      } else if ExceededBudget(t, b, x.now).Some? {
        BlockedIgnoresTime(t, time, AgentError(x.ids.error, None, "", "", x.now), ExceededBudget(t, b, x.now).value,
                           x.now);
      } else {
        match x.reasoning
        case Breaks =>
        case Fails(message) =>
          BlockedIgnoresTime(t, time, AgentError(x.ids.error, None, "invalid_decision", message, x.now),
                             "Reasoning failed: " + message, x.now);
        case Decides(d) =>
          assert At(t, time).(modelCallCount := t.modelCallCount + 1) ==
              At(t.(modelCallCount := t.modelCallCount + 1), time);
          TakenIgnoresTime(t.(modelCallCount := t.modelCallCount + 1), time, d, b, x);
      }
    }
  }

  lemma ApplyIgnoresTime(t: Task, time: Time, b: Budget, op: Op)
    ensures IgnoresTime(t, time, Apply(t, b, op), Apply(At(t, time), b, op))
  {
    hide Advanced, Paused, Resumed, Cancelled, Clarified, ActionApproved, ActionRejected;
    match op
    case Step(x) => AdvancedIgnoresTime(t, time, b, x);
    case ApproveAction(now) => VerdictIgnoresTime(t, time, now, "");
    case RejectAction(now, reason) => VerdictIgnoresTime(t, time, now, reason);
    case Pause(now) => LifeCycleIgnoresTime(t, time, now, "", Uuid(0));
    case Resume(now) => LifeCycleIgnoresTime(t, time, now, "", Uuid(0));
    case Cancel(now) => LifeCycleIgnoresTime(t, time, now, "", Uuid(0));
    case Clarify(now, answer, evidence) => LifeCycleIgnoresTime(t, time, now, answer, evidence);
  }

  lemma ApplyAlike(t: Task, u: Task, b: Budget, op: Op)
    requires Alike(t, u)
    ensures Alike(Apply(t, b, op).task, Apply(u, b, op).task) && Apply(t, b, op).reply == Apply(u, b, op).reply
  {
    hide Apply;
    assert u == At(t, u.updatedAt);
    ApplyIgnoresTime(t, u.updatedAt, b, op);
  }

  /** One event on the rows: the task is read back, the operation applied, and the result saved without a new update
      time. */
  function NextRows(rows: map<Uuid, Row>, b: Budget, e: AgentFleet.Event): map<Uuid, Row> {
    match e
    case Create(h, now) =>
      if |ActiveRows(rows)| >= b.maxConcurrent then rows else rows[h.id := RowOf(Created(h, now))]
    case On(id, op) =>
      if id !in rows then rows
      else
        match FromSnapshot(rows[id].snapshot)
        case None => rows
        case Some(t) => rows[id := RowOf(At(Apply(t, b, op).task, t.updatedAt))]
  }

  function RowsAfter(rows: map<Uuid, Row>, b: Budget, events: seq<AgentFleet.Event>): map<Uuid, Row>
    decreases |events|
  {
    if events == [] then rows else RowsAfter(NextRows(rows, b, events[0]), b, events[1..])
  }

  /** A row that cannot be read makes the call raise. */
  function RowReply(rows: map<Uuid, Row>, b: Budget, e: AgentFleet.Event): Reply {
    match e
    case Create(_, _) => if |ActiveRows(rows)| >= b.maxConcurrent then ConcurrentLimit else Fine
    case On(id, op) =>
      if id !in rows then TaskNotFound
      else
        match FromSnapshot(rows[id].snapshot)
        case None => ServiceRaised
        case Some(t) => Apply(t, b, op).reply
  }

  function RowReplies(rows: map<Uuid, Row>, b: Budget, events: seq<AgentFleet.Event>): seq<Reply>
    decreases |events|
  {
    if events == [] then []
    else [RowReply(rows, b, events[0])] + RowReplies(NextRows(rows, b, events[0]), b, events[1..])
  }

  /** A row can be read, its phase column is right, and it holds the task in memory. */
  predicate Holds(row: Row, t: Task) {
    var u := FromSnapshot(row.snapshot);
    u.Some? && u.value.phase == row.phase && Alike(u.value, t)
  }

  predicate InStep(tasks: map<Uuid, Task>, rows: map<Uuid, Row>) {
    tasks.Keys == rows.Keys && forall id :: id in tasks ==> Holds(rows[id], tasks[id])
  }

  lemma RowHolds(t: Task, u: Task)
    requires Alike(u, t)
    ensures Holds(RowOf(u), t)
  {
    hide Snapshot, FromSnapshot;
    RoundTrip(u);
  }

  lemma SameActive(tasks: map<Uuid, Task>, rows: map<Uuid, Row>)
    requires InStep(tasks, rows)
    ensures ActiveRows(rows) == Active(tasks)
  {
    hide FromSnapshot;
    assert forall id :: id in tasks <==> id in rows.Keys;
    forall id | id in tasks
      ensures rows[id].phase == tasks[id].phase
    {
      assert Holds(rows[id], tasks[id]);
    }
  }

  lemma NextInStep(tasks: map<Uuid, Task>, rows: map<Uuid, Row>, b: Budget, e: AgentFleet.Event)
    requires InStep(tasks, rows)
    ensures InStep(AgentFleet.Next(tasks, b, e), NextRows(rows, b, e))
    ensures RowReply(rows, b, e) == AgentFleet.ReplyTo(tasks, b, e)
  {
    hide FromSnapshot, Snapshot, Apply, Created, Active, ActiveRows, Holds, RowOf;
    SameActive(tasks, rows);
    assert forall id :: id in tasks.Keys <==> id in rows.Keys;
    match e
    case Create(h, now) => RowHolds(Created(h, now), Created(h, now));
    case On(id, op) =>
      if id in tasks {
        HeldApplied(rows[id], tasks[id], b, op);
      }
  }

  lemma HeldApplied(row: Row, t: Task, b: Budget, op: Op)
    requires Holds(row, t)
    ensures var u := FromSnapshot(row.snapshot);
            && u.Some? && Apply(u.value, b, op).reply == Apply(t, b, op).reply
            && Holds(RowOf(At(Apply(u.value, b, op).task, u.value.updatedAt)), Apply(t, b, op).task)
  {
    hide FromSnapshot, Snapshot, Apply, RowOf;
    var u := FromSnapshot(row.snapshot).value;
    ApplyAlike(u, t, b, op);
    RowHolds(Apply(t, b, op).task, At(Apply(u, b, op).task, u.updatedAt));
  }

  /** Lockstep: driven by the same events, the registry of rows and the registry in memory hold the same tasks but for
      the update times, give every operation the same reply and count the same tasks as active. */
  lemma {:induction false} Lockstep(tasks: map<Uuid, Task>, rows: map<Uuid, Row>, b: Budget,
                                    events: seq<AgentFleet.Event>)
    requires InStep(tasks, rows)
    ensures InStep(AgentFleet.After(tasks, b, events), RowsAfter(rows, b, events))
    ensures RowReplies(rows, b, events) == AgentFleet.Replies(tasks, b, events)
    ensures ActiveRows(RowsAfter(rows, b, events)) == Active(AgentFleet.After(tasks, b, events))
    decreases |events|
  {
    hide InStep, AgentFleet.Next, NextRows, ActiveRows, Active, RowReply, AgentFleet.ReplyTo;
    if events == [] {
      SameActive(tasks, rows);
    } else {
      NextInStep(tasks, rows, b, events[0]);
      Lockstep(AgentFleet.Next(tasks, b, events[0]), NextRows(rows, b, events[0]), b, events[1..]);
    }
  }
}
