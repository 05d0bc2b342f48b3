/** All tasks of one registry together. */
module AgentFleet {
  import opened Prelude
  import opened AgentModels
  import opened AgentTask
  import opened AgentSafety

  datatype Event = Create(header: Header, at: Time) | On(id: Uuid, op: Op)

  function Next(tasks: map<Uuid, Task>, b: Budget, e: Event): map<Uuid, Task> {
    match e
    case Create(h, now) => if |Active(tasks)| >= b.maxConcurrent then tasks else tasks[h.id := Created(h, now)]
    case On(id, op) => if id in tasks then tasks[id := Apply(tasks[id], b, op).task] else tasks
  }

  function After(tasks: map<Uuid, Task>, b: Budget, events: seq<Event>): map<Uuid, Task>
    decreases |events|
  {
    if events == [] then tasks else After(Next(tasks, b, events[0]), b, events[1..])
  }

  /** How the event's operation ends. */
  function ReplyTo(tasks: map<Uuid, Task>, b: Budget, e: Event): Reply {
    match e
    case Create(_, _) => if |Active(tasks)| >= b.maxConcurrent then ConcurrentLimit else Fine
    case On(id, op) => if id in tasks then Apply(tasks[id], b, op).reply else TaskNotFound
  }

  function Replies(tasks: map<Uuid, Task>, b: Budget, events: seq<Event>): seq<Reply>
    decreases |events|
  {
    if events == [] then [] else [ReplyTo(tasks, b, events[0])] + Replies(Next(tasks, b, events[0]), b, events[1..])
  }

  lemma NextBounded(tasks: map<Uuid, Task>, b: Budget, e: Event)
    requires |Active(tasks)| <= Max(0, b.maxConcurrent)
    ensures |Active(Next(tasks, b, e))| <= Max(0, b.maxConcurrent)
  {
    hide Apply, Created, IsTerminal;
    var after := Next(tasks, b, e);
    match e
    case Create(h, _) =>
      if |Active(tasks)| < b.maxConcurrent {
        assert Active(after) <= Active(tasks) + {h.id};
        SubsetSmaller(Active(after), Active(tasks) + {h.id});
      }
    case On(id, op) =>
      if id in tasks {
        if IsTerminal(tasks[id]) {
          TerminalAbsorbs(tasks[id], b, op);
        }
        assert Active(after) <= Active(tasks);
        SubsetSmaller(Active(after), Active(tasks));
      }
  }

  /** However many tasks are created and driven, in whatever order, never more than the limit are active at once. */
  lemma {:induction false} NeverTooManyActive(tasks: map<Uuid, Task>, b: Budget, events: seq<Event>)
    requires |Active(tasks)| <= Max(0, b.maxConcurrent)
    ensures |Active(After(tasks, b, events))| <= Max(0, b.maxConcurrent)
    decreases |events|
  {
    hide Next;
    if events != [] {
      NextBounded(tasks, b, events[0]);
      NeverTooManyActive(Next(tasks, b, events[0]), b, events[1..]);
    }
  }
}
