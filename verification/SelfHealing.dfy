/** The self-healing proposer: strategy table, history store and `heal`. The diagnosis of a failure (regular expressions
    over its output) is an input. */
module SelfHealing {
  import opened Prelude

  datatype Confidence = HIGH | MEDIUM | LOW | UNKNOWN

  datatype StrategyKind =
    | RETRY_WITH_BACKOFF | INSTALL_MISSING_DEPENDENCY | USE_ALTERNATIVE_TOOL | ADJUST_TIMEOUT
    | REDUCE_SCOPE | ESCALATE_TO_USER | ABANDON

  datatype Outcome = PENDING | APPLIED | SUCCEEDED | FAILED | REJECTED

  datatype Diagnosis = Diagnosis(category: string, rootCause: string, confidence: Confidence)

  datatype Parameters = NoParameters | Backoff(seconds: real) | TimeoutMultiplier(factor: int) | Hint(text: string)

  datatype Strategy = Strategy(
    kind: StrategyKind, parameters: Parameters, requiresPolicyRecheck: bool, requiresUserApproval: bool)

  datatype Attempt = Attempt(
    id: Uuid, task: Uuid, action: Option<Uuid>, diagnosis: Diagnosis, strategy: Strategy, outcome: Outcome,
    note: string)

  datatype Config = Config(maxRetries: int, backoffBase: real, maxTimeoutMultiplier: real)

  function Pow2(n: nat): (p: nat)
    ensures p >= 1
  {
    if n == 0 then 1 else 2 * Pow2(n - 1)
  }

  /** Python's `int()` on a float: truncation toward zero. */
  function Truncate(x: real): int {
    if x >= 0.0 then x.Floor else -(-x).Floor
  }

  function Escalate(): Strategy {
    Strategy(ESCALATE_TO_USER, NoParameters, false, true)
  }

  function Propose(cfg: Config, d: Diagnosis, retriesUsed: nat, prior: seq<string>): Strategy {
    if prior != [] && prior[|prior| - 1] == d.category && d.category != "timeout" then
      Strategy(ABANDON, NoParameters, false, false)
    else if d.category == "policy_restriction" then Escalate()
    else if d.category == "timeout" && retriesUsed < cfg.maxRetries then
      Strategy(ADJUST_TIMEOUT,
               TimeoutMultiplier(Min(Pow2(retriesUsed + 1), Truncate(cfg.maxTimeoutMultiplier))), true, false)
    else if d.category == "missing_package" || d.category == "missing_executable" then
      Strategy(INSTALL_MISSING_DEPENDENCY, Hint(d.rootCause), true, true)
    else if d.category == "network_connectivity" && retriesUsed < cfg.maxRetries then
      Strategy(RETRY_WITH_BACKOFF, Backoff(cfg.backoffBase * Pow2(retriesUsed) as real), false, false)
    else if d.category == "incompatible_version" then Strategy(USE_ALTERNATIVE_TOOL, NoParameters, false, true)
    else if d.category == "permission_issue" || d.category == "disk_space" then Escalate()
    else if d.category == "invalid_argument" then Strategy(REDUCE_SCOPE, NoParameters, true, true)
    else if d.confidence == LOW || d.confidence == UNKNOWN || retriesUsed >= cfg.maxRetries then Escalate()
    else Strategy(RETRY_WITH_BACKOFF, Backoff(cfg.backoffBase), false, false)
  }

  // --- history -----------------------------------------------------------------------------------------------------

  type History = seq<Attempt>

  /** `attempts_for_task` */
  function ForTask(h: History, task: Uuid): History {
    if h == [] then []
    else
      ForTask(h[..|h| - 1], task) + (if h[|h| - 1].task == task then [h[|h| - 1]] else [])
  }

  function Categories(h: History): (r: seq<string>)
    ensures |r| == |h|
    ensures forall i :: 0 <= i < |h| ==> r[i] == h[i].diagnosis.category
  {
    seq(|h|, i requires 0 <= i < |h| => h[i].diagnosis.category)
  }

  function Count(h: History, category: string): nat {
    if h == [] then 0
    else Count(h[..|h| - 1], category) + (if h[|h| - 1].diagnosis.category == category then 1 else 0)
  }

  /** The attempt `heal` records: what it proposes given the task's own history. */
  function Proposed(cfg: Config, h: History, id: Uuid, task: Uuid, action: Option<Uuid>, d: Diagnosis): Attempt {
    var prior := ForTask(h, task);
    Attempt(id, task, action, d, Propose(cfg, d, Count(prior, d.category), Categories(prior)), PENDING, "")
  }

  function Annotated(note: string, extra: string): string {
    if extra == "" then note else if note == "" then extra else note + " | " + extra
  }

  /** Index of the first attempt with that id; `|h|` when there is none. */
  function IndexOf(h: History, id: Uuid): (i: nat)
    ensures i <= |h|
    ensures i < |h| ==> h[i].id == id
    ensures forall j :: 0 <= j < i ==> h[j].id != id
  {
    if h == [] then 0 else if h[0].id == id then 0 else 1 + IndexOf(h[1..], id)
  }

  /** The first attempt with that id gets the outcome. */
  function Updated(h: History, id: Uuid, outcome: Outcome, note: string): History {
    var i := IndexOf(h, id);
    if i == |h| then h else h[i := h[i].(outcome := outcome, note := Annotated(h[i].note, note))]
  }

  class HealingHistoryStore {
    var attempts: History

    constructor ()
      ensures attempts == []
    {
      attempts := [];
    }

    method Record(a: Attempt)
      modifies this
      ensures attempts == old(attempts) + [a]
    {
      attempts := attempts + [a];
    }

    method UpdateOutcome(id: Uuid, outcome: Outcome, note: string)
      modifies this
      ensures attempts == Updated(old(attempts), id, outcome, note)
    {
      hide Annotated;
      for i := 0 to |attempts|
        invariant attempts == old(attempts)
        invariant forall j :: 0 <= j < i ==> attempts[j].id != id
      {
        if attempts[i].id == id {
          attempts := attempts[i := attempts[i].(outcome := outcome, note := Annotated(attempts[i].note, note))];
          return;
        }
      }
    }
  }

  class SelfHealingEngine {
    const config: Config
    const history: HealingHistoryStore

    constructor (config: Config, history: HealingHistoryStore)
      ensures this.config == config && this.history == history
    {
      this.config := config;
      this.history := history;
    }

    /** `id` is the fresh attempt id; the diagnosis of the failure signals is an input. */
    method Heal(id: Uuid, task: Uuid, action: Option<Uuid>, diagnosis: Diagnosis) returns (attempt: Attempt)
      modifies history
      ensures history.attempts == old(history.attempts) + [attempt]
      ensures attempt == Proposed(config, old(history.attempts), id, task, action, diagnosis)
    {
      var prior := ForTask(history.attempts, task);
      var retriesUsed := Count(prior, diagnosis.category);
      var strategy := Propose(config, diagnosis, retriesUsed, Categories(prior));
      attempt := Attempt(id, task, action, diagnosis, strategy, PENDING, "");
      history.Record(attempt);
    }
  }

  // --- runs --------------------------------------------------------------------------------------------------------

  datatype Event =
    | Heal(id: Uuid, task: Uuid, action: Option<Uuid>, diagnosis: Diagnosis)
    | RecordOutcome(id: Uuid, outcome: Outcome, note: string)

  function Run(cfg: Config, es: seq<Event>): History {
    if es == [] then []
    else
      var h, e := Run(cfg, es[..|es| - 1]), es[|es| - 1];
      match e
      case Heal(id, task, action, d) => h + [Proposed(cfg, h, id, task, action, d)]
      case RecordOutcome(id, outcome, note) => Updated(h, id, outcome, note)
  }

  /** A history without what only `update_outcome` writes. */
  function Bare(h: History): (r: History)
    ensures |r| == |h|
    ensures forall i :: 0 <= i < |h| ==> r[i] == h[i].(outcome := PENDING, note := "")
  {
    seq(|h|, i requires 0 <= i < |h| => h[i].(outcome := PENDING, note := ""))
  }

  lemma UpdatedBare(h: History, id: Uuid, outcome: Outcome, note: string)
    ensures Bare(Updated(h, id, outcome, note)) == Bare(h)
  {
    hide Annotated;
  }

  lemma {:induction false} ForTaskBare(h: History, task: Uuid)
    ensures ForTask(Bare(h), task) == Bare(ForTask(h, task))
  {
    if h != [] {
      ForTaskBare(h[..|h| - 1], task);
      assert Bare(h)[..|h| - 1] == Bare(h[..|h| - 1]);
    }
  }

  lemma {:induction false} CountBare(h: History, category: string)
    ensures Count(Bare(h), category) == Count(h, category)
    ensures Categories(Bare(h)) == Categories(h)
  {
    if h != [] {
      CountBare(h[..|h| - 1], category);
      assert Bare(h)[..|h| - 1] == Bare(h[..|h| - 1]);
    }
  }

  lemma ForTaskSnoc(h: History, a: Attempt, task: Uuid)
    ensures ForTask(h + [a], task) == ForTask(h, task) + (if a.task == task then [a] else [])
  {
    assert (h + [a])[..|h|] == h;
  }

  /** The heal calls of one task. */
  function OwnHeals(es: seq<Event>, task: Uuid): seq<Event> {
    if es == [] then []
    else
      var e := es[|es| - 1];
      OwnHeals(es[..|es| - 1], task) + (if e.Heal? && e.task == task then [e] else [])
  }

  /** What a task is proposed depends on its own heal calls only: other tasks and recorded outcomes change nothing. */
  lemma {:induction false} TasksAreIndependent(cfg: Config, es: seq<Event>, task: Uuid)
    ensures Bare(ForTask(Run(cfg, es), task)) == Bare(ForTask(Run(cfg, OwnHeals(es, task)), task))
  {
    if es != [] {
      var init, e := es[..|es| - 1], es[|es| - 1];
      TasksAreIndependent(cfg, init, task);
      var h, own := Run(cfg, init), OwnHeals(init, task);
      if e.Heal? && e.task == task {
        assert (own + [e])[..|own|] == own;
        OwnHealStep(cfg, h, Run(cfg, own), e);
      } else {
        assert own + [] == own;
        ForeignStep(cfg, h, Run(cfg, es), e, task);
      }
      hide ForTask, Bare, Proposed, Updated;
    }
  }

  lemma OwnHealStep(cfg: Config, h: History, g: History, e: Event)
    requires e.Heal? && Bare(ForTask(h, e.task)) == Bare(ForTask(g, e.task))
    ensures var a := Proposed(cfg, h, e.id, e.task, e.action, e.diagnosis);
            var b := Proposed(cfg, g, e.id, e.task, e.action, e.diagnosis);
            Bare(ForTask(h + [a], e.task)) == Bare(ForTask(g + [b], e.task))
  {
    var a, b := Proposed(cfg, h, e.id, e.task, e.action, e.diagnosis),
        Proposed(cfg, g, e.id, e.task, e.action, e.diagnosis);
    SameProposal(cfg, h, g, e);
    ForTaskSnoc(h, a, e.task);
    ForTaskSnoc(g, b, e.task);
    BareSnoc(ForTask(h, e.task), a);
    BareSnoc(ForTask(g, e.task), b);
    hide ForTask, Bare, Propose;
  }

  lemma ForeignStep(cfg: Config, h: History, after: History, e: Event, task: Uuid)
    requires e.Heal? ==> e.task != task && after == h + [Proposed(cfg, h, e.id, e.task, e.action, e.diagnosis)]
    requires e.RecordOutcome? ==> after == Updated(h, e.id, e.outcome, e.note)
    ensures Bare(ForTask(after, task)) == Bare(ForTask(h, task))
  {
    if e.Heal? {
      ForTaskSnoc(h, Proposed(cfg, h, e.id, e.task, e.action, e.diagnosis), task);
      assert ForTask(h, task) + [] == ForTask(h, task);
    } else {
      UpdatedBare(h, e.id, e.outcome, e.note);
      ForTaskBare(h, task);
      ForTaskBare(after, task);
    }
  }

  lemma BareSnoc(h: History, a: Attempt)
    ensures Bare(h + [a]) == Bare(h) + [a.(outcome := PENDING, note := "")]
  {
  }

  lemma SameProposal(cfg: Config, h: History, g: History, e: Event)
    requires e.Heal? && Bare(ForTask(h, e.task)) == Bare(ForTask(g, e.task))
    ensures Proposed(cfg, h, e.id, e.task, e.action, e.diagnosis) ==
        Proposed(cfg, g, e.id, e.task, e.action, e.diagnosis)
  {
    CountBare(ForTask(h, e.task), e.diagnosis.category);
    CountBare(ForTask(g, e.task), e.diagnosis.category);
  }

  predicate IsRetry(a: Attempt) {
    a.strategy.kind == RETRY_WITH_BACKOFF || a.strategy.kind == ADJUST_TIMEOUT
  }

  function Retries(h: History, category: string): nat {
    if h == [] then 0
    else
      var a := h[|h| - 1];
      Retries(h[..|h| - 1], category) + (if a.diagnosis.category == category && IsRetry(a) then 1 else 0)
  }

  lemma {:induction false} Pow2Monotone(m: nat, n: nat)
    requires m <= n
    ensures Pow2(m) <= Pow2(n)
  {
    if m < n {
      Pow2Monotone(m, n - 1);
    }
  }

  /** The bounds a proposal respects: backoff at most the base doubled `maxRetries - 1` times, timeout multiplier at
      most its maximum. (A negative maximum is rounded up to an integer, by less than one.) */
  predicate WithinBounds(cfg: Config, s: Strategy) {
    && (s.parameters.Backoff? && cfg.backoffBase >= 0.0 ==>
          && cfg.maxRetries >= 1
          && s.parameters.seconds <= cfg.backoffBase * Pow2(cfg.maxRetries - 1) as real)
    && (s.parameters.TimeoutMultiplier? ==>
          if cfg.maxTimeoutMultiplier >= 0.0
          then s.parameters.factor as real <= cfg.maxTimeoutMultiplier
          else s.parameters.factor as real < cfg.maxTimeoutMultiplier + 1.0)
  }

  lemma ScaleMonotone(base: real, m: int, n: int)
    requires base >= 0.0 && m <= n
    ensures base * m as real <= base * n as real
  {
  }

  lemma ProposedParameters(cfg: Config, d: Diagnosis, retriesUsed: nat, prior: seq<string>)
    ensures var p := Propose(cfg, d, retriesUsed, prior).parameters;
            && (p.Backoff? ==>
                  retriesUsed < cfg.maxRetries &&
                  (p.seconds == cfg.backoffBase * Pow2(retriesUsed) as real || p.seconds == cfg.backoffBase))
            && (p.TimeoutMultiplier? ==> retriesUsed < cfg.maxRetries && p.factor <= Truncate(cfg.maxTimeoutMultiplier))
  {
    hide Pow2, Truncate;
  }

  lemma BackoffBound(base: real, retriesUsed: nat, maxRetries: int)
    requires base >= 0.0 && retriesUsed < maxRetries
    ensures base * Pow2(retriesUsed) as real <= base * Pow2(maxRetries - 1) as real
    ensures base <= base * Pow2(maxRetries - 1) as real
  {
    var low, top := Pow2(retriesUsed), Pow2(maxRetries - 1);
    Pow2Monotone(retriesUsed, maxRetries - 1);
    ScaleMonotone(base, low, top);
    ScaleMonotone(base, 1, top);
    hide Pow2;
  }

  lemma ProposeWithinBounds(cfg: Config, d: Diagnosis, retriesUsed: nat, prior: seq<string>)
    ensures WithinBounds(cfg, Propose(cfg, d, retriesUsed, prior))
  {
    hide Propose, Pow2;
    ProposedParameters(cfg, d, retriesUsed, prior);
    if retriesUsed < cfg.maxRetries && cfg.backoffBase >= 0.0 {
      BackoffBound(cfg.backoffBase, retriesUsed, cfg.maxRetries);
    }
  }

  /** What may be proposed without a person: only a bounded retry, a longer timeout, or giving up. What would touch the
      system is re-checked against policy, and a policy refusal is never answered with anything but a person. */
  lemma ProposeIsCautious(cfg: Config, d: Diagnosis, retriesUsed: nat, prior: seq<string>)
    ensures var s := Propose(cfg, d, retriesUsed, prior);
            && (!s.requiresUserApproval <==>
                s.kind == RETRY_WITH_BACKOFF || s.kind == ADJUST_TIMEOUT || s.kind == ABANDON)
            && (s.requiresPolicyRecheck <==>
                  s.kind == INSTALL_MISSING_DEPENDENCY || s.kind == ADJUST_TIMEOUT || s.kind == REDUCE_SCOPE)
            && (d.category == "policy_restriction" ==> s.kind == ESCALATE_TO_USER || s.kind == ABANDON)
            && (s.kind == ADJUST_TIMEOUT <==> d.category == "timeout" && retriesUsed < cfg.maxRetries)
            && (retriesUsed >= cfg.maxRetries ==> s.kind != RETRY_WITH_BACKOFF && s.kind != ADJUST_TIMEOUT)
  {
    hide Pow2, Truncate;
  }

  // --- The table ---------------------------------------------------------------------------------------------------

  /** The same category as the attempt before, timeouts aside. */
  predicate Repeats(category: string, prior: seq<string>) {
    prior != [] && prior[|prior| - 1] == category && category != "timeout"
  }

  const CATEGORIES := {"policy_restriction", "permission_issue", "disk_space", "timeout", "missing_package",
                       "missing_executable", "network_connectivity", "incompatible_version", "invalid_argument"}

  lemma CategoriesDiffer()
    ensures "policy_restriction" != "network_connectivity" && "permission_issue" != "invalid_argument"
    ensures "missing_package" != "permission_issue" && "disk_space" != "invalid_argument"
  {
    assert "policy_restriction"[0] == 'p' && "missing_package"[0] == 'm' && "permission_issue"[0] == 'p'
        && "invalid_argument"[0] == 'i';
  }

  /** Which category gets which strategy. */
  lemma ProposalTable(cfg: Config, d: Diagnosis, retriesUsed: nat, prior: seq<string>)
    ensures var s, left := Propose(cfg, d, retriesUsed, prior), retriesUsed < cfg.maxRetries;
            && (Repeats(d.category, prior) <==> s.kind == ABANDON)
            && (!Repeats(d.category, prior) ==>
                  && (d.category in {"policy_restriction", "permission_issue", "disk_space"} ==>
                      s.kind == ESCALATE_TO_USER)
                  && (d.category == "timeout" ==> s.kind == if left then ADJUST_TIMEOUT else ESCALATE_TO_USER)
                  && (d.category in {"missing_package", "missing_executable"} ==>
                        s.kind == INSTALL_MISSING_DEPENDENCY && s.parameters == Hint(d.rootCause))
                  && (d.category == "network_connectivity" ==>
                        s.kind == if left then RETRY_WITH_BACKOFF else ESCALATE_TO_USER)
                  && (d.category == "incompatible_version" ==> s.kind == USE_ALTERNATIVE_TOOL)
                  && (d.category == "invalid_argument" ==> s.kind == REDUCE_SCOPE)
                  && (d.category !in CATEGORIES ==>
                        if left && d.confidence in {HIGH, MEDIUM}
                        then s.kind == RETRY_WITH_BACKOFF && s.parameters == Backoff(cfg.backoffBase)
                        else s.kind == ESCALATE_TO_USER))
  {
    hide Pow2, Truncate;
    CategoriesDiffer();
  }

  /** The backoff begins at the base and doubles with every retry used. */
  lemma BackoffDoubles(cfg: Config, d: Diagnosis, retriesUsed: nat, prior: seq<string>)
    requires d.category == "network_connectivity" && !Repeats(d.category, prior) && retriesUsed < cfg.maxRetries
    ensures var p := Propose(cfg, d, retriesUsed, prior).parameters;
            && p.Backoff?
            && (retriesUsed == 0 ==> p.seconds == cfg.backoffBase)
            && (retriesUsed > 0 ==> p.seconds == 2.0 * Propose(cfg, d, retriesUsed - 1, prior).parameters.seconds)
  {
    hide Truncate;
    CategoriesDiffer();
    if retriesUsed > 0 {
      assert Pow2(retriesUsed) as real == 2.0 * Pow2(retriesUsed - 1) as real;
    }
  }

  /** The timeout multiplier begins at two and doubles, up to the whole part of its maximum. */
  lemma MultiplierDoubles(cfg: Config, d: Diagnosis, retriesUsed: nat, prior: seq<string>)
    requires d.category == "timeout" && retriesUsed < cfg.maxRetries && cfg.maxTimeoutMultiplier >= 0.0
    ensures var p, top := Propose(cfg, d, retriesUsed, prior).parameters, cfg.maxTimeoutMultiplier.Floor;
            && p.TimeoutMultiplier?
            && (retriesUsed == 0 ==> p.factor == if top < 2 then top else 2)
            && (retriesUsed > 0 ==>
                  var before := Propose(cfg, d, retriesUsed - 1, prior).parameters;
                  before.TimeoutMultiplier? && p.factor == if top < 2 * before.factor then top else 2 * before.factor)
  {
    CategoriesDiffer();
    assert Pow2(1) == 2;
  }

  /** In a task's own history the second of two consecutive attempts of one category, timeouts aside, is ABANDON. */
  predicate AbandonsRepeats(h: History) {
    forall i :: 0 < i < |h| && h[i - 1].diagnosis.category == h[i].diagnosis.category != "timeout" ==>
      h[i].strategy.kind == ABANDON
  }

  predicate Bounded(cfg: Config, h: History) {
    forall i :: 0 <= i < |h| ==> WithinBounds(cfg, h[i].strategy)
  }

  ghost predicate Disciplined(cfg: Config, own: History) {
    && (forall category :: Retries(own, category) <= Min(Count(own, category), Max(0, cfg.maxRetries)))
    && AbandonsRepeats(own)
    && Bounded(cfg, own)
  }

  lemma ProposedDisciplined(cfg: Config, h: History, e: Event)
    requires e.Heal? && Disciplined(cfg, ForTask(h, e.task))
    ensures Disciplined(cfg, ForTask(h, e.task) + [Proposed(cfg, h, e.id, e.task, e.action, e.diagnosis)])
  {
    var own, a := ForTask(h, e.task), Proposed(cfg, h, e.id, e.task, e.action, e.diagnosis);
    var after := own + [a];
    assert after[..|own|] == own;
    ProposeWithinBounds(cfg, e.diagnosis, Count(own, e.diagnosis.category), Categories(own));
    hide WithinBounds;
    forall category
      ensures Retries(after, category) <= Min(Count(after, category), Max(0, cfg.maxRetries))
    {
      assert Retries(own, category) <= Min(Count(own, category), Max(0, cfg.maxRetries));
    }
  }

  lemma {:induction false} DisciplinedBare(cfg: Config, h: History)
    ensures Disciplined(cfg, Bare(h)) <==> Disciplined(cfg, h)
  {
    forall category
      ensures Retries(Bare(h), category) == Retries(h, category) && Count(Bare(h), category) == Count(h, category)
    {
      CountBare(h, category);
      RetriesBare(h, category);
    }
    assert forall i :: 0 <= i < |h| ==> Bare(h)[i].strategy == h[i].strategy && Bare(h)[i].diagnosis == h[i].diagnosis;
    hide WithinBounds, Retries, Count;
  }

  lemma {:induction false} RetriesBare(h: History, category: string)
    ensures Retries(Bare(h), category) == Retries(h, category)
  {
    if h != [] {
      RetriesBare(h[..|h| - 1], category);
      assert Bare(h)[..|h| - 1] == Bare(h[..|h| - 1]);
    }
  }

  /** For every history of heal calls and outcomes, each task: at most `maxRetries` retry or timeout proposals per
      category, every parameter within its bound, and no futile repetition. */
  lemma {:induction false} ProposalsAreBounded(cfg: Config, es: seq<Event>, task: Uuid)
    ensures Disciplined(cfg, ForTask(Run(cfg, es), task))
  {
    if es == [] {
      assert ForTask(Run(cfg, es), task) == [];
      assert forall category :: Retries([], category) == 0 && Count([], category) == 0;
    } else {
      var init, e := es[..|es| - 1], es[|es| - 1];
      ProposalsAreBounded(cfg, init, task);
      var h, after := Run(cfg, init), Run(cfg, es);
      if e.Heal? && e.task == task {
        ForTaskSnoc(h, Proposed(cfg, h, e.id, e.task, e.action, e.diagnosis), task);
        ProposedDisciplined(cfg, h, e);
      } else {
        ForeignStep(cfg, h, after, e, task);
        DisciplinedBare(cfg, ForTask(h, task));
        DisciplinedBare(cfg, ForTask(after, task));
      }
      hide Disciplined, Proposed, ForTask, Bare, Updated;
    }
  }
}
