/** The task's evidence and its recovery records: what observations, findings, verifications, reports and retries add up
    to in every run. */
module AgentLedger {
  import opened Prelude
  import opened AgentModels
  import opened AgentRecovery
  import opened AgentTask
  import opened AgentInvariants
  import opened AgentControl
  import opened AgentSafety

  // --- Evidence ----------------------------------------------------------------------------------------------------

  predicate UniqueEvidence(es: seq<Evidence>) {
    forall j, k :: 0 <= j < k < |es| ==> es[j].id != es[k].id
  }

  function VerifiedCount(es: seq<Evidence>): nat {
    if es == [] then 0 else (if es[0].kind == VERIFIED_FINDING then 1 else 0) + VerifiedCount(es[1..])
  }

  /** The finding is in the evidence; a verified one with the unverified form it had before. */
  predicate OnRecord(evidence: seq<Evidence>, f: Evidence) {
    if f.kind != VERIFIED_FINDING then f in evidence
    else exists p, q :: 0 <= p < q < |evidence| && evidence[q] == f && IsBefore(evidence[p], f)
  }

  /** `e` is what became the verified finding `f`. */
  predicate IsBefore(e: Evidence, f: Evidence) {
    e.kind == FINDING && f.kind == VERIFIED_FINDING && e.id == f.id && e.source == f.source && e.summary <= f.summary
  }

  /** The evidence holds every finding, and every verified one also as it was before, and that first; it holds nothing
      else, and nothing twice. */
  predicate EvidenceRecorded(findings: seq<Evidence>, evidence: seq<Evidence>) {
    && (forall k :: 0 <= k < |findings| ==> OnRecord(evidence, findings[k]))
    && (forall e :: e in evidence ==> exists k :: 0 <= k < |findings| && (e == findings[k] || IsBefore(e, findings[k])))
    && (forall p, q :: 0 <= p < q < |evidence| ==>
        evidence[p].id != evidence[q].id || evidence[p].kind != evidence[q].kind)
  }

  /** Findings rest on observations; the verification table lists exactly the verified ones; every finding and every
      verification is in the evidence. */
  predicate EvidenceSound(t: Task) {
    && (t.findings != [] ==> t.observations != [])
    && UniqueEvidence(t.findings)
    && (forall k :: 0 <= k < |t.findings| ==> t.findings[k].kind in {FINDING, VERIFIED_FINDING})
    && (forall id :: id in t.verificationResults ==>
          && t.verificationResults[id]
          && exists k :: 0 <= k < |t.findings| && t.findings[k].id == id && t.findings[k].kind == VERIFIED_FINDING)
    && (forall k :: 0 <= k < |t.findings| && t.findings[k].kind == VERIFIED_FINDING ==>
        t.findings[k].id in t.verificationResults)
    && |t.evidence| == |t.findings| + VerifiedCount(t.findings)
    && EvidenceRecorded(t.findings, t.evidence)
  }

  lemma OnRecordStays(evidence: seq<Evidence>, f: Evidence, e: Evidence)
    requires OnRecord(evidence, f)
    ensures OnRecord(evidence + [e], f)
  {
    if f.kind == VERIFIED_FINDING {
      var p, q :| 0 <= p < q < |evidence| && evidence[q] == f && IsBefore(evidence[p], f);
      assert (evidence + [e])[q] == f && (evidence + [e])[p] == evidence[p];
    }
  }

  lemma AnalysisRecorded(findings: seq<Evidence>, evidence: seq<Evidence>, f: Evidence)
    requires EvidenceRecorded(findings, evidence) && f.kind == FINDING && forall e :: e in findings ==> e.id != f.id
    ensures EvidenceRecorded(findings + [f], evidence + [f])
  {
    hide OnRecord;
    var fs, es := findings + [f], evidence + [f];
    forall k | 0 <= k < |fs|
      ensures OnRecord(es, fs[k])
    {
      if k < |findings| {
        OnRecordStays(evidence, findings[k], f);
      } else {
        NewOnRecord(evidence, f);
      }
    }
    forall e | e in es
      ensures exists k :: 0 <= k < |fs| && (e == fs[k] || IsBefore(e, fs[k]))
    {
      if e in evidence {
        var k :| 0 <= k < |findings| && (e == findings[k] || IsBefore(e, findings[k]));
        assert fs[k] == findings[k];
      } else {
        assert fs[|findings|] == e;
      }
    }
    forall p | 0 <= p < |evidence|
      ensures evidence[p].id != f.id
    {
      assert evidence[p] in evidence;
      var k :| 0 <= k < |findings| && (evidence[p] == findings[k] || IsBefore(evidence[p], findings[k]));
      assert findings[k] in findings;
    }
  }

  lemma NewOnRecord(evidence: seq<Evidence>, f: Evidence)
    requires f.kind == FINDING
    ensures OnRecord(evidence + [f], f)
  {
  }

  lemma PromotedOnRecord(evidence: seq<Evidence>, e: Evidence, v: Evidence)
    requires e in evidence && IsBefore(e, v)
    ensures OnRecord(evidence + [v], v)
  {
    var p :| 0 <= p < |evidence| && evidence[p] == e;
    assert (evidence + [v])[|evidence|] == v && (evidence + [v])[p] == e;
  }

  lemma VerificationRecorded(findings: seq<Evidence>, evidence: seq<Evidence>, i: nat, v: Evidence)
    requires EvidenceRecorded(findings, evidence) && UniqueEvidence(findings)
    requires i < |findings| && IsBefore(findings[i], v)
    ensures EvidenceRecorded(findings[i := v], evidence + [v])
  {
    var fs, es := findings[i := v], evidence + [v];
    assert findings[i] in evidence by { assert OnRecord(evidence, findings[i]); }
    hide OnRecord;
    forall k | 0 <= k < |fs|
      ensures OnRecord(es, fs[k])
    {
      if k == i {
        PromotedOnRecord(evidence, findings[i], v);
      } else {
        OnRecordStays(evidence, findings[k], v);
      }
    }
    forall e | e in es
      ensures exists k :: 0 <= k < |fs| && (e == fs[k] || IsBefore(e, fs[k]))
    {
      if e in evidence {
        var k :| 0 <= k < |findings| && (e == findings[k] || IsBefore(e, findings[k]));
        assert fs[k] == if k == i then v else findings[k];
      } else {
        assert fs[i] == e;
      }
    }
    forall p | 0 <= p < |evidence|
      ensures evidence[p].id != v.id || evidence[p].kind != v.kind
    {
      assert evidence[p] in evidence;
      var k :| 0 <= k < |findings| && (evidence[p] == findings[k] || IsBefore(evidence[p], findings[k]));
      assert k != i ==> findings[k].id != findings[i].id;
    }
  }

  lemma {:induction false} VerifiedCountSnoc(es: seq<Evidence>, e: Evidence)
    ensures VerifiedCount(es + [e]) == VerifiedCount(es) + if e.kind == VERIFIED_FINDING then 1 else 0
  {
    if es != [] {
      assert (es + [e])[1..] == es[1..] + [e];
      VerifiedCountSnoc(es[1..], e);
    }
  }

  lemma {:induction false} VerifiedCountUpdate(es: seq<Evidence>, k: nat, e: Evidence)
    requires k < |es| && es[k].kind != VERIFIED_FINDING && e.kind == VERIFIED_FINDING
    ensures VerifiedCount(es[k := e]) == VerifiedCount(es) + 1
  {
    if k == 0 {
      assert es[0 := e][1..] == es[1..];
    } else {
      assert es[k := e][1..] == es[1..][k - 1 := e];
      VerifiedCountUpdate(es[1..], k - 1, e);
    }
  }

  lemma SummariesEmpty(es: seq<Evidence>)
    ensures Summaries(es) == [] <==> es == []
  {
  }

  /** A verification step promotes exactly the last finding that is still unverified, keeping its identity and its place
      and touching no other; it fails exactly when there is none. */
  lemma VerifyPromotesTheLast(t: Task, i: nat, x: Input)
    requires i < |t.actions| && EvidenceSound(t)
    ensures var o, k := FindingVerified(t, i, x), LastPending(t.findings);
            && (o.Done? <==> k.Some?) && (o.Failed? <==> k.None?)
            && (k.Some? ==>
                  && o.task.findings == t.findings[k.value := o.task.findings[k.value]]
                  && o.task.findings[k.value].kind == VERIFIED_FINDING
                  && o.task.findings[k.value].id == t.findings[k.value].id
                  && o.task.findings[k.value].source == t.findings[k.value].source
                  && t.findings[k.value].summary <= o.task.findings[k.value].summary
                  && o.task.evidence == t.evidence + [o.task.findings[k.value]]
                  && o.task.verificationResults == t.verificationResults[t.findings[k.value].id := true]
                  && o.task.observations == t.observations)
  {
    hide LastPending, ReplacedById, EvidenceRecorded, VerifiedCount;
    var k := LastPending(t.findings);
    if k.Some? {
      var last := LastThree(t.observations);
      assert t.findings != [] && last != [];
      SummariesEmpty(last);
      var verified := Promoted(t.findings[k.value], Summaries(last), x.now);
      assert verified.id == t.findings[k.value].id;
      assert ReplacedById(t.findings, verified) == t.findings[k.value := verified];
    }
  }

  lemma VerifiedSound(t: Task, i: nat, x: Input)
    requires i < |t.actions| && EvidenceSound(t)
    ensures var o := FindingVerified(t, i, x); (o.Done? || o.Failed?) && (o.Done? ==> EvidenceSound(o.task))
  {
    hide FindingVerified, LastPending, VerifiedCount, EvidenceRecorded;
    VerifyPromotesTheLast(t, i, x);
    var o, k := FindingVerified(t, i, x), LastPending(t.findings);
    if k.Some? {
      VerifiedCountUpdate(t.findings, k.value, o.task.findings[k.value]);
      VerificationRecorded(t.findings, t.evidence, k.value, o.task.findings[k.value]);
      var u := o.task;
      forall id | id in u.verificationResults
        ensures exists j :: 0 <= j < |u.findings| && u.findings[j].id == id && u.findings[j].kind == VERIFIED_FINDING
      {
        var j := if id == t.findings[k.value].id then k.value
                 else var j :| 0 <= j < |t.findings| && t.findings[j].id == id
                     && t.findings[j].kind == VERIFIED_FINDING; j;
        assert u.findings[j].id == id && u.findings[j].kind == VERIFIED_FINDING;
      }
    }
  }

  /** An analysis adds one unverified finding, drawn from the action, to the findings and to the evidence, and nothing
      else; it fails exactly if there is nothing to analyse. */
  lemma AnalyzedSound(t: Task, i: nat, x: Input)
    requires i < |t.actions| && EvidenceSound(t) && forall e :: e in t.findings ==> e.id != x.ids.evidence
    ensures var o := OutputAnalyzed(t, i, x);
            && (o.Done? <==> t.observations != []) && (o.Failed? <==> t.observations == [])
            && (o.Done? ==>
                  && |o.task.findings| == |t.findings| + 1
                  && var f := o.task.findings[|t.findings|];
                     && o.task.findings == t.findings + [f] && o.task.evidence == t.evidence + [f]
                     && f.kind == FINDING && f.id == x.ids.evidence && f.source == Some(t.actions[i].id)
                     && o.task.verificationResults == t.verificationResults && o.task.observations == t.observations
                     && EvidenceSound(o.task))
  {
    hide VerifiedCount, EvidenceRecorded;
    var o := OutputAnalyzed(t, i, x);
    if o.Done? {
      var u := o.task;
      VerifiedCountSnoc(t.findings, u.findings[|t.findings|]);
      AnalysisRecorded(t.findings, t.evidence, u.findings[|t.findings|]);
      assert forall k :: 0 <= k < |t.findings| ==> u.findings[k] == t.findings[k] && t.findings[k] in t.findings;
    }
  }

  /** Everything but analysis and verification leaves findings and evidence alone and only adds observations. */
  predicate EvidenceKept(t: Task, u: Task) {
    SameEvidence(t, u) && t.observations <= u.observations
  }

  lemma KeptSound(t: Task, u: Task)
    requires EvidenceSound(t) && EvidenceKept(t, u)
    ensures EvidenceSound(u)
  {
    hide VerifiedCount, EvidenceRecorded;
  }

  lemma ServicesKeepEvidence(t: Task, i: nat, b: Budget, x: Input)
    requires i < |t.actions| && t.actions[i].actionType != ANALYZE_OUTPUT && t.actions[i].actionType != VERIFY_FINDING
    ensures var o := Performed(t, i, b, x); !o.Raised? ==> EvidenceKept(t, o.task)
  {
    hide OutputAnalyzed, FindingVerified, TargetDiscovered, ToolResearched, ToolInstalled, DiagnosticRun;
    ObservationsKept(t, i, b, x);
    InstallKeepsEvidence(t, i, b, x);
  }

  lemma ObservationsKept(t: Task, i: nat, b: Budget, x: Input)
    requires i < |t.actions|
    ensures var o := TargetDiscovered(t, i, x); EvidenceKept(t, o.task)
    ensures var o := ToolResearched(t, i, x); !o.Raised? ==> EvidenceKept(t, o.task)
    ensures var o := DiagnosticRun(t, i, x); !o.Raised? ==> EvidenceKept(t, o.task)
  {
    hide Classified, Text.Strip, JoinWith;
  }

  lemma InstallKeepsEvidence(t: Task, i: nat, b: Budget, x: Input)
    requires i < |t.actions|
    ensures var o := ToolInstalled(t, i, b, x); !o.Raised? ==> EvidenceKept(t, o.task)
  {
  }

  lemma ExecutedEvidence(t: Task, i: nat, b: Budget, x: Input)
    requires i < |t.actions| && EvidenceSound(t) && forall e :: e in t.findings ==> e.id != x.ids.evidence
    ensures EvidenceSound(Executed(t, i, b, x).task)
  {
    hide Performed, Recovered, EvidenceSound;
    var s := Saved(t.(phase := EXECUTING), x.now);
    KeptSound(t, s);
    PerformedEvidence(s, i, b, x);
    match Performed(s, i, b, x)
    case Raised(_) =>
    case Finished(u) => KeptSound(u, Saved(u, x.now));
    case Done(u) => KeptSound(u, Concluded(u, i, x.now));
    case Failed(u, f, message) =>
      RecoveredShape(u, i, f, message, b, x);
      KeptSound(u, Recovered(u, i, f, message, b, x));
  }

  lemma PerformedEvidence(t: Task, i: nat, b: Budget, x: Input)
    requires i < |t.actions| && EvidenceSound(t) && forall e :: e in t.findings ==> e.id != x.ids.evidence
    ensures var o := Performed(t, i, b, x); !o.Raised? ==> EvidenceSound(o.task)
  {
    hide OutputAnalyzed, FindingVerified, EvidenceSound;
    var o := Performed(t, i, b, x);
    PerformedShape(t, i, b, x);
    if o.Failed? {
      KeptSound(t, o.task);
    } else if t.actions[i].actionType == ANALYZE_OUTPUT {
      AnalyzedSound(t, i, x);
    } else if t.actions[i].actionType == VERIFY_FINDING {
      VerifiedSound(t, i, x);
    } else if !o.Raised? {
      ServicesKeepEvidence(t, i, b, x);
      KeptSound(t, o.task);
    }
  }

  // --- The report --------------------------------------------------------------------------------------------------

  function OfKind(es: seq<Evidence>, kind: EvidenceKind): seq<Evidence> {
    if es == [] then [] else (if es[0].kind == kind then [es[0]] else []) + OfKind(es[1..], kind)
  }

  datatype Recommendation = InvestigateUnknowns | CorroborateFindings

  /** The parts of the report that depend on the findings. */
  datatype Report = Report(
    findings: seq<string>, verifiedFindings: seq<string>, verified: bool, recommendations: seq<Recommendation>)

  function Reported(t: Task): Report {
    Report(Summaries(OfKind(t.findings, FINDING)), Summaries(OfKind(t.findings, VERIFIED_FINDING)),
           OfKind(t.findings, VERIFIED_FINDING) != [],
           (if t.unknowns != [] then [InvestigateUnknowns] else [])
           + (if exists e :: e in t.findings && e.kind == FINDING then [CorroborateFindings] else []))
  }

  /** Where `es[k]` ends up in its list of the report. */
  function Place(es: seq<Evidence>, k: nat): nat
    requires k < |es|
  {
    |OfKind(es[..k], es[k].kind)|
  }

  lemma NoneOfKind(kind: EvidenceKind)
    ensures OfKind([], kind) == []
  {
  }

  lemma OfKindHead(es: seq<Evidence>, kind: EvidenceKind)
    requires es != []
    ensures OfKind(es, kind) == (if es[0].kind == kind then [es[0]] else []) + OfKind(es[1..], kind)
  {
  }

  lemma {:induction false} OfKindConcat(a: seq<Evidence>, c: seq<Evidence>, kind: EvidenceKind)
    ensures OfKind(a + c, kind) == OfKind(a, kind) + OfKind(c, kind)
  {
    hide OfKind;
    if a == [] {
      assert a + c == c;
      NoneOfKind(kind);
    } else {
      var head, x, y := if a[0].kind == kind then [a[0]] else [], OfKind(a[1..], kind), OfKind(c, kind);
      OfKindConcat(a[1..], c, kind);
      OfKindHead(a, kind);
      OfKindHead(a + c, kind);
      assert (a + c)[1..] == a[1..] + c;
      assert head + (x + y) == head + x + y;
    }
  }

  lemma {:induction false} KindsPartition(es: seq<Evidence>)
    requires forall k :: 0 <= k < |es| ==> es[k].kind in {FINDING, VERIFIED_FINDING}
    ensures multiset(OfKind(es, FINDING)) + multiset(OfKind(es, VERIFIED_FINDING)) == multiset(es)
    ensures VerifiedCount(es) == |OfKind(es, VERIFIED_FINDING)|
  {
    if es != [] {
      KindsPartition(es[1..]);
      assert es == [es[0]] + es[1..];
    }
  }

  lemma {:induction false} OfKindOnly(es: seq<Evidence>, kind: EvidenceKind)
    ensures forall e :: e in OfKind(es, kind) <==> e in es && e.kind == kind
  {
    if es != [] {
      OfKindOnly(es[1..], kind);
      assert es == [es[0]] + es[1..];
    }
  }

  lemma InItsPlace(es: seq<Evidence>, k: nat)
    requires k < |es|
    ensures var list := OfKind(es, es[k].kind);
            Place(es, k) < |list| && list[Place(es, k)] == es[k]
  {
    assert es == es[..k] + [es[k]] + es[k + 1..];
    OfKindConcat(es[..k] + [es[k]], es[k + 1..], es[k].kind);
    OfKindConcat(es[..k], [es[k]], es[k].kind);
  }

  lemma VerifiedListed(t: Task)
    requires EvidenceSound(t)
    ensures OfKind(t.findings, VERIFIED_FINDING) != [] <==> t.verificationResults != map[]
  {
    hide VerifiedCount, UniqueEvidence, OfKind, EvidenceRecorded;
    OfKindOnly(t.findings, VERIFIED_FINDING);
    var v := OfKind(t.findings, VERIFIED_FINDING);
    forall id | id in t.verificationResults
      ensures v != []
    {
      var k :| 0 <= k < |t.findings| && t.findings[k].id == id && t.findings[k].kind == VERIFIED_FINDING;
      assert t.findings[k] in v;
    }
    if v != [] {
      assert v[0] in v;
      var k :| 0 <= k < |t.findings| && t.findings[k] == v[0];
      assert t.findings[k].id in t.verificationResults;
    }
  }

  /** The report's two lists split the findings: each finding is in the one its kind says, in the order of the findings,
      and nothing else is; the advice to corroborate is given exactly while something is unverified. */
  lemma ReportPartitions(t: Task)
    requires EvidenceSound(t)
    ensures multiset(OfKind(t.findings, FINDING)) + multiset(OfKind(t.findings, VERIFIED_FINDING)) ==
        multiset(t.findings)
    ensures forall k :: 0 <= k < |t.findings| ==>
              var list := OfKind(t.findings, t.findings[k].kind);
              Place(t.findings, k) < |list| && list[Place(t.findings, k)] == t.findings[k]
    ensures Reported(t).verified <==> t.verificationResults != map[]
    ensures CorroborateFindings in Reported(t).recommendations <==> OfKind(t.findings, FINDING) != []
  {
    hide VerifiedCount, UniqueEvidence, OfKind, Place, Summaries, EvidenceRecorded;
    KindsPartition(t.findings);
    forall k | 0 <= k < |t.findings|
      ensures var list := OfKind(t.findings, t.findings[k].kind);
              Place(t.findings, k) < |list| && list[Place(t.findings, k)] == t.findings[k]
    {
      InItsPlace(t.findings, k);
    }
    VerifiedListed(t);
    OfKindOnly(t.findings, FINDING);
    var f := OfKind(t.findings, FINDING);
    assert f != [] ==> f[0] in f;
  }

  // --- Retries -----------------------------------------------------------------------------------------------------

  /** The kind of action a record is about. */
  function KeyOf(actions: seq<Action>, id: Uuid): ActionType {
    var i := IndexOf(actions, id);
    if i.Some? then actions[i.value].actionType else COLLECT_INFORMATION
  }

  datatype Retry = Retry(key: ActionType, category: string)

  /** The retries on record, in order. */
  function Retries(actions: seq<Action>, records: seq<Recovery>): seq<Retry> {
    if records == [] then []
    else
      Retries(actions, records[..|records| - 1])
      + (var r := records[|records| - 1];
         if r.strategy == "retry" then [Retry(KeyOf(actions, r.actionId), r.category)] else [])
  }

  function CountOf(retries: seq<Retry>, key: ActionType): nat {
    if retries == [] then 0
    else CountOf(retries[..|retries| - 1], key) + if retries[|retries| - 1].key == key then 1 else 0
  }

  predicate MayBeRetried(f: FailureClass) {
    !NeverRetried(f) && f != MISSING_DEPENDENCY && f != TOOL_UNAVAILABLE
  }

  ghost predicate Retriable(category: string) {
    exists f :: MayBeRetried(f) && category == FailureText(f)
  }

  /** The records tell each kind's retry count and the last retried failure; no failure is retried twice in a row, too
      often, or against its nature. */
  ghost predicate RetriesSound(t: Task, b: Budget) {
    var trace := Retries(t.actions, t.recoveryAttempts);
    && (forall r :: r in t.recoveryAttempts ==> IndexOf(t.actions, r.actionId).Some?)
    && (forall key :: CountOf(trace, key) == RetryCount(t.retryCountByAction, key) <= Max(0, b.maxRetries))
    && (t.lastErrorSignature ==
        if trace == [] then None else Some(ActionText(trace[|trace| - 1].key) + ":" + trace[|trace| - 1].category))
    && (forall i :: 0 <= i < |trace| - 1 ==> trace[i] != trace[i + 1])
    && (forall i :: 0 <= i < |trace| ==> Retriable(trace[i].category))
  }

  lemma {:induction false} RetriesStable(a: seq<Action>, c: seq<Action>, records: seq<Recovery>)
    requires forall r :: r in records ==> KeyOf(a, r.actionId) == KeyOf(c, r.actionId)
    ensures Retries(a, records) == Retries(c, records)
  {
    hide KeyOf;
    if records != [] {
      var init := records[..|records| - 1];
      assert forall r :: r in init ==> r in records;
      assert records[|records| - 1] in records;
      RetriesStable(a, c, init);
    }
  }

  lemma RetriesSnoc(actions: seq<Action>, records: seq<Recovery>, r: Recovery)
    ensures Retries(actions, records + [r]) ==
            Retries(actions, records)
            + if r.strategy == "retry" then [Retry(KeyOf(actions, r.actionId), r.category)] else []
  {
    hide KeyOf;
    assert (records + [r])[..|records|] == records;
  }

  /** Changes of other parts of the task, and of how its actions went. */
  lemma RetriesKept(t: Task, u: Task, b: Budget)
    requires RetriesSound(t, b) && SameRetries(t, u)
    requires |t.actions| <= |u.actions| && forall j :: 0 <= j < |t.actions| ==>
               u.actions[j].id == t.actions[j].id && u.actions[j].actionType == t.actions[j].actionType
    ensures RetriesSound(u, b)
  {
    hide IndexOf, ActionText, CountOf, Retriable, Retries, RetryCount;
    forall r | r in t.recoveryAttempts
      ensures IndexOf(u.actions, r.actionId).Some? && KeyOf(t.actions, r.actionId) == KeyOf(u.actions, r.actionId)
    {
      var i, j := IndexOf(t.actions, r.actionId), IndexOf(u.actions, r.actionId);
      assert u.actions[i.value].id == r.actionId;
      assert j.Some? && j.value <= i.value;
      assert t.actions[j.value].id == r.actionId;
    }
    RetriesStable(t.actions, u.actions, t.recoveryAttempts);
  }

  /** A record that is not a retry. */
  lemma RetriesIgnore(t: Task, u: Task, b: Budget, r: Recovery)
    requires RetriesSound(t, b) && r.strategy != "retry" && IndexOf(t.actions, r.actionId).Some?
    requires u.actions == t.actions
    requires u.retryCountByAction == t.retryCountByAction && u.lastErrorSignature == t.lastErrorSignature
    requires u.recoveryAttempts == t.recoveryAttempts + [r]
    ensures RetriesSound(u, b)
  {
    hide IndexOf, ActionText, CountOf, Retriable, Retries, RetryCount;
    RetriesSnoc(t.actions, t.recoveryAttempts, r);
    var trace := Retries(t.actions, t.recoveryAttempts);
    assert trace + [] == trace;
  }

  lemma CountOfSnoc(trace: seq<Retry>, r: Retry, key: ActionType)
    ensures CountOf(trace + [r], key) == CountOf(trace, key) + if r.key == key then 1 else 0
  {
    assert (trace + [r])[..|trace|] == trace;
  }

  lemma RetryCountedOther(t: Task, key: ActionType, f: FailureClass, other: ActionType)
    ensures RetryCount(RetryCounted(t, key, f).retryCountByAction, other) ==
            RetryCount(t.retryCountByAction, other) + if other == key then 1 else 0
  {
    hide ActionText, Signature;
    ActionTextInjective(key, other);
  }

  /** Retrying never loops: after a retry the same failure of the same kind of action ends the task, and a different one
      is retried only while the count of retries, this one included, is below the limit. */
  lemma NoSecondRetry(t: Task, i: nat, f: FailureClass, g: FailureClass, x: Input, maxRetries: int)
    requires i < |t.actions|
    ensures var key := t.actions[i].actionType;
            var u := Retried(t, i, f, x);
            && Decide(u, maxRetries, key, f) == FAIL
            && (Decide(u, maxRetries, key, g) == RETRY ==>
                g != f && RetryCount(t.retryCountByAction, key) + 1 < maxRetries)
  {
    hide Signature, ActionText, FailureText;
  }

  lemma RetriedSound(t: Task, i: nat, f: FailureClass, b: Budget, x: Input)
    requires RetriesSound(t, b) && UniqueIds(t.actions) && i < |t.actions|
    requires Decide(t, b.maxRetries, t.actions[i].actionType, f) == RETRY
    ensures RetriesSound(Retried(t, i, f, x), b)
  {
    hide IndexOf, ActionText, FailureText, CountOf, Retries, RetryCount, UniqueIds;
    var u := Retried(t, i, f, x);
    var key := t.actions[i].actionType;
    var r := Attempted(x, t.actions[i].id, f, "retry");
    IndexOfAt(t.actions, i);
    RetriesSnoc(t.actions, t.recoveryAttempts, r);
    var trace := Retries(t.actions, t.recoveryAttempts);
    var entry := Retry(key, FailureText(f));
    assert Retries(u.actions, u.recoveryAttempts) == trace + [entry];
    forall other
      ensures CountOf(trace + [entry], other) == RetryCount(u.retryCountByAction, other) <= Max(0, b.maxRetries)
    {
      CountOfSnoc(trace, entry, other);
      RetryCountedOther(t, key, f, other);
      assert CountOf(trace, other) == RetryCount(t.retryCountByAction, other);
    }
    assert MayBeRetried(f);
    assert Retriable(entry.category);
  }

  lemma NotedRetries(t: Task, i: nat, f: FailureClass, message: string, b: Budget, x: Input)
    requires RetriesSound(t, b) && UniqueIds(t.actions) && i < |t.actions|
    ensures RetriesSound(Noted(t, i, f, message, x), b)
  {
    hide FailureText, RetriesSound, IndexOf, UniqueIds;
    var u := ErrorNoted(t, i, f, message, x);
    RetriesKept(t, u, b);
    if x.services.proposal.Some? {
      IndexOfAt(t.actions, i);
      IndexOfSame(t.actions, u.actions, t.actions[i].id);
      var r := Proposal(x, u.actions[i].id, f, x.services.proposal.value);
      assert r.strategy[0] == 'p' && "retry"[0] == 'r';
      RetriesIgnore(u, Noted(t, i, f, message, x), b, r);
    }
  }

  lemma RecoveredRetries(t: Task, i: nat, f: FailureClass, message: string, b: Budget, x: Input)
    requires RetriesSound(t, b) && UniqueIds(t.actions) && i < |t.actions|
    ensures RetriesSound(Recovered(t, i, f, message, b, x), b)
  {
    hide Noted, Decide, RetriesSound, IndexOf, Retried, AskReason, FailureText;
    NotedRetries(t, i, f, message, b, x);
    NotedShape(t, i, f, message, x);
    var u := Noted(t, i, f, message, x);
    IndexOfAt(u.actions, i);
    match Decide(u, b.maxRetries, u.actions[i].actionType, f)
    case RETRY => RetriedSound(u, i, f, b, x);
    case ASK =>
      assert "ask_user"[0] == 'a' && "retry"[0] == 'r';
      RetriesIgnore(u, UserConsulted(u, i, f, x), b, Attempted(x, u.actions[i].id, f, "ask_user"));
    case FAIL => RetriesKept(u, GivenUp(u, x), b);
  }

  lemma ExecutedRetries(t: Task, i: nat, b: Budget, x: Input)
    requires RetriesSound(t, b) && UniqueIds(t.actions) && i < |t.actions|
    ensures RetriesSound(Executed(t, i, b, x).task, b)
  {
    hide Performed, Recovered, RetriesSound, SameEvidence, InstallationsCounted;
    var s := Saved(t.(phase := EXECUTING), x.now);
    RetriesKept(t, s, b);
    PerformedShape(s, i, b, x);
    match Performed(s, i, b, x)
    case Raised(_) =>
    case Finished(u) => RetriesKept(s, Saved(u, x.now), b);
    case Done(u) => RetriesKept(s, Concluded(u, i, x.now), b);
    case Failed(u, f, message) =>
      RetriesKept(s, u, b);
      RecoveredRetries(u, i, f, message, b, x);
  }

  // --- All runs ----------------------------------------------------------------------------------------------------

  ghost predicate LedgerSound(t: Task, b: Budget) {
    ControlSound(t, b) && EvidenceSound(t) && RetriesSound(t, b)
  }

  lemma ExecutionLedger(t: Task, b: Budget, op: Op)
    requires op.Step? && LedgerSound(t, b) && Fresh(t, op) && Reached(t, b, op).Some?
    ensures EvidenceSound(Apply(t, b, op).task) && RetriesSound(Apply(t, b, op).task, b)
  {
    hide Apply, Reached, EvidenceSound, RetriesSound, Prepared, Executed, ControlSound, EvidenceKept, UniqueIds;
    ReachedExecutes(t, b, op);
    var i := Reached(t, b, op).value;
    var p := Prepared(t, op.input);
    PreparedUnique(t, b, op);
    KeptSound(t, p);
    RetriesKept(t, p, b);
    ExecutedEvidence(p, i, b, op.input);
    ExecutedRetries(p, i, b, op.input);
  }

  lemma PreparedUnique(t: Task, b: Budget, op: Op)
    requires ControlSound(t, b) && Fresh(t, op) && op.Step?
    ensures var p := Prepared(t, op.input);
            && UniqueIds(p.actions) && EvidenceKept(t, p) && SameRetries(t, p) && |t.actions| <= |p.actions|
            && (forall j :: 0 <= j < |t.actions| ==> p.actions[j] == t.actions[j])
            && p.findings == t.findings
  {
    hide Counted, PhaseSound, PendingSound, ApprovalSound, InstallsSound;
    assert forall j :: 0 <= j < |t.actions| ==> t.actions[j] in t.actions;
  }

  lemma ApplyLedger(t: Task, b: Budget, op: Op)
    requires LedgerSound(t, b) && Fresh(t, op)
    ensures LedgerSound(Apply(t, b, op).task, b)
  {
    hide Apply, Reached, EvidenceSound, RetriesSound, ControlSound, Fresh;
    ApplySound(t, b, op);
    var u := Apply(t, b, op).task;
    if op.Step? && Reached(t, b, op).Some? {
      ExecutionLedger(t, b, op);
    } else {
      if op.Step? {
        StepQuiet(t, b, op.input);
      } else {
        OperatorQuiet(t, b, op);
      }
      KeptSound(t, u);
      RetriesKept(t, u, b);
    }
  }

  lemma {:induction false} RunLedger(t: Task, b: Budget, ops: seq<Op>)
    requires LedgerSound(t, b) && FreshRun(t, b, ops)
    ensures LedgerSound(Run(t, b, ops), b)
    decreases |ops|
  {
    hide LedgerSound, Apply, Fresh;
    if ops != [] {
      ApplyLedger(t, b, ops[0]);
      RunLedger(Apply(t, b, ops[0]).task, b, ops[1..]);
    }
  }

  /** Every reachable task: its evidence adds up and its retries are bounded, varied and never against a refusal. */
  lemma LedgerAlwaysSound(h: Header, b: Budget, now: Time, ops: seq<Op>)
    requires FreshRun(Created(h, now), b, ops)
    ensures EvidenceSound(Run(Created(h, now), b, ops)) && RetriesSound(Run(Created(h, now), b, ops), b)
  {
    var t := Created(h, now);
    CreatedSound(h, b, now);
    assert EvidenceSound(t);
    assert RetriesSound(t, b);
    RunLedger(t, b, ops);
  }
}
