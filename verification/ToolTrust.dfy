/** Tools, the seven-stage review, the trust transitions, the eligibility gate and the installation readiness
    checklist. */
module ToolTrust {
  import opened Prelude
  import opened Policy
  import opened Text

  datatype SourceType =
    OFFICIAL_WEBSITE | OFFICIAL_GITHUB | OFFICIAL_PACKAGE_REGISTRY | OTHER_REPUTABLE | UNKNOWN

  datatype TrustStatus = UNKNOWN | DISCOVERED | UNDER_REVIEW | VERIFIED | APPROVED | BLOCKED | DEPRECATED

  datatype Stage =
    | COLLECT_METADATA | VERIFY_SOURCE | VERIFY_VERSION | CHECK_PLATFORM | CHECK_LICENSE | CHECK_DEPENDENCIES
    | SECURITY_POLICY_REVIEW

  datatype Result = VERIFIED | UNVERIFIED | FAILED | UNKNOWN

  /** What a tool says about itself; fixed at registration. */
  datatype Card = Card(
    id: Uuid, name: string, description: string, capabilities: seq<string>, platforms: seq<string>,
    sourceType: SourceType, sourceUrl: Option<string>, version: Option<string>, license: Option<string>,
    entrypoint: Option<string>, dependencies: seq<string>, permissions: seq<string>, riskLevel: RiskTier)

  /** The value of a tool record. */
  datatype Tool = Tool(card: Card, trust: TrustStatus, verification: map<Stage, Result>)

  const PROHIBITED_MARKERS: seq<string> := [
    "credential_theft", "credential_dump", "persistence", "evasion", "exploit_auto", "av_bypass",
    "security_control_bypass"]

  const OFFICIAL_SOURCES := {OFFICIAL_WEBSITE, OFFICIAL_GITHUB, OFFICIAL_PACKAGE_REGISTRY}

  const KNOWN_PLATFORMS := {"WINDOWS", "LINUX", "MACOS", "ANDROID_TERMUX"}

  /** Python's truth value of an optional text. */
  predicate Truthy(text: Option<string>) {
    text.Some? && text.value != ""
  }

  function CapabilityText(card: Card): string {
    Lower(JoinWith(" ", card.capabilities))
  }

  predicate Prohibited(card: Card) {
    exists m :: m in PROHIBITED_MARKERS && Contains(CapabilityText(card), m)
  }

  // --- The review --------------------------------------------------------------------------------------------------

  /** What a stage says about a tool. */
  function StageResult(card: Card, stage: Stage): Result {
    match stage
    case COLLECT_METADATA => if card.name != "" && card.description != "" then Result.VERIFIED else Result.UNKNOWN
    case VERIFY_SOURCE =>
      if card.sourceType in OFFICIAL_SOURCES && Truthy(card.sourceUrl) then Result.VERIFIED
      else if card.sourceType == OTHER_REPUTABLE then UNVERIFIED
      else Result.UNKNOWN
    case VERIFY_VERSION => if Truthy(card.version) then Result.VERIFIED else Result.UNKNOWN
    case CHECK_PLATFORM =>
      if card.platforms == [] then Result.UNKNOWN
      else if forall p :: p in card.platforms ==> p in KNOWN_PLATFORMS then Result.VERIFIED
      else UNVERIFIED
    case CHECK_LICENSE => if Truthy(card.license) then Result.VERIFIED else Result.UNKNOWN
    case CHECK_DEPENDENCIES => if card.dependencies == [] then Result.VERIFIED else UNVERIFIED
    case SECURITY_POLICY_REVIEW => if Prohibited(card) then FAILED else Result.VERIFIED
  }

  const STAGES := {
    COLLECT_METADATA, VERIFY_SOURCE, VERIFY_VERSION, CHECK_PLATFORM, CHECK_LICENSE, CHECK_DEPENDENCIES,
    SECURITY_POLICY_REVIEW}

  function Review(card: Card): map<Stage, Result> {
    map stage | stage in STAGES :: StageResult(card, stage)
  }

  lemma AllStages()
    ensures forall s: Stage :: s in STAGES
  {
    forall s: Stage
      ensures s in STAGES
    {
      assert s.COLLECT_METADATA? || s.VERIFY_SOURCE? || s.VERIFY_VERSION? || s.CHECK_PLATFORM? || s.CHECK_LICENSE?
          || s.CHECK_DEPENDENCIES? || s.SECURITY_POLICY_REVIEW?;
    }
  }

  predicate Says(results: map<Stage, Result>, r: Result) {
    exists s :: s in results && results[s] == r
  }

  /** The most cautious result wins; an empty report is unknown. */
  function Overall(results: map<Stage, Result>): Result {
    if results == map[] then Result.UNKNOWN
    else if Says(results, FAILED) then FAILED
    else if Says(results, Result.UNKNOWN) then Result.UNKNOWN
    else if Says(results, UNVERIFIED) then UNVERIFIED
    else Result.VERIFIED
  }

  /** A tool nobody could object to: what it takes to pass every stage. */
  predicate Impeccable(card: Card) {
    && card.name != "" && card.description != ""
    && card.sourceType in OFFICIAL_SOURCES && Truthy(card.sourceUrl)
    && Truthy(card.version) && Truthy(card.license)
    && card.platforms != [] && (forall p :: p in card.platforms ==> p in KNOWN_PLATFORMS)
    && card.dependencies == []
    && !Prohibited(card)
  }

  lemma ReviewPasses(card: Card)
    ensures Overall(Review(card)) == Result.VERIFIED <==> Impeccable(card)
    ensures Overall(Review(card)) == FAILED <==> Prohibited(card)
    ensures Impeccable(card) ==> forall s: Stage :: s in Review(card) && Review(card)[s] == Result.VERIFIED
  {
    hide Prohibited;
    var r := Review(card);
    AllStages();
    assert forall s: Stage :: s in r && r[s] == StageResult(card, s);
    if Overall(r) == Result.VERIFIED {
      forall s: Stage ensures StageResult(card, s) == Result.VERIFIED {
        assert s in r;
        assert !Says(r, StageResult(card, s)) || StageResult(card, s) == Result.VERIFIED;
      }
      assert StageResult(card, COLLECT_METADATA) == StageResult(card, VERIFY_SOURCE) ==
          StageResult(card, VERIFY_VERSION)
          == StageResult(card, CHECK_PLATFORM) == StageResult(card, CHECK_LICENSE)
          == StageResult(card, CHECK_DEPENDENCIES) == StageResult(card, SECURITY_POLICY_REVIEW) == Result.VERIFIED;
    }
    assert r[SECURITY_POLICY_REVIEW] == StageResult(card, SECURITY_POLICY_REVIEW);
    assert r != map[];
  }

  class VerificationReport {
    var results: map<Stage, Result>

    constructor ()
      ensures results == map[]
    {
      results := map[];
    }

    method OverallResult() returns (r: Result)
      ensures r == Overall(results)
    {
      if results == map[] {
        return Result.UNKNOWN;
      }
      if FAILED in results.Values {
        return FAILED;
      }
      if Result.UNKNOWN in results.Values {
        return Result.UNKNOWN;
      }
      if UNVERIFIED in results.Values {
        return UNVERIFIED;
      }
      return Result.VERIFIED;
    }
  }

  class VerificationPipeline {
    constructor () {}

    /** Every stage writes its own entry. */
    method Verify(subject: Card) returns (report: VerificationReport)
      ensures fresh(report) && report.results == Review(subject)
    {
      report := new VerificationReport();
      CollectMetadata(subject, report);
      VerifySource(subject, report);
      VerifyVersion(subject, report);
      CheckPlatform(subject, report);
      CheckLicense(subject, report);
      CheckDependencies(subject, report);
      SecurityPolicyReview(subject, report);
      assert report.results.Keys == STAGES;
    }

    method CollectMetadata(subject: Card, report: VerificationReport)
      modifies report
      ensures report.results == old(report.results)[COLLECT_METADATA := StageResult(subject, COLLECT_METADATA)]
    {
      var hasBasics := subject.name != "" && subject.description != "";
      report.results :=
        report.results[COLLECT_METADATA := if hasBasics then Result.VERIFIED else Result.UNKNOWN];
    }

    method VerifySource(subject: Card, report: VerificationReport)
      modifies report
      ensures report.results == old(report.results)[VERIFY_SOURCE := StageResult(subject, VERIFY_SOURCE)]
    {
      var result := Result.UNKNOWN;
      if subject.sourceType in OFFICIAL_SOURCES && Truthy(subject.sourceUrl) {
        result := Result.VERIFIED;
      } else if subject.sourceType == OTHER_REPUTABLE {
        result := UNVERIFIED;
      }
      report.results := report.results[VERIFY_SOURCE := result];
    }

    method VerifyVersion(subject: Card, report: VerificationReport)
      modifies report
      ensures report.results == old(report.results)[VERIFY_VERSION := StageResult(subject, VERIFY_VERSION)]
    {
      report.results :=
        report.results[VERIFY_VERSION := if Truthy(subject.version) then Result.VERIFIED else Result.UNKNOWN];
    }

    method CheckPlatform(subject: Card, report: VerificationReport)
      modifies report
      ensures report.results == old(report.results)[CHECK_PLATFORM := StageResult(subject, CHECK_PLATFORM)]
    {
      var platforms := set p | p in subject.platforms;
      assert forall p :: p in subject.platforms <==> p in platforms;
      assert subject.platforms != [] ==> subject.platforms[0] in platforms;
      var result := UNVERIFIED;
      if platforms == {} {
        result := Result.UNKNOWN;
      } else if platforms <= KNOWN_PLATFORMS {
        result := Result.VERIFIED;
      }
      report.results := report.results[CHECK_PLATFORM := result];
    }

    method CheckLicense(subject: Card, report: VerificationReport)
      modifies report
      ensures report.results == old(report.results)[CHECK_LICENSE := StageResult(subject, CHECK_LICENSE)]
    {
      report.results :=
        report.results[CHECK_LICENSE := if Truthy(subject.license) then Result.VERIFIED else Result.UNKNOWN];
    }

    method CheckDependencies(subject: Card, report: VerificationReport)
      modifies report
      ensures report.results == old(report.results)[CHECK_DEPENDENCIES := StageResult(subject, CHECK_DEPENDENCIES)]
    {
      report.results :=
        report.results[CHECK_DEPENDENCIES := if subject.dependencies != [] then UNVERIFIED else Result.VERIFIED];
    }

    method SecurityPolicyReview(subject: Card, report: VerificationReport)
      modifies report
      ensures report.results ==
              old(report.results)[SECURITY_POLICY_REVIEW := StageResult(subject, SECURITY_POLICY_REVIEW)]
    {
      var hit := FirstProhibitedMarker(CapabilityText(subject));
      report.results := report.results[SECURITY_POLICY_REVIEW := if hit.Some? then FAILED else Result.VERIFIED];
    }
  }

  /** The first marker, in list order, that occurs in the text. */
  method FirstProhibitedMarker(text: string) returns (hit: Option<string>)
    ensures hit.None? <==> forall m :: m in PROHIBITED_MARKERS ==> !Contains(text, m)
    ensures hit.Some? ==>
              exists i :: 0 <= i < |PROHIBITED_MARKERS| && hit.value == PROHIBITED_MARKERS[i]
                  && Contains(text, hit.value)
                          && forall j :: 0 <= j < i ==> !Contains(text, PROHIBITED_MARKERS[j])
  {
    for i := 0 to |PROHIBITED_MARKERS|
      invariant forall j :: 0 <= j < i ==> !Contains(text, PROHIBITED_MARKERS[j])
    {
      if Contains(text, PROHIBITED_MARKERS[i]) {
        return Some(PROHIBITED_MARKERS[i]);
      }
    }
    return None;
  }

  // --- The trust transitions ---------------------------------------------------------------------------------------

  type Registry = map<Uuid, Tool>

  datatype Op = Register(card: Card) | Verify(id: Uuid) | Approve(id: Uuid) | Block(id: Uuid) | Deprecate(id: Uuid)

  datatype Reply = Done(tool: Tool) | DuplicateName | NotFound | InvalidTransition

  datatype Applied = Applied(after: Registry, reply: Reply)

  predicate NameTaken(r: Registry, name: string) {
    exists i :: i in r && r[i].card.name == name
  }

  function TrustAfter(r: Result): TrustStatus {
    match r
    case FAILED => BLOCKED
    case VERIFIED => TrustStatus.VERIFIED
    case _ => UNDER_REVIEW
  }

  function Apply(r: Registry, op: Op): Applied {
    match op
    case Register(card) =>
      if NameTaken(r, card.name) then Applied(r, DuplicateName)
      else
        var tool := Tool(card, DISCOVERED, map[]);
        Applied(r[card.id := tool], Done(tool))
    case Verify(id) =>
      if id !in r then Applied(r, NotFound)
      else
        var review := Review(r[id].card);
        var tool := r[id].(verification := review, trust := TrustAfter(Overall(review)));
        Applied(r[id := tool], Done(tool))
    case Approve(id) =>
      if id !in r then Applied(r, NotFound)
      else if r[id].trust != TrustStatus.VERIFIED then Applied(r, InvalidTransition)
      else WithTrust(r, id, APPROVED)
    case Block(id) =>
      if id !in r then Applied(r, NotFound) else WithTrust(r, id, BLOCKED)
    case Deprecate(id) =>
      if id !in r then Applied(r, NotFound) else WithTrust(r, id, DEPRECATED)
  }

  function WithTrust(r: Registry, id: Uuid, trust: TrustStatus): Applied
    requires id in r
  {
    var tool := r[id].(trust := trust);
    Applied(r[id := tool], Done(tool))
  }

  /** `verify` as the registry sees it: the report is recorded, then the trust level follows from it. */
  lemma ReviewRecorded(r: Registry, id: Uuid)
    requires id in r
    ensures var review := Review(r[id].card);
            Apply(r, Op.Verify(id)) ==
                WithTrust(r[id := r[id].(verification := review)], id, TrustAfter(Overall(review)))
  {
    hide Review, Overall;
    var review := Review(r[id].card);
    var mid := r[id := r[id].(verification := review)];
    var tool := mid[id].(trust := TrustAfter(Overall(review)));
    assert mid[id := tool] == r[id := tool];
  }

  function After(r: Registry, ops: seq<Op>): Registry
    decreases |ops|
  {
    if ops == [] then r else After(Apply(r, ops[0]).after, ops[1..])
  }

  /** A tool is vouched for only on the strength of a flawless review of its own card. */
  predicate Sound(t: Tool) {
    && (t.verification == map[] || t.verification == Review(t.card))
    && (t.trust == TrustStatus.VERIFIED || t.trust == APPROVED ==>
          t.verification == Review(t.card) && Impeccable(t.card))
  }

  predicate RegistrySound(r: Registry) {
    && (forall i :: i in r ==> Sound(r[i]) && r[i].card.id == i)
    && (forall i, j :: i in r && j in r && r[i].card.name == r[j].card.name ==> i == j)
  }

  lemma PutSound(r: Registry, t: Tool)
    requires RegistrySound(r) && Sound(t)
    requires (t.card.id in r && r[t.card.id].card == t.card) || !NameTaken(r, t.card.name)
    ensures RegistrySound(r[t.card.id := t])
  {
    hide Sound;
    var s := r[t.card.id := t];
    forall i, j | i in s && j in s && s[i].card.name == s[j].card.name
      ensures i == j
    {
      assert i in r || i == t.card.id;
    }
  }

  lemma ApplySound(r: Registry, op: Op)
    requires RegistrySound(r)
    ensures RegistrySound(Apply(r, op).after)
  {
    hide Review, Impeccable, Overall, NameTaken;
    var a := Apply(r, op);
    if op.Verify? && op.id in r {
      ReviewPasses(r[op.id].card);
    }
    if a.reply.Done? {
      var id := if op.Register? then op.card.id else op.id;
      assert a.after == r[id := a.reply.tool];
      PutSound(r, a.reply.tool);
    }
  }

  /** Whatever is registered, verified, approved, blocked and deprecated, in whatever order. */
  lemma {:induction false} RegistryAlwaysSound(r: Registry, ops: seq<Op>)
    requires RegistrySound(r)
    ensures RegistrySound(After(r, ops))
    decreases |ops|
  {
    hide Apply, RegistrySound;
    if ops != [] {
      ApplySound(r, ops[0]);
      RegistryAlwaysSound(Apply(r, ops[0]).after, ops[1..]);
    }
  }

  predicate Vouched(r: Registry, id: Uuid) {
    id in r && (r[id].trust == TrustStatus.VERIFIED || r[id].trust == APPROVED)
  }

  /** Nothing but a review can make a tool trusted: a tool that is blocked, deprecated, unreviewed or unknown stays out
      of reach of approval until `verify` is called for it, and then it still has to pass. */
  lemma {:induction false} TrustNeedsAReview(r: Registry, ops: seq<Op>, id: Uuid)
    requires RegistrySound(r) && !Vouched(r, id)
    requires forall op :: op in ops && op.Verify? && op.id == id ==> false
    ensures !Vouched(After(r, ops), id)
    decreases |ops|
  {
    hide Review, Overall, RegistrySound;
    if ops != [] {
      ApplySound(r, ops[0]);
      assert ops[0] in ops;
      TrustNeedsAReview(Apply(r, ops[0]).after, ops[1..], id);
    }
  }

  /** A registered tool can be brought to APPROVED exactly when its card is flawless. */
  lemma ApprovableExactly(r: Registry, id: Uuid)
    requires RegistrySound(r) && id in r
    ensures var after := After(r, [Op.Verify(id), Approve(id)]);
            id in after && (Impeccable(r[id].card) <==> after[id].trust == APPROVED)
  {
    hide Review, Impeccable, Overall, RegistrySound;
    ReviewPasses(r[id].card);
    var one := Apply(r, Op.Verify(id)).after;
    var two := Apply(one, Approve(id)).after;
    assert [Op.Verify(id), Approve(id)][1..] == [Approve(id)] && [Approve(id)][1..] == [];
    assert After(r, [Op.Verify(id), Approve(id)]) == After(one, [Approve(id)]) == After(two, []) == two;
  }

  // --- The registry and the routes ---------------------------------------------------------------------------------

  class ToolRecord {
    const card: Card
    var trustStatus: TrustStatus
    var verification: map<Stage, Result>

    constructor (card: Card)
      ensures this.card == card && Value() == Tool(card, DISCOVERED, map[])
    {
      this.card, trustStatus, verification := card, DISCOVERED, map[];
    }

    function Value(): Tool
      reads this
    {
      Tool(card, trustStatus, verification)
    }
  }

  class InMemoryToolRegistry {
    var tools: map<Uuid, ToolRecord>

    ghost predicate Valid()
      reads this, tools.Values
    {
      forall i :: i in tools ==> tools[i].card.id == i
    }

    ghost function Value(): Registry
      reads this, tools.Values
    {
      map i | i in tools :: tools[i].Value()
    }

    constructor ()
      ensures Valid() && Value() == map[]
    {
      tools := map[];
    }

    method Create(tool: ToolRecord) returns (reply: Reply)
      requires Valid()
      modifies this
      ensures Valid()
      ensures tool.Value() == old(tool.Value())
      ensures Value() == if NameTaken(old(Value()), tool.card.name) then old(Value())
                         else old(Value())[tool.card.id := tool.Value()]
      ensures reply == if NameTaken(old(Value()), tool.card.name) then DuplicateName else Done(tool.Value())
    {
      var taken := GetByName(tool.card.name);
      if taken.Some? {
        return DuplicateName;
      }
      tools := tools[tool.card.id := tool];
      return Done(Tool(tool.card, tool.trustStatus, tool.verification));
    }

    /** A registered tool of that name, if there is one. */
    method GetByName(name: string) returns (found: Option<ToolRecord>)
      requires Valid()
      ensures found.Some? ==> found.value in tools.Values && found.value.card.name == name
      ensures found.None? <==> !NameTaken(Value(), name)
    {
      var unseen := tools.Keys;
      while unseen != {}
        invariant unseen <= tools.Keys
        invariant forall i :: i in tools && i !in unseen ==> tools[i].card.name != name
        decreases |unseen|
      {
        var i :| i in unseen;
        if tools[i].card.name == name {
          assert Value()[i].card.name == name;
          return Some(tools[i]);
        }
        unseen := unseen - {i};
      }
      return None;
    }

    method Get(id: Uuid) returns (found: Option<ToolRecord>)
      ensures found == if id in tools then Some(tools[id]) else None
    {
      found := if id in tools then Some(tools[id]) else None;
    }

    method UpdateTrustStatus(id: Uuid, status: TrustStatus) returns (reply: Reply)
      requires Valid()
      modifies tools.Values
      ensures Valid()
      ensures Applied(Value(), reply) == if id in old(Value()) then WithTrust(old(Value()), id, status)
                                         else Applied(old(Value()), NotFound)
    {
      var tool := Get(id);
      if tool.None? {
        return NotFound;
      }
      tool.value.trustStatus := status;
      return Done(Tool(tool.value.card, status, tool.value.verification));
    }

    method RecordVerification(id: Uuid, report: VerificationReport) returns (ok: bool)
      requires Valid()
      modifies tools.Values
      ensures Valid()
      ensures ok <==> id in old(Value())
      ensures Value() == if ok then old(Value())[id := old(Value())[id].(verification := report.results)]
                         else old(Value())
    {
      var tool := Get(id);
      if tool.None? {
        return false;
      }
      tool.value.verification := report.results;
      return true;
    }
  }

  /** The handlers that move a tool between trust levels. */
  class ToolRoutes {
    const registry: InMemoryToolRegistry
    const pipeline: VerificationPipeline

    constructor (registry: InMemoryToolRegistry, pipeline: VerificationPipeline)
      ensures this.registry == registry && this.pipeline == pipeline
    {
      this.registry, this.pipeline := registry, pipeline;
    }

    method RegisterTool(card: Card) returns (reply: Reply)
      requires registry.Valid()
      modifies registry
      ensures registry.Valid()
      ensures Applied(registry.Value(), reply) == Apply(old(registry.Value()), Register(card))
    {
      var tool := new ToolRecord(card);
      reply := registry.Create(tool);
    }

    method VerifyTool(id: Uuid) returns (reply: Reply)
      requires registry.Valid()
      modifies registry.tools.Values
      ensures registry.Valid()
      ensures Applied(registry.Value(), reply) == Apply(old(registry.Value()), Op.Verify(id))
    {
      ghost var before := registry.Value();
      var tool := registry.Get(id);
      if tool.None? {
        return NotFound;
      }
      var report := pipeline.Verify(tool.value.card);
      var _ := registry.RecordVerification(id, report);
      ReviewRecorded(before, id);
      reply := SettleTrust(id, report);
    }

    method SettleTrust(id: Uuid, report: VerificationReport) returns (reply: Reply)
      requires registry.Valid() && id in registry.tools
      modifies registry.tools.Values
      ensures registry.Valid()
      ensures Applied(registry.Value(), reply) ==
              WithTrust(old(registry.Value()), id, TrustAfter(Overall(old(report.results))))
    {
      var overall := report.OverallResult();
      if overall == FAILED {
        reply := registry.UpdateTrustStatus(id, BLOCKED);
      } else if overall == Result.VERIFIED {
        reply := registry.UpdateTrustStatus(id, TrustStatus.VERIFIED);
      } else {
        reply := registry.UpdateTrustStatus(id, UNDER_REVIEW);
      }
    }

    method ApproveTool(id: Uuid) returns (reply: Reply)
      requires registry.Valid()
      modifies registry.tools.Values
      ensures registry.Valid()
      ensures Applied(registry.Value(), reply) == Apply(old(registry.Value()), Approve(id))
    {
      var tool := registry.Get(id);
      if tool.None? {
        return NotFound;
      }
      if tool.value.trustStatus != TrustStatus.VERIFIED {
        return InvalidTransition;
      }
      reply := registry.UpdateTrustStatus(id, APPROVED);
    }

    method BlockTool(id: Uuid) returns (reply: Reply)
      requires registry.Valid()
      modifies registry.tools.Values
      ensures registry.Valid()
      ensures Applied(registry.Value(), reply) == Apply(old(registry.Value()), Block(id))
    {
      reply := registry.UpdateTrustStatus(id, BLOCKED);
    }

    method DeprecateTool(id: Uuid) returns (reply: Reply)
      requires registry.Valid()
      modifies registry.tools.Values
      ensures registry.Valid()
      ensures Applied(registry.Value(), reply) == Apply(old(registry.Value()), Deprecate(id))
    {
      reply := registry.UpdateTrustStatus(id, DEPRECATED);
    }
  }

  // --- The eligibility gate ----------------------------------------------------------------------------------------

  datatype Objection =
    | IsBlocked | IsDeprecated | DeclaresProhibited | WrongPlatform | ReviewFailed | NotApproved

  /** `ToolPolicyGate.evaluate`: `None` means eligible. */
  function GateObjection(t: Tool, platform: Option<string>): Option<Objection> {
    if t.trust == BLOCKED then Some(IsBlocked)
    else if t.trust == DEPRECATED then Some(IsDeprecated)
    else if Prohibited(t.card) then Some(DeclaresProhibited)
    else if platform.Some? && platform.value !in t.card.platforms then Some(WrongPlatform)
    else if SECURITY_POLICY_REVIEW in t.verification && t.verification[SECURITY_POLICY_REVIEW] == FAILED then
      Some(ReviewFailed)
    else if t.trust != APPROVED then Some(NotApproved)
    else None
  }

  /** For every tool any sequence of registry operations can produce, the gate comes down to two questions. */
  lemma GateReduces(ops: seq<Op>, id: Uuid, platform: Option<string>)
    requires id in After(map[], ops)
    ensures var t := After(map[], ops)[id];
            GateObjection(t, platform).None? <==>
            t.trust == APPROVED && (platform.None? || platform.value in t.card.platforms)
  {
    hide After, Prohibited, Overall;
    RegistryAlwaysSound(map[], ops);
    ReviewPasses(After(map[], ops)[id].card);
  }

  // --- Installation readiness --------------------------------------------------------------------------------------

  datatype CheckName =
    | ToolExists | ProvenanceKnown | SourceTrusted | PlatformSupported | LicenseKnown | DependenciesUnderstood
    | PermissionsKnown | RiskEvaluated | TrustApproved | PolicyAllows | TargetAuthorized

  datatype CheckStatus = PASS | FAIL | INDEFINITE

  datatype Check = Check(name: CheckName, status: CheckStatus, critical: bool)

  datatype Readiness = Readiness(tool: Option<Tool>, checks: seq<Check>, decision: Option<PolicyDecision>)

  function PassIf(ok: bool): CheckStatus {
    if ok then PASS else FAIL
  }

  function Lookup(r: Registry, id: Uuid): Option<Tool> {
    if id in r then Some(r[id]) else None
  }

  /** The checklist. The clock is read twice: by the policy engine and by the authorization check. */
  function CheckReadiness(tool: Option<Tool>, target: TargetScope, platform: string, policyNow: Time, scopeNow: Time)
    : (report: Readiness)
    ensures report.tool == tool
  {
    if tool.None? then Readiness(None, [Check(ToolExists, FAIL, true)], None)
    else
      var card := tool.value.card;
      var decision := Evaluate(ActionRequest(card.id, INSTALL_ACTION, card.riskLevel, target), policyNow);
      Readiness(tool, [
        Check(ToolExists, PASS, true),
        Check(ProvenanceKnown, if card.sourceType != SourceType.UNKNOWN then PASS else INDEFINITE, true),
        Check(SourceTrusted, PassIf(card.sourceType in OFFICIAL_SOURCES), true),
        Check(PlatformSupported, PassIf(platform in card.platforms), true),
        Check(LicenseKnown, if Truthy(card.license) then PASS else INDEFINITE, false),
        Check(DependenciesUnderstood, PASS, false),
        Check(PermissionsKnown, PASS, false),
        Check(RiskEvaluated, PASS, true),
        Check(TrustApproved, PassIf(tool.value.trust == APPROVED), true),
        Check(PolicyAllows, PassIf(decision.verdict != DENY), true),
        Check(TargetAuthorized, PassIf(IsAuthorized(target, scopeNow)), true)], Some(decision))
  }

  predicate Ready(report: Readiness) {
    && report.tool.Some?
    && !(report.decision.Some? && report.decision.value.verdict == DENY)
    && forall i :: 0 <= i < |report.checks| && report.checks[i].critical ==> report.checks[i].status == PASS
  }

  lemma InstallDenied(action: Uuid, risk: RiskTier, target: TargetScope, now: Time)
    ensures Evaluate(ActionRequest(action, INSTALL_ACTION, risk, target), now).verdict == DENY <==>
        !IsAuthorized(target, now)
  {
    TokenMeans(ActionRequest(action, INSTALL_ACTION, risk, target), now, true);
  }

  lemma ReadyUnfolds(t: Tool, target: TargetScope, platform: string, policyNow: Time, scopeNow: Time)
    ensures Ready(CheckReadiness(Some(t), target, platform, policyNow, scopeNow)) <==>
            && t.card.sourceType in OFFICIAL_SOURCES
            && platform in t.card.platforms
            && t.trust == APPROVED
            && IsAuthorized(target, policyNow) && IsAuthorized(target, scopeNow)
  {
    hide Evaluate, IsAuthorized, Truthy;
    InstallDenied(t.card.id, t.card.riskLevel, target, policyNow);
    var report := CheckReadiness(Some(t), target, platform, policyNow, scopeNow);
    assert report.checks[2].name == SourceTrusted && report.checks[3].name == PlatformSupported
        && report.checks[8].name == TrustApproved && report.checks[10].name == TargetAuthorized;
  }

  /** The eleven checks come down to three questions, whatever history the registry has. */
  lemma ReadinessReduces(ops: seq<Op>, id: Uuid, target: TargetScope, platform: string, policyNow: Time, scopeNow: Time)
    ensures var r := After(map[], ops);
            Ready(CheckReadiness(Lookup(r, id), target, platform, policyNow, scopeNow)) <==>
            && id in r && r[id].trust == APPROVED
            && platform in r[id].card.platforms
            && IsAuthorized(target, policyNow) && IsAuthorized(target, scopeNow)
  {
    hide After, Prohibited, Review, Evaluate;
    RegistryAlwaysSound(map[], ops);
    if id in After(map[], ops) {
      ReadyUnfolds(After(map[], ops)[id], target, platform, policyNow, scopeNow);
    }
  }
}
