/** The policy engine and the approval token it feeds. */
module Policy {
  import opened Prelude

  datatype Verdict = ALLOW | DENY | REQUIRE_APPROVAL

  datatype RiskTier = LOW | MEDIUM | HIGH | CRITICAL

  datatype TargetScope = TargetScope(id: Uuid, isActive: bool, expiresAt: Option<Time>)

  datatype ActionRequest = ActionRequest(actionId: Uuid, actionType: string, riskTier: RiskTier, target: TargetScope)

  datatype PolicyDecision = PolicyDecision(verdict: Verdict, reasons: seq<string>, requiresApproval: bool)

  const DIAGNOSTIC_ACTION := "diagnostics.echo_test"
  const INSTALL_ACTION := "tool_install.package_manager_install"
  const VERIFY_ACTION := "tool_install.package_manager_verify"

  const REGISTERED_ACTION_TYPES := {DIAGNOSTIC_ACTION, INSTALL_ACTION, VERIFY_ACTION}

  predicate IsAuthorized(t: TargetScope, now: Time) {
    t.isActive && !(t.expiresAt.Some? && t.expiresAt.value <= now)
  }

  function Evaluate(r: ActionRequest, now: Time): PolicyDecision {
    if !IsAuthorized(r.target, now) then
      PolicyDecision(DENY, ["Target has no active, non-expired authorization."], false)
    else if r.actionType !in REGISTERED_ACTION_TYPES then
      PolicyDecision(DENY, ["Action type '" + r.actionType + "' is not in the reviewed action registry."], false)
    else if r.riskTier != LOW then
      PolicyDecision(REQUIRE_APPROVAL, ["The risk tier requires explicit human approval."], true)
    else
      PolicyDecision(ALLOW, ["Target authorized and action type registered at low risk."], false)
  }

  /** `ApprovedExecution.from_policy_decision` yields a token exactly when this holds; otherwise it raises. */
  predicate Approves(d: PolicyDecision, approvedByUser: bool) {
    d.verdict == ALLOW || (d.verdict == REQUIRE_APPROVAL && approvedByUser)
  }

  /** A token obtained through a policy decision: the target was authorised, the action type reviewed, and the risk low
      unless a person approved. Conversely nothing of that kind is refused. */
  lemma TokenMeans(r: ActionRequest, now: Time, approvedByUser: bool)
    ensures Approves(Evaluate(r, now), approvedByUser) <==>
            && IsAuthorized(r.target, now)
            && r.actionType in REGISTERED_ACTION_TYPES
            && (r.riskTier == LOW || approvedByUser)
  {
  }
}
