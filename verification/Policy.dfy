/** The policy engine that decides whether a proposed action may run and who has to agree first. */
module Policy {
  import opened Catalog

  datatype Input = Input(
    role: string, environment: string, action: Action, target: string, requestedRisk: Risk, parameters: Params,
    sameActionLast10m: nat, failedAttempts: nat)

  datatype Reason =
    | Viewer | RoleMissing | EnvironmentDisabled | HighRisk | NotRegistered | Repeated | CircuitOpen | InvalidTarget
    | LowRiskAllowed | MediumNeedsApproval | UnknownRisk

  datatype Decision = Decision(allow: bool, requiresApproval: bool, reason: Reason, maxAttempts: nat, risk: Risk)

  function Blocked(reason: Reason, risk: Risk): Decision { Decision(false, true, reason, 1, risk) }

  function Evaluate(environments: set<string>, input: Input): Decision {
    if input.role == "viewer" then Blocked(Viewer, Unset)
    else if input.role == "" then Blocked(RoleMissing, Unset)
    else if input.environment !in environments then Blocked(EnvironmentDisabled, Unset)
    else
      var risk := EffectiveRisk(input.action, input.requestedRisk);
      if risk == High then Blocked(HighRisk, risk)
      else if !IsRegistered(input.action) then Blocked(NotRegistered, risk)
      else if input.sameActionLast10m >= 2 then Blocked(Repeated, risk)
      else if input.failedAttempts >= 2 then Blocked(CircuitOpen, risk)
      else if !Validate(input.action, input.target, input.parameters) then Blocked(InvalidTarget, risk)
      else if risk == Low then Decision(true, false, LowRiskAllowed, 2, risk)
      else if risk == Medium then Decision(true, true, MediumNeedsApproval, 1, risk)
      else Decision(false, true, UnknownRisk, 1, risk)
  }

  /** What the engine lets through, stated on the request alone: no rank, no branch order. */
  predicate Permitted(environments: set<string>, input: Input) {
    && input.role != "" && input.role != "viewer" && input.environment in environments
    && IsRegistered(input.action) && Validate(input.action, input.target, input.parameters)
    && input.requestedRisk in {Unset, Low, Medium}
    && input.sameActionLast10m < 2 && input.failedAttempts < 2
  }

  /** The engine allows exactly the permitted requests, and the only ones it lets run without an approval are
      diagnostics that nobody asked to treat more strictly. */
  lemma PolicyGate(environments: set<string>, input: Input)
    ensures Evaluate(environments, input).allow <==> Permitted(environments, input)
    ensures Evaluate(environments, input).allow && !Evaluate(environments, input).requiresApproval <==>
            Permitted(environments, input) && input.action == CollectDiagnostics && input.requestedRisk in {Unset, Low}
  {
    var risk := EffectiveRisk(input.action, input.requestedRisk);
    if IsRegistered(input.action) {
      assert risk == if input.requestedRisk in {Unset, Low} then CatalogRisk(input.action) else input.requestedRisk;
    }
  }

  /** What each verdict says is so. */
  predicate IsSo(environments: set<string>, input: Input, reason: Reason) {
    match reason
    case Viewer => input.role == "viewer"
    case RoleMissing => input.role == ""
    case EnvironmentDisabled => input.environment !in environments
    case HighRisk => input.requestedRisk == High
    case NotRegistered => input.action.Unregistered?
    case Repeated => input.sameActionLast10m >= 2
    case CircuitOpen => input.failedAttempts >= 2
    case InvalidTarget => !Validate(input.action, input.target, input.parameters)
    case LowRiskAllowed => input.action == CollectDiagnostics && input.requestedRisk in {Unset, Low}
    case MediumNeedsApproval => input.action != CollectDiagnostics || input.requestedRisk == Medium
    case UnknownRisk => input.requestedRisk.Unrecognised?
  }

  /** A verdict gives a true reason, an approving one for permitted requests only, and a second attempt to low risk
      alone. */
  lemma VerdictSaysWhy(environments: set<string>, input: Input)
    ensures var d := Evaluate(environments, input);
            && IsSo(environments, input, d.reason)
            && (d.reason == LowRiskAllowed <==> d.allow && !d.requiresApproval)
            && (d.reason == MediumNeedsApproval <==> d.allow && d.requiresApproval)
            && d.maxAttempts == if d.reason == LowRiskAllowed then 2 else 1
  {
    hide Validate;
    PolicyGate(environments, input);
  }
}
