/**
 The vocabulary of the enforcer: actions, safety profiles, and the context that a policy sees.
 */
module Types {
  /** What triggered a decision; a policy hit and an unset context are different values. */
  datatype MatchContext = NoContext | PolicyHit | RiskLimit | ResourceLimit

  /** Actions are strings in the database, so an unknown one is possible; Unset is the empty string. */
  datatype Action = Unset | Allow | Deny | Warn | PendingApproval | PendingUserApproval | PendingAdminApproval | OtherAction(name: string)

  datatype Severity = NoSeverity | LowSeverity | MediumSeverity | HighSeverity | CriticalSeverity | OtherSeverity(name: string)

  /** Where a safety profile came from. */
  datatype Source = SelfReported | Override | UserOverride | Inferred | OtherSource(name: string)

  /** Who speaks in a decision: a policy by its id, or one of the gates; GateNone is the empty id. */
  datatype Speaker =
    | GateNone
    | PolicyID(id: string)
    | JustificationRequired
    | JustificationTooShort
    | InferredProfileGate
    | UnknownToolNoProfile
    | OverrideRequiresHITL
    | RateLimitDisposition

  predicate IsDenyAction(a: Action) {
    a.Deny?
  }

  predicate RequiresApproval(a: Action) {
    a.PendingApproval? || a.PendingAdminApproval? || a.PendingUserApproval?
  }

  datatype SafetyProfile = SafetyProfile(
    toolName: string,
    backendID: string,
    risk: string,
    impact: string,
    cost: int,
    requiresHITL: bool,
    piiExposure: bool,
    idempotent: bool,
    source: Source)

  /** Available tokens, capacity and refill rate of one bucket. */
  type BucketStatus = (int, int, int)

  datatype DecisionContext = DecisionContext(
    userID: string,
    userRole: string,
    userEmail: string,
    trustLevel: int,
    tool: string,
    args: map<string, string>,
    backendID: string,
    justification: string,
    safety: SafetyProfile,
    callRate: int,
    riskBucket: BucketStatus,
    resourceBucket: BucketStatus)
}
