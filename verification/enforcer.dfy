/**
 The enforcement pipeline: every gate a tool call passes before it may run.
 */
module Enforcement {
  import opened Common
  import opened Types
  import opened CelEngine
  import opened RateLimit
  import opened Buckets
  import opened Resolver

  datatype Config = Config(
    minJustificationLength: int,
    enableKillSwitch: bool,
    countsCalls: bool,
    inferredCostMultiplier: int)

  datatype Failure = PolicyViolation | KillSwitchActive

  datatype User = User(email: string, role: string)

  /**
   What the stores and clocks answer during one call; None is a failed query.
   */
  datatype Answers = Answers(
    user: Option<User>,
    callRate: Option<int>,
    killedScopes: Option<set<string>>,
    at: Readings)

  // ---------- The gates ----------

  predicate JustificationPasses(config: Config, justification: string, skip: bool) {
    skip || config.minJustificationLength <= 0 || (justification != "" && Utf8Length(justification) >= config.minJustificationLength)
  }

  /** A kill switch whose query fails counts as inactive. */
  predicate Killed(config: Config, killedScopes: Option<set<string>>, backendID: string) {
    config.enableKillSwitch && killedScopes.Some? && (backendID in killedScopes.value || "global" in killedScopes.value)
  }

  function CostOf(config: Config, profile: SafetyProfile): Cost {
    var base := CalculateCost(profile.cost, profile.risk, profile.impact);
    if profile.source == Inferred && config.inferredCostMultiplier > 1
    then Cost(base.risk * config.inferredCostMultiplier, base.resource * config.inferredCostMultiplier)
    else base
  }

  predicate TrustedSource(source: Source) {
    source == SelfReported || source == Override || source == UserOverride
  }

  /** An override profile that demands human approval of a call that would otherwise proceed. */
  predicate Tightened(profile: SafetyProfile, action: Action) {
    && !IsDenyAction(action) && !RequiresApproval(action)
    && profile.requiresHITL && (profile.source == Override || profile.source == UserOverride)
  }

  /** A gate's own decision; its message text is not modelled. */
  function Refusal(action: Action, severity: Severity, gate: Speaker): Decision {
    Decision(action, severity, "", gate, 0, [], NoContext)
  }

  /** The ruling before any token is spent; `spends` says that the buckets decide next. */
  datatype Ruling = Ruling(decision: Decision, failure: Option<Failure>, spends: bool)

  function Rule(config: Config, profile: SafetyProfile, justification: string, skip: bool, killed: bool, raw: Decision): Ruling {
    if !JustificationPasses(config, justification, skip) then
      Ruling(JustificationRefusal(justification), Some(PolicyViolation), false)
    else if killed then
      Ruling(NO_MATCH, Some(KillSwitchActive), false)
    else
      Permit(profile, raw)
  }

  /** Deny unless permitted; then the override's demand for a human. */
  function Permit(profile: SafetyProfile, raw: Decision): Ruling {
    if raw.action == Unset && profile.source == Inferred then
      Ruling(Refusal(PendingAdminApproval, MediumSeverity, InferredProfileGate), None, false)
    else if raw.action == Unset && !TrustedSource(profile.source) then
      Ruling(Refusal(Deny, HighSeverity, UnknownToolNoProfile), Some(PolicyViolation), false)
    else
      var decision := if raw.action == Unset then raw.(action := Allow) else raw;
      if Tightened(profile, decision.action) then
        Ruling(Refusal(PendingUserApproval, MediumSeverity, OverrideRequiresHITL), None, false)
      else
        Ruling(decision, None, decision.action == Allow)
  }

  function JustificationRefusal(justification: string): Decision {
    if justification == ""
    then Refusal(Deny, MediumSeverity, JustificationRequired)
    else Refusal(Deny, MediumSeverity, JustificationTooShort)
  }

  /** A tool call, and what the stores and clocks answer while it is handled. */
  datatype Request = Request(
    userID: string,
    tool: string,
    args: map<string, string>,
    backendID: string,
    justification: string,
    skipJustification: bool,
    answers: Answers)

  /** The context that the policies see. */
  function ContextFor(r: Request, profile: SafetyProfile, config: Config, levels: Table): DecisionContext {
    var user := if r.userID != "" then r.answers.user else None;
    DecisionContext(
      r.userID,
      if user.Some? then user.value.role else "",
      if user.Some? then user.value.email else "",
      if user.None? then 0 else if user.value.role == "admin" then 100 else 50,
      r.tool, r.args, r.backendID, r.justification, profile,
      if config.countsCalls && r.answers.callRate.Some? then r.answers.callRate.value else 0,
      StatusOf(levels, BucketKey(r.userID, r.backendID, "risk")),
      StatusOf(levels, BucketKey(r.userID, r.backendID, "resource")))
  }

  /** The verdicts of the policies on a request. */
  function VerdictsOn(r: Request, profile: SafetyProfile, config: Config, cel: Cel, policies: Policies, levels: Table): Verdicts {
    VerdictsIn(policies, cel, ContextFor(r, profile, config, levels))
  }

  function RuleOn(r: Request, profile: SafetyProfile, config: Config, v: Verdicts, order: seq<Policy>): Ruling {
    Rule(config, profile, r.justification, r.skipJustification, Killed(config, r.answers.killedScopes, r.backendID),
         Fold(NO_MATCH, order, v))
  }

  // ---------- After the gates ----------

  /** The decision for an exhausted bucket: the disposition of its context, or DENY when there is none. */
  function LimitDecision(indexOrder: seq<Policy>, ctx: MatchContext): Decision {
    var found := Disposition(indexOrder, ctx);
    Decision(DispositionAction(indexOrder, ctx), MediumSeverity, if found.Some? then found.value.1 else "",
             RateLimitDisposition, 0, [], ctx)
  }

  /** What becomes of a ruling once the buckets have answered. */
  function FinalDecision(ruling: Ruling, indexOrder: seq<Policy>, riskAllowed: bool, resourceAllowed: bool): Decision {
    if !ruling.spends || (riskAllowed && resourceAllowed) then ruling.decision
    else LimitDecision(indexOrder, if resourceAllowed then RiskLimit else ResourceLimit)
  }

  /** How a ruling turns into the final decision and the final bucket levels. */
  ghost predicate Settles(ruling: Ruling, decision: Decision, indexOrder: seq<Policy>, levels: Table, after: Table, configs: Configs,
                          userID: string, backendID: string, cost: Cost, at: Readings)
  {
    && after == (if ruling.spends then Debited(levels, configs, userID, backendID, cost, at) else levels)
    && decision == FinalDecision(ruling, indexOrder, RiskAllowed(levels, configs, userID, backendID, cost, at),
                                 ResourceAllowed(levels, configs, userID, backendID, cost, at))
  }

  /** What a handled call comes to, given the verdicts of the policies and the order they were visited in. */
  ghost predicate Handles(r: Request, profile: SafetyProfile, config: Config, v: Verdicts, order: seq<Policy>,
                          decision: Decision, failure: Option<Failure>, indexOrder: seq<Policy>,
                          levels: Table, after: Table, configs: Configs)
  {
    var ruling := RuleOn(r, profile, config, v, order);
    && failure == ruling.failure
    && Settles(ruling, decision, indexOrder, levels, after, configs, r.userID, r.backendID, CostOf(config, profile), r.answers.at)
  }

  lemma SettledIsHandled(r: Request, profile: SafetyProfile, config: Config, v: Verdicts, order: seq<Policy>,
                         ruling: Ruling, decision: Decision, indexOrder: seq<Policy>, levels: Table, after: Table, configs: Configs)
    requires ruling == RuleOn(r, profile, config, v, order)
    requires Settles(ruling, decision, indexOrder, levels, after, configs, r.userID, r.backendID, CostOf(config, profile), r.answers.at)
    ensures Handles(r, profile, config, v, order, decision, ruling.failure, indexOrder, levels, after, configs)
  {}

  // ---------- The enforcer ----------

  class Enforcer {
    const config: Config
    const resolver: MetadataResolver
    const engine: CELEngine
    const rateLimit: BucketManager

    constructor (config: Config, resolver: MetadataResolver, engine: CELEngine, rateLimit: BucketManager)
      ensures this.resolver == resolver && this.engine == engine && this.rateLimit == rateLimit
      ensures this.config == config.(inferredCostMultiplier :=
                if config.inferredCostMultiplier == 0 then 3 else config.inferredCostMultiplier)
    {
      this.config := if config.inferredCostMultiplier == 0 then config.(inferredCostMultiplier := 3) else config;
      this.resolver, this.engine, this.rateLimit := resolver, engine, rateLimit;
    }

    ghost predicate Valid()
      reads this, engine, rateLimit
    {
      engine.Valid() && rateLimit.Valid()
    }

    /** Loads the stored rows into the engine; a row that fails to compile is skipped. */
    method LoadPolicies(rows: seq<Policy>)
      requires Valid() && engine.indexed == engine.policies
      modifies engine
      ensures Valid() && engine.policies == Loaded(old(engine.policies), engine.cel, rows)
      ensures engine.indexed == engine.policies
    {
      for i := 0 to |rows|
        modifies engine
        invariant Valid() && engine.policies == Loaded(old(engine.policies), engine.cel, rows[..i])
        invariant engine.indexed == engine.policies
      {
        assert rows[..i + 1][..i] == rows[..i];
        var ok := engine.AddPolicy(rows[i]);
      }
      assert rows[..|rows|] == rows;
    }

    /** The kill switch, then the policies; None when the switch is active. */
    method Evaluate(ctx: DecisionContext, killedScopes: Option<set<string>>)
      returns (decision: Option<Decision>, ghost order: seq<Policy>)
      requires engine.Valid()
      ensures Enumerates(order, engine.policies)
      ensures decision.None? == Killed(config, killedScopes, ctx.backendID)
      ensures decision.Some? ==>
                decision.value == Fold(NO_MATCH, order, VerdictsIn(engine.policies, engine.cel, ctx))
    {
      var raw;
      raw, order := engine.Evaluate(ctx);
      decision := if Killed(config, killedScopes, ctx.backendID) then None else Some(raw);
    }

    /** The disposition of a context, or DENY when no policy declares it. */
    method ResolveDisposition(ctx: MatchContext) returns (action: Action, message: string)
      requires engine.Valid()
      ensures action == DispositionAction(engine.indexOrder, ctx)
      ensures message == LimitDecision(engine.indexOrder, ctx).message
      ensures NoneDeclares(engine.indexed, ctx) ==> action == Deny
      ensures !NoneDeclares(engine.indexed, ctx) ==>
                exists id :: DeclaresFirst(engine.indexed, id, ctx) && action == engine.indexed[id].dispositions[ctx]
    {
      DispositionIsLeast(engine.indexOrder, engine.indexed, ctx);
      var found := engine.LookupDisposition(ctx);
      if found.None? {
        return Deny, "";
      }
      return found.value.0, found.value.1;
    }

    /** Fills in the decision context, reading the bucket levels without touching them. */
    method BuildContext(r: Request, profile: SafetyProfile) returns (ctx: DecisionContext)
      requires rateLimit.Valid()
      ensures ctx == ContextFor(r, profile, config, rateLimit.Levels())
    {
      var risk, resource := rateLimit.GetBucketStatus(r.userID, r.backendID);
      var role, email, trust := "", "", 0;
      if r.userID != "" && r.answers.user.Some? {
        role, email := r.answers.user.value.role, r.answers.user.value.email;
        trust := if role == "admin" then 100 else 50;
      }
      var callRate := 0;
      if config.countsCalls && r.answers.callRate.Some? {
        callRate := r.answers.callRate.value;
      }
      ctx := DecisionContext(r.userID, role, email, trust, r.tool, r.args, r.backendID, r.justification, profile, callRate, risk, resource);
    }

    /** The kill switch and the policies on a request. */
    method AskPolicies(r: Request, profile: SafetyProfile) returns (raw: Option<Decision>, ghost order: seq<Policy>)
      requires Valid()
      ensures Enumerates(order, engine.policies)
      ensures raw == if Killed(config, r.answers.killedScopes, r.backendID) then None
                     else Some(Fold(NO_MATCH, order, VerdictsOn(r, profile, config, engine.cel, engine.policies, rateLimit.Levels())))
    {
      var ctx := BuildContext(r, profile);
      raw, order := Evaluate(ctx, r.answers.killedScopes);
    }

    /** Every gate up to the token buckets. */
    method PassGates(r: Request, profile: SafetyProfile) returns (ruling: Ruling, ghost order: seq<Policy>)
      requires Valid()
      ensures Enumerates(order, engine.policies)
      ensures ruling == RuleOn(r, profile, config, VerdictsOn(r, profile, config, engine.cel, engine.policies, rateLimit.Levels()), order)
    {
      if !r.skipJustification && config.minJustificationLength > 0 {
        if r.justification == "" || Utf8Length(r.justification) < config.minJustificationLength {
          order := EveryMapHasAnOrder(engine.policies);
          return Ruling(JustificationRefusal(r.justification), Some(PolicyViolation), false), order;
        }
      }
      var raw;
      raw, order := AskPolicies(r, profile);
      if raw.None? {
        return Ruling(NO_MATCH, Some(KillSwitchActive), false), order;
      }
      ruling := PermitOrRefuse(raw.value, profile);
    }

    /** The gates after the policies. */
    method PermitOrRefuse(raw: Decision, profile: SafetyProfile) returns (ruling: Ruling)
      ensures ruling == Permit(profile, raw)
    {
      var decision := raw;
      if decision.action == Unset {
        if TrustedSource(profile.source) {
          decision := decision.(action := Allow);
        } else if profile.source == Inferred {
          return Ruling(Refusal(PendingAdminApproval, MediumSeverity, InferredProfileGate), None, false);
        } else {
          return Ruling(Refusal(Deny, HighSeverity, UnknownToolNoProfile), Some(PolicyViolation), false);
        }
      }
      if Tightened(profile, decision.action) {
        return Ruling(Refusal(PendingUserApproval, MediumSeverity, OverrideRequiresHITL), None, false);
      }
      return Ruling(decision, None, decision.action == Allow);
    }

    /** Debits both buckets; a refusal turns the decision into the disposition of the exhausted bucket. */
    method Spend(userID: string, backendID: string, ruling: Ruling, cost: Cost, at: Readings) returns (final: Decision)
      requires Valid() && ruling.spends
      modifies rateLimit`buckets, rateLimit.buckets.Values
      ensures rateLimit.Valid() && fresh(rateLimit.buckets.Values - old(rateLimit.buckets.Values))
      ensures Settles(ruling, final, engine.indexOrder, old(rateLimit.Levels()), rateLimit.Levels(), rateLimit.config,
                      userID, backendID, cost, at)
    {
      var riskAllowed, resourceAllowed := rateLimit.CheckAndConsume(userID, backendID, cost, at);
      if riskAllowed && resourceAllowed {
        return ruling.decision;
      }
      var matchCtx := if !resourceAllowed then ResourceLimit else RiskLimit;
      var action, message := ResolveDisposition(matchCtx);
      return Decision(action, MediumSeverity, message, RateLimitDisposition, 0, [], matchCtx);
    }

    /**
     The entry point.  `order` is the order in which the policies happened to be visited.
     */
    method HandleToolCall(r: Request) returns (decision: Decision, failure: Option<Failure>, ghost order: seq<Policy>)
      requires Valid()
      modifies rateLimit`buckets, rateLimit.buckets.Values
      ensures rateLimit.Valid()
      ensures Enumerates(order, engine.policies)
      ensures var profile := old(resolver.ResolveForUser(r.tool, r.backendID, r.userID));
              var levels := old(rateLimit.Levels());
              var v := VerdictsOn(r, profile, config, engine.cel, engine.policies, levels);
              Handles(r, profile, config, v, order, decision, failure, engine.indexOrder, levels, rateLimit.Levels(), rateLimit.config)
    {
      var profile := resolver.ResolveForUser(r.tool, r.backendID, r.userID);
      decision, failure, order := Decide(r, profile);
    }

    /** The gates, then the buckets. */
    method Decide(r: Request, profile: SafetyProfile) returns (decision: Decision, failure: Option<Failure>, ghost order: seq<Policy>)
      requires Valid()
      modifies rateLimit`buckets, rateLimit.buckets.Values
      ensures rateLimit.Valid()
      ensures Enumerates(order, engine.policies)
      ensures var levels := old(rateLimit.Levels());
              var v := VerdictsOn(r, profile, config, engine.cel, engine.policies, levels);
              Handles(r, profile, config, v, order, decision, failure, engine.indexOrder, levels, rateLimit.Levels(), rateLimit.config)
    {
      ghost var v := VerdictsOn(r, profile, config, engine.cel, engine.policies, rateLimit.Levels());
      var ruling;
      ruling, order := PassGates(r, profile);
      decision := Settle(ruling, r.userID, r.backendID, CostOf(config, profile), r.answers.at);
      failure := ruling.failure;
      SettledIsHandled(r, profile, config, v, order, ruling, decision, engine.indexOrder,
                       old(rateLimit.Levels()), rateLimit.Levels(), rateLimit.config);
    }

    /** Spends tokens when the ruling says so. */
    method Settle(ruling: Ruling, userID: string, backendID: string, cost: Cost, at: Readings) returns (decision: Decision)
      requires Valid()
      modifies rateLimit`buckets, rateLimit.buckets.Values
      ensures rateLimit.Valid()
      ensures Settles(ruling, decision, engine.indexOrder, old(rateLimit.Levels()), rateLimit.Levels(), rateLimit.config,
                      userID, backendID, cost, at)
    {
      decision := ruling.decision;
      if ruling.spends {
        decision := Spend(userID, backendID, ruling, cost, at);
      }
    }
  }

  // ---------- Cost ----------

  /** Without the multiplier of inferred profiles. */
  function PlainCost(profile: SafetyProfile): Cost {
    CalculateCost(profile.cost, profile.risk, profile.impact)
  }

  /**
   An inferred profile costs its multiple in both buckets, any other profile the plain cost; and only
   calls that write or delete cost any risk.
   */
  lemma InferredCostsMore(config: Config, profile: SafetyProfile)
    requires profile.cost >= 0
    ensures var cost, plain := CostOf(config, profile), PlainCost(profile);
            var factor := if profile.source == Inferred then Max(config.inferredCostMultiplier, 1) else 1;
            && cost.risk == factor * plain.risk && cost.resource == factor * plain.resource
            && plain.resource == profile.cost
            && plain.risk <= cost.risk && plain.resource <= cost.resource
            && (plain.risk != 0 <==> profile.cost != 0 && (profile.impact == "write" || profile.impact == "delete"))
            && plain.risk <= 4 * plain.resource
  {
    var c := profile.cost;
    assert c * 1 == c && c * 2 == 2 * c && c * 4 == 4 * c;
    var factor := Max(config.inferredCostMultiplier, 1);
    MulMono(1, factor, c);
    MulMono(1, factor, PlainCost(profile).risk);
  }

  /** The levels of the enforcer, from harmless to worst. */
  const LEVELS: seq<string> := ["low", "medium", "high", "critical"]

  lemma LevelsDiffer()
    ensures LEVELS[0] == "low" && LEVELS[1] == "medium" && LEVELS[2] == "high" && LEVELS[3] == "critical"
    ensures "medium" !in {"low", "med", "high"} && "critical" !in {"low", "med", "high"} && "low" !in {"med", "high"}
  {
    assert |"medium"| == 6 && |"critical"| == 8 && |"low"| == 3 && |"high"| == 4;
    assert "low"[0] != "med"[0];
  }

  /**
   Exactly when a worse level costs no less risk: always, except that "critical" costs less than "high"
   (and, were a cost negative, that "high" costs less than the levels below it).
   */
  lemma WorseCostsNoLess(cost: int, impact: string, i: nat, j: nat)
    requires i < j < |LEVELS|
    ensures CalculateCost(cost, LEVELS[i], impact).risk <= CalculateCost(cost, LEVELS[j], impact).risk <==>
            || cost == 0 || !IsRiskScoped(impact)
            || (cost > 0 && !(LEVELS[i] == "high" && LEVELS[j] == "critical"))
            || (cost < 0 && LEVELS[j] != "high")
  {
    LevelsDiffer();
    assert cost * 1 == cost && cost * 4 == 4 * cost;
  }

  /** Whatever text stands for a level, it costs more risk than "low" exactly when it is "med" or "high". */
  lemma OnlyMedAndHighCostMore(cost: int, level: string, impact: string)
    requires cost > 0 && IsRiskScoped(impact)
    ensures CalculateCost(cost, level, impact).risk > CalculateCost(cost, "low", impact).risk <==> level == "med" || level == "high"
    ensures CalculateCost(cost, level, impact).risk >= CalculateCost(cost, "low", impact).risk
  {
    LevelsDiffer();
    assert cost * 1 == cost && cost * 2 == 2 * cost && cost * 4 == 4 * cost;
  }

  /** The risk of a write or deletion, by the name of its level; everything else risks nothing. */
  lemma RiskCostByName(cost: int, level: string, impact: string)
    ensures var c := CalculateCost(cost, level, impact);
            && c.resource == cost
            && (impact != "write" && impact != "delete" ==> c.risk == 0)
            && (impact == "write" || impact == "delete" ==>
                  c.risk == if level == "high" then 4 * cost else if level == "med" then 2 * cost else cost)
  {
    LevelsDiffer();
    assert "med" != "high" by {
      assert "med"[0] != "high"[0];
    }
    assert cost * 1 == cost && cost * 2 == 2 * cost && cost * 4 == 4 * cost;
  }

  // ---------- Soundness ----------

  /** Every known action but ALLOW. */
  predicate Restrictive(a: Action) {
    IsDenyAction(a) || RequiresApproval(a) || a == Warn
  }

  /** The call was permitted by a matching ALLOW policy, or implicitly by a trusted profile. */
  ghost predicate Permitted(policies: Policies, v: Verdicts, profile: SafetyProfile) {
    || (exists id | id in policies :: Matches(policies[id], v) && policies[id].action == Allow)
    || TrustedSource(profile.source)
  }

  /**
   Tokens are spent, and ALLOW is possible, only for a call that every gate let through: whatever
   the visiting order, no matching policy denies, warns or asks for approval.
   */
  lemma AllowIsEarned(config: Config, profile: SafetyProfile, justification: string, skip: bool, killed: bool,
                      policies: Policies, v: Verdicts, order: seq<Policy>)
    requires Enumerates(order, policies)
    ensures var ruling := Rule(config, profile, justification, skip, killed, Fold(NO_MATCH, order, v));
            && ruling.decision.matchContext == NoContext
            && (ruling.spends <==> ruling.decision.action == Allow)
            && (ruling.spends ==>
                  && ruling.failure.None?
                  && JustificationPasses(config, justification, skip)
                  && !killed
                  && (forall id | id in policies && Matches(policies[id], v) :: !Restrictive(policies[id].action))
                  && Permitted(policies, v, profile)
                  && !Tightened(profile, Allow))
  {
    NothingRestrictive(policies, v, order);
  }

  /** An unset or ALLOW result means that no matching policy restricts; ALLOW, that one allows. */
  lemma NothingRestrictive(policies: Policies, v: Verdicts, order: seq<Policy>)
    requires Enumerates(order, policies)
    ensures var raw := Fold(NO_MATCH, order, v);
            && raw.matchContext == NoContext
            && (raw.action == Unset || raw.action == Allow ==>
                  forall id | id in policies && Matches(policies[id], v) :: !Restrictive(policies[id].action))
            && (raw.action == Allow ==> exists id | id in policies :: Matches(policies[id], v) && policies[id].action == Allow)
  {
    FoldIsBest(NO_MATCH, order, v);
    var raw := Fold(NO_MATCH, order, v);
    forall id | id in policies && Matches(policies[id], v)
      ensures ActionRank(policies[id].action) <= ActionRank(raw.action)
    {
      assert policies[id] in order;
    }
    if raw.action == Allow {
      assert !SameVoice(raw, NO_MATCH);
      var p :| p in order && Matches(p, v) && SpeaksFor(raw, p);
      assert p.id in policies && policies[p.id] == p;
    }
  }

  /**
   The final decision: ALLOW without a match context means that every gate let the call through and
   that both buckets afforded and paid exactly its cost; any other decision without a match context
   left every bucket as it was.
   */
  lemma PipelineIsSound(r: Request, profile: SafetyProfile, config: Config, policies: Policies, v: Verdicts, order: seq<Policy>,
                        decision: Decision, failure: Option<Failure>, indexOrder: seq<Policy>,
                        levels: Table, after: Table, configs: Configs)
    requires Enumerates(order, policies)
    requires Handles(r, profile, config, v, order, decision, failure, indexOrder, levels, after, configs)
    ensures decision.matchContext == NoContext && decision.action == Allow ==> failure.None?
    ensures decision.matchContext == NoContext && decision.action == Allow ==>
              && JustificationPasses(config, r.justification, r.skipJustification)
              && !Killed(config, r.answers.killedScopes, r.backendID)
              && (forall id | id in policies && Matches(policies[id], v) :: !Restrictive(policies[id].action))
              && Permitted(policies, v, profile)
              && !Tightened(profile, Allow)
              && RiskAllowed(levels, configs, r.userID, r.backendID, CostOf(config, profile), r.answers.at)
              && ResourceAllowed(levels, configs, r.userID, r.backendID, CostOf(config, profile), r.answers.at)
              && after == Debited(levels, configs, r.userID, r.backendID, CostOf(config, profile), r.answers.at)
    ensures decision.matchContext == NoContext && decision.action != Allow ==> after == levels
    ensures decision.matchContext != NoContext ==>
              after == Debited(levels, configs, r.userID, r.backendID, CostOf(config, profile), r.answers.at)
  {
    AllowIsEarned(config, profile, r.justification, r.skipJustification, Killed(config, r.answers.killedScopes, r.backendID),
                  policies, v, order);
  }

  // ---------- What each gate answers ----------

  predicate IsOverride(profile: SafetyProfile) {
    profile.source == Override || profile.source == UserOverride
  }

  /** A justification shorter than configured, in bytes, is denied as a violation; any other leaves no trace. */
  lemma JustificationGate(config: Config, profile: SafetyProfile, justification: string, skip: bool, killed: bool, raw: Decision)
    ensures var ruling := Rule(config, profile, justification, skip, killed, raw);
            if !skip && Utf8Length(justification) < config.minJustificationLength then
              && ruling.decision.action == Deny && ruling.decision.severity == MediumSeverity
              && ruling.decision.policyID == (if justification == "" then JustificationRequired else JustificationTooShort)
              && ruling.failure == Some(PolicyViolation) && !ruling.spends
            else
              ruling == Rule(config, profile, justification, true, killed, raw)
  {}

  /** An active switch for the backend or for all stops the call; with none active, or none enabled, the policies decide. */
  lemma KillSwitchGate(config: Config, profile: SafetyProfile, killedScopes: Option<set<string>>, backendID: string, raw: Decision)
    ensures var ruling := Rule(config, profile, "", true, Killed(config, killedScopes, backendID), raw);
            var active := killedScopes.Some? && (backendID in killedScopes.value || "global" in killedScopes.value);
            if config.enableKillSwitch && active then
              ruling.failure == Some(KillSwitchActive) && ruling.decision.action == Unset && !ruling.spends
            else
              ruling == Rule(config, profile, "", true, false, raw)
  {}

  /**
   When no policy speaks, the source of the profile decides: an inferred one waits for an administrator,
   an unknown one is denied as a violation, a self-reported one is allowed and pays, and so is an
   override, unless it demands a human: then it waits for the user.
   */
  lemma UnmatchedIsRuledBySource(config: Config, profile: SafetyProfile, raw: Decision)
    requires raw.action == Unset
    ensures var ruling := Rule(config, profile, "", true, false, raw);
            match profile.source
            case Inferred =>
              && ruling.decision.action == PendingAdminApproval && ruling.decision.policyID == InferredProfileGate
              && ruling.failure.None? && !ruling.spends
            case OtherSource(_) =>
              && ruling.decision.action == Deny && ruling.decision.severity == HighSeverity
              && ruling.decision.policyID == UnknownToolNoProfile
              && ruling.failure == Some(PolicyViolation) && !ruling.spends
            case SelfReported =>
              ruling == Ruling(raw.(action := Allow), None, true)
            case _ =>
              if profile.requiresHITL then
                && ruling.decision.action == PendingUserApproval && ruling.decision.policyID == OverrideRequiresHITL
                && ruling.failure.None? && !ruling.spends
              else
                ruling == Ruling(raw.(action := Allow), None, true)
  {}

  /**
   When a policy speaks, its decision stands and ALLOW pays; only an override that demands a human turns
   a decision that neither denies nor asks for approval into waiting for the user.
   */
  lemma MatchedIsRuledByPolicy(config: Config, profile: SafetyProfile, raw: Decision)
    requires raw.action != Unset
    ensures var ruling := Rule(config, profile, "", true, false, raw);
            if IsOverride(profile) && profile.requiresHITL
               && raw.action !in {Deny, PendingApproval, PendingAdminApproval, PendingUserApproval} then
              && ruling.decision.action == PendingUserApproval && ruling.decision.policyID == OverrideRequiresHITL
              && ruling.failure.None? && !ruling.spends
            else
              ruling == Ruling(raw, None, raw.action == Allow)
  {}

  /** A refusing bucket names its context, the resource bucket first, and the call gets the disposition of that context. */
  lemma ExhaustionNamesItsContext(ruling: Ruling, indexOrder: seq<Policy>, riskAllowed: bool, resourceAllowed: bool)
    ensures var final := FinalDecision(ruling, indexOrder, riskAllowed, resourceAllowed);
            if ruling.spends && !resourceAllowed then
              final.matchContext == ResourceLimit && final.action == DispositionAction(indexOrder, ResourceLimit)
              && final.policyID == RateLimitDisposition && final.severity == MediumSeverity
            else if ruling.spends && !riskAllowed then
              final.matchContext == RiskLimit && final.action == DispositionAction(indexOrder, RiskLimit)
              && final.policyID == RateLimitDisposition && final.severity == MediumSeverity
            else
              final == ruling.decision
  {}

  /** A user the store knows is shown with role and email, and trusted 100 as an administrator, else 50; unknown users not at all. */
  lemma PoliciesSeeTheUser(r: Request, profile: SafetyProfile, config: Config, levels: Table)
    ensures var ctx := ContextFor(r, profile, config, levels);
            if r.userID == "" || r.answers.user.None? then
              ctx.userRole == "" && ctx.userEmail == "" && ctx.trustLevel == 0
            else
              && ctx.userRole == r.answers.user.value.role && ctx.userEmail == r.answers.user.value.email
              && (ctx.trustLevel == 100 <==> ctx.userRole == "admin") && (ctx.trustLevel == 50 <==> ctx.userRole != "admin")
  {}

  /** The call itself, its profile, its rate when counted, and its two buckets before anything is spent. */
  lemma PoliciesSeeTheCall(r: Request, profile: SafetyProfile, config: Config, levels: Table)
    ensures var ctx := ContextFor(r, profile, config, levels);
            && ctx.userID == r.userID && ctx.tool == r.tool && ctx.args == r.args && ctx.backendID == r.backendID
            && ctx.justification == r.justification && ctx.safety == profile
            && (ctx.callRate != 0 ==> config.countsCalls && r.answers.callRate == Some(ctx.callRate))
            && (config.countsCalls && r.answers.callRate.Some? ==> ctx.callRate == r.answers.callRate.value)
    ensures var ctx := ContextFor(r, profile, config, levels);
            var risk, resource := BucketKey(r.userID, r.backendID, "risk"), BucketKey(r.userID, r.backendID, "resource");
            && (risk in levels ==>
                  var t := levels[risk]; ctx.riskBucket == (t.level, t.capacity, t.rate))
            && (resource in levels ==>
                  var t := levels[resource]; ctx.resourceBucket == (t.level, t.capacity, t.rate))
            && (risk !in levels ==> ctx.riskBucket == (0, 0, 0)) && (resource !in levels ==> ctx.resourceBucket == (0, 0, 0))
  {}

  /** Each policy's own expression is asked, about that context. */
  lemma EveryPolicyIsAsked(r: Request, profile: SafetyProfile, config: Config, cel: Cel, policies: Policies, levels: Table, id: string)
    requires id in policies
    ensures VerdictsOn(r, profile, config, cel, policies, levels)(id)
         == cel.eval(policies[id].expression, ContextFor(r, profile, config, levels))
  {}

  // ---------- Exactly which calls are admitted ----------

  predicate SomePolicySays(policies: Policies, v: Verdicts, a: Action) {
    exists id | id in policies :: Matches(policies[id], v) && policies[id].action == a
  }

  /** The policies permit: one allows, and none denies, warns or asks for approval. */
  predicate PoliciesPermit(policies: Policies, v: Verdicts) {
    && SomePolicySays(policies, v, Allow)
    && forall a | a in {Deny, PendingAdminApproval, PendingApproval, PendingUserApproval, Warn} :: !SomePolicySays(policies, v, a)
  }

  predicate PoliciesAreSilent(policies: Policies, v: Verdicts) {
    forall id | id in policies :: !Matches(policies[id], v)
  }

  /** What the policies come to, seen from the map instead of a visiting order. */
  lemma PolicyActionIsKnown(policies: Policies, v: Verdicts, order: seq<Policy>)
    requires Enumerates(order, policies) && forall id | id in policies :: KnownAction(policies[id].action)
    ensures var raw := Fold(NO_MATCH, order, v);
            && (raw.action == Allow <==> PoliciesPermit(policies, v))
            && (raw.action == Unset <==> PoliciesAreSilent(policies, v))
  {
    SaysInOrder(policies, v, order);
    StrictestActionWins(order, v);
    ActionComesFromAPolicy(order, v);
    forall id | id in policies && Matches(policies[id], v)
      ensures SomeSays(order, v, policies[id].action)
    {
      assert policies[id] in order;
    }
  }

  predicate KnownAction(a: Action) {
    a in {Deny, PendingAdminApproval, PendingApproval, PendingUserApproval, Warn, Allow}
  }

  lemma SaysInOrder(policies: Policies, v: Verdicts, order: seq<Policy>)
    requires Enumerates(order, policies)
    ensures forall a :: SomeSays(order, v, a) <==> SomePolicySays(policies, v, a)
  {
    forall a
      ensures SomeSays(order, v, a) <==> SomePolicySays(policies, v, a)
    {
      if SomeSays(order, v, a) {
        var p :| p in order && Matches(p, v) && p.action == a;
        assert policies[p.id] == p;
      }
      if SomePolicySays(policies, v, a) {
        var id :| id in policies && Matches(policies[id], v) && policies[id].action == a;
        assert policies[id] in order;
      }
    }
  }

  /** The gates let a call through to the buckets. */
  predicate Permissible(r: Request, profile: SafetyProfile, config: Config, policies: Policies, v: Verdicts) {
    && (r.skipJustification || Utf8Length(r.justification) >= config.minJustificationLength)
    && !(config.enableKillSwitch && r.answers.killedScopes.Some?
         && (r.backendID in r.answers.killedScopes.value || "global" in r.answers.killedScopes.value))
    && (PoliciesPermit(policies, v)
        || (PoliciesAreSilent(policies, v) && profile.source in {SelfReported, Override, UserOverride}))
    && !(IsOverride(profile) && profile.requiresHITL)
  }

  lemma SpendsIffPermissible(r: Request, profile: SafetyProfile, config: Config, policies: Policies, v: Verdicts, order: seq<Policy>)
    requires Enumerates(order, policies) && forall id | id in policies :: KnownAction(policies[id].action)
    ensures RuleOn(r, profile, config, v, order).spends <==> Permissible(r, profile, config, policies, v)
  {
    PolicyActionIsKnown(policies, v, order);
    var raw := Fold(NO_MATCH, order, v);
    JustificationGate(config, profile, r.justification, r.skipJustification, Killed(config, r.answers.killedScopes, r.backendID), raw);
  }

  /**
   Exactly which calls come out as ALLOW without a match context, given known policy actions: those that
   every gate lets through and whose cost each bucket covers after its refill.
   */
  lemma AdmittedExactlyWhen(r: Request, profile: SafetyProfile, config: Config, policies: Policies, v: Verdicts, order: seq<Policy>,
                            decision: Decision, failure: Option<Failure>, indexOrder: seq<Policy>,
                            levels: Table, after: Table, configs: Configs)
    requires Enumerates(order, policies) && forall id | id in policies :: KnownAction(policies[id].action)
    requires Handles(r, profile, config, v, order, decision, failure, indexOrder, levels, after, configs)
    ensures var both := WithBoth(levels, configs, r.userID, r.backendID, r.answers.at);
            var cost := CostOf(config, profile);
            decision.action == Allow && decision.matchContext == NoContext <==>
              && Permissible(r, profile, config, policies, v)
              && cost.risk <= Refilled(both[BucketKey(r.userID, r.backendID, "risk")], r.answers.at.risk).level
              && cost.resource <= Refilled(both[BucketKey(r.userID, r.backendID, "resource")], r.answers.at.resource).level
  {
    SpendsIffPermissible(r, profile, config, policies, v, order);
    AllowIsEarned(config, profile, r.justification, r.skipJustification, Killed(config, r.answers.killedScopes, r.backendID),
                  policies, v, order);
    GrantedIffCovered(levels, configs, r.userID, r.backendID, CostOf(config, profile), r.answers.at);
  }

  /** No exhausted bucket is declared to allow the call all the same. */
  predicate NoneAllowsExhausted(indexOrder: seq<Policy>) {
    DispositionAction(indexOrder, RiskLimit) != Allow && DispositionAction(indexOrder, ResourceLimit) != Allow
  }

  /** Every final ALLOW was spent on, and both buckets afforded it. */
  ghost predicate AllowIsPaid(indexOrder: seq<Policy>) {
    forall ruling: Ruling, riskAllowed: bool, resourceAllowed: bool |
      (ruling.spends <==> ruling.decision.action == Allow) &&
      FinalDecision(ruling, indexOrder, riskAllowed, resourceAllowed).action == Allow ::
        ruling.spends && riskAllowed && resourceAllowed
  }

  /** Exactly when every ALLOW is paid in full: when neither bucket context has ALLOW for its disposition. */
  lemma AllowIsPaidIffNoneAllowsExhausted(indexOrder: seq<Policy>)
    ensures AllowIsPaid(indexOrder) <==> NoneAllowsExhausted(indexOrder)
  {
    var spending := Ruling(NO_MATCH.(action := Allow), None, true);
    if DispositionAction(indexOrder, RiskLimit) == Allow {
      assert FinalDecision(spending, indexOrder, false, true).action == Allow;
    } else if DispositionAction(indexOrder, ResourceLimit) == Allow {
      assert FinalDecision(spending, indexOrder, true, false).action == Allow;
    }
  }

  /** An active kill switch stops a call exactly when its query succeeds; otherwise the call is ruled as if it were off. */
  lemma KillSwitchNeedsItsQuery(config: Config, profile: SafetyProfile, justification: string, skip: bool, backendID: string,
                                active: set<string>, answered: bool, raw: Decision)
    requires config.enableKillSwitch && (backendID in active || "global" in active)
    requires JustificationPasses(config, justification, skip)
    ensures var killed := Killed(config, if answered then Some(active) else None, backendID);
            var ruling := Rule(config, profile, justification, skip, killed, raw);
            && (ruling.failure == Some(KillSwitchActive) <==> answered)
            && (!answered ==> ruling == Rule(config, profile, justification, skip, false, raw))
  {}

  /** A matching policy above ALLOW is never overridden, whatever the order and the other policies. */
  lemma StricterPolicyStands(config: Config, profile: SafetyProfile, justification: string, skip: bool,
                             policies: Policies, v: Verdicts, order: seq<Policy>, id: string)
    requires Enumerates(order, policies) && id in policies && Matches(policies[id], v)
    requires JustificationPasses(config, justification, skip)
    ensures var ruling := Rule(config, profile, justification, skip, false, Fold(NO_MATCH, order, v));
            && ActionRank(ruling.decision.action) >= ActionRank(policies[id].action)
            && (policies[id].action == Deny ==> ruling.decision.action == Deny)
            && (RequiresApproval(policies[id].action) ==> IsDenyAction(ruling.decision.action) || RequiresApproval(ruling.decision.action))
            && (Restrictive(policies[id].action) ==> !ruling.spends)
  {
    FoldIsBest(NO_MATCH, order, v);
    assert policies[id] in order;
  }

  /** The gates rule alike for every visiting order: same action rank, same failure, same spending. */
  lemma RulingIsOrderIndependent(config: Config, profile: SafetyProfile, justification: string, skip: bool, killed: bool,
                                 policies: Policies, v: Verdicts, order: seq<Policy>, other: seq<Policy>)
    requires Enumerates(order, policies) && Enumerates(other, policies)
    requires forall id | id in policies :: ActionRank(policies[id].action) > 0
    ensures var r := Rule(config, profile, justification, skip, killed, Fold(NO_MATCH, order, v));
            var s := Rule(config, profile, justification, skip, killed, Fold(NO_MATCH, other, v));
            ActionRank(r.decision.action) == ActionRank(s.decision.action) && r.failure == s.failure && r.spends == s.spends
  {
    EnumerateTheSame(order, other, policies);
    RankIsOrderIndependent(order, other, v);
    RankZeroIsUnset(order, policies, v);
    RankZeroIsUnset(other, policies, v);
    RuleRespectsRank(config, profile, justification, skip, killed, Fold(NO_MATCH, order, v), Fold(NO_MATCH, other, v));
  }

  /**
   The final action ranks alike whatever the orders of evaluation and indexing, if the first declarers
   of both bucket contexts agree.
   */
  lemma FinalActionIsOrderIndependent(r: Ruling, s: Ruling, indexed: Policies, indexOrder: seq<Policy>, otherOrder: seq<Policy>,
                                      riskAllowed: bool, resourceAllowed: bool)
    requires ActionRank(r.decision.action) == ActionRank(s.decision.action) && r.spends == s.spends
    requires Enumerates(indexOrder, indexed) && Enumerates(otherOrder, indexed)
    requires FirstDeclarersAgree(indexed, RiskLimit) && FirstDeclarersAgree(indexed, ResourceLimit)
    ensures ActionRank(FinalDecision(r, indexOrder, riskAllowed, resourceAllowed).action)
         == ActionRank(FinalDecision(s, otherOrder, riskAllowed, resourceAllowed).action)
  {
    FirstDeclarersDecide(indexOrder, otherOrder, indexed, RiskLimit);
    FirstDeclarersDecide(indexOrder, otherOrder, indexed, ResourceLimit);
  }

  lemma EnumerateTheSame(order: seq<Policy>, other: seq<Policy>, policies: Policies)
    requires Enumerates(order, policies) && Enumerates(other, policies)
    ensures forall p :: p in order <==> p in other
  {
    forall p: Policy
      ensures p in order <==> p in other
    {
      if p in order {
        assert policies[p.id] in other;
      }
      if p in other {
        assert policies[p.id] in order;
      }
    }
  }

  lemma RankZeroIsUnset(order: seq<Policy>, policies: Policies, v: Verdicts)
    requires Enumerates(order, policies)
    requires forall id | id in policies :: ActionRank(policies[id].action) > 0
    ensures ActionRank(Fold(NO_MATCH, order, v).action) == 0 ==> Fold(NO_MATCH, order, v).action == Unset
  {
    FoldIsBest(NO_MATCH, order, v);
    var r := Fold(NO_MATCH, order, v);
    if !SameVoice(r, NO_MATCH) {
      var p :| p in order && Matches(p, v) && SpeaksFor(r, p);
      assert policies[p.id] == p;
    }
  }

  lemma RuleRespectsRank(config: Config, profile: SafetyProfile, justification: string, skip: bool, killed: bool,
                         raw: Decision, other: Decision)
    requires ActionRank(raw.action) == ActionRank(other.action)
    requires ActionRank(raw.action) == 0 ==> raw.action == Unset
    requires ActionRank(other.action) == 0 ==> other.action == Unset
    ensures var r := Rule(config, profile, justification, skip, killed, raw);
            var s := Rule(config, profile, justification, skip, killed, other);
            ActionRank(r.decision.action) == ActionRank(s.decision.action) && r.failure == s.failure && r.spends == s.spends
  {}
}
