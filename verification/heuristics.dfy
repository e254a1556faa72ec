/**
 The inferred safety profile of a tool: pattern tables over its name, description and schema.
 */
module Heuristics {
  import opened Common

  datatype Risk = Low | Medium | High | Critical

  function RiskRank(r: Risk): nat {
    match r
    case Low => 1
    case Medium => 2
    case High => 3
    case Critical => 4
  }

  function RiskName(r: Risk): string {
    match r
    case Low => "low"
    case Medium => "medium"
    case High => "high"
    case Critical => "critical"
  }

  function PromoteRisk(current: Risk): Risk {
    match current
    case Low => Medium
    case Medium => High
    case High => Critical
    case Critical => Critical
  }

  /** A pattern; the search loop relies on there being no empty one. */
  type Pattern = s: string | s != "" witness "x"

  datatype Rule = Rule(patterns: seq<Pattern>, risk: Risk, impact: string, idempotent: bool, requiresHITL: bool, cost: nat)

  datatype Tables = Tables(
    rules: seq<Rule>,
    piiKeys: seq<Pattern>,
    piiWords: seq<Pattern>,
    irreversible: seq<Pattern>,
    bulk: seq<Pattern>)

  const DESTRUCTIVE_CRITICAL: seq<Pattern> := [
    "delete_all", "purge", "drop_database", "drop_table", "wipe", "terminate_cluster", "decommission",
    "factory_reset", "hard_delete"]
  const DESTRUCTIVE_1: seq<Pattern> := [
    "delete", "remove", "destroy", "revoke", "deactivate", "disable", "ban", "block"]
  const DESTRUCTIVE_2: seq<Pattern> := [
    "archive", "unsubscribe", "cancel", "terminate", "kill", "stop_service", "deprovision", "offboard"]
  const DESTRUCTIVE: seq<Pattern> := DESTRUCTIVE_1 + DESTRUCTIVE_2
  const ACCESS: seq<Pattern> := [
    "grant", "assign_role", "elevate", "promote", "impersonate", "sudo", "reset_password",
    "rotate_key", "generate_token", "create_api_key", "set_permission"]
  const FINANCIAL: seq<Pattern> := [
    "charge", "invoice", "refund", "transfer", "withdraw", "purchase", "pay", "billing", "subscribe",
    "checkout"]
  const WRITE_1: seq<Pattern> := [
    "create", "add", "insert", "write", "post", "publish", "send", "submit"]
  const WRITE_2: seq<Pattern> := [
    "upload", "import", "deploy", "provision", "onboard", "register", "invite", "put"]
  const WRITE: seq<Pattern> := WRITE_1 + WRITE_2
  const UPDATE_1: seq<Pattern> := [
    "update", "edit", "modify", "patch", "set", "change"]
  const UPDATE_2: seq<Pattern> := [
    "rename", "move", "migrate", "replace", "upsert", "merge"]
  const UPDATE: seq<Pattern> := UPDATE_1 + UPDATE_2
  const TRIGGER: seq<Pattern> := [
    "run", "execute", "trigger", "start", "launch", "fire", "invoke", "call", "process", "enqueue",
    "schedule"]
  const READ_1: seq<Pattern> := [
    "get", "fetch", "read", "list", "search", "find", "query", "lookup"]
  const READ_2: seq<Pattern> := [
    "retrieve", "describe", "explain", "show", "view", "inspect", "check", "status"]
  const READ_3: seq<Pattern> := [
    "health", "ping", "count", "summarize", "report", "export", "download"]
  const READ: seq<Pattern> := READ_1 + READ_2 + READ_3
  const PII_KEYS_1: seq<Pattern> := [
    "email", "phone", "mobile", "address", "postcode", "zip", "ssn", "national_id"]
  const PII_KEYS_2: seq<Pattern> := [
    "passport", "dob", "birth", "credit_card", "card_number", "iban", "bank_account", "salary"]
  const PII_KEYS_3: seq<Pattern> := [
    "income", "tax", "password", "secret", "token", "api_key", "access_key", "private_key"]
  const PII_KEYS: seq<Pattern> := PII_KEYS_1 + PII_KEYS_2 + PII_KEYS_3
  const PII_WORDS: seq<Pattern> := [
    "personal data", "pii", "gdpr", "email address", "phone number", "credit card", "social security",
    "passport", "date of birth"]
  const IRREVERSIBLE_1: seq<Pattern> := [
    "permanent", "irreversible", "cannot be undone", "cannot be recovered", "destroy", "wipe"]
  const IRREVERSIBLE_2: seq<Pattern> := [
    "purge", "terminates all", "drops all", "truncates", "hard delete", "force delete"]
  const IRREVERSIBLE: seq<Pattern> := IRREVERSIBLE_1 + IRREVERSIBLE_2
  const BULK: seq<Pattern> := [
    "bulk", "batch", "all records", "entire", "mass ", "fleet", "all users", "all items",
    "all tickets", "all issues"]

  const TABLES: Tables := Tables(
    [
      Rule(DESTRUCTIVE_CRITICAL, Critical, "delete", false, true, 20),
      Rule(DESTRUCTIVE, High, "delete", false, false, 10),
      Rule(ACCESS, High, "admin", false, false, 10),
      Rule(FINANCIAL, High, "admin", false, true, 10),
      Rule(WRITE, Medium, "write", false, false, 5),
      Rule(UPDATE, Medium, "write", false, false, 5),
      Rule(TRIGGER, Medium, "write", false, false, 7),
      Rule(READ, Low, "read", true, false, 1)
    ],
    PII_KEYS, PII_WORDS, IRREVERSIBLE, BULK)

  // ---------- Word matching ----------

  /** `pat` stands at `i` as a whole underscore-delimited word. */
  predicate WordAt(s: string, pat: string, i: int) {
    && OccursAt(s, pat, i)
    && (i == 0 || s[i - 1] == '_')
    && (i + |pat| == |s| || s[i + |pat|] == '_')
  }

  predicate HasWord(s: string, pat: string) {
    exists i | 0 <= i <= |s| :: WordAt(s, pat, i)
  }

  /** The first occurrence at or after `k`, or -1. */
  method NextIndex(s: string, k: nat, pat: Pattern) returns (idx: int)
    requires k <= |s|
    ensures idx == -1 || (k <= idx && OccursAt(s, pat, idx))
    ensures forall j | k <= j && (idx == -1 || j < idx) :: !OccursAt(s, pat, j)
  {
    var next := IndexOf(s[k..], pat);
    if next >= 0 {
      OccursInTail(s, k, pat, next);
    }
    forall j | k <= j && (next == -1 || j < k + next)
      ensures !OccursAt(s, pat, j)
    {
      OccursInTail(s, k, pat, j - k);
    }
    return if next < 0 then -1 else k + next;
  }

  /** The search loop finds a delimited occurrence exactly when there is one, overlapping ones included. */
  method ContainsWordOrPrefix(s: string, pat: Pattern) returns (found: bool)
    ensures found <==> HasWord(s, pat)
  {
    var idx := IndexOf(s, pat);
    while idx >= 0
      invariant idx == -1 || OccursAt(s, pat, idx)
      invariant forall j | 0 <= j && (idx == -1 || j < idx) :: !WordAt(s, pat, j)
      decreases if idx == -1 then 0 else 1 + |s| - idx
    {
      var end := idx + |pat|;
      var leftOK := idx == 0 || s[idx - 1] == '_';
      var rightOK := end == |s| || s[end] == '_';
      if leftOK && rightOK {
        assert WordAt(s, pat, idx);
        return true;
      }
      idx := NextIndex(s, idx + 1, pat);
    }
    return false;
  }

  // ---------- The profile ----------

  datatype Profile = Profile(risk: Risk, impact: string, cost: nat, requiresHITL: bool, piiExposure: bool, idempotent: bool)

  predicate ContainsAny(s: string, pats: seq<Pattern>) {
    exists pat | pat in pats :: Contains(s, pat)
  }

  predicate HasAnyWord(s: string, pats: seq<Pattern>) {
    exists pat | pat in pats :: HasWord(s, pat)
  }

  predicate ExposesPII(t: Tables, description: string, schema: Option<set<string>>) {
    || (schema.Some? && exists key | key in schema.value :: ContainsAny(ToLower(key), t.piiKeys))
    || (description != "" && ContainsAny(ToLower(description), t.piiWords))
  }

  predicate IsIrreversible(t: Tables, description: string) {
    description != "" && ContainsAny(ToLower(description), t.irreversible)
  }

  predicate IsBulk(t: Tables, toolName: string, description: string) {
    HasAnyWord(ToLower(toolName), t.bulk) || (description != "" && ContainsAny(ToLower(description), t.bulk))
  }

  /** The first rule one of whose patterns is a word of the name. */
  function FirstRule(rules: seq<Rule>, lower: string): Option<Rule> {
    if rules == [] then None
    else if HasAnyWord(lower, rules[0].patterns) then Some(rules[0])
    else FirstRule(rules[1..], lower)
  }

  /** The profile of the matched rule, or the strict fall-through. */
  function BaseProfile(rule: Option<Rule>): Profile {
    match rule
    case Some(r) => Profile(r.risk, r.impact, r.cost, r.requiresHITL, false, r.idempotent)
    case None => Profile(High, "delete", 10, true, false, false)
  }

  function Promoted(p: Profile, irreversible: bool, bulk: bool, pii: bool): Profile {
    var q := if irreversible then p.(risk := PromoteRisk(p.risk), requiresHITL := true, idempotent := false) else p;
    var r := if bulk then q.(risk := PromoteRisk(q.risk), requiresHITL := true, cost := q.cost * 3) else q;
    r.(risk := if pii && r.risk == Low then Medium else r.risk, piiExposure := pii)
  }

  function ProfileOf(t: Tables, toolName: string, description: string, schema: Option<set<string>>): Profile {
    Promoted(BaseProfile(FirstRule(t.rules, ToLower(toolName))),
             IsIrreversible(t, description), IsBulk(t, toolName, description), ExposesPII(t, description, schema))
  }

  method AnySubstring(s: string, pats: seq<Pattern>) returns (found: bool)
    ensures found == ContainsAny(s, pats)
  {
    for i := 0 to |pats|
      invariant !ContainsAny(s, pats[..i])
    {
      if Contains(s, pats[i]) {
        return true;
      }
      assert pats[..i + 1] == pats[..i] + [pats[i]];
    }
    assert pats[..|pats|] == pats;
    return false;
  }

  method AnyWord(s: string, pats: seq<Pattern>) returns (found: bool)
    ensures found == HasAnyWord(s, pats)
  {
    for i := 0 to |pats|
      invariant !HasAnyWord(s, pats[..i])
    {
      var here := ContainsWordOrPrefix(s, pats[i]);
      if here {
        return true;
      }
      assert pats[..i + 1] == pats[..i] + [pats[i]];
    }
    assert pats[..|pats|] == pats;
    return false;
  }

  method HeuristicProfile(t: Tables, toolName: string, description: string, schema: Option<set<string>>)
    returns (p: Profile)
    ensures p == ProfileOf(t, toolName, description, schema)
  {
    var lower, lowerDesc := ToLower(toolName), ToLower(description);
    var pii := false;
    if schema.Some? {
      var left := schema.value;
      while left != {} && !pii
        invariant left <= schema.value
        invariant pii ==> exists key | key in schema.value :: ContainsAny(ToLower(key), t.piiKeys)
        invariant !pii ==> forall key | key in schema.value - left :: !ContainsAny(ToLower(key), t.piiKeys)
        decreases left
      {
        var key :| key in left;
        pii := AnySubstring(ToLower(key), t.piiKeys);
        left := left - {key};
      }
    }
    if !pii && description != "" {
      pii := AnySubstring(lowerDesc, t.piiWords);
    }
    var irreversible := false;
    if description != "" {
      irreversible := AnySubstring(lowerDesc, t.irreversible);
    }
    var bulk := AnyWord(lower, t.bulk);
    if !bulk && description != "" {
      bulk := AnySubstring(lowerDesc, t.bulk);
    }
    var matched := MatchRule(t.rules, lower);
    p := BaseProfile(matched);
    if irreversible {
      p := p.(risk := PromoteRisk(p.risk), requiresHITL := true, idempotent := false);
    }
    if bulk {
      p := p.(risk := PromoteRisk(p.risk), requiresHITL := true, cost := p.cost * 3);
    }
    if pii && p.risk == Low {
      p := p.(risk := Medium);
    }
    p := p.(piiExposure := pii);
  }

  method MatchRule(rules: seq<Rule>, lower: string) returns (matched: Option<Rule>)
    ensures matched == FirstRule(rules, lower)
  {
    for i := 0 to |rules|
      invariant FirstRule(rules, lower) == FirstRule(rules[i..], lower)
    {
      var hit := AnyWord(lower, rules[i].patterns);
      if hit {
        return Some(rules[i]);
      }
      assert rules[i..][1..] == rules[i + 1..];
    }
    return None;
  }

  // ---------- The classes by name ----------

  lemma {:induction false} FirstRuleIs(rules: seq<Rule>, lower: string, i: nat)
    requires i < |rules| && HasAnyWord(lower, rules[i].patterns)
    requires forall k | 0 <= k < i :: !HasAnyWord(lower, rules[k].patterns)
    ensures FirstRule(rules, lower) == Some(rules[i])
  {
    if i > 0 {
      FirstRuleIs(rules[1..], lower, i - 1);
    }
  }

  lemma {:induction false} NoRuleIs(rules: seq<Rule>, lower: string)
    requires forall k | 0 <= k < |rules| :: !HasAnyWord(lower, rules[k].patterns)
    ensures FirstRule(rules, lower) == None
  {
    if rules != [] {
      NoRuleIs(rules[1..], lower);
    }
  }

  /** The class of a name by the first table that has a word of it: how many tables it fails before. */
  function ClassOf(lower: string): nat {
    if HasAnyWord(lower, DESTRUCTIVE_CRITICAL) then 0
    else if HasAnyWord(lower, DESTRUCTIVE) then 1
    else if HasAnyWord(lower, ACCESS) then 2
    else if HasAnyWord(lower, FINANCIAL) then 3
    else if HasAnyWord(lower, WRITE) then 4
    else if HasAnyWord(lower, UPDATE) then 5
    else if HasAnyWord(lower, TRIGGER) then 6
    else if HasAnyWord(lower, READ) then 7
    else 8
  }

  /** The profiles of the classes, and of a name in none of them, which is taken for destructive. */
  function ProfileOfClass(c: nat): Profile {
    if c == 0 then Profile(Critical, "delete", 20, true, false, false)
    else if c == 1 then Profile(High, "delete", 10, false, false, false)
    else if c == 2 then Profile(High, "admin", 10, false, false, false)
    else if c == 3 then Profile(High, "admin", 10, true, false, false)
    else if c == 4 || c == 5 then Profile(Medium, "write", 5, false, false, false)
    else if c == 6 then Profile(Medium, "write", 7, false, false, false)
    else if c == 7 then Profile(Low, "read", 1, false, false, true)
    else Profile(High, "delete", 10, true, false, false)
  }

  lemma RuleOfClass(lower: string)
    ensures |TABLES.rules| == 8
    ensures FirstRule(TABLES.rules, lower) == if ClassOf(lower) < 8 then Some(TABLES.rules[ClassOf(lower)]) else None
  {
    TablesInOrder();
    if ClassOf(lower) < 8 {
      FirstRuleIs(TABLES.rules, lower, ClassOf(lower));
    } else {
      NoRuleIs(TABLES.rules, lower);
    }
  }

  lemma ProfilesInOrder(c: nat)
    ensures |TABLES.rules| == 8
    ensures BaseProfile(if c < 8 then Some(TABLES.rules[c]) else None) == ProfileOfClass(c)
  {}

  /** A name gets the profile of its class; without description and schema only a bulk word in it adds anything. */
  lemma NameIsClassified(toolName: string)
    ensures var base := BaseProfile(FirstRule(TABLES.rules, ToLower(toolName)));
            && base == ProfileOfClass(ClassOf(ToLower(toolName)))
            && (!HasAnyWord(ToLower(toolName), TABLES.bulk) ==> ProfileOf(TABLES, toolName, "", None) == base)
  {
    RuleOfClass(ToLower(toolName));
    ProfilesInOrder(ClassOf(ToLower(toolName)));
    NothingAdded(TABLES, toolName);
  }

  lemma NothingAdded(t: Tables, toolName: string)
    ensures !HasAnyWord(ToLower(toolName), t.bulk) ==>
              ProfileOf(t, toolName, "", None) == BaseProfile(FirstRule(t.rules, ToLower(toolName)))
  {}

  lemma TablesInOrder()
    ensures |TABLES.rules| == 8
    ensures TABLES.rules[0].patterns == DESTRUCTIVE_CRITICAL && TABLES.rules[1].patterns == DESTRUCTIVE
    ensures TABLES.rules[2].patterns == ACCESS && TABLES.rules[3].patterns == FINANCIAL
    ensures TABLES.rules[4].patterns == WRITE && TABLES.rules[5].patterns == UPDATE
    ensures TABLES.rules[6].patterns == TRIGGER && TABLES.rules[7].patterns == READ
  {}

  /** One tier up. */
  predicate NextTier(r: Risk, s: Risk) {
    (r == Low && s == Medium) || (r == Medium && s == High) || ((r == High || r == Critical) && s == Critical)
  }

  /**
   What description, schema and bulk words add to the profile of the name: an irreversible tool needs a
   human, is not idempotent and rises one tier; a bulk tool needs a human, rises one tier and costs
   three times; one that exposes personal data says so and is at least medium; and nothing else changes.
   */
  lemma PromotionsBite(p: Profile, irreversible: bool, bulk: bool, pii: bool)
    ensures var q := Promoted(p, irreversible, bulk, pii);
            && (q.requiresHITL <==> p.requiresHITL || irreversible || bulk)
            && (q.idempotent <==> p.idempotent && !irreversible)
            && q.piiExposure == pii && q.impact == p.impact
            && q.cost == (if bulk then 3 * p.cost else p.cost)
    ensures var q := Promoted(p, irreversible, bulk, pii);
            && (!irreversible && !bulk ==> q.risk == if pii && p.risk == Low then Medium else p.risk)
            && (irreversible != bulk ==> NextTier(p.risk, q.risk))
            && (irreversible && bulk ==> q.risk == if p.risk == Low then High else Critical)
  {}

  /** Personal data in a key of the schema or in the description, and an irreversible or bulk word, are all noticed. */
  lemma EveryHintIsNoticed(t: Tables, toolName: string, description: string, schema: Option<set<string>>, pat: Pattern, key: string)
    ensures schema.Some? && key in schema.value && pat in t.piiKeys && Contains(ToLower(key), pat) ==>
              ProfileOf(t, toolName, description, schema).piiExposure
    ensures description != "" && pat in t.piiWords && Contains(ToLower(description), pat) ==>
              ProfileOf(t, toolName, description, schema).piiExposure
    ensures description != "" && pat in t.irreversible && Contains(ToLower(description), pat) ==>
              ProfileOf(t, toolName, description, schema).requiresHITL && !ProfileOf(t, toolName, description, schema).idempotent
    ensures (description != "" && pat in t.bulk && Contains(ToLower(description), pat))
            || (pat in t.bulk && HasWord(ToLower(toolName), pat)) ==>
              && ProfileOf(t, toolName, description, schema).requiresHITL
              && ProfileOf(t, toolName, description, schema).cost == 3 * BaseProfile(FirstRule(t.rules, ToLower(toolName))).cost
  {}

  // ---------- More context ----------

  /** `p` is at least as strict as `q`. */
  predicate AtLeastAsStrict(p: Profile, q: Profile) {
    && RiskRank(p.risk) >= RiskRank(q.risk)
    && p.cost >= q.cost
    && (q.requiresHITL ==> p.requiresHITL)
    && (q.piiExposure ==> p.piiExposure)
    && (p.idempotent ==> q.idempotent)
    && p.impact == q.impact
  }

  /** Description and schema can only tighten the profile inferred from the name alone. */
  lemma MoreContextIsNeverLaxer(t: Tables, toolName: string, description: string, schema: Option<set<string>>)
    ensures AtLeastAsStrict(ProfileOf(t, toolName, description, schema), ProfileOf(t, toolName, "", None))
  {
    assert IsBulk(t, toolName, "") ==> IsBulk(t, toolName, description);
    PromotionsAreMonotone(BaseProfile(FirstRule(t.rules, ToLower(toolName))),
                          IsIrreversible(t, description), IsBulk(t, toolName, description), ExposesPII(t, description, schema),
                          IsBulk(t, toolName, ""));
  }

  lemma PromotionsAreMonotone(p: Profile, irreversible: bool, bulk: bool, pii: bool, nameBulk: bool)
    requires nameBulk ==> bulk
    ensures AtLeastAsStrict(Promoted(p, irreversible, bulk, pii), Promoted(p, false, nameBulk, false))
  {}
}
