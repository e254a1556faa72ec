/**
 The pipeline and the limiter together: what any history of tool calls and refill ticks can admit.
 */
module Admission {
  import opened Common
  import opened Types
  import opened CelEngine
  import opened RateLimit
  import opened Buckets
  import opened Enforcement

  /**
   One event of the bridge: a tool call as it was handled, with the policies, bucket configuration
   and order of the disposition index of that moment, a turn of the refill ticker, or a reset.
   */
  datatype Entry =
    | Called(r: Request, profile: SafetyProfile, policies: Policies, v: Verdicts, order: seq<Policy>,
             decision: Decision, failure: Option<Failure>, indexOrder: seq<Policy>, configs: Configs)
    | Ticked(readings: string -> Reading)
    | WasReset(userID: string, backendID: string, now: string -> int)

  ghost predicate Happens(e: Entry, config: Config, before: Table, after: Table) {
    match e
    case Ticked(readings) => after == Swept(before, readings)
    case WasReset(u, b, now) => after == ResetLevels(before, u, b, now)
    case Called(r, profile, policies, v, order, decision, failure, indexOrder, configs) =>
      && Enumerates(order, policies)
      && Handles(r, profile, config, v, order, decision, failure, indexOrder, before, after, configs)
  }

  /** A history leads from one table of levels to another. */
  ghost predicate Leads(es: seq<Entry>, config: Config, before: Table, after: Table)
    decreases |es|
  {
    if es == [] then before == after
    else exists mid: Table :: Happens(es[0], config, before, mid) && Leads(es[1..], config, mid, after)
  }

  /** What an entry is to one bucket; a call that spends nothing is no event. */
  function BucketEvents(e: Entry, config: Config, key: string): seq<Event> {
    match e
    case Ticked(readings) => [Tick(readings(key))]
    case WasReset(u, b, now) => EventsOf(Reset(u, b, now), key)
    case Called(r, profile, _, v, order, _, _, _, _) =>
      if RuleOn(r, profile, config, v, order).spends
      then EventsOf(Call(r.userID, r.backendID, CostOf(config, profile), r.answers.at), key)
      else []
  }

  function AllEvents(es: seq<Entry>, config: Config, key: string): seq<Event> {
    if es == [] then [] else BucketEvents(es[0], config, key) + AllEvents(es[1..], config, key)
  }

  /** The call went through as ALLOW, not as the disposition of an exhausted bucket. */
  predicate Admits(e: Entry, u: string, b: string) {
    e.Called? && e.r.userID == u && e.r.backendID == b && e.decision.action == Allow && e.decision.matchContext == NoContext
  }

  /** The two kinds of bucket, and what a call costs each. */
  predicate IsBucketType(t: string) {
    t == "risk" || t == "resource"
  }

  function CostIn(cost: Cost, t: string): int {
    if t == "risk" then cost.risk else cost.resource
  }

  function AdmittedCost(es: seq<Entry>, config: Config, u: string, b: string, t: string): int {
    if es == [] then 0
    else (if Admits(es[0], u, b) then CostIn(CostOf(config, es[0].profile), t) else 0) + AdmittedCost(es[1..], config, u, b, t)
  }

  /** Seen from one bucket, an entry is its own event or nothing. */
  lemma EntryProjects(e: Entry, config: Config, before: Table, after: Table, key: string)
    requires Happens(e, config, before, after) && key in before
    ensures key in after && after[key] == Run(before[key], BucketEvents(e, config, key))
  {
    match e
    case Ticked(readings) => Isolation(before, map[], Sweep(readings), key);
    case WasReset(u, b, now) => Isolation(before, map[], Reset(u, b, now), key);
    case Called(r, profile, _, v, order, _, _, _, configs) =>
      if RuleOn(r, profile, config, v, order).spends {
        Isolation(before, configs, Call(r.userID, r.backendID, CostOf(config, profile), r.answers.at), key);
      }
  }

  /** An admitted call is one event of each of its buckets, and its whole cost was taken from both. */
  lemma AdmittedIsPaid(e: Entry, config: Config, before: Table, after: Table, u: string, b: string, t: string)
    requires Happens(e, config, before, after) && Admits(e, u, b) && IsBucketType(t) && BucketKey(u, b, t) in before
    ensures var key, cost, at := BucketKey(u, b, t), CostIn(CostOf(config, e.profile), t), e.r.answers.at;
            var reading := if t == "risk" then at.risk else at.resource;
            BucketEvents(e, config, key) == [Take(cost, reading)] && Affords(before[key], cost, reading)
  {
    PipelineIsSound(e.r, e.profile, config, e.policies, e.v, e.order, e.decision, e.failure, e.indexOrder, before, after, e.configs);
    AllowIsEarned(config, e.profile, e.r.justification, e.r.skipJustification, Killed(config, e.r.answers.killedScopes, b),
                  e.policies, e.v, e.order);
    RiskIsNotResource(u, b);
  }

  lemma EntryIsShort(e: Entry, config: Config, key: string)
    ensures |BucketEvents(e, config, key)| <= 1
  {}

  /** What a run of calls admits never exceeds what its buckets paid out. */
  lemma {:induction false} AdmittedWithinTotal(es: seq<Entry>, config: Config, before: Table, after: Table,
                                               u: string, b: string, t: string, now: int)
    requires Leads(es, config, before, after) && IsBucketType(t) && BucketKey(u, b, t) in before
    requires Orderly(now, AllEvents(es, config, BucketKey(u, b, t)))
    ensures var key := BucketKey(u, b, t);
            && key in after && after[key] == Run(before[key], AllEvents(es, config, key))
            && AdmittedCost(es, config, u, b, t) <= Total(before[key], AllEvents(es, config, key))
    decreases |es|
  {
    if es != [] {
      var key := BucketKey(u, b, t);
      var mid: Table :| Happens(es[0], config, before, mid) && Leads(es[1..], config, mid, after);
      EntryProjects(es[0], config, before, mid, key);
      EntryIsShort(es[0], config, key);
      if Admits(es[0], u, b) {
        AdmittedIsPaid(es[0], config, before, mid, u, b, t);
      }
      var first, rest := BucketEvents(es[0], config, key), AllEvents(es[1..], config, key);
      if first == [] {
        assert first + rest == rest;
        AdmittedWithinTotal(es[1..], config, mid, after, u, b, t, now);
      } else {
        OneThenRest(before[key], first, rest);
        AdmittedWithinTotal(es[1..], config, mid, after, u, b, t, first[0].at.stamped);
      }
    }
  }

  lemma OneThenRest(tank: Tank, first: seq<Event>, rest: seq<Event>)
    requires |first| == 1
    ensures Run(tank, first) == After(tank, first[0])
    ensures Run(tank, first + rest) == Run(After(tank, first[0]), rest)
    ensures Total(tank, first + rest) == Taken(tank, first[0]) + Total(After(tank, first[0]), rest)
    ensures (first + rest)[0] == first[0] && (first + rest)[1..] == rest
  {
    assert first[1..] == [];
    assert Run(tank, first) == Run(After(tank, first[0]), first[1..]);
  }

  // ---------- From before the bucket exists ----------

  /** The entry spends, and so creates the bucket if it is missing. */
  predicate Touches(e: Entry, config: Config, key: string) {
    && e.Called? && Names(e.r.userID, e.r.backendID, key)
    && RuleOn(e.r, e.profile, config, e.v, e.order).spends
  }

  function BornIn(e: Entry, key: string): Tank
    requires e.Called?
  {
    NewTank(e.configs, e.r.userID, e.r.backendID, key, e.r.answers.at)
  }

  /** The value a bucket starts from: its own in the table, or that of the first call that spends from it. */
  function FirstValue(es: seq<Entry>, config: Config, before: Table, key: string): Option<Tank> {
    if key in before then Some(before[key])
    else if es == [] then None
    else if Touches(es[0], config, key) then Some(BornIn(es[0], key))
    else FirstValue(es[1..], config, before, key)
  }

  /** The events of a bucket from the moment it exists. */
  function LifeOf(es: seq<Entry>, config: Config, before: Table, key: string): seq<Event> {
    if key in before then AllEvents(es, config, key)
    else if es == [] then []
    else if Touches(es[0], config, key) then AllEvents(es, config, key)
    else LifeOf(es[1..], config, before, key)
  }

  lemma SameWithoutTable(es: seq<Entry>, config: Config, before: Table, mid: Table, key: string)
    requires key !in before && key !in mid
    ensures FirstValue(es, config, before, key) == FirstValue(es, config, mid, key)
    ensures LifeOf(es, config, before, key) == LifeOf(es, config, mid, key)
  {}

  /** A call that creates a bucket handles the request as if the new bucket had been there. */
  lemma BirthIsSilent(e: Entry, config: Config, before: Table, after: Table, key: string)
    requires Happens(e, config, before, after) && Touches(e, config, key) && key !in before
    ensures Happens(e, config, before[key := BornIn(e, key)], after)
  {
    CreationIsSilent(before, e.configs, e.r.userID, e.r.backendID, CostOf(config, e.profile), e.r.answers.at, key);
  }

  /** An entry that does not touch a missing bucket leaves it missing, and admits nothing through it. */
  lemma UntouchedStaysAbsent(e: Entry, config: Config, before: Table, after: Table, u: string, b: string, t: string)
    requires Happens(e, config, before, after) && IsBucketType(t)
    requires BucketKey(u, b, t) !in before && !Touches(e, config, BucketKey(u, b, t))
    ensures BucketKey(u, b, t) !in after && !Admits(e, u, b)
  {
    if e.Called? {
      AllowIsEarned(config, e.profile, e.r.justification, e.r.skipJustification,
                    Killed(config, e.r.answers.killedScopes, e.r.backendID), e.policies, e.v, e.order);
    }
  }

  /** What a history admits never exceeds what the bucket paid out since it exists. */
  lemma {:induction false} AdmittedFromNothing(es: seq<Entry>, config: Config, before: Table, after: Table,
                                               u: string, b: string, t: string, now: int)
    requires Leads(es, config, before, after) && IsBucketType(t)
    requires Orderly(now, LifeOf(es, config, before, BucketKey(u, b, t)))
    ensures var key := BucketKey(u, b, t);
            match FirstValue(es, config, before, key)
            case None => AdmittedCost(es, config, u, b, t) == 0
            case Some(tank) => AdmittedCost(es, config, u, b, t) <= Total(tank, LifeOf(es, config, before, key))
    decreases |es|
  {
    var key := BucketKey(u, b, t);
    if key in before {
      AdmittedWithinTotal(es, config, before, after, u, b, t, now);
    } else if es != [] {
      var mid: Table :| Happens(es[0], config, before, mid) && Leads(es[1..], config, mid, after);
      if Touches(es[0], config, key) {
        var there := before[key := BornIn(es[0], key)];
        BirthIsSilent(es[0], config, before, mid, key);
        assert Leads(es, config, there, after);
        AdmittedWithinTotal(es, config, there, after, u, b, t, now);
      } else {
        UntouchedStaysAbsent(es[0], config, before, mid, u, b, t);
        SameWithoutTable(es[1..], config, before, mid, key);
        AdmittedFromNothing(es[1..], config, mid, after, u, b, t, now);
      }
    }
  }

  /**
   Whatever all users do, whichever order policies are visited in and however they are edited in
   between: the cost of the calls that one user gets admitted to one backend is bounded by the first
   level of each of the two buckets, which is the configured capacity if the history creates it, plus
   what it accrues over the time, plus a capacity for each reset; and nothing is admitted without a bucket.
   */
  lemma AdmissionIsBounded(es: seq<Entry>, config: Config, before: Table, after: Table,
                           u: string, b: string, t: string, now: int)
    requires Leads(es, config, before, after) && IsBucketType(t)
    requires var first := FirstValue(es, config, before, BucketKey(u, b, t)); first.Some? ==> Sensible(first.value, now)
    requires Orderly(now, LifeOf(es, config, before, BucketKey(u, b, t)))
    ensures Bounded(AdmittedCost(es, config, u, b, t), FirstValue(es, config, before, BucketKey(u, b, t)),
                    LifeOf(es, config, before, BucketKey(u, b, t)), now)
  {
    AdmittedFromNothing(es, config, before, after, u, b, t, now);
    var first := FirstValue(es, config, before, BucketKey(u, b, t));
    if first.Some? {
      var life := LifeOf(es, config, before, BucketKey(u, b, t));
      TotalIsBounded(first.value, life, now);
      LessIsBounded(AdmittedCost(es, config, u, b, t), Total(first.value, life), first, life, now);
    }
  }

  lemma TotalIsBounded(tank: Tank, life: seq<Event>, now: int)
    requires Sensible(tank, now) && Orderly(now, life)
    ensures Bounded(Total(tank, life), Some(tank), life, now)
  {
    Throughput(tank, now, life);
  }

  lemma LessIsBounded(cost: int, total: int, first: Option<Tank>, life: seq<Event>, now: int)
    requires first.Some? && cost <= total && Bounded(total, first, life, now)
    ensures Bounded(cost, first, life, now)
  {
    assert MINUTE * cost <= MINUTE * total;
  }

  /** The cost is covered by the first level, the accrual and the resets of a bucket; without a bucket it is zero. */
  predicate Bounded(cost: int, first: Option<Tank>, life: seq<Event>, now: int) {
    match first
    case None => cost == 0
    case Some(tank) =>
      MINUTE * cost
        <= MINUTE * tank.level + Max(tank.rate, 0) * (End(now, life) - tank.last) + MINUTE * tank.capacity * Fills(life)
  }

  // ---------- Every ALLOW ----------

  /** The call went through as ALLOW, be it as the disposition of an exhausted bucket. */
  predicate Allows(e: Entry, u: string, b: string) {
    e.Called? && e.r.userID == u && e.r.backendID == b && e.decision.action == Allow
  }

  function AllowedCost(es: seq<Entry>, config: Config, u: string, b: string, t: string): int {
    if es == [] then 0
    else (if Allows(es[0], u, b) then CostIn(CostOf(config, es[0].profile), t) else 0) + AllowedCost(es[1..], config, u, b, t)
  }

  /** No call of the history met an index that allows an exhausted bucket. */
  predicate Strict(es: seq<Entry>) {
    forall k | 0 <= k < |es| && es[k].Called? :: NoneAllowsExhausted(es[k].indexOrder)
  }

  /** Under strict dispositions an ALLOW is always an admission. */
  lemma AllowedIsAdmitted(e: Entry, config: Config, before: Table, after: Table, u: string, b: string)
    requires Happens(e, config, before, after) && (e.Called? ==> NoneAllowsExhausted(e.indexOrder))
    ensures Allows(e, u, b) <==> Admits(e, u, b)
  {
    if e.Called? {
      AllowIsEarned(config, e.profile, e.r.justification, e.r.skipJustification,
                    Killed(config, e.r.answers.killedScopes, e.r.backendID), e.policies, e.v, e.order);
    }
  }

  lemma {:induction false} AllowedCostIsAdmitted(es: seq<Entry>, config: Config, before: Table, after: Table,
                                                 u: string, b: string, t: string)
    requires Leads(es, config, before, after) && Strict(es)
    ensures AllowedCost(es, config, u, b, t) == AdmittedCost(es, config, u, b, t)
    decreases |es|
  {
    if es != [] {
      var mid: Table :| Happens(es[0], config, before, mid) && Leads(es[1..], config, mid, after);
      AllowedIsAdmitted(es[0], config, before, mid, u, b);
      AllowedCostIsAdmitted(es[1..], config, mid, after, u, b, t);
    }
  }

  /** Under strict dispositions the same bound holds for every call that goes through as ALLOW. */
  lemma EveryAllowIsBounded(es: seq<Entry>, config: Config, before: Table, after: Table,
                            u: string, b: string, t: string, now: int)
    requires Leads(es, config, before, after) && IsBucketType(t) && Strict(es)
    requires var first := FirstValue(es, config, before, BucketKey(u, b, t)); first.Some? ==> Sensible(first.value, now)
    requires Orderly(now, LifeOf(es, config, before, BucketKey(u, b, t)))
    ensures Bounded(AllowedCost(es, config, u, b, t), FirstValue(es, config, before, BucketKey(u, b, t)),
                    LifeOf(es, config, before, BucketKey(u, b, t)), now)
  {
    AllowedCostIsAdmitted(es, config, before, after, u, b, t);
    AdmissionIsBounded(es, config, before, after, u, b, t, now);
  }
}
