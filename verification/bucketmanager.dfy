/**
 The table of buckets, two per user and backend, keyed "user:backend:type".  `Levels` is the
 value of the table; the methods update the bucket objects it maps to.
 */
module Buckets {
  import opened Common
  import opened RateLimit

  datatype BucketConfig = BucketConfig(capacity: int, rate: int)

  type Table = map<string, Tank>
  type Configs = map<string, BucketConfig>

  function BucketKey(userID: string, backendID: string, bucketType: string): string {
    userID + ":" + backendID + ":" + bucketType
  }

  function ConfigFor(config: Configs, backendID: string, bucketType: string): BucketConfig {
    var key := backendID + ":" + bucketType;
    if key in config then config[key] else BucketConfig(100, 20)
  }

  // ---------- What the operations do to the table ----------

  function WithBucket(levels: Table, config: Configs, userID: string, backendID: string, bucketType: string, now: int): Table {
    var key := BucketKey(userID, backendID, bucketType);
    if key in levels then levels
    else
      var cfg := ConfigFor(config, backendID, bucketType);
      levels[key := Tank(cfg.capacity, cfg.rate, cfg.capacity, now)]
  }

  /** The clock readings of one CheckAndConsume: two creations and two lazy refills. */
  datatype Readings = Readings(newRisk: int, newResource: int, risk: Reading, resource: Reading)

  function WithBoth(levels: Table, config: Configs, userID: string, backendID: string, at: Readings): Table {
    var first := WithBucket(levels, config, userID, backendID, "risk", at.newRisk);
    WithBucket(first, config, userID, backendID, "resource", at.newResource)
  }

  predicate RiskAllowed(levels: Table, config: Configs, userID: string, backendID: string, cost: Cost, at: Readings) {
    Affords(WithBoth(levels, config, userID, backendID, at)[BucketKey(userID, backendID, "risk")], cost.risk, at.risk)
  }

  predicate ResourceAllowed(levels: Table, config: Configs, userID: string, backendID: string, cost: Cost, at: Readings) {
    Affords(WithBoth(levels, config, userID, backendID, at)[BucketKey(userID, backendID, "resource")], cost.resource, at.resource)
  }

  /** Each of the two buckets is refilled, and debited when it affords its own cost. */
  function Debited(levels: Table, config: Configs, userID: string, backendID: string, cost: Cost, at: Readings): Table {
    var both := WithBoth(levels, config, userID, backendID, at);
    var riskKey := BucketKey(userID, backendID, "risk");
    var resourceKey := BucketKey(userID, backendID, "resource");
    both[riskKey := Consumed(both[riskKey], cost.risk, at.risk)]
        [resourceKey := Consumed(both[resourceKey], cost.resource, at.resource)]
  }

  function Swept(levels: Table, at: string -> Reading): Table {
    map key | key in levels :: Refilled(levels[key], at(key))
  }

  function ResetPrefix(userID: string, backendID: string): string {
    if backendID != "" then userID + ":" + backendID + ":" else userID + ":"
  }

  function ResetLevels(levels: Table, userID: string, backendID: string, now: string -> int): Table {
    map key | key in levels ::
      if HasPrefix(key, ResetPrefix(userID, backendID))
      then levels[key].(level := levels[key].capacity, last := now(key))
      else levels[key]
  }

  class BucketManager {
    var buckets: map<string, BucketState>
    var config: Configs

    /** Distinct keys hold distinct buckets, so a debit of one is not seen through another. */
    ghost predicate Valid()
      reads this
    {
      forall k, l | k in buckets && l in buckets && k != l :: buckets[k] != buckets[l]
    }

    ghost function Levels(): Table
      reads this, buckets.Values
    {
      map k | k in buckets :: buckets[k].Value()
    }

    constructor ()
      ensures Valid() && Levels() == map[] && config == map[]
    {
      buckets, config := map[], map[];
    }

    method SetConfig(backendID: string, bucketType: string, capacity: int, refillRate: int)
      requires Valid()
      modifies this`config
      ensures Valid() && Levels() == old(Levels())
      ensures config == old(config)[backendID + ":" + bucketType := BucketConfig(capacity, refillRate)]
    {
      config := config[backendID + ":" + bucketType := BucketConfig(capacity, refillRate)];
    }

    method GetOrCreate(userID: string, backendID: string, bucketType: string, now: int) returns (b: BucketState)
      requires Valid()
      modifies this`buckets
      ensures Valid()
      ensures Levels() == WithBucket(old(Levels()), config, userID, backendID, bucketType, now)
      ensures forall k | k in old(buckets) :: k in buckets && buckets[k] == old(buckets)[k]
      ensures BucketKey(userID, backendID, bucketType) in buckets
      ensures b == buckets[BucketKey(userID, backendID, bucketType)]
      ensures fresh(buckets.Values - old(buckets.Values))
    {
      var key := BucketKey(userID, backendID, bucketType);
      if key in buckets {
        return buckets[key];
      }
      var cfg := ConfigFor(config, backendID, bucketType);
      b := new BucketState(userID, backendID, bucketType, cfg.capacity, cfg.rate, now);
      buckets := buckets[key := b];
    }

    /** The two debits of one call; neither waits for the other to succeed. */
    method ConsumeBoth(riskKey: string, resourceKey: string, cost: Cost, at: Readings)
      returns (riskAllowed: bool, resourceAllowed: bool)
      requires Valid() && riskKey in buckets && resourceKey in buckets && riskKey != resourceKey
      modifies buckets[riskKey], buckets[resourceKey]
      ensures Levels() == old(Levels())[riskKey := Consumed(old(Levels())[riskKey], cost.risk, at.risk)]
                                       [resourceKey := Consumed(old(Levels())[resourceKey], cost.resource, at.resource)]
      ensures riskAllowed <==> cost.risk <= Refilled(old(Levels())[riskKey], at.risk).level
      ensures resourceAllowed <==> cost.resource <= Refilled(old(Levels())[resourceKey], at.resource).level
    {
      riskAllowed := buckets[riskKey].Consume(cost.risk, at.risk);
      resourceAllowed := buckets[resourceKey].Consume(cost.resource, at.resource);
    }

    method CheckAndConsume(userID: string, backendID: string, cost: Cost, at: Readings)
      returns (riskAllowed: bool, resourceAllowed: bool)
      requires Valid()
      modifies this`buckets, buckets.Values
      ensures Valid() && fresh(buckets.Values - old(buckets.Values))
      ensures Levels() == Debited(old(Levels()), config, userID, backendID, cost, at)
      ensures riskAllowed == RiskAllowed(old(Levels()), config, userID, backendID, cost, at)
      ensures resourceAllowed == ResourceAllowed(old(Levels()), config, userID, backendID, cost, at)
      ensures var both := WithBoth(old(Levels()), config, userID, backendID, at);
              && (riskAllowed <==> cost.risk <= Refilled(both[BucketKey(userID, backendID, "risk")], at.risk).level)
              && (resourceAllowed <==> cost.resource <= Refilled(both[BucketKey(userID, backendID, "resource")], at.resource).level)
    {
      var riskBucket := GetOrCreate(userID, backendID, "risk", at.newRisk);
      var resourceBucket := GetOrCreate(userID, backendID, "resource", at.newResource);
      RiskIsNotResource(userID, backendID);
      riskAllowed, resourceAllowed := ConsumeBoth(BucketKey(userID, backendID, "risk"),
                                                  BucketKey(userID, backendID, "resource"), cost, at);
    }

    method RefillAll(at: string -> Reading)
      requires Valid()
      modifies buckets.Values
      ensures Valid() && Levels() == Swept(old(Levels()), at)
    {
      var left := buckets.Keys;
      while left != {}
        invariant left <= buckets.Keys
        invariant forall k | k in left :: buckets[k].Value() == old(buckets[k].Value())
        invariant forall k | k in buckets && k !in left ::
                    buckets[k].Value() == Refilled(old(buckets[k].Value()), at(k))
      {
        var key :| key in left;
        buckets[key].Refill(at(key));
        left := left - {key};
      }
    }

    method ResetUserBuckets(userID: string, backendID: string, now: string -> int)
      requires Valid()
      modifies buckets.Values
      ensures Valid() && Levels() == ResetLevels(old(Levels()), userID, backendID, now)
    {
      var prefix := ResetPrefix(userID, backendID);
      var left := buckets.Keys;
      while left != {}
        invariant left <= buckets.Keys
        invariant forall k | k in left :: buckets[k].Value() == old(buckets[k].Value())
        invariant forall k | k in buckets && k !in left ::
                    buckets[k].Value() == if HasPrefix(k, prefix)
                                          then old(buckets[k].Value()).(level := buckets[k].capacity, last := now(k))
                                          else old(buckets[k].Value())
      {
        var key :| key in left;
        if HasPrefix(key, prefix) {
          buckets[key].Reset(now(key));
        }
        left := left - {key};
      }
    }

    /** The levels that a policy sees; zeros while a bucket does not exist. */
    method GetBucketStatus(userID: string, backendID: string) returns (risk: (int, int, int), resource: (int, int, int))
      requires Valid()
      ensures risk == StatusOf(Levels(), BucketKey(userID, backendID, "risk"))
      ensures resource == StatusOf(Levels(), BucketKey(userID, backendID, "resource"))
    {
      risk, resource := (0, 0, 0), (0, 0, 0);
      var riskKey := BucketKey(userID, backendID, "risk");
      if riskKey in buckets {
        var b := buckets[riskKey];
        risk := (b.currentLevel, b.capacity, b.refillRate);
      }
      var resourceKey := BucketKey(userID, backendID, "resource");
      if resourceKey in buckets {
        var b := buckets[resourceKey];
        resource := (b.currentLevel, b.capacity, b.refillRate);
      }
    }
  }

  /** Available tokens, capacity and refill rate. */
  function StatusOf(levels: Table, key: string): (int, int, int) {
    if key in levels then (levels[key].level, levels[key].capacity, levels[key].rate) else (0, 0, 0)
  }

  // ---------- Keys ----------

  predicate ColonFree(s: string) {
    Free(s, ':')
  }

  /** The key encoding is injective as soon as the user ids and bucket types hold no colon. */
  lemma KeyInjective(u: string, b: string, t: string, u': string, b': string, t': string)
    requires ColonFree(u) && ColonFree(u') && ColonFree(t) && ColonFree(t')
    ensures BucketKey(u, b, t) == BucketKey(u', b', t') <==> u == u' && b == b' && t == t'
  {
    if BucketKey(u, b, t) == BucketKey(u', b', t') {
      assert u + ":" + (b + ":" + t) == BucketKey(u, b, t);
      assert u' + ":" + (b' + ":" + t') == BucketKey(u', b', t');
      HeadUnique(u, u', b + ":" + t, b' + ":" + t', ':');
      TailUnique(b, b', t, t', ':');
    }
  }

  /** One id continues the other past a colon. */
  predicate Nested(u: string, u': string) {
    HasPrefix(u, u' + ":") || HasPrefix(u', u + ":")
  }

  /** Exactly when two users can share a bucket: when one id continues the other past a colon. */
  lemma UsersCollideIffNested(u: string, u': string, t: string)
    requires u != u'
    ensures (exists b, b' :: BucketKey(u, b, t) == BucketKey(u', b', t)) <==> Nested(u, u')
  {
    if HasPrefix(u', u + ":") {
      SharedKey(u, u', t);
    } else if HasPrefix(u, u' + ":") {
      SharedKey(u', u, t);
    }
    forall b, b' | BucketKey(u, b, t) == BucketKey(u', b', t)
      ensures Nested(u, u')
    {
      if |u| <= |u'| {
        ShorterIsPrefix(u, b, u', b', t);
      } else {
        ShorterIsPrefix(u', b', u, b, t);
      }
    }
  }

  lemma SharedKey(u: string, longer: string, t: string)
    requires HasPrefix(longer, u + ":")
    ensures BucketKey(u, longer[|u| + 1..] + ":", t) == BucketKey(longer, "", t)
  {
    assert longer == u + ":" + longer[|u| + 1..];
  }

  lemma ShorterIsPrefix(u: string, b: string, u': string, b': string, t: string)
    requires |u| <= |u'| && BucketKey(u, b, t) == BucketKey(u', b', t)
    ensures u == u' || HasPrefix(u', u + ":")
  {
    var key := BucketKey(u, b, t);
    assert key[..|u|] == u && key[|u|] == ':';
    assert key[..|u'|] == u';
    if |u| < |u'| {
      assert u'[..|u| + 1] == key[..|u| + 1] == u + ":";
    } else {
      assert u == u';
    }
  }

  /** Without a backend, a reset reaches exactly the buckets of the named user. */
  lemma ResetReachesUser(u: string, u': string, b: string, t: string)
    requires ColonFree(u) && ColonFree(u')
    ensures HasPrefix(BucketKey(u', b, t), ResetPrefix(u, "")) <==> u == u'
  {
    var key := BucketKey(u', b, t);
    assert key == u' + ":" + (b + ":" + t);
    assert u == u' ==> u + ":" <= key;
    if HasPrefix(key, u + ":") {
      assert key == u + ":" + key[|u| + 1..];
      HeadUnique(u, u', key[|u| + 1..], b + ":" + t, ':');
    }
  }

  /** With a backend, it reaches exactly the buckets of that user and backend. */
  lemma ResetReachesBackend(u: string, b: string, u': string, b': string, t: string)
    requires ColonFree(u) && ColonFree(u') && ColonFree(b) && ColonFree(b') && b != ""
    ensures HasPrefix(BucketKey(u', b', t), ResetPrefix(u, b)) <==> u == u' && b == b'
  {
    var key := BucketKey(u', b', t);
    var prefix := u + ":" + b + ":";
    assert key == u' + ":" + (b' + ":" + t);
    assert u == u' && b == b' ==> key == prefix + t;
    if HasPrefix(key, prefix) {
      var rest := key[|prefix|..];
      assert key == u + ":" + (b + ":" + rest);
      HeadUnique(u, u', b + ":" + rest, b' + ":" + t, ':');
      HeadUnique(b, b', rest, t, ':');
    }
  }

  /** A call allowed on both counts debits each bucket by exactly its cost; a refusal spares that bucket. */
  lemma DebitIsExact(levels: Table, config: Configs, u: string, b: string, cost: Cost, at: Readings)
    ensures var both, after := WithBoth(levels, config, u, b, at), Debited(levels, config, u, b, cost, at);
            var risk, resource := BucketKey(u, b, "risk"), BucketKey(u, b, "resource");
            && after.Keys == levels.Keys + {risk, resource}
            && (forall key | key in levels && key != risk && key != resource :: after[key] == levels[key])
            && after[risk].level == Refilled(both[risk], at.risk).level
                 - (if RiskAllowed(levels, config, u, b, cost, at) then cost.risk else 0)
            && after[resource].level == Refilled(both[resource], at.resource).level
                 - (if ResourceAllowed(levels, config, u, b, cost, at) then cost.resource else 0)
  {
    RiskIsNotResource(u, b);
  }

  /** Each bucket of a call grants exactly what its level covers after the refill, whatever the other one does. */
  lemma GrantedIffCovered(levels: Table, config: Configs, u: string, b: string, cost: Cost, at: Readings)
    ensures var both := WithBoth(levels, config, u, b, at);
            && (RiskAllowed(levels, config, u, b, cost, at) <==>
                  cost.risk <= Refilled(both[BucketKey(u, b, "risk")], at.risk).level)
            && (ResourceAllowed(levels, config, u, b, cost, at) <==>
                  cost.resource <= Refilled(both[BucketKey(u, b, "resource")], at.resource).level)
  {}

  /** A first call finds full buckets: as set for its backend and type, else 100 tokens at 20 a minute. */
  lemma FirstBucketIsAsConfigured(levels: Table, config: Configs, u: string, b: string, t: string, now: int)
    requires BucketKey(u, b, t) !in levels
    ensures var tank := WithBucket(levels, config, u, b, t, now)[BucketKey(u, b, t)];
            && tank.level == tank.capacity && tank.last == now
            && (forall c | b + ":" + t in config && config[b + ":" + t] == c :: tank.capacity == c.capacity && tank.rate == c.rate)
            && (b + ":" + t !in config ==> tank.capacity == 100 && tank.rate == 20)
  {}

  /** A setting is for one backend and type: for colon-free types it says nothing about any other. */
  lemma SettingIsForOne(config: Configs, b: string, t: string, c: BucketConfig, b': string, t': string)
    requires ColonFree(t) && ColonFree(t')
    ensures var after := config[b + ":" + t := c];
            ConfigFor(after, b', t') == if b == b' && t == t' then c else ConfigFor(config, b', t')
  {
    if b + ":" + t == b' + ":" + t' {
      TailUnique(b, b', t, t', ':');
    }
  }

  /** A reset leaves the buckets it reaches full and freshly stamped, and all others as they were. */
  lemma ResetFillsWhatItReaches(levels: Table, u: string, b: string, now: string -> int, key: string)
    requires key in levels
    ensures var after := ResetLevels(levels, u, b, now);
            && after.Keys == levels.Keys
            && (HasPrefix(key, ResetPrefix(u, b)) ==>
                  after[key] == Tank(levels[key].capacity, levels[key].rate, levels[key].capacity, now(key)))
            && (!HasPrefix(key, ResetPrefix(u, b)) ==> after[key] == levels[key])
            && Run(levels[key], EventsOf(Reset(u, b, now), key)) == after[key]
  {
    Isolation(levels, map[], Reset(u, b, now), key);
  }

  /** The two buckets of one user and backend never share a key. */
  lemma RiskIsNotResource(u: string, b: string)
    ensures BucketKey(u, b, "risk") != BucketKey(u, b, "resource")
  {
    var x := BucketKey(u, b, "risk");
    assert |x| == |u| + |b| + 6;
  }

  // ---------- Runs of the whole table ----------

  /** A rate-limited call of any user, a turn of the refill ticker, or an administrator's reset. */
  datatype Op =
    | Call(userID: string, backendID: string, cost: Cost, at: Readings)
    | Sweep(readings: string -> Reading)
    | Reset(userID: string, backendID: string, now: string -> int)

  function Applied(levels: Table, config: Configs, op: Op): Table {
    match op
    case Call(u, b, cost, at) => Debited(levels, config, u, b, cost, at)
    case Sweep(readings) => Swept(levels, readings)
    case Reset(u, b, now) => ResetLevels(levels, u, b, now)
  }

  function RunTable(levels: Table, config: Configs, ops: seq<Op>): Table
    decreases |ops|
  {
    if ops == [] then levels else RunTable(Applied(levels, config, ops[0]), config, ops[1..])
  }

  /** What an operation is to the bucket `key`: one event, or nothing at all. */
  function EventsOf(op: Op, key: string): seq<Event> {
    match op
    case Sweep(readings) => [Tick(readings(key))]
    case Reset(u, b, now) => if HasPrefix(key, ResetPrefix(u, b)) then [Fill(Reading(now(key), now(key)))] else []
    case Call(u, b, cost, at) =>
      if key == BucketKey(u, b, "risk") then [Take(cost.risk, at.risk)]
      else if key == BucketKey(u, b, "resource") then [Take(cost.resource, at.resource)]
      else []
  }

  function EventsFor(ops: seq<Op>, key: string): seq<Event> {
    if ops == [] then [] else EventsOf(ops[0], key) + EventsFor(ops[1..], key)
  }

  /** Isolation: a bucket is touched only by calls that name it, and each debit is its own. */
  lemma Isolation(levels: Table, config: Configs, op: Op, key: string)
    requires key in levels
    ensures key in Applied(levels, config, op)
    ensures Applied(levels, config, op)[key] == Run(levels[key], EventsOf(op, key))
  {
    if op.Call? {
      RiskIsNotResource(op.userID, op.backendID);
    }
    var es := EventsOf(op, key);
    if es != [] {
      assert es[1..] == [];
      assert Run(levels[key], es) == Run(After(levels[key], es[0]), es[1..]) == After(levels[key], es[0]);
    }
  }

  /** A call touches the bucket of exactly the user and backend it names. */
  lemma CallTouchesOnlyItsOwn(op: Op, u: string, b: string, t: string)
    requires op.Call? && ColonFree(op.userID) && ColonFree(u) && ColonFree(t)
    ensures EventsOf(op, BucketKey(u, b, t)) != [] <==>
            u == op.userID && b == op.backendID && (t == "risk" || t == "resource")
  {
    KeyInjective(u, b, t, op.userID, op.backendID, "risk");
    KeyInjective(u, b, t, op.userID, op.backendID, "resource");
  }

  lemma {:induction false} RunConcat(t: Tank, es: seq<Event>, fs: seq<Event>)
    ensures Run(t, es + fs) == Run(Run(t, es), fs)
    decreases |es|
  {
    if es == [] {
      assert es + fs == fs;
    } else {
      assert (es + fs)[1..] == es[1..] + fs;
      RunConcat(After(t, es[0]), es[1..], fs);
    }
  }

  /** Every run of the whole table is, seen from one bucket, the run of that bucket's own events. */
  lemma {:induction false} TableRunProjects(levels: Table, config: Configs, ops: seq<Op>, key: string)
    requires key in levels
    ensures key in RunTable(levels, config, ops)
    ensures RunTable(levels, config, ops)[key] == Run(levels[key], EventsFor(ops, key))
    decreases |ops|
  {
    if ops != [] {
      Isolation(levels, config, ops[0], key);
      TableRunProjects(Applied(levels, config, ops[0]), config, ops[1..], key);
      RunConcat(levels[key], EventsOf(ops[0], key), EventsFor(ops[1..], key));
    }
  }

  // ---------- From before a bucket exists ----------

  /** The two keys of a user and backend. */
  predicate Names(u: string, b: string, key: string) {
    key == BucketKey(u, b, "risk") || key == BucketKey(u, b, "resource")
  }

  /** The bucket that a call creates under a missing key of its own: full, as configured at that moment. */
  function NewTank(config: Configs, u: string, b: string, key: string, at: Readings): Tank {
    if key == BucketKey(u, b, "risk") then
      var cfg := ConfigFor(config, b, "risk");
      Tank(cfg.capacity, cfg.rate, cfg.capacity, at.newRisk)
    else
      var cfg := ConfigFor(config, b, "resource");
      Tank(cfg.capacity, cfg.rate, cfg.capacity, at.newResource)
  }

  /** A call does to a bucket that it creates what it would have done had that bucket been there. */
  lemma CreationIsSilent(levels: Table, config: Configs, u: string, b: string, cost: Cost, at: Readings, key: string)
    requires key !in levels && Names(u, b, key)
    ensures var there := levels[key := NewTank(config, u, b, key, at)];
            && Debited(there, config, u, b, cost, at) == Debited(levels, config, u, b, cost, at)
            && RiskAllowed(there, config, u, b, cost, at) == RiskAllowed(levels, config, u, b, cost, at)
            && ResourceAllowed(there, config, u, b, cost, at) == ResourceAllowed(levels, config, u, b, cost, at)
  {
    RiskIsNotResource(u, b);
    var there := levels[key := NewTank(config, u, b, key, at)];
    assert WithBoth(there, config, u, b, at) == WithBoth(levels, config, u, b, at);
  }

  /** The value a bucket starts from: its own in the table, or that of the first call that names it. */
  function FirstTank(levels: Table, config: Configs, ops: seq<Op>, key: string): Option<Tank> {
    if key in levels then Some(levels[key])
    else if ops == [] then None
    else if ops[0].Call? && Names(ops[0].userID, ops[0].backendID, key) then
      Some(NewTank(config, ops[0].userID, ops[0].backendID, key, ops[0].at))
    else FirstTank(levels, config, ops[1..], key)
  }

  /** The events of a bucket from the moment it exists. */
  function LifeEvents(levels: Table, ops: seq<Op>, key: string): seq<Event> {
    if key in levels then EventsFor(ops, key)
    else if ops == [] then []
    else if ops[0].Call? && Names(ops[0].userID, ops[0].backendID, key) then EventsFor(ops, key)
    else LifeEvents(levels, ops[1..], key)
  }

  lemma AbsenceStays(levels: Table, config: Configs, op: Op, key: string)
    requires key !in levels && !(op.Call? && Names(op.userID, op.backendID, key))
    ensures key !in Applied(levels, config, op)
  {}

  lemma FirstOfOthers(levels: Table, other: Table, config: Configs, ops: seq<Op>, key: string)
    requires key !in levels && key !in other
    ensures FirstTank(levels, config, ops, key) == FirstTank(other, config, ops, key)
    ensures LifeEvents(levels, ops, key) == LifeEvents(other, ops, key)
  {}

  /**
   Every run of the whole table is, seen from any key, the run of that bucket's own events from its
   first value on; a key that no call names stays without a bucket.
   */
  lemma {:induction false} TableRunFromNothing(levels: Table, config: Configs, ops: seq<Op>, key: string)
    ensures var first := FirstTank(levels, config, ops, key);
            && (key in RunTable(levels, config, ops) <==> first.Some?)
            && (first.Some? ==> RunTable(levels, config, ops)[key] == Run(first.value, LifeEvents(levels, ops, key)))
    decreases |ops|
  {
    if key in levels {
      TableRunProjects(levels, config, ops, key);
    } else if ops != [] {
      var op := ops[0];
      if op.Call? && Names(op.userID, op.backendID, key) {
        var there := levels[key := NewTank(config, op.userID, op.backendID, key, op.at)];
        CreationIsSilent(levels, config, op.userID, op.backendID, op.cost, op.at, key);
        assert RunTable(levels, config, ops) == RunTable(there, config, ops);
        TableRunProjects(there, config, ops, key);
      } else {
        var next := Applied(levels, config, op);
        AbsenceStays(levels, config, op, key);
        FirstOfOthers(levels, next, config, ops[1..], key);
        TableRunFromNothing(next, config, ops[1..], key);
      }
    }
  }

  /** A first value that keeps the bucket's bounds and is not stamped after `now`. */
  predicate Sensible(t: Tank, now: int) {
    0 <= t.level <= t.capacity && t.last <= now
  }

  /** Throughput of any bucket, whether it exists yet or not, whatever all users, the ticker and administrators do. */
  lemma TableThroughput(levels: Table, config: Configs, now: int, ops: seq<Op>, key: string)
    requires var first := FirstTank(levels, config, ops, key); first.Some? ==> Sensible(first.value, now)
    requires Orderly(now, LifeEvents(levels, ops, key))
    ensures var first, es := FirstTank(levels, config, ops, key), LifeEvents(levels, ops, key);
            && (key in RunTable(levels, config, ops) <==> first.Some?)
            && (first.Some? ==>
                  var t := first.value;
                  && 0 <= RunTable(levels, config, ops)[key].level <= t.capacity
                  && MINUTE * Total(t, es)
                       <= MINUTE * t.level + Max(t.rate, 0) * (End(now, es) - t.last) + MINUTE * t.capacity * Fills(es))
  {
    TableRunFromNothing(levels, config, ops, key);
    var first, es := FirstTank(levels, config, ops, key), LifeEvents(levels, ops, key);
    if first.Some? {
      Throughput(first.value, now, es);
      LevelAndTotal(first.value, now, es);
      RunKeepsCapacity(first.value, es);
    }
  }

  lemma {:induction false} RunKeepsCapacity(t: Tank, es: seq<Event>)
    ensures Run(t, es).capacity == t.capacity
    decreases |es|
  {
    if es != [] {
      RunKeepsCapacity(After(t, es[0]), es[1..]);
    }
  }
}
