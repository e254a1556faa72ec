/**
 The token-bucket limiter.  `Tank` is the value of one bucket; the functions on it say what the
 bucket methods compute, and the run lemmas bound what any interleaving of ticked and lazy
 refills can grant.  Times are clock readings in nanoseconds.
 */
module RateLimit {
  import opened Common

  const NANOS: int := 1_000_000_000
  const MINUTE: int := 60_000_000_000

  // ---------- Cost of a call ----------

  function RiskMultiplier(riskLevel: string): int {
    if riskLevel == "low" then 1
    else if riskLevel == "med" then 2
    else if riskLevel == "high" then 4
    else 1
  }

  predicate IsRiskScoped(impactScope: string) {
    impactScope == "write" || impactScope == "delete"
  }

  datatype Cost = Cost(risk: int, resource: int)

  function CalculateCost(resourceCost: int, riskLevel: string, impactScope: string): Cost {
    Cost(if IsRiskScoped(impactScope) then resourceCost * RiskMultiplier(riskLevel) else 0, resourceCost)
  }

  // ---------- The value of one bucket ----------

  datatype Tank = Tank(capacity: int, rate: int, level: int, last: int)

  /** A refill reads the clock twice: to measure the elapsed time, then to stamp the bucket. */
  datatype Reading = Reading(checked: int, stamped: int)

  /** `int(elapsed.Seconds())` */
  function Seconds(elapsed: int): int {
    Quo(elapsed, NANOS)
  }

  function Credit(t: Tank, checked: int): int {
    Quo(Seconds(checked - t.last) * t.rate, 60)
  }

  function Refilled(t: Tank, at: Reading): Tank {
    var amount := Credit(t, at.checked);
    if amount > 0 then t.(level := Min(t.capacity, t.level + amount), last := at.stamped) else t
  }

  predicate Affords(t: Tank, cost: int, at: Reading) {
    Refilled(t, at).level >= cost
  }

  function Consumed(t: Tank, cost: int, at: Reading): Tank {
    var r := Refilled(t, at);
    if Affords(t, cost, at) then r.(level := r.level - cost) else r
  }

  class BucketState {
    const userID: string
    const backendID: string
    const bucketType: string
    const capacity: int
    const refillRate: int
    var currentLevel: int
    var lastRefillAt: int

    ghost function Value(): Tank
      reads this
    {
      Tank(capacity, refillRate, currentLevel, lastRefillAt)
    }

    constructor (userID: string, backendID: string, bucketType: string, capacity: int, refillRate: int, now: int)
      ensures Value() == Tank(capacity, refillRate, capacity, now)
      ensures this.userID == userID && this.backendID == backendID && this.bucketType == bucketType
    {
      this.userID, this.backendID, this.bucketType := userID, backendID, bucketType;
      this.capacity, this.refillRate := capacity, refillRate;
      currentLevel, lastRefillAt := capacity, now;
    }

    method Refill(at: Reading)
      modifies this
      ensures Value() == Refilled(old(Value()), at)
    {
      var elapsed := at.checked - lastRefillAt;
      var refillAmount := Quo(Seconds(elapsed) * refillRate, 60);
      if refillAmount > 0 {
        currentLevel := Min(capacity, currentLevel + refillAmount);
        lastRefillAt := at.stamped;
      }
    }

    method CanConsume(cost: int, at: Reading) returns (ok: bool)
      modifies this
      ensures Value() == Refilled(old(Value()), at)
      ensures ok <==> cost <= Refilled(old(Value()), at).level
    {
      Refill(at);
      ok := currentLevel >= cost;
    }

    method Consume(cost: int, at: Reading) returns (ok: bool)
      modifies this
      ensures Value() == Consumed(old(Value()), cost, at)
      ensures ok <==> cost <= Refilled(old(Value()), at).level
      ensures currentLevel == Refilled(old(Value()), at).level - (if ok then cost else 0)
    {
      ok := CanConsume(cost, at);
      if !ok {
        return;
      }
      currentLevel := currentLevel - cost;
    }

    method Reset(now: int)
      modifies this
      ensures Value() == old(Value()).(level := capacity, last := now)
    {
      currentLevel, lastRefillAt := capacity, now;
    }
  }

  /** The free-standing bucket, which also predicts when it will be full. */
  class Bucket {
    const capacity: int
    const refillRate: int
    var current: int
    var lastRefill: int

    ghost function Value(): Tank
      reads this
    {
      Tank(capacity, refillRate, current, lastRefill)
    }

    constructor (capacity: int, refillRate: int, now: int)
      ensures Value() == Tank(capacity, refillRate, capacity, now)
    {
      this.capacity, this.refillRate := capacity, refillRate;
      current, lastRefill := capacity, now;
    }

    method RefillForElapsed(at: Reading)
      modifies this
      ensures Value() == Refilled(old(Value()), at)
    {
      var refillAmount := Quo(Seconds(at.checked - lastRefill) * refillRate, 60);
      if refillAmount > 0 {
        current := Min(capacity, current + refillAmount);
        lastRefill := at.stamped;
      }
    }

    method Consume(amount: int) returns (ok: bool)
      modifies this
      ensures ok == (old(current) >= amount)
      ensures Value() == old(Value()).(level := if ok then old(current) - amount else old(current))
    {
      if current < amount {
        return false;
      }
      current := current - amount;
      return true;
    }

    /** Seconds until full; None is the division by zero that a non-full bucket of rate 0 meets. */
    method NextFullIn() returns (seconds: Option<int>)
      ensures seconds == FullIn(Value())
    {
      if current >= capacity {
        return Some(0);
      }
      if refillRate == 0 {
        return None;
      }
      var unitsNeeded := capacity - current;
      return Some(if refillRate > 0 then Quo(unitsNeeded * 60, refillRate) else -Quo(unitsNeeded * 60, -refillRate));
    }
  }

  function FullIn(t: Tank): Option<int> {
    if t.level >= t.capacity then Some(0)
    else if t.rate == 0 then None
    else if t.rate > 0 then Some(Quo((t.capacity - t.level) * 60, t.rate))
    else Some(-Quo((t.capacity - t.level) * 60, -t.rate))
  }

  // ---------- One refill ----------

  lemma MulMono(a: int, b: int, c: int)
    requires a <= b && 0 <= c
    ensures a * c <= b * c
  {}

  /** A refill never credits more than the time between its stamps accrues. */
  lemma RefillWithinAccrual(t: Tank, at: Reading)
    requires t.last <= at.checked <= at.stamped
    ensures var r := Refilled(t, at);
            MINUTE * (r.level - t.level) <= Max(t.rate, 0) * (r.last - t.last)
    ensures t.last <= Refilled(t, at).last <= Max(t.last, at.stamped)
  {
    var elapsed := at.checked - t.last;
    var s := Seconds(elapsed);
    if t.rate <= 0 {
      MulMono(t.rate, 0, s);
    } else {
      var amount := Credit(t, at.checked);
      assert s * t.rate >= 0;
      MulMono(s * NANOS, elapsed, t.rate);
      assert MINUTE * amount <= NANOS * (s * t.rate) == (s * NANOS) * t.rate;
      MulMono(elapsed, at.stamped - t.last, t.rate);
    }
  }

  /** A credit exceeds a quarter of the accrual it discards; half on a whole-second clock. */
  lemma CreditShare(t: Tank, checked: int)
    requires t.last <= checked && t.rate > 0 && Credit(t, checked) > 0
    ensures t.rate * (checked - t.last) < 4 * MINUTE * Credit(t, checked)
    ensures (checked - t.last) % NANOS == 0 ==>
              t.rate * (checked - t.last) < 2 * MINUTE * Credit(t, checked)
  {
    var elapsed := checked - t.last;
    var s := Seconds(elapsed);
    var amount := Credit(t, checked);
    assert s * t.rate >= 0;
    assert s * t.rate < 60 * (amount + 1) <= 120 * amount;
    assert s >= 1 by {
      assert s >= 0;
      assert s != 0;
    }
    MulMono(elapsed, 2 * (s * NANOS), t.rate);
    assert (s * NANOS) * t.rate == NANOS * (s * t.rate);
    if elapsed % NANOS == 0 {
      assert elapsed == s * NANOS;
    }
  }

  /**
   A refill, by what it amounts to: with `s` whole seconds since the last one, and `k` whole tokens in
   them, it adds `k` up to the capacity and takes the second reading for its stamp; with no whole token
   it changes nothing.
   */
  lemma RefillAddsWholeTokens(t: Tank, at: Reading, s: nat, k: nat)
    requires t.rate >= 0 && s * NANOS <= at.checked - t.last < (s + 1) * NANOS
    requires 60 * k <= s * t.rate < 60 * (k + 1)
    ensures k > 0 ==> Refilled(t, at).level == Min(t.capacity, t.level + k) && Refilled(t, at).last == at.stamped
    ensures k == 0 ==> Refilled(t, at) == t
    ensures Refilled(t, at).capacity == t.capacity && Refilled(t, at).rate == t.rate
  {
    assert Seconds(at.checked - t.last) == s;
    assert Credit(t, at.checked) == k;
  }

  /** A refill fills the tank exactly when the whole seconds since the last one cover the deficit. */
  lemma FillsExactly(t: Tank, at: Reading)
    requires t.rate > 0 && t.level < t.capacity && t.last <= at.checked
    ensures Refilled(t, at).level == t.capacity <==>
            Seconds(at.checked - t.last) * t.rate >= 60 * (t.capacity - t.level)
  {
    assert Seconds(at.checked - t.last) * t.rate >= 0;
  }

  /** NextFullIn is never late and at most one second early. */
  lemma NextFullInIsTight(t: Tank, at: Reading)
    requires t.rate > 0 && t.level < t.capacity && t.last <= at.checked
    ensures FullIn(t).Some? && FullIn(t).value >= 0
    ensures var n, s := FullIn(t).value, Seconds(at.checked - t.last);
            && (s < n ==> Refilled(t, at).level < t.capacity)
            && (s > n ==> Refilled(t, at).level == t.capacity)
            && (s == n ==> (Refilled(t, at).level == t.capacity <==> 60 * (t.capacity - t.level) % t.rate == 0))
  {
    FillsExactly(t, at);
    QuotientIsTight(60 * (t.capacity - t.level), t.rate, Seconds(at.checked - t.last));
  }

  lemma QuotientIsTight(need: nat, rate: int, s: int)
    requires rate > 0
    ensures 0 <= need / rate
    ensures s < need / rate ==> s * rate < need
    ensures s > need / rate ==> s * rate >= need
    ensures s == need / rate ==> (s * rate >= need <==> need % rate == 0)
  {
    var n := need / rate;
    assert need == n * rate + need % rate;
    if s < n {
      MulMono(s + 1, n, rate);
    } else if s > n {
      MulMono(n + 1, s, rate);
    }
  }

  // ---------- Runs of one bucket ----------

  /** A tick of the refill timer, a call that asks for tokens and refills lazily, or an administrator's reset. */
  datatype Event = Tick(at: Reading) | Take(cost: int, at: Reading) | Fill(at: Reading)

  function After(t: Tank, e: Event): Tank {
    match e
    case Tick(at) => Refilled(t, at)
    case Take(cost, at) => Consumed(t, cost, at)
    case Fill(at) => t.(level := t.capacity, last := at.stamped)
  }

  function Taken(t: Tank, e: Event): int {
    if e.Take? && Affords(t, e.cost, e.at) then e.cost else 0
  }

  function Run(t: Tank, es: seq<Event>): Tank
    decreases |es|
  {
    if es == [] then t else Run(After(t, es[0]), es[1..])
  }

  /** Tokens consumed over a run. */
  function Total(t: Tank, es: seq<Event>): int
    decreases |es|
  {
    if es == [] then 0 else Taken(t, es[0]) + Total(After(t, es[0]), es[1..])
  }

  /** How often the run resets the bucket. */
  function Fills(es: seq<Event>): nat {
    if es == [] then 0 else (if es[0].Fill? then 1 else 0) + Fills(es[1..])
  }

  /** The clock never runs backward, and costs are not negative. */
  predicate Orderly(now: int, es: seq<Event>)
    decreases |es|
  {
    es != [] ==>
      && now <= es[0].at.checked <= es[0].at.stamped
      && (es[0].Take? ==> es[0].cost >= 0)
      && Orderly(es[0].at.stamped, es[1..])
  }

  function End(now: int, es: seq<Event>): int
    decreases |es|
  {
    if es == [] then now else End(es[0].at.stamped, es[1..])
  }

  /** What one event adds: at most the accrual of the time it moves the stamp, or the capacity for a reset. */
  lemma GainOfOne(t: Tank, e: Event)
    requires 0 <= t.capacity && 0 <= t.level && t.last <= e.at.checked <= e.at.stamped
    requires e.Take? ==> e.cost >= 0
    ensures var u := After(t, e);
            && 0 <= u.level && (t.level <= t.capacity ==> u.level <= t.capacity)
            && t.last <= u.last <= e.at.stamped
            && MINUTE * (Taken(t, e) + u.level - t.level)
                 <= Max(t.rate, 0) * (u.last - t.last) + MINUTE * t.capacity * Fills([e])
  {
    RefillWithinAccrual(t, e.at);
    assert [e][1..] == [];
    if e.Fill? {
      MulMono(0, Max(t.rate, 0), e.at.stamped - t.last);
    }
  }

  /** Over any run: level plus consumption is bounded by the starting level, the accrual, and a capacity for each reset. */
  lemma {:induction false} LevelAndTotal(t: Tank, now: int, es: seq<Event>)
    requires 0 <= t.capacity && 0 <= t.level && t.last <= now && Orderly(now, es)
    ensures 0 <= Run(t, es).level && (t.level <= t.capacity ==> Run(t, es).level <= t.capacity)
    ensures t.last <= Run(t, es).last <= End(now, es)
    ensures MINUTE * (Total(t, es) + Run(t, es).level - t.level)
              <= Max(t.rate, 0) * (Run(t, es).last - t.last) + MINUTE * t.capacity * Fills(es)
    decreases |es|
  {
    if es != [] {
      var u := After(t, es[0]);
      GainOfOne(t, es[0]);
      LevelAndTotal(u, es[0].at.stamped, es[1..]);
      var v := Run(t, es);
      assert [es[0]][1..] == [];
      SumOfGains(Max(t.rate, 0), MINUTE * t.capacity, u.last - t.last, v.last - u.last, Fills([es[0]]), Fills(es[1..]));
    }
  }

  lemma SumOfGains(r: int, c: int, a: int, b: int, m: int, n: int)
    ensures r * (a + b) == r * a + r * b && c * (m + n) == c * m + c * n
  {}

  lemma ThroughputArithmetic(total: int, level: int, start: int, rate: int, credited: int, elapsed: int, resets: int)
    requires 0 <= level && 0 <= rate && credited <= elapsed
    requires MINUTE * (total + level - start) <= rate * credited + resets
    ensures MINUTE * total <= MINUTE * start + rate * elapsed + resets
  {
    MulMono(credited, elapsed, rate);
  }

  /** Throughput: consumption never exceeds the starting level, rate times elapsed time, and a capacity for each reset. */
  lemma Throughput(t: Tank, now: int, es: seq<Event>)
    requires 0 <= t.capacity && 0 <= t.level && t.last <= now && Orderly(now, es)
    ensures MINUTE * Total(t, es)
              <= MINUTE * t.level + Max(t.rate, 0) * (End(now, es) - t.last) + MINUTE * t.capacity * Fills(es)
  {
    LevelAndTotal(t, now, es);
    var v := Run(t, es);
    ThroughputArithmetic(Total(t, es), v.level, t.level, Max(t.rate, 0), v.last - t.last, End(now, es) - t.last,
                         MINUTE * t.capacity * Fills(es));
  }

  // ---------- What a run grants ----------

  /** Everything that the run asks for. */
  function Asked(es: seq<Event>): int {
    if es == [] then 0 else (if es[0].Take? then es[0].cost else 0) + Asked(es[1..])
  }

  lemma {:induction false} AskedIsNotNegative(now: int, es: seq<Event>)
    requires Orderly(now, es)
    ensures Asked(es) >= 0
    decreases |es|
  {
    if es != [] {
      AskedIsNotNegative(es[0].at.stamped, es[1..]);
    }
  }

  /** An event takes what it asks for if the level covers it, and lowers the level by no more than that. */
  lemma GrantOfOne(t: Tank, e: Event)
    requires 0 <= t.rate && 0 <= t.level <= t.capacity && t.last <= e.at.checked <= e.at.stamped
    requires e.Take? ==> 0 <= e.cost <= t.level
    ensures var asked := if e.Take? then e.cost else 0;
            Taken(t, e) == asked && t.level - asked <= After(t, e).level <= t.capacity
  {
    GainOfOne(t, e);
    assert Seconds(e.at.checked - t.last) * t.rate >= 0;
  }

  /** Nothing affordable is refused: a run that asks for no more than the starting level gets all it asks for. */
  lemma {:induction false} AffordableIsGranted(t: Tank, now: int, es: seq<Event>)
    requires 0 <= t.rate && 0 <= t.level <= t.capacity && t.last <= now && Orderly(now, es)
    requires Asked(es) <= t.level
    ensures Total(t, es) == Asked(es)
    decreases |es|
  {
    if es != [] {
      AskedIsNotNegative(es[0].at.stamped, es[1..]);
      GrantOfOne(t, es[0]);
      GainOfOne(t, es[0]);
      AffordableIsGranted(After(t, es[0]), es[0].at.stamped, es[1..]);
    }
  }

  /** No refill of the run is cut off at the capacity, and nothing resets the bucket. */
  predicate Unclamped(t: Tank, es: seq<Event>)
    decreases |es|
  {
    es != [] ==>
      && !es[0].Fill? && t.level + Max(0, Credit(t, es[0].at.checked)) <= t.capacity
      && Unclamped(After(t, es[0]), es[1..])
  }

  /** Time lost between the two clock readings of a refill that credits something. */
  function Gap(t: Tank, at: Reading): int {
    if Credit(t, at.checked) > 0 then at.stamped - at.checked else 0
  }

  function Gaps(t: Tank, es: seq<Event>): int
    decreases |es|
  {
    if es == [] then 0 else Gap(t, es[0].at) + Gaps(After(t, es[0]), es[1..])
  }

  /** Every measured interval of the run is a whole number of seconds. */
  predicate WholeSeconds(t: Tank, es: seq<Event>)
    decreases |es|
  {
    es != [] ==> (es[0].at.checked - t.last) % NANOS == 0 && WholeSeconds(After(t, es[0]), es[1..])
  }

  /** What is granted is at least one part in `share` of what `rate` accrues in the time. */
  predicate Repays(rate: int, elapsed: int, granted: int, share: int) {
    rate * elapsed <= share * MINUTE * granted
  }

  /** The accrual one refill discards against what it credits, on both kinds of clock. */
  lemma ShareOfOne(t: Tank, at: Reading)
    requires t.rate > 0 && t.last <= at.checked <= at.stamped
    requires t.level + Max(0, Credit(t, at.checked)) <= t.capacity
    ensures var u := Refilled(t, at);
            && u.level >= t.level
            && Repays(t.rate, u.last - t.last - Gap(t, at), u.level - t.level, 4)
            && ((at.checked - t.last) % NANOS == 0 ==> Repays(t.rate, u.last - t.last - Gap(t, at), u.level - t.level, 2))
  {
    if Credit(t, at.checked) > 0 {
      CreditShare(t, at.checked);
    }
  }

  /**
   Polling does not starve a bucket: over any unclamped run the tokens granted are at least a
   quarter of the accrual up to the last stamp, less the gaps (half on a whole-second clock).
   */
  lemma {:induction false} NotStarved(t: Tank, now: int, es: seq<Event>)
    requires t.rate > 0 && t.last <= now && Orderly(now, es) && Unclamped(t, es)
    ensures var granted := Total(t, es) + Run(t, es).level - t.level;
            var elapsed := Run(t, es).last - t.last - Gaps(t, es);
            && granted >= 0
            && Repays(t.rate, elapsed, granted, 4)
            && (WholeSeconds(t, es) ==> Repays(t.rate, elapsed, granted, 2))
    decreases |es|
  {
    if es != [] {
      var at := es[0].at;
      var u := After(t, es[0]);
      ShareOfOne(t, at);
      NotStarved(u, at.stamped, es[1..]);
      var first, later := Refilled(t, at).level - t.level, Total(u, es[1..]) + Run(u, es[1..]).level - u.level;
      var waited, rest := u.last - t.last - Gap(t, at), Run(u, es[1..]).last - u.last - Gaps(u, es[1..]);
      RepaysAdds(t.rate, waited, first, rest, later, 4);
      if WholeSeconds(t, es) {
        RepaysAdds(t.rate, waited, first, rest, later, 2);
      }
    }
  }

  lemma RepaysAdds(rate: int, a: int, g: int, b: int, h: int, share: int)
    requires Repays(rate, a, g, share) && Repays(rate, b, h, share)
    ensures Repays(rate, a + b, g + h, share)
  {
    assert rate * (a + b) == rate * a + rate * b;
    assert share * MINUTE * (g + h) == share * MINUTE * g + share * MINUTE * h;
  }

  /** After any event, less than one token's worth of whole seconds is outstanding. */
  lemma {:induction false} NothingOutstanding(t: Tank, now: int, es: seq<Event>)
    requires t.rate > 0 && t.last <= now && Orderly(now, es) && es != []
    ensures Seconds(es[|es| - 1].at.checked - Run(t, es).last) * t.rate < 60
    decreases |es|
  {
    RefillWithinAccrual(t, es[0].at);
    if |es| == 1 {
      RestBelowOneToken(t, es[0].at);
      assert Run(t, es) == After(t, es[0]);
    } else {
      NothingOutstanding(After(t, es[0]), es[0].at.stamped, es[1..]);
    }
  }

  lemma RestBelowOneToken(t: Tank, at: Reading)
    requires t.rate > 0 && t.last <= at.checked <= at.stamped
    ensures Seconds(at.checked - Refilled(t, at).last) * t.rate < 60
    ensures (at.checked - t.last) % NANOS == 0 ==>
              Refilled(t, at).last > at.checked || (at.checked - Refilled(t, at).last) % NANOS == 0
  {
    var s := Seconds(at.checked - t.last);
    if Credit(t, at.checked) > 0 {
      var r := Seconds(at.checked - at.stamped);
      assert r <= 0;
      MulMono(r, 0, t.rate);
    } else {
      assert s * t.rate >= 0;
    }
  }

  /** On a whole-second clock the last interval is a whole number of seconds, or nothing. */
  lemma {:induction false} LastIsWhole(t: Tank, now: int, es: seq<Event>)
    requires t.rate > 0 && t.last <= now && Orderly(now, es) && es != [] && WholeSeconds(t, es)
    ensures var rest := es[|es| - 1].at.checked - Run(t, es).last; rest < 0 || rest % NANOS == 0
    decreases |es|
  {
    RefillWithinAccrual(t, es[0].at);
    if |es| == 1 {
      RestBelowOneToken(t, es[0].at);
      assert Run(t, es) == After(t, es[0]);
    } else {
      LastIsWhole(After(t, es[0]), es[0].at.stamped, es[1..]);
    }
  }

  /** What a time shorter than one token accrues. */
  lemma ShortRest(rest: int, rate: int)
    requires rate > 0 && Seconds(rest) * rate < 60
    ensures rate * rest < MINUTE + rate * NANOS
    ensures rest < 0 || rest % NANOS == 0 ==> rate * rest < MINUTE
  {
    if rest <= 0 {
      MulMono(rest, 0, rate);
    } else {
      var s := Seconds(rest);
      assert rest == s * NANOS + rest % NANOS;
      assert (s * NANOS) * rate == NANOS * (s * rate);
      MulMono(rest, s * NANOS + NANOS, rate);
      assert (s * NANOS + NANOS) * rate == (s * NANOS) * rate + NANOS * rate;
    }
  }

  /**
   Over the whole time up to the last event: an unclamped run grants at least a quarter of what the
   rate accrues, less the gaps of its refills, one second and one token (half, less one token, on a
   whole-second clock).
   */
  lemma PollingIsRepaid(t: Tank, now: int, es: seq<Event>)
    requires t.rate > 0 && t.last <= now && Orderly(now, es) && Unclamped(t, es) && es != []
    ensures var granted := Total(t, es) + Run(t, es).level - t.level;
            var elapsed := es[|es| - 1].at.checked - t.last - Gaps(t, es);
            && t.rate * elapsed < 4 * MINUTE * granted + MINUTE + t.rate * NANOS
            && (WholeSeconds(t, es) ==> t.rate * elapsed < 2 * MINUTE * granted + MINUTE)
  {
    var u := Run(t, es);
    var rest := es[|es| - 1].at.checked - u.last;
    NotStarved(t, now, es);
    NothingOutstanding(t, now, es);
    ShortRest(rest, t.rate);
    if WholeSeconds(t, es) {
      LastIsWhole(t, now, es);
    }
    assert t.rate * (u.last - t.last - Gaps(t, es) + rest) == t.rate * (u.last - t.last - Gaps(t, es)) + t.rate * rest;
  }
}
