/**
 Pools keyed "backend:user", recreated when the environment of the user changes.  The environment is
 compared by a canonical text: its entries sorted and joined.
 */
module PoolManagement {
  import opened Common

  // ---------- The order of Go strings ----------

  predicate Le(a: string, b: string) {
    if a == "" then true
    else if b == "" then false
    else if a[0] != b[0] then a[0] < b[0]
    else Le(a[1..], b[1..])
  }

  lemma {:induction false} LeTotal(a: string, b: string)
    ensures Le(a, b) || Le(b, a)
  {
    if a != "" && b != "" {
      LeTotal(a[1..], b[1..]);
    }
  }

  lemma {:induction false} LeAntisymmetric(a: string, b: string)
    requires Le(a, b) && Le(b, a)
    ensures a == b
  {
    if a != "" && b != "" {
      LeAntisymmetric(a[1..], b[1..]);
      assert a == [a[0]] + a[1..] && b == [b[0]] + b[1..];
    }
  }

  lemma {:induction false} LeTransitive(a: string, b: string, c: string)
    requires Le(a, b) && Le(b, c)
    ensures Le(a, c)
  {
    if a != "" && b != "" && c != "" && a[0] == b[0] == c[0] {
      LeTransitive(a[1..], b[1..], c[1..]);
    }
  }

  predicate Sorted(s: seq<string>) {
    forall i, j | 0 <= i < j < |s| :: Le(s[i], s[j])
  }

  lemma SameHead(s: seq<string>, t: seq<string>)
    requires Sorted(s) && Sorted(t) && multiset(s) == multiset(t) && s != [] && t != []
    ensures s[0] == t[0]
  {
    assert s[0] in multiset(t) && t[0] in multiset(s);
    var i :| 0 <= i < |t| && t[i] == s[0];
    var j :| 0 <= j < |s| && s[j] == t[0];
    LeRefl(s[0]);
    LeAntisymmetric(s[0], t[0]);
  }

  lemma SameTail(s: seq<string>, t: seq<string>)
    requires s != [] && t != [] && s[0] == t[0] && multiset(s) == multiset(t)
    ensures multiset(s[1..]) == multiset(t[1..])
  {
    assert s == [s[0]] + s[1..] && t == [t[0]] + t[1..];
    assert multiset(s[1..]) == multiset(s) - multiset{s[0]};
    assert multiset(t[1..]) == multiset(t) - multiset{t[0]};
  }

  /** Two sorted arrangements of the same entries are the same sequence. */
  lemma {:induction false} SortedIsUnique(s: seq<string>, t: seq<string>)
    requires Sorted(s) && Sorted(t) && multiset(s) == multiset(t)
    ensures s == t
  {
    assert |s| == |multiset(s)| && |t| == |multiset(t)|;
    if s != [] {
      SameHead(s, t);
      SameTail(s, t);
      SortedIsUnique(s[1..], t[1..]);
      assert s == [s[0]] + s[1..] && t == [t[0]] + t[1..];
    }
  }

  lemma {:induction false} LeRefl(a: string)
    ensures Le(a, a)
  {
    if a != "" {
      LeRefl(a[1..]);
    }
  }

  // ---------- The hash ----------

  function Join(entries: seq<string>): string {
    if entries == [] then "" else entries[0] + "|" + Join(entries[1..])
  }

  /** `h` is the joined text of the entries in sorted order. */
  ghost predicate IsHash(h: string, env: seq<string>) {
    exists sorted: seq<string> :: Sorted(sorted) && multiset(sorted) == multiset(env) && h == Join(sorted)
  }

  lemma {:induction false} JoinAppend(entries: seq<string>, e: string)
    ensures Join(entries + [e]) == Join(entries) + (e + "|")
  {
    if entries == [] {
      assert entries + [e] == [e];
      assert Join([e]) == e + "|" + Join([e][1..]);
    } else {
      assert (entries + [e])[1..] == entries[1..] + [e];
      JoinAppend(entries[1..], e);
    }
  }

  /** The exchange sort, in place. */
  method SortInPlace(a: array<string>)
    modifies a
    ensures Sorted(a[..]) && multiset(a[..]) == multiset(old(a[..]))
  {
    var i := 0;
    while i < a.Length
      invariant 0 <= i <= a.Length
      invariant multiset(a[..]) == multiset(old(a[..]))
      invariant forall k, l | 0 <= k < i && k < l < a.Length :: Le(a[k], a[l])
    {
      MinimumToFront(a, i);
      i := i + 1;
    }
  }

  /** The inner loop: exchanges until position `i` holds the least of the entries from there on. */
  method MinimumToFront(a: array<string>, i: nat)
    requires i < a.Length
    requires forall k, l | 0 <= k < i && k < l < a.Length :: Le(a[k], a[l])
    modifies a
    ensures multiset(a[..]) == multiset(old(a[..]))
    ensures forall k, l | 0 <= k <= i && k < l < a.Length :: Le(a[k], a[l])
  {
    var j := i + 1;
    while j < a.Length
      invariant i < j <= a.Length
      invariant multiset(a[..]) == multiset(old(a[..]))
      invariant forall k, l | 0 <= k < i && k < l < a.Length :: Le(a[k], a[l])
      invariant forall l | i < l < j :: Le(a[i], a[l])
    {
      LeTotal(a[i], a[j]);
      if !Le(a[i], a[j]) {
        forall l | i < l < j
          ensures Le(a[j], a[l])
        {
          LeTransitive(a[j], a[i], a[l]);
        }
        Swap(a, i, j);
      }
      j := j + 1;
    }
  }

  method Swap(a: array<string>, i: nat, j: nat)
    requires i < j < a.Length
    modifies a
    ensures a[i] == old(a[j]) && a[j] == old(a[i])
    ensures forall k | 0 <= k < a.Length && k != i && k != j :: a[k] == old(a[k])
    ensures multiset(a[..]) == multiset(old(a[..]))
  {
    a[i], a[j] := a[j], a[i];
  }

  method HashEnv(env: seq<string>) returns (h: string)
    ensures IsHash(h, env)
  {
    var sorted := new string[|env|](i requires 0 <= i < |env| => env[i]);
    assert sorted[..] == env;
    SortInPlace(sorted);
    ghost var result := sorted[..];
    h := "";
    var n := 0;
    while n < sorted.Length
      invariant 0 <= n <= sorted.Length
      invariant sorted[..] == result
      invariant h == Join(sorted[..n])
    {
      JoinAppend(sorted[..n], sorted[n]);
      assert sorted[..n + 1] == sorted[..n] + [sorted[n]];
      h := h + (sorted[n] + "|");
      n := n + 1;
    }
    assert sorted[..n] == sorted[..];
    assert Sorted(result) && multiset(result) == multiset(env) && h == Join(result);
  }

  /** Reordering the environment never changes its hash. */
  lemma HashIgnoresOrder(h: string, h': string, env: seq<string>, env': seq<string>)
    requires IsHash(h, env) && IsHash(h', env') && multiset(env) == multiset(env')
    ensures h == h'
  {
    var s: seq<string> :| Sorted(s) && multiset(s) == multiset(env) && h == Join(s);
    var t: seq<string> :| Sorted(t) && multiset(t) == multiset(env') && h' == Join(t);
    SortedIsUnique(s, t);
  }

  predicate BarFree(entries: seq<string>) {
    forall e | e in entries :: Free(e, '|')
  }

  lemma {:induction false} JoinIsInjective(s: seq<string>, t: seq<string>)
    requires BarFree(s) && BarFree(t) && Join(s) == Join(t)
    ensures s == t
  {
    if s != [] && t != [] {
      assert s[0] in s && t[0] in t;
      HeadUnique(s[0], t[0], Join(s[1..]), Join(t[1..]), '|');
      JoinIsInjective(s[1..], t[1..]);
      assert s == [s[0]] + s[1..] && t == [t[0]] + t[1..];
    } else {
      assert s != [] ==> |Join(s)| > 0;
      assert t != [] ==> |Join(t)| > 0;
    }
  }

  /** For entries without '|', equal hashes mean the same entries with the same multiplicities. */
  lemma HashIsCanonical(h: string, h': string, env: seq<string>, env': seq<string>)
    requires IsHash(h, env) && IsHash(h', env') && BarFree(env) && BarFree(env')
    ensures h == h' <==> multiset(env) == multiset(env')
  {
    var s: seq<string> :| Sorted(s) && multiset(s) == multiset(env) && h == Join(s);
    var t: seq<string> :| Sorted(t) && multiset(t) == multiset(env') && h' == Join(t);
    if multiset(env) == multiset(env') {
      SortedIsUnique(s, t);
    }
    if h == h' {
      assert forall e | e in s :: e in multiset(env);
      assert forall e | e in t :: e in multiset(env');
      JoinIsInjective(s, t);
    }
  }

  // ---------- Which environments collide ----------

  lemma {:induction false} InsertSorted(e: string, s: seq<string>) returns (r: seq<string>)
    requires Sorted(s)
    ensures Sorted(r) && multiset(r) == multiset(s) + multiset{e}
  {
    LeRefl(e);
    if s == [] {
      r := [e];
    } else if Le(e, s[0]) {
      r := [e] + s;
      forall j | 0 <= j < |s|
        ensures Le(e, s[j])
      {
        if j > 0 {
          LeTransitive(e, s[0], s[j]);
        }
      }
    } else {
      LeTotal(e, s[0]);
      var rest := InsertSorted(e, s[1..]);
      r := [s[0]] + rest;
      assert s == [s[0]] + s[1..];
      forall j | 0 <= j < |rest|
        ensures Le(s[0], rest[j])
      {
        assert rest[j] in multiset(s[1..]) + multiset{e};
      }
    }
  }

  lemma {:induction false} EveryEnvHasAHash(env: seq<string>) returns (h: string, sorted: seq<string>)
    ensures Sorted(sorted) && multiset(sorted) == multiset(env) && h == Join(sorted) && IsHash(h, env)
  {
    if env == [] {
      sorted := [];
    } else {
      var _, rest := EveryEnvHasAHash(env[1..]);
      sorted := InsertSorted(env[0], rest);
      assert env == [env[0]] + env[1..];
    }
    h := Join(sorted);
  }

  /** Some environment with other entries has the same hash. */
  ghost predicate Collides(env: seq<string>) {
    exists other: seq<string>, h: string :: multiset(other) != multiset(env) && IsHash(h, env) && IsHash(h, other)
  }

  /** Cut at some bar, the entry falls into two parts in order. */
  predicate SplitsInOrder(e: string) {
    exists i | 0 <= i < |e| :: e[i] == '|' && Le(e[..i], e[i + 1..])
  }

  /**
   Exactly which environments share their hash with other entries: all those of two or more entries,
   and a single entry that can be cut at a bar into two parts in order.
   */
  lemma CollidesIffSplittable(env: seq<string>)
    ensures Collides(env) <==> |env| >= 2 || (|env| == 1 && SplitsInOrder(env[0]))
  {
    if |env| >= 2 {
      ManyCollideWithOne(env);
    } else if |env| == 1 {
      assert env == [env[0]];
      OneCollidesIffSplittable(env[0]);
    } else {
      assert env == [];
      forall other: seq<string>, h: string | IsHash(h, env) && IsHash(h, other)
        ensures multiset(other) == multiset(env)
      {
        EmptyHash(h, other);
      }
    }
  }

  lemma EmptyHash(h: string, other: seq<string>)
    requires IsHash(h, []) && IsHash(h, other)
    ensures multiset(other) == multiset{}
  {
    HashOfFew(h, []);
    var sorted: seq<string> :| Sorted(sorted) && multiset(sorted) == multiset(other) && h == Join(sorted);
    assert sorted != [] ==> |Join(sorted)| > 0;
  }

  /** Environments of at most one entry are their own sorted arrangement. */
  lemma HashOfFew(h: string, env: seq<string>)
    requires |env| <= 1
    ensures IsHash(h, env) <==> h == Join(env)
  {
    assert Sorted(env);
    if IsHash(h, env) {
      var sorted: seq<string> :| Sorted(sorted) && multiset(sorted) == multiset(env) && h == Join(sorted);
      SortedIsUnique(sorted, env);
    }
  }

  lemma JoinOne(e: string)
    ensures Join([e]) == e + "|"
  {
    assert [e][1..] == [];
  }

  lemma {:induction false} JoinEndsInBar(entries: seq<string>)
    requires entries != []
    ensures Join(entries) != "" && Join(entries)[|Join(entries)| - 1] == '|'
  {
    if |entries| > 1 {
      JoinEndsInBar(entries[1..]);
    }
  }

  /** The joined text itself, as one entry, has the same hash. */
  lemma ManyCollideWithOne(env: seq<string>)
    requires |env| >= 2
    ensures Collides(env)
  {
    var h, sorted := EveryEnvHasAHash(env);
    assert |multiset(sorted)| == |multiset(env)|;
    JoinEndsInBar(sorted);
    var one := h[..|h| - 1];
    JoinOne(one);
    assert h == one + "|";
    HashOfFew(h, [one]);
    assert |multiset([one])| == 1 && |multiset(env)| == |env|;
  }

  lemma OneCollidesIffSplittable(e: string)
    ensures Collides([e]) <==> SplitsInOrder(e)
  {
    JoinOne(e);
    if SplitsInOrder(e) {
      var i :| 0 <= i < |e| && e[i] == '|' && Le(e[..i], e[i + 1..]);
      SplitHasSameHash(e, i);
    }
    forall other: seq<string>, h: string | IsHash(h, [e]) && IsHash(h, other)
      ensures multiset(other) == multiset([e]) || SplitsInOrder(e)
    {
      SameOrSplit(e, h, other);
    }
  }

  lemma SameOrSplit(e: string, h: string, other: seq<string>)
    requires IsHash(h, [e]) && IsHash(h, other)
    ensures multiset(other) == multiset([e]) || SplitsInOrder(e)
  {
    HashOfFew(h, [e]);
    JoinOne(e);
    var sorted: seq<string> :| Sorted(sorted) && multiset(sorted) == multiset(other) && h == Join(sorted);
    assert sorted != [];
    if |sorted| == 1 {
      JoinOne(sorted[0]);
      assert sorted == [sorted[0]] && sorted[0] == h[..|h| - 1] == e;
    } else {
      SameHashSplits(e, sorted);
    }
  }

  lemma SplitHasSameHash(e: string, i: nat)
    requires i < |e| && e[i] == '|' && Le(e[..i], e[i + 1..])
    ensures Collides([e])
  {
    var parts := [e[..i], e[i + 1..]];
    assert parts[1..] == [e[i + 1..]];
    JoinOne(e[i + 1..]);
    JoinOne(e);
    assert e == e[..i] + "|" + e[i + 1..];
    assert Join(parts) == e[..i] + "|" + (e[i + 1..] + "|") == Join([e]);
    HashOfFew(Join([e]), [e]);
    assert Sorted(parts) && IsHash(Join(parts), parts);
    assert |multiset(parts)| == 2 && |multiset([e])| == 1;
  }

  /** A longer arrangement with the same text cuts the entry at its first bar, in order. */
  lemma SameHashSplits(e: string, sorted: seq<string>)
    requires |sorted| >= 2 && Sorted(sorted) && Join(sorted) == e + "|"
    ensures SplitsInOrder(e)
  {
    var rest := Join(sorted[1..]);
    JoinEndsInBar(sorted[1..]);
    CutAtBar(e, sorted[0], rest);
    assert rest == sorted[1] + ("|" + Join(sorted[1..][1..]));
    var tail := rest[..|rest| - 1];
    assert sorted[1] <= tail;
    LePrefix(sorted[1], tail);
    LeTransitive(sorted[0], sorted[1], tail);
  }

  lemma CutAtBar(e: string, head: string, rest: string)
    requires rest != "" && e + "|" == head + "|" + rest
    ensures |head| < |e| && e[..|head|] == head && e[|head|] == '|' && e[|head| + 1..] == rest[..|rest| - 1]
  {
    var text := e + "|";
    assert e == text[..|e|] == head + "|" + rest[..|rest| - 1];
  }

  lemma {:induction false} LePrefix(a: string, b: string)
    requires a <= b
    ensures Le(a, b)
  {
    if a != "" {
      LePrefix(a[1..], b[1..]);
    }
  }

  /** Two variables, and one whose value contains a bar. */
  lemma VariablesCollide(h: string)
    ensures IsHash(h, ["A=1", "B=2"]) <==> IsHash(h, ["A=1|B=2"])
    ensures multiset(["A=1", "B=2"]) != multiset(["A=1|B=2"])
  {
    var two, one := ["A=1", "B=2"], ["A=1|B=2"];
    assert "A=1"[0] < "B=2"[0];
    assert Sorted(two);
    assert two[1..] == ["B=2"];
    JoinOne("B=2");
    JoinOne("A=1|B=2");
    assert Join(two) == "A=1" + "|" + ("B=2" + "|") == Join(one);
    HashOfFew(h, one);
    assert IsHash(Join(two), two);
    if IsHash(h, two) {
      HashIgnoresOrder(h, Join(two), two, two);
    }
    assert |multiset(two)| == 2 && |multiset(one)| == 1;
  }

  // ---------- The pools ----------

  class UserPool {
    const envHash: string
    const hasSecrets: bool
    const framing: string
    const minPoolSize: int
    const maxPoolSize: int
    const dedicatedUser: string
    var closed: bool
    var lastUsed: int

    constructor (envHash: string, hasSecrets: bool, framing: string, minPoolSize: int, maxPoolSize: int,
                 dedicatedUser: string, now: int)
      ensures this.envHash == envHash && this.hasSecrets == hasSecrets && this.framing == framing
      ensures this.minPoolSize == minPoolSize && this.maxPoolSize == maxPoolSize && this.dedicatedUser == dedicatedUser
      ensures !closed && lastUsed == now
    {
      this.envHash, this.hasSecrets, this.framing := envHash, hasSecrets, framing;
      this.minPoolSize, this.maxPoolSize, this.dedicatedUser := minPoolSize, maxPoolSize, dedicatedUser;
      closed, lastUsed := false, now;
    }

    method Shutdown()
      modifies this`closed
      ensures closed
    {
      closed := true;
    }

    method EnvMatches(env: seq<string>) returns (same: bool)
      ensures exists h :: IsHash(h, env) && same == (envHash == h)
    {
      var h := HashEnv(env);
      same := envHash == h;
    }
  }

  function PoolKey(backendID: string, userID: string): string {
    backendID + ":" + userID
  }

  /** For colon-free backends, users and backends never share a pool. */
  lemma PoolKeyInjective(b: string, u: string, b': string, u': string)
    requires Free(b, ':') && Free(b', ':')
    ensures PoolKey(b, u) == PoolKey(b', u') <==> b == b' && u == u'
  {
    if PoolKey(b, u) == PoolKey(b', u') {
      HeadUnique(b, b', u, u', ':');
    }
  }

  /** The pool serves this environment, and has secrets when secrets are asked for. */
  ghost predicate Serves(pool: UserPool, env: seq<string>, wantsSecrets: bool) {
    IsHash(pool.envHash, env) && (wantsSecrets ==> pool.hasSecrets)
  }

  class PoolManager {
    const idleTimeout: int
    var pools: map<string, UserPool>

    /** Distinct keys hold distinct pools. */
    ghost predicate Valid()
      reads this
    {
      forall k, l | k in pools && l in pools && k != l :: pools[k] != pools[l]
    }

    constructor (idleTimeout: int)
      ensures Valid() && pools == map[] && this.idleTimeout == idleTimeout
    {
      this.idleTimeout, pools := idleTimeout, map[];
    }

    /** Reuses the pool of the key exactly when it serves the request; otherwise replaces it. */
    method GetOrCreateUserPool(backendID: string, userID: string, minPoolSize: int, maxPoolSize: int,
                               env: seq<string>, wantsSecrets: bool, stdioFraming: string, now: int)
      returns (pool: UserPool)
      requires Valid()
      modifies this`pools, if PoolKey(backendID, userID) in pools then {pools[PoolKey(backendID, userID)]} else {}
      ensures Valid()
      ensures pools == old(pools)[PoolKey(backendID, userID) := pool]
      ensures Serves(pool, env, wantsSecrets) && pool.lastUsed == now
      ensures var key := PoolKey(backendID, userID);
              if key in old(pools) && Serves(old(pools)[key], env, wantsSecrets)
              then pool == old(pools)[key] && pool.closed == old(pool.closed)
              else fresh(pool) && !pool.closed && pool.dedicatedUser == userID && pool.hasSecrets == wantsSecrets
                   && pool.framing == (if stdioFraming == "" then "newline" else stdioFraming)
                   && pool.minPoolSize == Max(minPoolSize, 1) && pool.maxPoolSize == Max(maxPoolSize, Max(minPoolSize, 1))
      ensures var key := PoolKey(backendID, userID);
              key in old(pools) && !Serves(old(pools)[key], env, wantsSecrets) ==> old(pools)[key].closed
    {
      var key := PoolKey(backendID, userID);
      var framing := if stdioFraming != "" then stdioFraming else "newline";
      if key in pools {
        pool := pools[key];
        var same := pool.EnvMatches(env);
        ghost var h :| IsHash(h, env) && same == (pool.envHash == h);
        if IsHash(pool.envHash, env) {
          HashIgnoresOrder(h, pool.envHash, env, env);
        }
        if same && (!wantsSecrets || pool.hasSecrets) {
          pool.lastUsed := now;
          return;
        }
        pool.Shutdown();
        pools := pools - {key};
      }
      var min := if minPoolSize < 1 then 1 else minPoolSize;
      var max := if maxPoolSize < min then min else maxPoolSize;
      var envHash := HashEnv(env);
      pool := new UserPool(envHash, wantsSecrets, framing, min, max, userID, now);
      pools := pools[key := pool];
    }

    /** Sequential use: the same environment in any order gets the same pool back. */
    method AskTwice(backendID: string, userID: string, minPoolSize: int, maxPoolSize: int,
                    env: seq<string>, reordered: seq<string>, framing: string, now: int, later: int)
      returns (first: UserPool, second: UserPool)
      requires Valid() && multiset(env) == multiset(reordered)
      modifies this`pools, if PoolKey(backendID, userID) in pools then {pools[PoolKey(backendID, userID)]} else {}
      ensures first == second
    {
      first := GetOrCreateUserPool(backendID, userID, minPoolSize, maxPoolSize, env, false, framing, now);
      ghost var s: seq<string> :| Sorted(s) && multiset(s) == multiset(env) && first.envHash == Join(s);
      assert IsHash(first.envHash, reordered);
      second := GetOrCreateUserPool(backendID, userID, minPoolSize, maxPoolSize, reordered, false, framing, later);
    }

    /** A pool without secrets does not serve a request with secrets, but one with secrets serves both. */
    method AskWithSecrets(backendID: string, userID: string, minPoolSize: int, maxPoolSize: int,
                          env: seq<string>, framing: string, now: int)
      returns (plain: UserPool, secret: UserPool, again: UserPool)
      requires Valid() && PoolKey(backendID, userID) !in pools
      modifies this`pools
      ensures fresh(plain) && fresh(secret) && secret != plain && again == secret
      ensures plain.closed && !secret.closed
    {
      plain := GetOrCreateUserPool(backendID, userID, minPoolSize, maxPoolSize, env, false, framing, now);
      secret := GetOrCreateUserPool(backendID, userID, minPoolSize, maxPoolSize, env, true, framing, now);
      again := GetOrCreateUserPool(backendID, userID, minPoolSize, maxPoolSize, env, false, framing, now);
    }

    /** Shuts down and removes the pool of one key. */
    method RemoveKey(key: string)
      requires key in pools
      modifies this`pools, {pools[key]}`closed
      ensures old(pools[key]).closed && pools == old(pools) - {key}
    {
      pools[key].Shutdown();
      pools := pools - {key};
    }

    /** The loop over all keys: shuts down, removes and counts the pools whose key passes the test. */
    method RemoveWhere(test: string -> bool) returns (removed: nat, ghost gone: set<string>)
      requires Valid()
      modifies this`pools, pools.Values`closed
      ensures gone <= old(pools).Keys && Counts(removed, gone)
      ensures forall k | k in old(pools) :: k in gone <==> test(k)
      ensures pools == old(pools) - gone
      ensures forall k | k in old(pools) :: old(pools)[k].closed == (k in gone || old(pools[k].closed))
    {
      removed, gone := 0, {};
      CountsNone();
      ghost var before := pools;
      var left := pools.Keys;
      while left != {}
        invariant left <= before.Keys && gone <= before.Keys
        invariant pools == before - gone && Counts(removed, gone)
        invariant forall k | k in before :: k in gone <==> k !in left && test(k)
        invariant forall k | k in before :: before[k].closed == (k in gone || old(before[k].closed))
      {
        var key :| key in left;
        if test(key) {
          RemoveKey(key);
          CountsOneMore(removed, gone, key);
          gone := gone + {key};
          removed := removed + 1;
        }
        left := left - {key};
      }
    }

    /** Shuts down and removes exactly the pools of the backend. */
    method RemovePoolsByBackend(backendID: string) returns (removed: nat)
      requires Valid()
      modifies this`pools, pools.Values`closed
      ensures Valid() && removed == |old(pools)| - |pools|
      ensures pools == map k | k in old(pools) && !BelongsTo(k, backendID) :: old(pools)[k]
      ensures forall k | k in old(pools) ::
                old(pools)[k].closed == (BelongsTo(k, backendID) || old(pools[k].closed))
    {
      ghost var before, gone := pools, {};
      removed, gone := RemoveWhere(key => key == backendID || HasPrefix(key, backendID + ":"));
      CountRest(before, removed, gone);
    }

    /** Shuts down and removes exactly the dedicated pools idle for longer than the timeout. */
    method CollectIdlePools(now: int)
      requires Valid()
      modifies this`pools, pools.Values`closed
      ensures Valid()
      ensures pools == map k | k in old(pools) && !Idle(old(pools)[k], now, idleTimeout) :: old(pools)[k]
      ensures forall k | k in old(pools) ::
                k in pools <==> old(pools)[k].dedicatedUser == "" || now <= old(pools)[k].lastUsed + idleTimeout
      ensures forall k | k in old(pools) ::
                old(pools)[k].closed == (Idle(old(pools)[k], now, idleTimeout) || old(pools[k].closed))
    {
      ghost var before := pools;
      ghost var gone: set<string> := {};
      var left := pools.Keys;
      while left != {}
        invariant left <= before.Keys && gone <= before.Keys
        invariant pools == before - gone
        invariant forall k | k in before :: k in gone <==> k !in left && Idle(before[k], now, idleTimeout)
        invariant forall k | k in before :: before[k].closed == (k in gone || old(before[k].closed))
      {
        var key :| key in left;
        var pool := pools[key];
        if pool.dedicatedUser != "" && now - pool.lastUsed > idleTimeout {
          RemoveKey(key);
          gone := gone + {key};
        }
        left := left - {key};
      }
    }
  }

  predicate BelongsTo(key: string, backendID: string) {
    key == backendID || HasPrefix(key, backendID + ":")
  }

  predicate Idle(pool: UserPool, now: int, timeout: int)
    reads pool`lastUsed
  {
    pool.dedicatedUser != "" && now - pool.lastUsed > timeout
  }

  /** Some sequence of length `n` lists the names of `s`, each once. */
  ghost predicate Counts(n: nat, s: set<string>) {
    exists names: seq<string> :: |names| == n && Lists(names, s)
  }

  ghost predicate Lists(names: seq<string>, s: set<string>) {
    && (forall x :: x in names <==> x in s)
    && (forall i, j | 0 <= i < j < |names| :: names[i] != names[j])
  }

  lemma CountsNone()
    ensures Counts(0, {})
  {
    assert Lists([], {});
  }

  lemma CountsOneMore(n: nat, s: set<string>, x: string)
    requires Counts(n, s) && x !in s
    ensures Counts(n + 1, s + {x})
  {
    var names: seq<string> :| |names| == n && Lists(names, s);
    assert Lists(names + [x], s + {x});
  }

  lemma {:induction false} ListsAll(names: seq<string>, s: set<string>)
    requires Lists(names, s)
    ensures |names| == |s|
  {
    if names == [] {
      assert s == {};
    } else {
      var rest := names[1..];
      assert Lists(rest, s - {names[0]}) by {
        assert forall x | x in names :: x == names[0] || x in rest;
      }
      ListsAll(rest, s - {names[0]});
    }
  }

  lemma CountRest<V>(m: map<string, V>, n: nat, gone: set<string>)
    requires gone <= m.Keys && Counts(n, gone)
    ensures |m - gone| == |m| - n
  {
    var names: seq<string> :| |names| == n && Lists(names, gone);
    ListsAll(names, gone);
    assert (m - gone).Keys == m.Keys - gone;
    assert |(m - gone).Keys| == |m.Keys| - |gone|;
  }

  /** Removing a backend reaches a user pool exactly when it is that backend's, for colon-free ids. */
  lemma RemovalIsExact(backendID: string, other: string, userID: string)
    requires Free(backendID, ':') && Free(other, ':')
    ensures BelongsTo(PoolKey(other, userID), backendID) <==> other == backendID
  {
    var key := PoolKey(other, userID);
    assert other == backendID ==> backendID + ":" <= key;
    assert key[|other|] == ':';
    if HasPrefix(key, backendID + ":") {
      assert key == backendID + ":" + key[|backendID| + 1..];
      HeadUnique(backendID, other, key[|backendID| + 1..], userID, ':');
    }
  }
}
