/**
 The policy engine.  A CEL expression is abstract: `Cel` says which expressions compile and what
 each yields in a decision context.  Policies sit in maps, so every loop over them visits them in
 an arbitrary order; the lemmas say what does not depend on that order.
 */
module CelEngine {
  import opened Common
  import opened Types

  datatype Policy = Policy(
    id: string,
    description: string,
    expression: string,
    action: Action,
    severity: Severity,
    message: string,
    enabled: bool,
    priority: int,
    dispositions: map<MatchContext, Action>)

  datatype Violation = EvalError(policyID: string) | Hit(policyID: string, description: string)

  /** The fields the engine fills in; an unset action means that no policy matched. */
  datatype Decision = Decision(
    action: Action,
    severity: Severity,
    message: string,
    policyID: Speaker,
    priority: int,
    violations: seq<Violation>,
    matchContext: MatchContext)

  const NO_MATCH: Decision := Decision(Unset, NoSeverity, "", GateNone, 0, [], NoContext)

  function ActionRank(a: Action): (r: nat)
    ensures r <= 5
  {
    match a
    case Deny => 5
    case PendingAdminApproval => 4
    case PendingApproval => 4
    case PendingUserApproval => 3
    case Warn => 2
    case Allow => 1
    case _ => 0
  }

  function SeverityRank(s: Severity): nat {
    match s
    case CriticalSeverity => 4
    case HighSeverity => 3
    case MediumSeverity => 2
    case LowSeverity => 1
    case _ => 0
  }

  /** shouldUpdateDecision */
  predicate Supersedes(candidate: Decision, current: Decision) {
    var ca, a := ActionRank(candidate.action), ActionRank(current.action);
    var cs, s := SeverityRank(candidate.severity), SeverityRank(current.severity);
    || ca > a
    || (ca == a && cs > s)
    || (ca == a && cs == s && candidate.priority > 0 && current.priority > 0 && candidate.priority < current.priority)
  }

  datatype Verdict = Match | NoMatch | Error

  /** One turn of the loop over the policies. */
  function Consider(d: Decision, p: Policy, v: Verdict): Decision {
    match v
    case Error => d.(violations := d.violations + [EvalError(p.id)])
    case NoMatch => d
    case Match =>
      var candidate := Decision(p.action, p.severity, p.message, PolicyID(p.id), p.priority, [], NoContext);
      var best := if Supersedes(candidate, d) then candidate else d;
      best.(violations := best.violations + [Hit(p.id, p.description)])
  }

  // ---------- The fold over an arbitrary order ----------

  /** The verdict of each policy in one decision context. */
  type Verdicts = string -> Verdict

  function Fold(d: Decision, order: seq<Policy>, v: Verdicts): Decision
    decreases |order|
  {
    if order == [] then d else Fold(Consider(d, order[0], v(order[0].id)), order[1..], v)
  }

  predicate Matches(p: Policy, v: Verdicts) {
    v(p.id) == Match
  }

  datatype Rank = Rank(action: nat, severity: nat)

  predicate AtMost(a: Rank, b: Rank) {
    a.action < b.action || (a.action == b.action && a.severity <= b.severity)
  }

  function DecisionRank(d: Decision): Rank {
    Rank(ActionRank(d.action), SeverityRank(d.severity))
  }

  function PolicyRank(p: Policy): Rank {
    Rank(ActionRank(p.action), SeverityRank(p.severity))
  }

  /** Whether `d` speaks for `p`: same action, severity, message, id and priority. */
  predicate SpeaksFor(d: Decision, p: Policy) {
    d.(violations := []) == Decision(p.action, p.severity, p.message, PolicyID(p.id), p.priority, [], NoContext)
  }

  predicate SameVoice(d: Decision, e: Decision) {
    d.(violations := []) == e.(violations := [])
  }

  /** The result is `d` itself or speaks for a matching policy, and ranks at least as high as both. */
  lemma {:induction false} FoldIsBest(d: Decision, order: seq<Policy>, v: Verdicts)
    ensures var r := Fold(d, order, v);
            && AtMost(DecisionRank(d), DecisionRank(r))
            && (forall p | p in order && Matches(p, v) :: AtMost(PolicyRank(p), DecisionRank(r)))
            && (SameVoice(r, d) || exists p | p in order && Matches(p, v) :: SpeaksFor(r, p))
    decreases |order|
  {
    if order != [] {
      var e := Consider(d, order[0], v(order[0].id));
      FoldIsBest(e, order[1..], v);
      var r := Fold(d, order, v);
      assert r == Fold(e, order[1..], v);
      if !SameVoice(r, d) && SameVoice(r, e) {
        assert order[0] in order && Matches(order[0], v) && SpeaksFor(r, order[0]);
      }
    }
  }

  /**
   Order independence of action and severity, for any policies at all: two orders of the same
   policies give decisions of equal rank.
   */
  lemma RankIsOrderIndependent(order: seq<Policy>, other: seq<Policy>, v: Verdicts)
    requires forall p :: p in order <==> p in other
    ensures DecisionRank(Fold(NO_MATCH, order, v)) == DecisionRank(Fold(NO_MATCH, other, v))
  {
    FoldIsBest(NO_MATCH, order, v);
    FoldIsBest(NO_MATCH, other, v);
    assert DecisionRank(NO_MATCH) == Rank(0, 0);
  }

  /** Adding policies never lowers the action rank, whatever the orders. */
  lemma MorePoliciesNeverLower(order: seq<Policy>, more: seq<Policy>, v: Verdicts)
    requires forall p | p in order :: p in more
    ensures AtMost(DecisionRank(Fold(NO_MATCH, order, v)), DecisionRank(Fold(NO_MATCH, more, v)))
  {
    FoldIsBest(NO_MATCH, order, v);
    FoldIsBest(NO_MATCH, more, v);
  }

  // ---------- Actions and severities by name ----------

  predicate SomeSays(order: seq<Policy>, v: Verdicts, a: Action) {
    exists p | p in order :: Matches(p, v) && p.action == a
  }

  /** The result acts as one of the matching policies, or not at all. */
  lemma ActionComesFromAPolicy(order: seq<Policy>, v: Verdicts)
    ensures var r := Fold(NO_MATCH, order, v); r.action == Unset || SomeSays(order, v, r.action)
  {
    FoldIsBest(NO_MATCH, order, v);
  }

  /**
   The strictest matching action wins, for every order: DENY, then a pending administrator or legacy
   approval, then a pending user approval, then WARN, then ALLOW.
   */
  lemma StrictestActionWins(order: seq<Policy>, v: Verdicts)
    ensures var r := Fold(NO_MATCH, order, v);
            if SomeSays(order, v, Deny) then r.action == Deny
            else if SomeSays(order, v, PendingAdminApproval) || SomeSays(order, v, PendingApproval) then
              r.action == PendingAdminApproval || r.action == PendingApproval
            else if SomeSays(order, v, PendingUserApproval) then r.action == PendingUserApproval
            else if SomeSays(order, v, Warn) then r.action == Warn
            else if SomeSays(order, v, Allow) then r.action == Allow
            else r.action == Unset || r.action.OtherAction?
  {
    FoldIsBest(NO_MATCH, order, v);
    ActionComesFromAPolicy(order, v);
  }

  /** Equally strict: the same action, or the administrator's approval and its legacy alias, or both unknown. */
  predicate AsStrict(a: Action, b: Action) {
    || a == b
    || (a in {PendingAdminApproval, PendingApproval} && b in {PendingAdminApproval, PendingApproval})
    || ((a == Unset || a.OtherAction?) && (b == Unset || b.OtherAction?))
  }

  predicate SomeIsSevere(order: seq<Policy>, v: Verdicts, a: Action, s: Severity) {
    exists p | p in order :: Matches(p, v) && AsStrict(p.action, a) && p.severity == s
  }

  /** Among the policies of the winning action the worst severity wins: CRITICAL, HIGH, MEDIUM, LOW. */
  lemma WorstSeverityWins(order: seq<Policy>, v: Verdicts)
    ensures var r := Fold(NO_MATCH, order, v);
            if SomeIsSevere(order, v, r.action, CriticalSeverity) then r.severity == CriticalSeverity
            else if SomeIsSevere(order, v, r.action, HighSeverity) then r.severity == HighSeverity
            else if SomeIsSevere(order, v, r.action, MediumSeverity) then r.severity == MediumSeverity
            else if SomeIsSevere(order, v, r.action, LowSeverity) then r.severity == LowSeverity
            else r.severity == NoSeverity || r.severity.OtherSeverity?
  {
    FoldIsBest(NO_MATCH, order, v);
    SeverityComesFromAPolicy(order, v);
    var r := Fold(NO_MATCH, order, v);
    forall p | p in order && Matches(p, v) && AsStrict(p.action, r.action)
      ensures SeverityRank(p.severity) <= SeverityRank(r.severity)
    {
      assert AtMost(PolicyRank(p), DecisionRank(r));
    }
  }

  lemma SeverityComesFromAPolicy(order: seq<Policy>, v: Verdicts)
    ensures var r := Fold(NO_MATCH, order, v); r.severity == NoSeverity || SomeIsSevere(order, v, r.action, r.severity)
  {
    FoldIsBest(NO_MATCH, order, v);
  }

  /** What the loop notes of one policy: a failure to evaluate, or a match. */
  function Note(p: Policy, verdict: Verdict): seq<Violation> {
    match verdict
    case Error => [EvalError(p.id)]
    case Match => [Hit(p.id, p.description)]
    case NoMatch => []
  }

  function Noted(order: seq<Policy>, v: Verdicts): seq<Violation> {
    if order == [] then [] else Note(order[0], v(order[0].id)) + Noted(order[1..], v)
  }

  function CandidateOf(p: Policy): Decision {
    Decision(p.action, p.severity, p.message, PolicyID(p.id), p.priority, [], NoContext)
  }

  /** Where the last policy stands that replaced the decision. */
  function LastReplacement(d: Decision, order: seq<Policy>, v: Verdicts): Option<nat>
    decreases |order|
  {
    if order == [] then None
    else
      var later := LastReplacement(Consider(d, order[0], v(order[0].id)), order[1..], v);
      if later.Some? then Some(later.value + 1)
      else if Matches(order[0], v) && Supersedes(CandidateOf(order[0]), d) then Some(0)
      else None
  }

  lemma ConsiderNotes(d: Decision, p: Policy, v: Verdicts)
    ensures var e := Consider(d, p, v(p.id));
            if Matches(p, v) && Supersedes(CandidateOf(p), d) then e.violations == Note(p, v(p.id)) && SpeaksFor(e, p)
            else e.violations == d.violations + Note(p, v(p.id)) && SameVoice(e, d)
  {
    if v(p.id) == NoMatch {
      assert d.violations + [] == d.violations;
    }
    if Matches(p, v) && Supersedes(CandidateOf(p), d) {
      assert [] + [Hit(p.id, p.description)] == [Hit(p.id, p.description)];
    }
  }

  lemma Regroup(a: seq<Violation>, b: seq<Violation>, c: seq<Violation>)
    ensures a + b + c == a + (b + c)
  {}

  /** `r` reports what `d` reported and the order noted, or, after a replacement at `last`, what was noted from there on. */
  predicate Reports(r: Decision, d: Decision, order: seq<Policy>, v: Verdicts, last: Option<nat>) {
    match last
    case None => SameVoice(r, d) && r.violations == d.violations + Noted(order, v)
    case Some(k) => k < |order| && Matches(order[k], v) && SpeaksFor(r, order[k]) && r.violations == Noted(order[k..], v)
  }

  lemma ReportsLater(r: Decision, e: Decision, d: Decision, order: seq<Policy>, v: Verdicts, k: nat)
    requires order != [] && Reports(r, e, order[1..], v, Some(k))
    ensures Reports(r, d, order, v, Some(k + 1))
  {
    assert order[k + 1..] == order[1..][k..];
  }

  lemma ReportsFromHere(r: Decision, d: Decision, order: seq<Policy>, v: Verdicts)
    requires order != [] && Reports(r, Consider(d, order[0], v(order[0].id)), order[1..], v, None)
    ensures Reports(r, d, order, v, if Matches(order[0], v) && Supersedes(CandidateOf(order[0]), d) then Some(0) else None)
  {
    ConsiderNotes(d, order[0], v);
    Regroup(d.violations, Note(order[0], v(order[0].id)), Noted(order[1..], v));
    assert order[0..] == order;
  }

  /** The result reports what was noted from its winner on; what was noted before a replacement is lost. */
  lemma {:induction false} ReportsSinceTheWinner(d: Decision, order: seq<Policy>, v: Verdicts)
    ensures Reports(Fold(d, order, v), d, order, v, LastReplacement(d, order, v))
    decreases |order|
  {
    if order == [] {
      assert d.violations + Noted(order, v) == d.violations;
    } else {
      var e, r := Consider(d, order[0], v(order[0].id)), Fold(d, order, v);
      ReportsSinceTheWinner(e, order[1..], v);
      match LastReplacement(e, order[1..], v)
      case Some(k) => ReportsLater(r, e, d, order, v, k);
      case None => ReportsFromHere(r, d, order, v);
    }
  }

  lemma {:induction false} NotedSplits(order: seq<Policy>, v: Verdicts, k: nat)
    requires k <= |order|
    ensures Noted(order, v) == Noted(order[..k], v) + Noted(order[k..], v)
    decreases k
  {
    if k == 0 {
      assert order[0..] == order && Noted(order[..0], v) == [];
    } else {
      NotedSplits(order[1..], v, k - 1);
      assert order[..k][1..] == order[1..][..k - 1] && order[k..] == order[1..][k - 1..];
      Regroup(Note(order[0], v(order[0].id)), Noted(order[1..][..k - 1], v), Noted(order[k..], v));
    }
  }

  /** Exactly when every match and failure is reported: when nothing was noted before the winner. */
  lemma AllReportedIffNothingBeforeTheWinner(order: seq<Policy>, v: Verdicts)
    ensures Fold(NO_MATCH, order, v).violations == Noted(order, v) <==>
            match LastReplacement(NO_MATCH, order, v)
            case None => true
            case Some(k) => k <= |order| && Noted(order[..k], v) == []
  {
    ReportsSinceTheWinner(NO_MATCH, order, v);
    match LastReplacement(NO_MATCH, order, v)
    case None => assert [] + Noted(order, v) == Noted(order, v);
    case Some(k) =>
      NotedSplits(order, v, k);
      assert Noted(order[..k], v) == [] ==> Noted(order, v) == Noted(order[k..], v);
  }

  // ---------- The priority tie-break ----------

  /** A matching policy that no matching policy outranks. */
  predicate Contends(p: Policy, order: seq<Policy>, v: Verdicts) {
    p in order && Matches(p, v) && forall q | q in order && Matches(q, v) :: AtMost(PolicyRank(q), PolicyRank(p))
  }

  /** No matching policy has a known action or severity. */
  predicate Unranked(order: seq<Policy>, v: Verdicts) {
    forall p | p in order && Matches(p, v) :: PolicyRank(p) == Rank(0, 0)
  }

  /** A matching policy of the rank of the result. */
  predicate Wins(p: Policy, order: seq<Policy>, v: Verdicts) {
    p in order && Matches(p, v) && PolicyRank(p) == DecisionRank(Fold(NO_MATCH, order, v))
  }

  /** The result has the rank of the contenders. */
  lemma ContendersWin(order: seq<Policy>, v: Verdicts)
    ensures forall p :: Contends(p, order, v) <==> Wins(p, order, v)
    ensures Unranked(order, v) <==> DecisionRank(Fold(NO_MATCH, order, v)) == Rank(0, 0)
  {
    FoldIsBest(NO_MATCH, order, v);
    assert DecisionRank(NO_MATCH) == Rank(0, 0);
  }

  /** How far the fold has come among the candidates of rank `top`. */
  ghost predicate Settled(d: Decision, seen: seq<Policy>, v: Verdicts, top: Rank) {
    && (DecisionRank(d) == top ==>
          && (exists p | p in seen && Matches(p, v) && PolicyRank(p) == top :: p.priority == d.priority)
          && (d.priority > 0 ==> forall p | p in seen && Matches(p, v) && PolicyRank(p) == top ::
                p.priority <= 0 || d.priority <= p.priority))
    && (DecisionRank(d) != top ==> forall p | p in seen && Matches(p, v) :: PolicyRank(p) != top)
  }

  lemma {:induction false} FoldSettles(d: Decision, seen: seq<Policy>, order: seq<Policy>, v: Verdicts, top: Rank)
    requires AtMost(DecisionRank(d), top) && forall p | p in order && Matches(p, v) :: AtMost(PolicyRank(p), top)
    requires Settled(d, seen, v, top)
    ensures Settled(Fold(d, order, v), seen + order, v, top)
    decreases |order|
  {
    if order == [] {
      assert seen + order == seen;
    } else {
      var p := order[0];
      var e := Consider(d, p, v(p.id));
      assert p in order;
      SettleOne(d, seen, p, v, top);
      FoldSettles(e, seen + [p], order[1..], v, top);
      assert seen + [p] + order[1..] == seen + order;
    }
  }

  lemma SettleOne(d: Decision, seen: seq<Policy>, p: Policy, v: Verdicts, top: Rank)
    requires AtMost(DecisionRank(d), top) && (Matches(p, v) ==> AtMost(PolicyRank(p), top))
    requires Settled(d, seen, v, top)
    ensures Settled(Consider(d, p, v(p.id)), seen + [p], v, top)
  {
    var e := Consider(d, p, v(p.id));
    var now := seen + [p];
    assert p in now && forall q :: q in now <==> q in seen || q == p;
    if DecisionRank(e) == top {
      if SameVoice(e, d) {
        var q :| q in seen && Matches(q, v) && PolicyRank(q) == top && q.priority == d.priority;
        assert q in now;
      }
    }
  }

  /** With positive priorities the whole triple is the lexicographic best, for every order. */
  lemma BestTriple(order: seq<Policy>, v: Verdicts)
    requires forall p | p in order && Matches(p, v) :: ActionRank(p.action) > 0 && p.priority > 0
    requires exists p | p in order :: Matches(p, v)
    ensures var r := Fold(NO_MATCH, order, v);
            && (exists p | Contends(p, order, v) :: SpeaksFor(r, p))
            && (forall p | Contends(p, order, v) :: r.priority <= p.priority)
  {
    ContendersWin(order, v);
    var r := Fold(NO_MATCH, order, v);
    FoldIsBest(NO_MATCH, order, v);
    FoldSettles(NO_MATCH, [], order, v, DecisionRank(r));
    assert [] + order == order;
  }

  /**
   What the policies must be like for the tie-break not to depend on the order: nothing of known rank
   matched, or all contenders have positive priorities, or all have the same one.
   */
  ghost predicate Decisive(order: seq<Policy>, v: Verdicts) {
    || Unranked(order, v)
    || (forall p | Contends(p, order, v) :: p.priority > 0)
    || (forall p, q | Contends(p, order, v) && Contends(q, order, v) :: p.priority == q.priority)
  }

  predicate Permutes(order: seq<Policy>, other: seq<Policy>) {
    multiset(order) == multiset(other)
  }

  lemma PermutationHasSame(order: seq<Policy>, other: seq<Policy>)
    requires Permutes(order, other)
    ensures forall p :: p in order <==> p in other
  {
    assert forall p :: p in order <==> p in multiset(order);
    assert forall p :: p in other <==> p in multiset(other);
  }

  /**
   Exactly when the priority of the result is the same for every visiting order: when the policies
   are decisive.
   */
  lemma PriorityOrderIndependence(order: seq<Policy>, v: Verdicts)
    ensures Decisive(order, v) <==>
            forall other: seq<Policy> | Permutes(order, other) ::
              Fold(NO_MATCH, other, v).priority == Fold(NO_MATCH, order, v).priority
  {
    if Decisive(order, v) {
      forall other: seq<Policy> | Permutes(order, other)
        ensures Fold(NO_MATCH, other, v).priority == Fold(NO_MATCH, order, v).priority
      {
        DecisiveAgrees(order, other, v);
      }
    } else {
      var p :| Contends(p, order, v) && p.priority <= 0;
      var q :| Contends(q, order, v) && q.priority != p.priority;
      ContendersWin(order, v);
      IndecisiveDiffers(order, v, p, q);
    }
  }

  /** The result has the priority of a contender, and no contender has a smaller positive one. */
  lemma ContenderSpeaks(order: seq<Policy>, v: Verdicts) returns (p: Policy)
    requires DecisionRank(Fold(NO_MATCH, order, v)) != Rank(0, 0)
    ensures var r := Fold(NO_MATCH, order, v);
            && Wins(p, order, v) && p.priority == r.priority
            && (r.priority > 0 ==> forall q | Wins(q, order, v) :: q.priority <= 0 || r.priority <= q.priority)
  {
    var r := Fold(NO_MATCH, order, v);
    FoldIsBest(NO_MATCH, order, v);
    FoldSettles(NO_MATCH, [], order, v, DecisionRank(r));
    assert [] + order == order;
    p :| p in order && Matches(p, v) && PolicyRank(p) == DecisionRank(r) && p.priority == r.priority;
  }

  lemma DecisiveAgrees(order: seq<Policy>, other: seq<Policy>, v: Verdicts)
    requires Decisive(order, v) && Permutes(order, other)
    ensures Fold(NO_MATCH, other, v).priority == Fold(NO_MATCH, order, v).priority
  {
    PermutationHasSame(order, other);
    RankIsOrderIndependent(order, other, v);
    ContendersWin(order, v);
    if DecisionRank(Fold(NO_MATCH, order, v)) == Rank(0, 0) {
      NoRankNoVoice(NO_MATCH, order, v);
      NoRankNoVoice(NO_MATCH, other, v);
    } else {
      var p := ContenderSpeaks(order, v);
      var q := ContenderSpeaks(other, v);
      assert Wins(p, other, v) && Wins(q, order, v);
    }
  }

  /** A decision that ranks nothing still has priority zero. */
  lemma {:induction false} NoRankNoVoice(d: Decision, order: seq<Policy>, v: Verdicts)
    requires d.priority == 0
    requires DecisionRank(Fold(d, order, v)) == DecisionRank(d)
    ensures Fold(d, order, v).priority == 0
    decreases |order|
  {
    if order != [] {
      var e := Consider(d, order[0], v(order[0].id));
      FoldIsBest(e, order[1..], v);
      NoRankNoVoice(e, order[1..], v);
    }
  }

  /** Whichever contender comes first keeps its place when its priority is not positive. */
  lemma {:induction false} FirstSticks(d: Decision, order: seq<Policy>, v: Verdicts)
    requires d.priority <= 0 && forall p | p in order && Matches(p, v) :: AtMost(PolicyRank(p), DecisionRank(d))
    ensures SameVoice(Fold(d, order, v), d)
    decreases |order|
  {
    if order != [] {
      assert order[0] in order;
      FirstSticks(Consider(d, order[0], v(order[0].id)), order[1..], v);
    }
  }

  lemma IndecisiveDiffers(order: seq<Policy>, v: Verdicts, p: Policy, q: Policy)
    requires Wins(p, order, v) && Wins(q, order, v) && p.priority <= 0 && p.priority != q.priority
    requires DecisionRank(Fold(NO_MATCH, order, v)) != Rank(0, 0)
    ensures exists other: seq<Policy> :: Permutes(order, other)
              && Fold(NO_MATCH, other, v).priority != Fold(NO_MATCH, order, v).priority
  {
    var withP := StartsWith(p, order, v);
    var withQ := StartsWith(q, order, v);
    assert Fold(NO_MATCH, withP, v).priority != Fold(NO_MATCH, withQ, v).priority;
  }

  /** A contender visited first decides: it stays, unless its priority and a rival's are both positive. */
  lemma StartsWith(p: Policy, order: seq<Policy>, v: Verdicts) returns (other: seq<Policy>)
    requires Wins(p, order, v) && DecisionRank(Fold(NO_MATCH, order, v)) != Rank(0, 0)
    ensures Permutes(order, other)
    ensures var r := Fold(NO_MATCH, other, v);
            if p.priority <= 0 then r.priority == p.priority else r.priority > 0
  {
    FoldIsBest(NO_MATCH, order, v);
    var i :| 0 <= i < |order| && order[i] == p;
    var rest := order[..i] + order[i + 1..];
    other := [p] + rest;
    assert order == order[..i] + [p] + order[i + 1..];
    assert other[1..] == rest;
    assert forall x | x in rest :: x in order;
    var d := Consider(NO_MATCH, p, v(p.id));
    if p.priority <= 0 {
      FirstSticks(d, rest, v);
    } else {
      StaysPositive(d, rest, v);
    }
  }

  lemma {:induction false} StaysPositive(d: Decision, order: seq<Policy>, v: Verdicts)
    requires d.priority > 0 && forall p | p in order && Matches(p, v) :: AtMost(PolicyRank(p), DecisionRank(d))
    ensures Fold(d, order, v).priority > 0
    decreases |order|
  {
    if order != [] {
      assert order[0] in order;
      StaysPositive(Consider(d, order[0], v(order[0].id)), order[1..], v);
    }
  }

  // ---------- The engine ----------

  /** What CEL makes of an expression: whether it compiles, and its verdict in a context. */
  datatype Cel = Cel(compiles: string -> bool, eval: (string, DecisionContext) -> Verdict)

  type Policies = map<string, Policy>

  function VerdictsIn(policies: Policies, cel: Cel, ctx: DecisionContext): Verdicts {
    id => if id in policies then cel.eval(policies[id].expression, ctx) else NoMatch
  }

  /** `order` visits each policy of the map once. */
  predicate Enumerates(order: seq<Policy>, policies: Policies) {
    && (forall p | p in order :: p.id in policies && policies[p.id] == p)
    && (forall id | id in policies :: policies[id] in order)
    && (forall i, j | 0 <= i < j < |order| :: order[i].id != order[j].id)
  }

  /** There is an order to visit any map in. */
  lemma EveryMapHasAnOrder(policies: Policies) returns (order: seq<Policy>)
    requires forall id | id in policies :: policies[id].id == id
    ensures Enumerates(order, policies)
    decreases |policies|
  {
    if policies == map[] {
      order := [];
    } else {
      var id :| id in policies;
      assert (policies - {id}).Keys == policies.Keys - {id};
      order := EveryMapHasAnOrder(policies - {id});
      FirstInOrder(policies, id, order);
      order := [policies[id]] + order;
    }
  }

  lemma FirstInOrder(policies: Policies, id: string, rest: seq<Policy>)
    requires id in policies && policies[id].id == id && Enumerates(rest, policies - {id})
    ensures Enumerates([policies[id]] + rest, policies)
  {
    var order := [policies[id]] + rest;
    assert forall k | 0 < k < |order| :: order[k] == rest[k - 1];
    forall i, j | 0 <= i < j < |order|
      ensures order[i].id != order[j].id
    {
      if i == 0 {
        assert order[j] in rest;
      }
    }
    forall other | other in policies
      ensures policies[other] in order
    {
      if other != id {
        assert other in policies - {id};
      }
    }
  }

  datatype Entry = Entry(priority: int, action: Action, message: string)

  type Index = map<MatchContext, seq<Entry>>

  function Entries(index: Index, ctx: MatchContext): seq<Entry> {
    if ctx in index then index[ctx] else []
  }

  function EntryOf(p: Policy, ctx: MatchContext): Entry
    requires ctx in p.dispositions
  {
    Entry(p.priority, p.dispositions[ctx], p.message)
  }

  predicate Declares(p: Policy, ctx: MatchContext) {
    ctx in p.dispositions
  }

  /** The entries of a context, as a rebuild appends them when it visits the policies in `order`. */
  function EntriesIn(order: seq<Policy>, ctx: MatchContext): seq<Entry> {
    if order == [] then []
    else
      var last := order[|order| - 1];
      EntriesIn(order[..|order| - 1], ctx) + if Declares(last, ctx) then [EntryOf(last, ctx)] else []
  }

  ghost predicate Indexes(index: Index, order: seq<Policy>) {
    forall ctx :: Entries(index, ctx) == EntriesIn(order, ctx)
  }

  /** `after` is `before` with the entries of `p` appended, except for the contexts still to do. */
  ghost predicate Extends(before: Index, after: Index, p: Policy, todo: set<MatchContext>) {
    forall ctx ::
      if Declares(p, ctx) && ctx !in todo
      then Entries(after, ctx) == Entries(before, ctx) + [EntryOf(p, ctx)]
      else Entries(after, ctx) == Entries(before, ctx)
  }

  class CELEngine {
    const cel: Cel
    var programs: map<string, string>
    var policies: Policies
    var dispositions: Index
    /** The policies as of the last rebuild of the disposition index, and the order it visited them in. */
    ghost var indexed: Policies
    ghost var indexOrder: seq<Policy>

    ghost predicate Valid()
      reads this
    {
      && programs.Keys == policies.Keys
      && (forall id | id in policies :: policies[id].id == id && programs[id] == policies[id].expression)
      && Enumerates(indexOrder, indexed) && Indexes(dispositions, indexOrder)
    }

    constructor (cel: Cel)
      ensures Valid() && policies == map[] && indexed == policies && this.cel == cel
    {
      this.cel := cel;
      programs, policies, dispositions, indexed, indexOrder := map[], map[], map[], map[], [];
    }

    /** Adds or replaces an enabled policy that compiles; false reports a failed compile. */
    method AddPolicy(policy: Policy) returns (ok: bool)
      requires Valid()
      modifies this
      ensures Valid()
      ensures ok == (!policy.enabled || cel.compiles(policy.expression))
      ensures if policy.enabled && ok
              then policies == old(policies)[policy.id := policy] && indexed == policies
              else policies == old(policies) && indexed == old(indexed) && indexOrder == old(indexOrder)
    {
      if !policy.enabled {
        return true;
      }
      if !cel.compiles(policy.expression) {
        return false;
      }
      programs := programs[policy.id := policy.expression];
      policies := policies[policy.id := policy];
      LoadDispositions();
      return true;
    }

    /** Rebuilds the index, visiting the policies in some order of the map. */
    method LoadDispositions()
      requires forall id | id in policies :: policies[id].id == id
      modifies this`dispositions, this`indexed, this`indexOrder
      ensures indexed == policies && Enumerates(indexOrder, indexed) && Indexes(dispositions, indexOrder)
    {
      dispositions, indexOrder := map[], [];
      var left := policies.Keys;
      while left != {}
        modifies this`dispositions, this`indexOrder
        invariant left <= policies.Keys
        invariant Visited(indexOrder, policies, left)
        invariant Indexes(dispositions, indexOrder)
      {
        var id :| id in left;
        IndexPolicy(policies[id]);
        VisitOne(indexOrder, policies, left, id);
        indexOrder := indexOrder + [policies[id]];
        left := left - {id};
      }
      indexed := policies;
    }

    /** Appends the entries of one policy, context by context. */
    method IndexPolicy(p: Policy)
      requires Indexes(dispositions, indexOrder)
      modifies this`dispositions
      ensures Indexes(dispositions, indexOrder + [p])
    {
      ghost var before := dispositions;
      var contexts := p.dispositions.Keys;
      while contexts != {}
        modifies this`dispositions
        invariant contexts <= p.dispositions.Keys
        invariant Extends(before, dispositions, p, contexts)
      {
        var ctx :| ctx in contexts;
        dispositions := dispositions[ctx := Entries(dispositions, ctx) + [EntryOf(p, ctx)]];
        contexts := contexts - {ctx};
      }
      assert (indexOrder + [p])[..|indexOrder|] == indexOrder;
    }

    /** Drops a policy; the disposition index keeps answering for it until the next rebuild. */
    method RemovePolicy(policyID: string)
      requires Valid()
      modifies this
      ensures Valid() && policies == old(policies) - {policyID}
      ensures indexed == old(indexed) && indexOrder == old(indexOrder)
    {
      programs := programs - {policyID};
      policies := policies - {policyID};
    }

    /** The decision over all policies, visited in some order of the map. */
    method Evaluate(ctx: DecisionContext) returns (decision: Decision, ghost order: seq<Policy>)
      requires Valid()
      ensures Enumerates(order, policies)
      ensures decision == Fold(NO_MATCH, order, VerdictsIn(policies, cel, ctx))
    {
      ghost var v := VerdictsIn(policies, cel, ctx);
      decision, order := NO_MATCH, [];
      var left := programs.Keys;
      while left != {}
        invariant left <= policies.Keys
        invariant Visited(order, policies, left)
        invariant decision == Fold(NO_MATCH, order, v)
      {
        var id :| id in left;
        var policy := policies[id];
        var verdict := cel.eval(programs[id], ctx);
        FoldAppend(NO_MATCH, order, policy, v);
        VisitOne(order, policies, left, id);
        decision := Consider(decision, policy, verdict);
        order := order + [policy];
        left := left - {id};
      }
    }

    /** The first entry of minimal priority number that the index holds for `ctx`. */
    method LookupDisposition(ctx: MatchContext) returns (found: Option<(Action, string)>)
      requires Valid()
      ensures found == Disposition(indexOrder, ctx)
    {
      if ctx !in dispositions || |dispositions[ctx]| == 0 {
        assert Entries(dispositions, ctx) == [];
        return None;
      }
      assert dispositions[ctx] == Entries(dispositions, ctx);
      var best := Best(dispositions[ctx]);
      return Some((best.action, best.message));
    }

    method Best(entries: seq<Entry>) returns (best: Entry)
      requires entries != []
      ensures best == FirstLeast(entries, |entries|)
    {
      best := entries[0];
      var i := 1;
      while i < |entries|
        invariant 1 <= i <= |entries|
        invariant best == FirstLeast(entries, i)
      {
        if entries[i].priority < best.priority {
          best := entries[i];
        }
        i := i + 1;
      }
    }
  }

  /** `order` has visited each policy of the map once, except for those `left`. */
  ghost predicate Visited(order: seq<Policy>, policies: Policies, left: set<string>) {
    && (forall p | p in order :: p.id in policies.Keys - left && policies[p.id] == p)
    && (forall id | id in policies.Keys - left :: policies[id] in order)
    && (forall i, j | 0 <= i < j < |order| :: order[i].id != order[j].id)
  }

  lemma VisitOne(order: seq<Policy>, policies: Policies, left: set<string>, id: string)
    requires Visited(order, policies, left) && left <= policies.Keys && id in left && policies[id].id == id
    ensures Visited(order + [policies[id]], policies, left - {id})
  {
    var now := order + [policies[id]];
    assert forall p :: p in now <==> p in order || p == policies[id];
    forall i, j | 0 <= i < j < |now|
      ensures now[i].id != now[j].id
    {
      assert now[i] in order;
    }
  }

  // ---------- Dispositions ----------

  /** The earliest of the first `n` entries with the smallest priority number. */
  function FirstLeast(entries: seq<Entry>, n: nat): (best: Entry)
    requires 0 < n <= |entries|
    ensures best in entries
    ensures forall k | 0 <= k < n :: best.priority <= entries[k].priority
    ensures entries[0].priority == best.priority ==> best == entries[0]
  {
    if n == 1 then entries[0]
    else
      var best := FirstLeast(entries, n - 1);
      if entries[n - 1].priority < best.priority then entries[n - 1] else best
  }

  /** The disposition of a context, for an index built in `order`. */
  function Disposition(order: seq<Policy>, ctx: MatchContext): Option<(Action, string)> {
    var entries := EntriesIn(order, ctx);
    if entries == [] then None
    else
      var best := FirstLeast(entries, |entries|);
      Some((best.action, best.message))
  }

  /** A policy that declares the context, none of the declaring policies having a smaller priority number. */
  predicate DeclaresFirst(policies: Policies, id: string, ctx: MatchContext) {
    && id in policies && Declares(policies[id], ctx)
    && forall other | other in policies && Declares(policies[other], ctx) :: policies[id].priority <= policies[other].priority
  }

  predicate NoneDeclares(policies: Policies, ctx: MatchContext) {
    forall id | id in policies :: !Declares(policies[id], ctx)
  }

  /** The entries of a context are those that the visited policies declare. */
  lemma {:induction false} EntriesAreDeclared(order: seq<Policy>, ctx: MatchContext)
    ensures forall e | e in EntriesIn(order, ctx) :: exists p | p in order :: Declares(p, ctx) && e == EntryOf(p, ctx)
    ensures forall p | p in order && Declares(p, ctx) :: EntryOf(p, ctx) in EntriesIn(order, ctx)
  {
    if order != [] {
      var n := |order| - 1;
      EntriesAreDeclared(order[..n], ctx);
      assert order[n] in order && forall p | p in order :: p in order[..n] || p == order[n];
      assert forall p | p in order[..n] :: p in order;
    }
  }

  /** Whatever the order: the disposition is that of a first declarer, and is missing if and only if none declares. */
  lemma DispositionIsLeast(order: seq<Policy>, policies: Policies, ctx: MatchContext)
    requires Enumerates(order, policies)
    ensures Disposition(order, ctx).None? <==> NoneDeclares(policies, ctx)
    ensures Disposition(order, ctx).Some? ==>
              exists id :: DeclaresFirst(policies, id, ctx)
                && Disposition(order, ctx).value == (policies[id].dispositions[ctx], policies[id].message)
  {
    var entries := EntriesIn(order, ctx);
    EntriesAreDeclared(order, ctx);
    if entries != [] {
      var best := FirstLeast(entries, |entries|);
      var p :| p in order && Declares(p, ctx) && best == EntryOf(p, ctx);
      forall other | other in policies && Declares(policies[other], ctx)
        ensures p.priority <= policies[other].priority
      {
        assert policies[other] in order;
        assert EntryOf(policies[other], ctx) in entries;
      }
      assert DeclaresFirst(policies, p.id, ctx);
    }
  }

  /** Every first declarer has its way under some order. */
  lemma AnyFirstDeclarerCanSpeak(policies: Policies, id: string, ctx: MatchContext) returns (order: seq<Policy>)
    requires DeclaresFirst(policies, id, ctx) && forall other | other in policies :: policies[other].id == other
    ensures Enumerates(order, policies)
    ensures Disposition(order, ctx) == Some((policies[id].dispositions[ctx], policies[id].message))
  {
    var rest := EveryMapHasAnOrder(policies - {id});
    FirstInOrder(policies, id, rest);
    var p := policies[id];
    order := [p] + rest;
    FirstEntry(p, rest, ctx);
    EntriesAreDeclared(order, ctx);
    var entries := EntriesIn(order, ctx);
    forall e | e in entries
      ensures p.priority <= e.priority
    {
      var q :| q in order && Declares(q, ctx) && e == EntryOf(q, ctx);
      assert policies[q.id] == q;
    }
    assert FirstLeast(entries, |entries|) in entries;
  }

  lemma {:induction false} FirstEntry(p: Policy, rest: seq<Policy>, ctx: MatchContext)
    requires Declares(p, ctx)
    ensures EntriesIn([p] + rest, ctx) != [] && EntriesIn([p] + rest, ctx)[0] == EntryOf(p, ctx)
  {
    var order := [p] + rest;
    var n := |order| - 1;
    if rest == [] {
      assert order[..n] == [];
    } else {
      assert order[..n] == [p] + rest[..|rest| - 1];
      FirstEntry(p, rest[..|rest| - 1], ctx);
    }
  }

  /** The first declarers of the context agree on its action. */
  ghost predicate FirstDeclarersAgree(policies: Policies, ctx: MatchContext) {
    forall a, b | DeclaresFirst(policies, a, ctx) && DeclaresFirst(policies, b, ctx) ::
      policies[a].dispositions[ctx] == policies[b].dispositions[ctx]
  }

  /** What a caller does with a context: the declared action, or DENY. */
  function DispositionAction(order: seq<Policy>, ctx: MatchContext): Action {
    var found := Disposition(order, ctx);
    if found.Some? then found.value.0 else Deny
  }

  lemma FirstDeclarersDecide(order: seq<Policy>, other: seq<Policy>, policies: Policies, ctx: MatchContext)
    requires Enumerates(order, policies) && Enumerates(other, policies) && FirstDeclarersAgree(policies, ctx)
    ensures DispositionAction(order, ctx) == DispositionAction(other, ctx)
  {
    DispositionIsLeast(order, policies, ctx);
    DispositionIsLeast(other, policies, ctx);
  }

  lemma DisagreementShows(policies: Policies, ctx: MatchContext) returns (order: seq<Policy>, other: seq<Policy>)
    requires forall id | id in policies :: policies[id].id == id
    requires !FirstDeclarersAgree(policies, ctx)
    ensures Enumerates(order, policies) && Enumerates(other, policies)
    ensures DispositionAction(order, ctx) != DispositionAction(other, ctx)
  {
    var a, b :| DeclaresFirst(policies, a, ctx) && DeclaresFirst(policies, b, ctx)
                && policies[a].dispositions[ctx] != policies[b].dispositions[ctx];
    order := AnyFirstDeclarerCanSpeak(policies, a, ctx);
    other := AnyFirstDeclarerCanSpeak(policies, b, ctx);
  }

  /** Every order of the policies gives the context the same action. */
  ghost predicate OneActionForAll(policies: Policies, ctx: MatchContext) {
    forall order, other | Enumerates(order, policies) && Enumerates(other, policies) ::
      DispositionAction(order, ctx) == DispositionAction(other, ctx)
  }

  /** Exactly when the action for a context is the same for every order: when its first declarers agree. */
  lemma DispositionOrderIndependence(policies: Policies, ctx: MatchContext)
    requires forall id | id in policies :: policies[id].id == id
    ensures FirstDeclarersAgree(policies, ctx) <==> OneActionForAll(policies, ctx)
  {
    if FirstDeclarersAgree(policies, ctx) {
      forall order, other | Enumerates(order, policies) && Enumerates(other, policies)
        ensures DispositionAction(order, ctx) == DispositionAction(other, ctx)
      {
        FirstDeclarersDecide(order, other, policies, ctx);
      }
    } else {
      var order, other := DisagreementShows(policies, ctx);
    }
  }

  // ---------- Loading stored policies ----------

  /** The engine takes over a row when it is enabled and compiles. */
  predicate Loadable(cel: Cel, p: Policy) {
    p.enabled && cel.compiles(p.expression)
  }

  /** The policies after a load of all stored rows, in order, on top of those already there. */
  function Loaded(before: Policies, cel: Cel, rows: seq<Policy>): Policies {
    if rows == [] then before
    else
      var last := rows[|rows| - 1];
      var m := Loaded(before, cel, rows[..|rows| - 1]);
      if Loadable(cel, last) then m[last.id := last] else m
  }

  /** Row `i` is the last loadable one of its id. */
  predicate LastLoadable(cel: Cel, rows: seq<Policy>, id: string, i: nat) {
    && i < |rows| && rows[i].id == id && Loadable(cel, rows[i])
    && forall j | i < j < |rows| :: !(rows[j].id == id && Loadable(cel, rows[j]))
  }

  predicate NoneLoadable(cel: Cel, rows: seq<Policy>, id: string) {
    forall p | p in rows :: !(p.id == id && Loadable(cel, p))
  }

  /** The last loadable row of an id wins. */
  lemma {:induction false} LastLoadableWins(before: Policies, cel: Cel, rows: seq<Policy>, id: string, i: nat)
    requires LastLoadable(cel, rows, id, i)
    ensures id in Loaded(before, cel, rows) && Loaded(before, cel, rows)[id] == rows[i]
  {
    var n := |rows| - 1;
    if i < n {
      LastLoadableWins(before, cel, rows[..n], id, i);
    }
  }

  /**
   An id without a loadable row keeps the policy it had: a deleted, disabled or broken row never
   leaves the engine.
   */
  lemma {:induction false} UnloadableStays(before: Policies, cel: Cel, rows: seq<Policy>, id: string)
    requires NoneLoadable(cel, rows, id)
    ensures id in Loaded(before, cel, rows) <==> id in before
    ensures id in before ==> Loaded(before, cel, rows)[id] == before[id]
  {
    if rows != [] {
      var n := |rows| - 1;
      assert rows[n] in rows;
      UnloadableStays(before, cel, rows[..n], id);
    }
  }

  lemma {:induction false} FoldAppend(d: Decision, order: seq<Policy>, p: Policy, v: Verdicts)
    ensures Fold(d, order + [p], v) == Consider(Fold(d, order, v), p, v(p.id))
    decreases |order|
  {
    if order == [] {
      assert (order + [p])[1..] == [];
      assert Fold(Consider(d, p, v(p.id)), [], v) == Consider(d, p, v(p.id));
    } else {
      assert (order + [p])[1..] == order[1..] + [p];
      FoldAppend(Consider(d, order[0], v(order[0].id)), order[1..], p, v);
    }
  }
}
