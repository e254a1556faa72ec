/**
 Human approval: requests wait as table rows; a handler approves a row, reads it back and executes
 what it recorded.  Each SQL statement is one atomic update without a status guard, so handlers and
 the cleanup loop interleave freely between statements.
 */
module Approvals {
  import opened Common

  datatype Status = Pending | Approved | Denied | Executing | Completed | Failed | Expired

  /** What the request asks for and what the policies made of it, fixed when the row is created. */
  datatype Request = Request(
    userID: string,
    userEmail: string,
    userRole: string,
    trustLevel: int,
    toolName: string,
    toolArgs: string,
    backendID: string,
    safetyProfile: string,
    queueType: string,
    justification: string,
    policyID: string,
    violationMsg: string,
    body: string)

  datatype Row = Row(
    request: Request,
    status: Status,
    requestedAt: int,
    expiresAt: int,
    approvedBy: Option<string>,
    approvedAt: Option<int>,
    comments: string,
    denialReason: string,
    responseStatus: int,
    responseBody: string,
    executedAt: Option<int>,
    errorMsg: string)

  type Table = map<string, Row>

  function NewRow(request: Request, requestedAt: int, expiresAt: int): Row {
    Row(request, Pending, requestedAt, expiresAt, None, None, "", "", 0, "", None, "")
  }

  /** The configured timeouts, in seconds; zero means that none is set. */
  datatype Timeouts = Timeouts(user: int, admin: int, approval: int)

  function TimeoutFor(timeouts: Timeouts, queueType: string): int {
    if queueType == "user" then
      if timeouts.user == 0 then 600 else timeouts.user
    else
      if timeouts.admin == 0 then timeouts.approval else timeouts.admin
  }

  // ---------- The statements ----------

  /** An `UPDATE ... WHERE id = ?` has no effect when there is no such row. */
  function ApproveIn(t: Table, id: string, approver: string, now: int, comments: string): Table {
    if id in t then t[id := t[id].(status := Approved, approvedBy := Some(approver), approvedAt := Some(now), comments := comments)] else t
  }

  function DenyIn(t: Table, id: string, approver: string, now: int, reason: string): Table {
    if id in t then t[id := t[id].(status := Denied, approvedBy := Some(approver), approvedAt := Some(now), denialReason := reason)] else t
  }

  function MarkExecutingIn(t: Table, id: string): Table {
    if id in t then t[id := t[id].(status := Executing)] else t
  }

  /** How the executor answered: a response, or an error. */
  datatype Answer = Response(code: int, body: string) | Error(message: string)

  function FinishIn(t: Table, id: string, answer: Answer, now: int): Table {
    if id !in t then t
    else
      match answer
      case Response(code, body) =>
        t[id := t[id].(status := Completed, responseStatus := code, responseBody := body, executedAt := Some(now))]
      case Error(message) => t[id := t[id].(status := Failed, errorMsg := message, executedAt := Some(now))]
  }

  function ExpireIn(t: Table, now: int): Table {
    map id | id in t :: if t[id].status == Pending && t[id].expiresAt < now then t[id].(status := Expired) else t[id]
  }

  predicate Removable(r: Row, cutoff: int) {
    r.status in {Completed, Denied, Expired, Failed} && r.requestedAt < cutoff
  }

  function CleanIn(t: Table, cutoff: int): Table {
    map id | id in t && !Removable(t[id], cutoff) :: t[id]
  }

  class EnforcerStore {
    var rows: Table

    constructor ()
      ensures rows == map[]
    {
      rows := map[];
    }

    /** False when the primary key is taken. */
    method CreateApprovalRequest(id: string, row: Row) returns (ok: bool)
      modifies this
      ensures ok == (id !in old(rows))
      ensures rows == if ok then old(rows)[id := row] else old(rows)
    {
      ok := id !in rows;
      if ok {
        rows := rows[id := row];
      }
    }

    /** Files a pending request; the queue decides how long it stays open. */
    method RequestApproval(id: string, request: Request, timeouts: Timeouts, now: int, later: int) returns (ok: bool)
      modifies this
      ensures ok == (id !in old(rows))
      ensures rows == if ok then old(rows)[id := NewRow(request, now, later + TimeoutFor(timeouts, request.queueType))] else old(rows)
    {
      var timeout;
      if request.queueType == "user" {
        timeout := timeouts.user;
        if timeout == 0 {
          timeout := 600;
        }
      } else {
        timeout := timeouts.admin;
        if timeout == 0 {
          timeout := timeouts.approval;
        }
      }
      ok := CreateApprovalRequest(id, NewRow(request, now, later + timeout));
    }

    method ApproveRequest(id: string, approver: string, now: int, comments: string)
      modifies this
      ensures rows == ApproveIn(old(rows), id, approver, now, comments)
    {
      if id in rows {
        rows := rows[id := rows[id].(status := Approved, approvedBy := Some(approver), approvedAt := Some(now), comments := comments)];
      }
    }

    method DenyRequest(id: string, approver: string, now: int, reason: string)
      modifies this
      ensures rows == DenyIn(old(rows), id, approver, now, reason)
    {
      if id in rows {
        rows := rows[id := rows[id].(status := Denied, approvedBy := Some(approver), approvedAt := Some(now), denialReason := reason)];
      }
    }

    method MarkExecuting(id: string)
      modifies this
      ensures rows == MarkExecutingIn(old(rows), id)
    {
      if id in rows {
        rows := rows[id := rows[id].(status := Executing)];
      }
    }

    method MarkCompleted(id: string, responseStatus: int, responseBody: string, now: int)
      modifies this
      ensures rows == FinishIn(old(rows), id, Response(responseStatus, responseBody), now)
    {
      if id in rows {
        rows := rows[id := rows[id].(status := Completed, responseStatus := responseStatus, responseBody := responseBody, executedAt := Some(now))];
      }
    }

    method MarkFailed(id: string, message: string, now: int)
      modifies this
      ensures rows == FinishIn(old(rows), id, Error(message), now)
    {
      if id in rows {
        rows := rows[id := rows[id].(status := Failed, errorMsg := message, executedAt := Some(now))];
      }
    }

    method CleanupExpiredApprovals(now: int)
      modifies this
      ensures rows == ExpireIn(old(rows), now)
    {
      ghost var before := rows;
      var left := rows.Keys;
      while left != {}
        invariant left <= before.Keys == rows.Keys
        invariant forall id | id in before :: rows[id] == if id in left then before[id] else ExpireIn(before, now)[id]
      {
        var id :| id in left;
        if rows[id].status == Pending && rows[id].expiresAt < now {
          rows := rows[id := rows[id].(status := Expired)];
        }
        left := left - {id};
      }
    }

    method CleanupOldApprovals(now: int, olderThan: int)
      modifies this
      ensures rows == CleanIn(old(rows), now - olderThan)
    {
      ghost var before := rows;
      var left := rows.Keys;
      while left != {}
        invariant left <= before.Keys
        invariant forall id | id in rows :: id in before && rows[id] == before[id]
        invariant forall id | id in before :: id in rows <==> id in left || !Removable(before[id], now - olderThan)
      {
        var id :| id in left;
        if Removable(rows[id], now - olderThan) {
          rows := rows - {id};
        }
        left := left - {id};
      }
    }

    /**
     The handler with nothing in between: approves, executes what the row recorded, and files the answer.
     Without an executor it stops after the approval.
     */
    method ExecuteApprovedRequest(id: string, approver: string, now: int, comments: string,
                                  executor: Option<(string, string, string) -> Answer>, later: int)
      returns (result: Option<Row>)
      modifies this
      ensures result.Some? <==> id in old(rows)
      ensures forall other | other != id :: other in rows <==> other in old(rows)
      ensures forall other | other != id && other in rows :: rows[other] == old(rows)[other]
      ensures id !in old(rows) ==> rows == old(rows)
      ensures id in old(rows) ==>
                var q := old(rows)[id].request;
                && id in rows && result == Some(rows[id]) && rows[id].request == q
                && rows[id].approvedBy == Some(approver) && rows[id].approvedAt == Some(now) && rows[id].comments == comments
                && if executor.None? then rows[id].status == Approved
                   else rows[id].executedAt == Some(later) && Filed(rows[id], executor.value(q.userID, q.backendID, q.body))
    {
      ApproveRequest(id, approver, now, comments);
      if id !in rows {
        return None;
      }
      var request := rows[id].request;
      if executor.None? {
        return Some(rows[id]);
      }
      MarkExecuting(id);
      var answer := executor.value(request.userID, request.backendID, request.body);
      match answer {
        case Response(code, body) => MarkCompleted(id, code, body, later);
        case Error(message) => MarkFailed(id, message, later);
      }
      return Some(rows[id]);
    }
  }

  /** The row holds the executor's answer. */
  predicate Filed(row: Row, answer: Answer) {
    match answer
    case Response(code, body) => row.status == Completed && row.responseStatus == code && row.responseBody == body
    case Error(message) => row.status == Failed && row.errorMsg == message
  }

  // ---------- The statements by name ----------

  /** A new row waits for approval, holds the request and its times, and nothing else yet. */
  lemma NewRowsArePending(request: Request, requestedAt: int, expiresAt: int)
    ensures var r := NewRow(request, requestedAt, expiresAt);
            && r.status == Pending && r.request == request && r.requestedAt == requestedAt && r.expiresAt == expiresAt
            && r.approvedBy.None? && r.approvedAt.None? && r.executedAt.None?
            && r.comments == r.denialReason == r.responseBody == r.errorMsg == "" && r.responseStatus == 0
  {}

  /** An approval or denial of an existing row names who, when and why, and leaves everything else. */
  lemma VerdictsAreFiled(t: Table, id: string, who: string, now: int, text: string)
    requires id in t
    ensures var r := ApproveIn(t, id, who, now, text)[id];
            && r.status == Approved && r.approvedBy == Some(who) && r.approvedAt == Some(now) && r.comments == text
            && r == t[id].(status := r.status, approvedBy := r.approvedBy, approvedAt := r.approvedAt, comments := r.comments)
    ensures var r := DenyIn(t, id, who, now, text)[id];
            && r.status == Denied && r.approvedBy == Some(who) && r.approvedAt == Some(now) && r.denialReason == text
            && r == t[id].(status := r.status, approvedBy := r.approvedBy, approvedAt := r.approvedAt, denialReason := r.denialReason)
  {}

  /** Executing and finishing an existing row leave everything but the outcome. */
  lemma OutcomesAreFiled(t: Table, id: string, now: int, code: int, text: string)
    requires id in t
    ensures MarkExecutingIn(t, id)[id] == t[id].(status := Executing)
    ensures var r := FinishIn(t, id, Response(code, text), now)[id];
            && r.status == Completed && r.responseStatus == code && r.responseBody == text && r.executedAt == Some(now)
            && r.request == t[id].request && r.errorMsg == t[id].errorMsg && r.approvedBy == t[id].approvedBy
    ensures var r := FinishIn(t, id, Error(text), now)[id];
            && r.status == Failed && r.errorMsg == text && r.executedAt == Some(now)
            && r.request == t[id].request && r.responseBody == t[id].responseBody && r.approvedBy == t[id].approvedBy
  {}

  /** Every statement on one id leaves the other rows alone, and does nothing when the id has no row. */
  lemma StatementsAreForOneRow(t: Table, id: string, who: string, now: int, text: string, answer: Answer, other: string)
    ensures var after := [ApproveIn(t, id, who, now, text), DenyIn(t, id, who, now, text), MarkExecutingIn(t, id), FinishIn(t, id, answer, now)];
            forall k | 0 <= k < |after| ::
              && after[k].Keys == t.Keys
              && (id !in t ==> after[k] == t)
              && (other in t && other != id ==> after[k][other] == t[other])
  {}

  /** Exactly the pending rows past their time expire; exactly the finished rows asked for before the cutoff go. */
  lemma CleanupByName(t: Table, id: string, now: int, cutoff: int)
    requires id in t
    ensures id in ExpireIn(t, now)
    ensures ExpireIn(t, now)[id] ==
              if t[id].status == Pending && t[id].expiresAt < now then t[id].(status := Expired) else t[id]
    ensures id !in CleanIn(t, cutoff) <==>
              (t[id].status == Completed || t[id].status == Denied || t[id].status == Expired || t[id].status == Failed)
              && t[id].requestedAt < cutoff
    ensures id in CleanIn(t, cutoff) ==> CleanIn(t, cutoff)[id] == t[id]
  {}

  /** Ten minutes for a user's queue unless set; for any other queue the administrator's timeout, or else the general one. */
  lemma TimeoutsByName(timeouts: Timeouts)
    ensures timeouts.user != 0 ==> TimeoutFor(timeouts, "user") == timeouts.user
    ensures timeouts.user == 0 ==> TimeoutFor(timeouts, "user") == 10 * 60
    ensures timeouts.admin != 0 ==> forall queue | queue != "user" :: TimeoutFor(timeouts, queue) == timeouts.admin
    ensures timeouts.admin == 0 ==> forall queue | queue != "user" :: TimeoutFor(timeouts, queue) == timeouts.approval
  {}

  // ---------- Handlers and cleanup interleaved ----------

  /** How far a handler has come: whether its approval met a row, and from Fetched on the request it read. */
  datatype Phase = Started | ApprovedIt(hit: bool) | Fetched(request: Request) | Marked(request: Request) | Executed(answer: Answer) | Done

  datatype Handler = Handler(id: string, approver: string, phase: Phase)

  datatype Execution = Execution(id: string, userID: string, backendID: string, body: string)

  /**
   `created` records every request ever made, `approved` the id of every approval of a row, `executed` every
   call of the executor, and `seen` every id mentioned so far.
   */
  datatype State = State(
    rows: Table,
    handlers: seq<Handler>,
    created: map<string, Request>,
    approved: seq<string>,
    executed: seq<Execution>,
    seen: set<string>)

  const EMPTY: State := State(map[], [], map[], [], [], {})

  datatype Step =
    | Create(id: string, request: Request, requestedAt: int, expiresAt: int)
    | Begin(id: string, approver: string)
    | Approve(h: nat, now: int, comments: string)
    | Fetch(h: nat)
    | Mark(h: nat)
    | Execute(h: nat, answer: Answer)
    | Finish(h: nat, now: int)
    | Abort(h: nat)
    | ApproveOnly(id: string, approver: string, now: int, comments: string)
    | Deny(id: string, approver: string, now: int, reason: string)
    | Expire(now: int)
    | Clean(cutoff: int)

  /** Ids are fresh UUIDs; a handler takes its steps in order. */
  predicate Enabled(s: State, step: Step) {
    match step
    case Create(id, _, _, _) => id !in s.seen
    case Approve(h, _, _) => h < |s.handlers| && s.handlers[h].phase == Started
    case Fetch(h) => h < |s.handlers| && s.handlers[h].phase.ApprovedIt?
    case Mark(h) => h < |s.handlers| && s.handlers[h].phase.Fetched?
    case Execute(h, _) => h < |s.handlers| && s.handlers[h].phase.Marked?
    case Finish(h, _) => h < |s.handlers| && s.handlers[h].phase.Executed?
    case Abort(h) => h < |s.handlers|
    case _ => true
  }

  function Moved(s: State, h: nat, phase: Phase): seq<Handler>
    requires h < |s.handlers|
  {
    s.handlers[h := s.handlers[h].(phase := phase)]
  }

  /** An update of a missing row approves nothing. */
  function ApprovedWith(s: State, id: string): seq<string> {
    if id in s.rows then s.approved + [id] else s.approved
  }

  function Next(s: State, step: Step): State
    requires Enabled(s, step)
  {
    match step
    case Create(id, request, requestedAt, expiresAt) =>
      s.(rows := s.rows[id := NewRow(request, requestedAt, expiresAt)], created := s.created[id := request], seen := s.seen + {id})
    case Begin(id, approver) => s.(handlers := s.handlers + [Handler(id, approver, Started)], seen := s.seen + {id})
    case Approve(h, now, comments) =>
      var w := s.handlers[h];
      s.(rows := ApproveIn(s.rows, w.id, w.approver, now, comments),
         handlers := Moved(s, h, ApprovedIt(w.id in s.rows)),
         approved := ApprovedWith(s, w.id))
    case Fetch(h) =>
      var id := s.handlers[h].id;
      s.(handlers := Moved(s, h, if id in s.rows then Fetched(s.rows[id].request) else Done))
    case Mark(h) =>
      s.(rows := MarkExecutingIn(s.rows, s.handlers[h].id), handlers := Moved(s, h, Marked(s.handlers[h].phase.request)))
    case Execute(h, answer) =>
      var q := s.handlers[h].phase.request;
      s.(handlers := Moved(s, h, Executed(answer)),
         executed := s.executed + [Execution(s.handlers[h].id, q.userID, q.backendID, q.body)])
    case Finish(h, now) =>
      s.(rows := FinishIn(s.rows, s.handlers[h].id, s.handlers[h].phase.answer, now), handlers := Moved(s, h, Done))
    case Abort(h) => s.(handlers := Moved(s, h, Done))
    case ApproveOnly(id, approver, now, comments) =>
      s.(rows := ApproveIn(s.rows, id, approver, now, comments), approved := ApprovedWith(s, id), seen := s.seen + {id})
    case Deny(id, approver, now, reason) => s.(rows := DenyIn(s.rows, id, approver, now, reason), seen := s.seen + {id})
    case Expire(now) => s.(rows := ExpireIn(s.rows, now))
    case Clean(cutoff) => s.(rows := CleanIn(s.rows, cutoff))
  }

  predicate Possible(s: State, steps: seq<Step>)
    decreases |steps|
  {
    steps != [] ==> Enabled(s, steps[0]) && Possible(Next(s, steps[0]), steps[1..])
  }

  function Run(s: State, steps: seq<Step>): State
    requires Possible(s, steps)
    decreases |steps|
  {
    if steps == [] then s else Run(Next(s, steps[0]), steps[1..])
  }

  // ---------- What is executed is what was recorded ----------

  predicate Matches(created: map<string, Request>, id: string, q: Request) {
    id in created && created[id] == q
  }

  predicate CarriesRecorded(s: State, w: Handler) {
    (w.phase.Fetched? || w.phase.Marked?) ==> Matches(s.created, w.id, w.phase.request)
  }

  ghost predicate Recorded(s: State) {
    && (forall id | id in s.rows :: Matches(s.created, id, s.rows[id].request))
    && (forall id | id in s.created :: id in s.seen)
    && (forall w | w in s.handlers :: CarriesRecorded(s, w))
    && (forall e | e in s.executed ::
          e.id in s.created && e == Execution(e.id, s.created[e.id].userID, s.created[e.id].backendID, s.created[e.id].body))
  }

  lemma StepKeepsRecorded(s: State, step: Step)
    requires Recorded(s) && Enabled(s, step)
    ensures Recorded(Next(s, step))
  {
    var t := Next(s, step);
    forall w | w in t.handlers
      ensures CarriesRecorded(t, w)
    {
      if w in s.handlers {
        assert CarriesRecorded(s, w);
      } else if step.Mark? {
        assert CarriesRecorded(s, s.handlers[step.h]);
      }
    }
    if step.Execute? {
      assert CarriesRecorded(s, s.handlers[step.h]);
    }
  }

  // ---------- Executing takes an approver ----------

  predicate AfterApproval(p: Phase) {
    !p.Started? && !p.Done?
  }

  predicate HasApprover(rows: Table, id: string) {
    id in rows ==> rows[id].approvedBy.Some?
  }

  ghost predicate Vouched(s: State) {
    && (forall id | id in s.rows && s.rows[id].status in {Executing, Completed, Failed} :: s.rows[id].approvedBy.Some?)
    && (forall w | w in s.handlers && AfterApproval(w.phase) :: HasApprover(s.rows, w.id))
    && (forall w | w in s.handlers :: w.id in s.seen)
  }

  /** A handler whose approval met no row never finds one. */
  ghost predicate MissesStay(s: State) {
    forall w | w in s.handlers :: w.id in s.seen && (w.phase == ApprovedIt(false) ==> w.id !in s.rows)
  }

  lemma StepKeepsMisses(s: State, step: Step)
    requires MissesStay(s) && Enabled(s, step)
    ensures MissesStay(Next(s, step))
  {}

  lemma StepKeepsVouched(s: State, step: Step)
    requires Vouched(s) && Enabled(s, step)
    ensures Vouched(Next(s, step))
  {
    RowsStayVouched(s, step);
    var t := Next(s, step);
    forall w | w in t.handlers && AfterApproval(w.phase)
      ensures HasApprover(t.rows, w.id)
    {
      if w in s.handlers {
        assert HasApprover(s.rows, w.id);
      }
    }
  }

  lemma RowsStayVouched(s: State, step: Step)
    requires Vouched(s) && Enabled(s, step)
    ensures var rows := Next(s, step).rows;
            forall id | id in rows && rows[id].status in {Executing, Completed, Failed} :: rows[id].approvedBy.Some?
  {
    if step.Mark? || step.Finish? {
      assert s.handlers[step.h] in s.handlers;
    }
  }

  // ---------- Executions never outnumber approvals ----------

  function ApprovalsOf(approved: seq<string>, id: string): nat {
    multiset(approved)[id]
  }

  function ExecutionsOf(executed: seq<Execution>, id: string): nat {
    if executed == [] then 0
    else ExecutionsOf(executed[..|executed| - 1], id) + if executed[|executed| - 1].id == id then 1 else 0
  }

  /** Handlers of `id` that have approved it and may still execute it. */
  function Armed(handlers: seq<Handler>, id: string): nat {
    if handlers == [] then 0 else Armed(handlers[..|handlers| - 1], id) + Weight(handlers[|handlers| - 1], id)
  }

  function Weight(w: Handler, id: string): nat {
    if w.id == id && (w.phase == ApprovedIt(true) || w.phase.Fetched? || w.phase.Marked?) then 1 else 0
  }

  lemma {:induction false} ArmedUpdate(handlers: seq<Handler>, h: nat, w: Handler, id: string)
    requires h < |handlers|
    ensures Armed(handlers[h := w], id) == Armed(handlers, id) - Weight(handlers[h], id) + Weight(w, id)
  {
    var last := |handlers| - 1;
    var updated := handlers[h := w];
    if h < last {
      ArmedUpdate(handlers[..last], h, w, id);
      assert updated[..last] == handlers[..last][h := w];
    } else {
      assert updated[..last] == handlers[..last];
    }
  }

  /** A move of one handler changes the count of the armed by its own weight. */
  lemma MoveArms(s: State, h: nat, phase: Phase, id: string)
    requires h < |s.handlers|
    ensures Armed(Moved(s, h, phase), id) - Armed(s.handlers, id)
         == Weight(s.handlers[h].(phase := phase), id) - Weight(s.handlers[h], id)
  {
    ArmedUpdate(s.handlers, h, s.handlers[h].(phase := phase), id);
  }

  /** Executions done or ready, less approvals. */
  function Excess(s: State, id: string): int {
    ExecutionsOf(s.executed, id) + Armed(s.handlers, id) - ApprovalsOf(s.approved, id)
  }

  lemma ApproveBalances(s: State, h: nat, now: int, comments: string, id: string)
    requires Enabled(s, Approve(h, now, comments))
    ensures Excess(Next(s, Approve(h, now, comments)), id) <= Excess(s, id)
  {
    MoveArms(s, h, ApprovedIt(s.handlers[h].id in s.rows), id);
  }

  lemma FetchBalances(s: State, h: nat, id: string)
    requires MissesStay(s) && Enabled(s, Fetch(h))
    ensures Excess(Next(s, Fetch(h)), id) <= Excess(s, id)
  {
    var w := s.handlers[h];
    assert w in s.handlers;
    MoveArms(s, h, if w.id in s.rows then Fetched(s.rows[w.id].request) else Done, id);
  }

  lemma ExecuteBalances(s: State, h: nat, answer: Answer, id: string)
    requires Enabled(s, Execute(h, answer))
    ensures Excess(Next(s, Execute(h, answer)), id) <= Excess(s, id)
  {
    MoveArms(s, h, Executed(answer), id);
    assert Next(s, Execute(h, answer)).executed[..|s.executed|] == s.executed;
  }

  lemma OtherMovesBalance(s: State, step: Step, id: string)
    requires Enabled(s, step) && (step.Mark? || step.Finish? || step.Abort?)
    ensures Excess(Next(s, step), id) <= Excess(s, id)
  {
    MoveArms(s, step.h, Next(s, step).handlers[step.h].phase, id);
  }

  lemma BeginBalances(s: State, started: string, approver: string, id: string)
    ensures Excess(Next(s, Begin(started, approver)), id) == Excess(s, id)
  {
    assert Next(s, Begin(started, approver)).handlers[..|s.handlers|] == s.handlers;
  }

  predicate MovesHandler(step: Step) {
    step.Approve? || step.Fetch? || step.Mark? || step.Execute? || step.Finish? || step.Abort?
  }

  lemma RowStepBalances(s: State, step: Step, id: string)
    requires Enabled(s, step) && !MovesHandler(step) && !step.Begin?
    ensures Excess(Next(s, step), id) <= Excess(s, id)
  {}

  /** No step makes more executions, done or ready, than approvals. */
  lemma StepBalances(s: State, step: Step, id: string)
    requires MissesStay(s) && Enabled(s, step)
    ensures Excess(Next(s, step), id) <= Excess(s, id)
  {
    if step.Begin? {
      BeginBalances(s, step.id, step.approver, id);
    } else if !MovesHandler(step) {
      RowStepBalances(s, step, id);
    } else if step.Approve? {
      ApproveBalances(s, step.h, step.now, step.comments, id);
    } else if step.Fetch? {
      FetchBalances(s, step.h, id);
    } else if step.Execute? {
      ExecuteBalances(s, step.h, step.answer, id);
    } else {
      OtherMovesBalance(s, step, id);
    }
  }

  ghost predicate Covered(s: State) {
    forall id: string :: Excess(s, id) <= 0
  }

  lemma StepKeepsCovered(s: State, step: Step)
    requires Covered(s) && MissesStay(s) && Enabled(s, step)
    ensures Covered(Next(s, step))
  {
    var t := Next(s, step);
    forall id: string
      ensures Excess(t, id) <= 0
    {
      assert Excess(s, id) <= 0;
      StepBalances(s, step, id);
    }
  }

  // ---------- Every run ----------

  ghost predicate Sound(s: State) {
    Recorded(s) && Vouched(s) && MissesStay(s) && Covered(s)
  }

  lemma {:induction false} RunKeepsSound(s: State, steps: seq<Step>)
    requires Sound(s) && Possible(s, steps)
    ensures Sound(Run(s, steps))
    decreases |steps|
  {
    if steps != [] {
      StepKeepsRecorded(s, steps[0]);
      StepKeepsVouched(s, steps[0]);
      StepKeepsMisses(s, steps[0]);
      StepKeepsCovered(s, steps[0]);
      RunKeepsSound(Next(s, steps[0]), steps[1..]);
    }
  }

  /**
   Any interleaving: every execution carries the user, backend and body recorded at creation, is
   covered by an approval of its own, and every executing or finished row names an approver.
   */
  lemma EveryRunIsSound(steps: seq<Step>)
    requires Possible(EMPTY, steps)
    ensures var s := Run(EMPTY, steps);
            && (forall e | e in s.executed ::
                  e.id in s.created && e == Execution(e.id, s.created[e.id].userID, s.created[e.id].backendID, s.created[e.id].body))
            && (forall id :: ExecutionsOf(s.executed, id) <= ApprovalsOf(s.approved, id))
            && (forall id | id in s.rows && s.rows[id].status in {Executing, Completed, Failed} :: s.rows[id].approvedBy.Some?)
  {
    assert Sound(EMPTY);
    RunKeepsSound(EMPTY, steps);
    var s := Run(EMPTY, steps);
    forall id
      ensures ExecutionsOf(s.executed, id) <= ApprovalsOf(s.approved, id)
    {
      assert Excess(s, id) <= 0;
    }
  }

  /** A step expires only overdue pending rows, deletes only finished ones, and never rewrites a request. */
  lemma RowsChangeLawfully(s: State, step: Step, id: string)
    requires Recorded(s) && Enabled(s, step) && id in s.rows
    ensures var t := Next(s, step);
            && (id !in t.rows ==> step.Clean? && Removable(s.rows[id], step.cutoff))
            && (id in t.rows ==> t.rows[id].request == s.rows[id].request && t.rows[id].expiresAt == s.rows[id].expiresAt)
            && (id in t.rows && t.rows[id].status == Expired && s.rows[id].status != Expired ==>
                  step.Expire? && s.rows[id].status == Pending && s.rows[id].expiresAt < step.now)
  {}

  /** The handler that a step moves works on this row. */
  predicate Concerns(s: State, step: Step, id: string)
    requires Enabled(s, step)
  {
    match step
    case Approve(h, _, _) => s.handlers[h].id == id
    case Mark(h) => s.handlers[h].id == id
    case Finish(h, _) => s.handlers[h].id == id
    case ApproveOnly(other, _, _, _) => other == id
    case Deny(other, _, _, _) => other == id
    case _ => false
  }

  /**
   What each step makes of a row: an approval of it makes it APPROVED and nothing else does, a denial of
   it DENIED and nothing else does, and likewise for executing, completing, failing and expiring; no
   other step changes its status.
   */
  lemma StatusChangesByName(s: State, step: Step, id: string)
    requires Enabled(s, step) && id in s.rows && id in Next(s, step).rows
    requires step.Create? ==> step.id != id
    ensures var before, after := s.rows[id].status, Next(s, step).rows[id].status;
            if (step.Approve? || step.ApproveOnly?) && Concerns(s, step, id) then after == Approved
            else if step.Deny? && Concerns(s, step, id) then after == Denied
            else if step.Mark? && Concerns(s, step, id) then after == Executing
            else if step.Finish? && Concerns(s, step, id) then
              after == (if s.handlers[step.h].phase.answer.Response? then Completed else Failed)
            else if step.Expire? && before == Pending && s.rows[id].expiresAt < step.now then after == Expired
            else after == before
  {}

  /**
   Statuses are not final: whatever the status of a row, a second approval executes it again.
   */
  lemma AnyRowCanExecuteAgain(s: State, id: string, approver: string, now: int, answer: Answer)
    requires id in s.rows
    ensures var steps := OneMoreHandler(|s.handlers|, id, approver, now, answer);
            && Possible(s, steps)
            && ExecutionsOf(Run(s, steps).executed, id) == ExecutionsOf(s.executed, id) + 1
            && id in Run(s, steps).rows && Run(s, steps).rows[id].status == Executing
  {
    var h := |s.handlers|;
    var steps := OneMoreHandler(h, id, approver, now, answer);
    var s1 := Next(s, steps[0]);
    assert s1.handlers[h].phase == Started;
    var s2 := Next(s1, steps[1]);
    var s3 := Next(s2, steps[2]);
    assert s3.handlers[h].phase.Fetched?;
    var s4 := Next(s3, steps[3]);
    var s5 := Next(s4, steps[4]);
    assert s5.executed[..|s.executed|] == s.executed;
    RunOne(s4, steps[4..]);
    RunOne(s3, steps[3..]);
    RunOne(s2, steps[2..]);
    RunOne(s1, steps[1..]);
    RunOne(s, steps);
    assert steps[4..][1..] == [];
    assert Run(s5, []) == s5;
  }

  /** One handler, from its start to the executor's answer. */
  function OneMoreHandler(h: nat, id: string, approver: string, now: int, answer: Answer): seq<Step> {
    [Begin(id, approver), Approve(h, now, ""), Fetch(h), Mark(h), Execute(h, answer)]
  }

  lemma RunOne(s: State, steps: seq<Step>)
    requires steps != [] && Enabled(s, steps[0])
    ensures Possible(s, steps) <==> Possible(Next(s, steps[0]), steps[1..])
    ensures Possible(s, steps) ==> Run(s, steps) == Run(Next(s, steps[0]), steps[1..])
  {}
}
