/**
 Matching responses to requests.  Handlers register a request id and get a channel; the dispatcher
 sends each response to the channel registered under its id; a 30-second timer closes the channel
 that is registered under its id when it runs.  Every step below runs under the pending lock, except
 that a timer may have fired and be waiting for the lock when it is stopped.
 */
module Correlation {
  import opened Common

  /** A message from the backend: its id (None for a notification) and its text. */
  datatype Response = Response(id: Option<string>, text: string)

  /** A fired timer has left the clock and waits for the lock; stopping it then has no effect. */
  datatype Timer = Armed | Fired | Ran | Stopped

  /**
   One registration: the channel made for it, and the timer that carries its id.  Registrations are
   numbered in order; the number stands for both references.
   */
  datatype Registration = Registration(
    id: string,
    open: bool,
    buffer: seq<Response>,
    timer: Timer,
    closedBy: Option<nat>)

  /** `panicked` records a send on, or a close of, a closed channel. */
  datatype State = State(pending: map<string, nat>, regs: seq<Registration>, panicked: bool)

  const EMPTY: State := State(map[], [], false)

  datatype Step =
    | Register(id: string)
    | Dispatch(data: Response)
    | Unregister(id: string)
    | Fire(timer: nat)
    | Callback(timer: nat)
    | Receive(channel: nat)

  predicate WellFormed(s: State) {
    forall id | id in s.pending :: s.pending[id] < |s.regs|
  }

  function Registered(s: State, id: string): State {
    State(s.pending[id := |s.regs|], s.regs + [Registration(id, true, [], Armed, None)], s.panicked)
  }

  function Dispatched(s: State, data: Response): State
    requires WellFormed(s)
  {
    if data.id.None? || data.id.value !in s.pending then s
    else
      var n := s.pending[data.id.value];
      if !s.regs[n].open then s.(panicked := true)
      else if s.regs[n].buffer == [] then s.(regs := s.regs[n := s.regs[n].(buffer := [data])])
      else s
  }

  function Unregistered(s: State, id: string): State
    requires WellFormed(s)
  {
    if id !in s.pending then s
    else
      var n := s.pending[id];
      var r := s.regs[n];
      State(s.pending - {id}, s.regs[n := r.(timer := if r.timer == Armed then Stopped else r.timer)], s.panicked)
  }

  /** The callback closes whatever channel is registered under its id now. */
  function CalledBack(s: State, t: nat): State
    requires WellFormed(s)
  {
    if t >= |s.regs| || s.regs[t].timer != Fired then s
    else
      var ran := s.(regs := s.regs[t := s.regs[t].(timer := Ran)]);
      var id := s.regs[t].id;
      if id !in s.pending then ran
      else
        var n := s.pending[id];
        State(s.pending - {id},
              ran.regs[n := ran.regs[n].(open := false, closedBy := if ran.regs[n].open then Some(t) else ran.regs[n].closedBy)],
              s.panicked || !s.regs[n].open)
  }

  function Next(s: State, step: Step): State
    requires WellFormed(s)
  {
    match step
    case Register(id) => Registered(s, id)
    case Dispatch(data) => Dispatched(s, data)
    case Unregister(id) => Unregistered(s, id)
    case Fire(t) => if t < |s.regs| && s.regs[t].timer == Armed then s.(regs := s.regs[t := s.regs[t].(timer := Fired)]) else s
    case Callback(t) => CalledBack(s, t)
    case Receive(n) => if n < |s.regs| then s.(regs := s.regs[n := s.regs[n].(buffer := [])]) else s
  }

  // ---------- The table ----------

  class PendingTable {
    var pending: map<string, nat>
    var regs: seq<Registration>
    var panicked: bool

    function Value(): State
      reads this
    {
      State(pending, regs, panicked)
    }

    constructor ()
      ensures Value() == EMPTY
    {
      pending, regs, panicked := map[], [], false;
    }

    method RegisterRequest(id: string) returns (channel: nat)
      modifies this
      ensures Value() == Registered(old(Value()), id) && channel == |old(regs)|
    {
      channel := |regs|;
      regs := regs + [Registration(id, true, [], Armed, None)];
      pending := pending[id := channel];
    }

    method UnregisterRequest(id: string)
      requires WellFormed(Value())
      modifies this
      ensures Value() == Unregistered(old(Value()), id)
    {
      if id in pending {
        var n := pending[id];
        if regs[n].timer == Armed {
          regs := regs[n := regs[n].(timer := Stopped)];
        }
        pending := pending - {id};
      }
    }

    /** One turn of responseDispatcher; a full channel drops the message. */
    method DispatchResponse(data: Response)
      requires WellFormed(Value())
      modifies this
      ensures Value() == Dispatched(old(Value()), data)
    {
      if data.id.Some? && data.id.value in pending {
        var n := pending[data.id.value];
        if !regs[n].open {
          panicked := true;
        } else if |regs[n].buffer| == 0 {
          regs := regs[n := regs[n].(buffer := [data])];
        }
      }
    }

    method TimerCallback(t: nat)
      requires WellFormed(Value())
      modifies this
      ensures Value() == CalledBack(old(Value()), t)
    {
      if t >= |regs| || regs[t].timer != Fired {
        return;
      }
      var id := regs[t].id;
      regs := regs[t := regs[t].(timer := Ran)];
      if id in pending {
        var n := pending[id];
        if !regs[n].open {
          panicked := true;
        } else {
          regs := regs[n := regs[n].(open := false, closedBy := Some(t))];
        }
        pending := pending - {id};
      }
    }
  }

  // ---------- Safety over every run ----------

  function Run(s: State, steps: seq<Step>): State
    requires WellFormed(s)
    decreases |steps|
  {
    if steps == [] then s
    else
      var t := Next(s, steps[0]);
      NextWellFormed(s, steps[0]);
      Run(t, steps[1..])
  }

  lemma NextWellFormed(s: State, step: Step)
    requires WellFormed(s)
    ensures WellFormed(Next(s, step))
    ensures |s.regs| <= |Next(s, step).regs|
    ensures forall n | 0 <= n < |s.regs| :: Next(s, step).regs[n].id == s.regs[n].id
  {}

  /** What a channel buffers answers its id, and it is closed exactly when a timer of its id closed it. */
  predicate SoundAt(regs: seq<Registration>, n: nat)
    requires n < |regs|
  {
    var r := regs[n];
    && |r.buffer| <= 1
    && (forall data | data in r.buffer :: data.id == Some(r.id))
    && (r.open <==> r.closedBy.None?)
    && (r.closedBy.Some? ==> r.closedBy.value < |regs| && regs[r.closedBy.value].id == r.id)
  }

  /** A pending channel is open and is registered under its own id; nothing has panicked. */
  ghost predicate Safe(s: State) {
    && WellFormed(s)
    && !s.panicked
    && (forall id | id in s.pending :: s.regs[s.pending[id]].open && s.regs[s.pending[id]].id == id)
    && (forall n | 0 <= n < |s.regs| :: SoundAt(s.regs, n))
  }

  lemma UpdateKeepsSound(regs: seq<Registration>, n: nat, updated: seq<Registration>)
    requires n < |regs| == |updated| && (forall k | 0 <= k < |regs| :: SoundAt(regs, k))
    requires updated == regs[n := updated[n]] && updated[n].id == regs[n].id && SoundAt(updated, n)
    ensures forall k | 0 <= k < |updated| :: SoundAt(updated, k)
  {
    forall k | 0 <= k < |updated|
      ensures SoundAt(updated, k)
    {
      assert SoundAt(regs, k);
    }
  }

  lemma RegisterKeepsSafe(s: State, id: string)
    requires Safe(s)
    ensures Safe(Registered(s, id))
  {
    var t := Registered(s, id);
    forall k | 0 <= k < |t.regs|
      ensures SoundAt(t.regs, k)
    {
      assert k < |s.regs| ==> SoundAt(s.regs, k);
    }
  }

  lemma DispatchKeepsSafe(s: State, data: Response)
    requires Safe(s)
    ensures Safe(Dispatched(s, data))
  {
    if data.id.Some? && data.id.value in s.pending {
      var n := s.pending[data.id.value];
      assert SoundAt(s.regs, n);
      if s.regs[n].buffer == [] {
        UpdateKeepsSound(s.regs, n, Dispatched(s, data).regs);
      }
    }
  }

  lemma UnregisterKeepsSafe(s: State, id: string)
    requires Safe(s)
    ensures Safe(Unregistered(s, id))
  {
    if id in s.pending {
      var n := s.pending[id];
      assert SoundAt(s.regs, n);
      UpdateKeepsSound(s.regs, n, Unregistered(s, id).regs);
    }
  }

  lemma CallbackKeepsSafe(s: State, t: nat)
    requires Safe(s)
    ensures Safe(CalledBack(s, t))
  {
    if t < |s.regs| && s.regs[t].timer == Fired {
      assert SoundAt(s.regs, t);
      var ran := s.regs[t := s.regs[t].(timer := Ran)];
      UpdateKeepsSound(s.regs, t, ran);
      var id := s.regs[t].id;
      if id in s.pending {
        var n := s.pending[id];
        assert SoundAt(s.regs, n);
        UpdateKeepsSound(ran, n, CalledBack(s, t).regs);
      }
    }
  }

  lemma StepKeepsSafe(s: State, step: Step)
    requires Safe(s)
    ensures Safe(Next(s, step))
  {
    match step
    case Register(id) => RegisterKeepsSafe(s, id);
    case Dispatch(data) => DispatchKeepsSafe(s, data);
    case Unregister(id) => UnregisterKeepsSafe(s, id);
    case Fire(t) =>
      if t < |s.regs| {
        assert SoundAt(s.regs, t);
        UpdateKeepsSound(s.regs, t, Next(s, step).regs);
      }
    case Callback(t) => CallbackKeepsSafe(s, t);
    case Receive(n) =>
      if n < |s.regs| {
        assert SoundAt(s.regs, n);
        UpdateKeepsSound(s.regs, n, Next(s, step).regs);
      }
  }

  /** In every interleaving: no send on or second close of a closed channel, and ids always match. */
  lemma {:induction false} RunIsSafe(s: State, steps: seq<Step>)
    requires Safe(s)
    ensures Safe(Run(s, steps))
    decreases |steps|
  {
    if steps != [] {
      StepKeepsSafe(s, steps[0]);
      RunIsSafe(Next(s, steps[0]), steps[1..]);
    }
  }

  /** A pending channel sits in exactly one entry. */
  lemma OneEntryPerChannel(s: State, id: string, other: string)
    requires Safe(s) && id in s.pending && other in s.pending && s.pending[id] == s.pending[other]
    ensures id == other
  {
    assert s.regs[s.pending[id]].id == id;
  }

  // ---------- Whose timer closes a channel ----------

  predicate Live(t: Timer) {
    t == Armed || t == Fired
  }

  /** No timer that carries `id` can still run. */
  predicate Quiet(s: State, id: string) {
    forall t | 0 <= t < |s.regs| && s.regs[t].id == id :: !Live(s.regs[t].timer)
  }

  /** Every registration of the run reuses an id only after its earlier timers are over. */
  predicate QuietReuse(s: State, steps: seq<Step>)
    requires WellFormed(s)
    decreases |steps|
  {
    steps != [] ==>
      && (steps[0].Register? ==> Quiet(s, steps[0].id))
      && (NextWellFormed(s, steps[0]); QuietReuse(Next(s, steps[0]), steps[1..]))
  }

  ghost predicate OnlyOwnTimersClose(s: State) {
    forall n | 0 <= n < |s.regs| && s.regs[n].closedBy.Some? :: s.regs[n].closedBy.value == n
  }

  /** A live timer finds under its id either its own registration or none. */
  ghost predicate TimersFindTheirOwn(s: State)
    requires WellFormed(s)
  {
    forall t | 0 <= t < |s.regs| && Live(s.regs[t].timer) && s.regs[t].id in s.pending :: s.pending[s.regs[t].id] == t
  }

  lemma StepKeepsOwnership(s: State, step: Step)
    requires Safe(s) && OnlyOwnTimersClose(s) && TimersFindTheirOwn(s)
    requires step.Register? ==> Quiet(s, step.id)
    ensures WellFormed(Next(s, step)) && OnlyOwnTimersClose(Next(s, step)) && TimersFindTheirOwn(Next(s, step))
  {
    NextWellFormed(s, step);
  }

  /** If ids are reused only when quiet, only a request's own timer ever closes its channel. */
  lemma {:induction false} OwnTimersOnly(s: State, steps: seq<Step>)
    requires Safe(s) && OnlyOwnTimersClose(s) && TimersFindTheirOwn(s) && QuietReuse(s, steps)
    ensures OnlyOwnTimersClose(Run(s, steps))
    decreases |steps|
  {
    if steps != [] {
      StepKeepsSafe(s, steps[0]);
      StepKeepsOwnership(s, steps[0]);
      OwnTimersOnly(Next(s, steps[0]), steps[1..]);
    }
  }

  /** The ids that a run registers, in order. */
  function RegisteredIds(steps: seq<Step>): seq<string> {
    if steps == [] then [] else (if steps[0].Register? then [steps[0].id] else []) + RegisteredIds(steps[1..])
  }

  predicate NeverReused(s: State, ids: seq<string>) {
    && (forall i, j | 0 <= i < j < |ids| :: ids[i] != ids[j])
    && (forall i, t | 0 <= i < |ids| && 0 <= t < |s.regs| :: s.regs[t].id != ids[i])
  }

  lemma {:induction false} FreshIdsAreQuiet(s: State, steps: seq<Step>)
    requires WellFormed(s) && NeverReused(s, RegisteredIds(steps))
    ensures QuietReuse(s, steps)
    decreases |steps|
  {
    if steps != [] {
      NextWellFormed(s, steps[0]);
      var ids := RegisteredIds(steps);
      var rest := RegisteredIds(steps[1..]);
      var t := Next(s, steps[0]);
      if steps[0].Register? {
        assert ids == [steps[0].id] + rest;
        assert forall i | 0 <= i < |rest| :: rest[i] == ids[i + 1];
        assert ids[0] == steps[0].id;
        assert forall k | 0 <= k < |t.regs| :: t.regs[k].id == if k < |s.regs| then s.regs[k].id else ids[0];
      } else {
        assert ids == rest;
        assert |t.regs| == |s.regs|;
      }
      FreshIdsAreQuiet(t, steps[1..]);
    }
  }

  /** From the empty table: safe, and with ids that are never reused, own timers only. */
  lemma EveryRun(steps: seq<Step>)
    ensures Safe(Run(EMPTY, steps))
    ensures NeverReused(EMPTY, RegisteredIds(steps)) ==> OnlyOwnTimersClose(Run(EMPTY, steps))
  {
    RunIsSafe(EMPTY, steps);
    if NeverReused(EMPTY, RegisteredIds(steps)) {
      FreshIdsAreQuiet(EMPTY, steps);
      OwnTimersOnly(EMPTY, steps);
    }
  }

  /**
   None but its own timer has closed registration `n`, and while it is pending no other live timer
   carries its id.
   */
  ghost predicate Undisturbed(s: State, n: nat) {
    && ClosedByOwn(s, n)
    && (IsPending(s, n) ==>
          forall t | 0 <= t < |s.regs| && t != n && Live(s.regs[t].timer) :: s.regs[t].id != s.regs[n].id)
  }

  predicate IsPending(s: State, n: nat)
    requires n < |s.regs|
  {
    s.regs[n].id in s.pending && s.pending[s.regs[n].id] == n
  }

  lemma StepKeepsUndisturbed(s: State, step: Step, n: nat)
    requires Safe(s) && Undisturbed(s, n)
    ensures Undisturbed(Next(s, step), n)
  {}

  lemma {:induction false} StaysUndisturbed(s: State, steps: seq<Step>, n: nat)
    requires Safe(s) && Undisturbed(s, n)
    ensures Undisturbed(Run(s, steps), n)
    decreases |steps|
  {
    if steps != [] {
      StepKeepsSafe(s, steps[0]);
      StepKeepsUndisturbed(s, steps[0], n);
      StaysUndisturbed(Next(s, steps[0]), steps[1..], n);
    }
  }

  /**
   Exactly when reusing an id is harmless: a new registration can be closed only by its own timer, in
   every continuation whatsoever, if and only if no timer carrying the id is live when it is made.
   */
  lemma ReuseIsHarmlessIffQuiet(s: State, id: string)
    requires Safe(s)
    ensures var r := Registered(s, id);
            && Safe(r)
            && (Quiet(s, id) <==> forall steps: seq<Step> :: ClosedByOwn(Run(r, steps), |s.regs|))
  {
    StepKeepsSafe(s, Register(id));
    var r := Registered(s, id);
    assert r == Next(s, Register(id));
    if Quiet(s, id) {
      forall steps: seq<Step>
        ensures ClosedByOwn(Run(r, steps), |s.regs|)
      {
        StaysUndisturbed(r, steps, |s.regs|);
      }
    } else {
      var t :| 0 <= t < |s.regs| && s.regs[t].id == id && Live(s.regs[t].timer);
      StaleTimerCloses(r, t, |s.regs|);
    }
  }

  /**
   The race of stopping a timer: once unregistered, an id can be reused harmlessly exactly when its
   timer had not fired yet.
   */
  lemma UnregisterQuietsUnlessFired(s: State, id: string)
    requires Safe(s) && TimersFindTheirOwn(s) && id in s.pending
    ensures Quiet(Unregistered(s, id), id) <==> s.regs[s.pending[id]].timer != Fired
  {
    var n, t := s.pending[id], Unregistered(s, id);
    assert t.regs[n].id == id;
    forall k | 0 <= k < |t.regs| && t.regs[k].id == id && k != n
      ensures !Live(t.regs[k].timer)
    {
      assert t.regs[k] == s.regs[k];
    }
  }

  /** The first response to a pending request reaches its own channel and nothing else; later ones are dropped. */
  lemma FirstResponseWins(s: State, id: string, first: Response, second: Response)
    requires Safe(s) && id in s.pending && s.regs[s.pending[id]].buffer == []
    requires first.id == second.id == Some(id)
    ensures var n, t := s.pending[id], Dispatched(s, first);
            && Safe(t)
            && t.regs[n] == s.regs[n].(buffer := [first])
            && (forall k | 0 <= k < |s.regs| && k != n :: t.regs[k] == s.regs[k])
            && Dispatched(t, second) == t
  {
    DispatchKeepsSafe(s, first);
  }

  /** A registration has an open, empty channel of its own under its id, and an armed timer; nothing else changes. */
  lemma RegistrationIsReady(s: State, id: string)
    requires WellFormed(s)
    ensures var t, n := Registered(s, id), |s.regs|;
            && id in t.pending && t.pending[id] == n && |t.regs| == n + 1
            && t.regs[n].id == id && t.regs[n].open && t.regs[n].buffer == [] && t.regs[n].timer == Armed
            && (forall k | 0 <= k < n :: t.regs[k] == s.regs[k])
            && (forall other | other != id :: other in t.pending <==> other in s.pending)
            && (forall other | other != id && other in s.pending :: t.pending[other] == s.pending[other])
  {}

  /** Unregistering forgets the id, stops a timer that has not fired, and leaves the channel open. */
  lemma UnregisterForgets(s: State, id: string)
    requires Safe(s) && id in s.pending
    ensures var t, n := Unregistered(s, id), s.pending[id];
            && t.pending == s.pending - {id}
            && t.regs[n].open && (s.regs[n].timer == Armed ==> t.regs[n].timer == Stopped)
            && (forall k | 0 <= k < |s.regs| && k != n :: t.regs[k] == s.regs[k])
  {}

  /** A notification, and a response to an id that nobody waits for, change nothing. */
  lemma StrayResponsesAreDropped(s: State, data: Response)
    requires WellFormed(s) && (data.id.None? || data.id.value !in s.pending)
    ensures Dispatched(s, data) == s
  {}

  /** A waiter takes what its channel buffers, and nothing else changes. */
  lemma ReceivingDrainsTheChannel(s: State, n: nat)
    requires WellFormed(s) && n < |s.regs|
    ensures Next(s, Receive(n)) == s.(regs := s.regs[n := s.regs[n].(buffer := [])])
    ensures forall id :: id in Next(s, Receive(n)).pending <==> id in s.pending
  {}

  /** An unanswered registration times out: its own timer closes its channel and forgets the id. */
  lemma TimeoutClosesTheChannel(s: State, id: string)
    requires Safe(s)
    ensures var n, t := |s.regs|, Run(Registered(s, id), [Fire(|s.regs|), Callback(|s.regs|)]);
            && id !in t.pending && n < |t.regs| && !t.regs[n].open && t.regs[n].closedBy == Some(n)
  {
    var n, r := |s.regs|, Registered(s, id);
    RegisterKeepsSafe(s, id);
    var u := Next(r, Fire(n));
    var steps := [Fire(n), Callback(n)];
    assert steps[1..] == [Callback(n)] && [Callback(n)][1..] == [];
    StepKeepsSafe(r, Fire(n));
    assert Run(r, steps) == Run(u, [Callback(n)]);
    var w := Next(u, Callback(n));
    NextWellFormed(u, Callback(n));
    assert Run(u, [Callback(n)]) == Run(w, []) == w;
  }

  predicate ClosedByOwn(s: State, n: nat) {
    n < |s.regs| && (s.regs[n].closedBy == None || s.regs[n].closedBy == Some(n))
  }

  /** A stale timer fires, gets the lock, and closes the channel now registered under its id. */
  lemma StaleTimerCloses(s: State, t: nat, n: nat)
    requires Safe(s) && t < |s.regs| && n < |s.regs| && t != n && Live(s.regs[t].timer)
    requires s.regs[t].id in s.pending && s.pending[s.regs[t].id] == n
    ensures !ClosedByOwn(Run(s, [Fire(t), Callback(t)]), n)
  {
    var u := Next(s, Fire(t));
    StepKeepsSafe(s, Fire(t));
    assert [Fire(t), Callback(t)][1..] == [Callback(t)];
    assert [Callback(t)][1..] == [];
    assert Run(s, [Fire(t), Callback(t)]) == Run(u, [Callback(t)]);
    StepKeepsSafe(u, Callback(t));
    var w := Next(u, Callback(t));
    assert Run(u, [Callback(t)]) == Run(w, []) == w;
    assert w.regs[n].closedBy == Some(t);
  }
}
