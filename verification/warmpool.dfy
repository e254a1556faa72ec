/**
 The warm queue of a pool: who owns each process.  Steps are the atomic parts of the acquire,
 release and spawn methods, in any interleaving; a process between two parts of one method is in
 transit.  `discarded` holds the processes that those methods killed.
 */
module WarmPool {
  import opened Common

  type Proc = nat

  datatype State = State(
    capacity: nat,
    warm: seq<Proc>,
    held: multiset<Proc>,
    discarded: multiset<Proc>,
    entering: multiset<Proc>,   // counted, waiting for room in the queue
    releasing: multiset<Proc>,  // counted, about to be offered to the queue
    leaving: multiset<Proc>,    // taken from the queue, not yet judged alive or dead
    peeked: multiset<Proc>,     // taken by IsReady, to be put back
    spawned: set<Proc>,
    currentSize: int)

  datatype Step =
    | CountSpawned(p: Proc)
    | CountSet(p: Proc)
    | Push(p: Proc)
    | Take
    | Judge(p: Proc, alive: bool)
    | CountReleased(p: Proc)
    | Offer(p: Proc)
    | Peek
    | PutBack(p: Proc)

  predicate Enabled(s: State, step: Step) {
    match step
    case CountSpawned(p) => p !in s.spawned
    case CountSet(p) => p in s.held
    case Push(p) => p in s.entering && |s.warm| < s.capacity
    case Take => s.warm != []
    case Judge(p, _) => p in s.leaving
    case CountReleased(p) => p in s.held
    case Offer(p) => p in s.releasing
    case Peek => s.warm != []
    case PutBack(p) => p in s.peeked && |s.warm| < s.capacity
  }

  function Next(s: State, step: Step): State
    requires Enabled(s, step)
  {
    match step
    case CountSpawned(p) =>
      s.(spawned := s.spawned + {p}, entering := s.entering + multiset{p}, currentSize := s.currentSize + 1)
    case CountSet(p) =>
      s.(held := s.held - multiset{p}, entering := s.entering + multiset{p}, currentSize := s.currentSize + 1)
    case Push(p) => s.(entering := s.entering - multiset{p}, warm := s.warm + [p])
    case Take => s.(warm := s.warm[1..], leaving := s.leaving + multiset{s.warm[0]})
    case Judge(p, alive) =>
      if alive then s.(leaving := s.leaving - multiset{p}, held := s.held + multiset{p}, currentSize := s.currentSize - 1)
      else s.(leaving := s.leaving - multiset{p}, discarded := s.discarded + multiset{p})
    case CountReleased(p) =>
      s.(held := s.held - multiset{p}, releasing := s.releasing + multiset{p}, currentSize := s.currentSize + 1)
    case Offer(p) =>
      if |s.warm| < s.capacity then s.(releasing := s.releasing - multiset{p}, warm := s.warm + [p])
      else s.(releasing := s.releasing - multiset{p}, discarded := s.discarded + multiset{p})
    case Peek => s.(warm := s.warm[1..], peeked := s.peeked + multiset{s.warm[0]})
    case PutBack(p) => s.(peeked := s.peeked - multiset{p}, warm := s.warm + [p])
  }

  function Places(s: State): multiset<Proc> {
    multiset(s.warm) + s.held + s.discarded + s.entering + s.releasing + s.leaving + s.peeked
  }

  /** Every spawned process is in exactly one place, the queue fits, and the size counts what it should. */
  predicate Conserved(s: State) {
    && Places(s) == multiset(s.spawned)
    && |s.warm| <= s.capacity
    && s.currentSize == |s.warm| + |s.discarded| + |s.entering| + |s.releasing| + |s.leaving| + |s.peeked|
  }

  lemma EnterConserves(s: State, p: Proc)
    requires Conserved(s) && p !in s.spawned
    ensures Conserved(Next(s, CountSpawned(p)))
  {
    assert multiset(s.spawned + {p}) == multiset(s.spawned) + multiset{p};
    assert Places(Next(s, CountSpawned(p))) == Places(s) + multiset{p};
  }

  lemma SetConserves(s: State, p: Proc)
    requires Conserved(s) && p in s.held
    ensures Conserved(Next(s, CountSet(p)))
  {
    assert Places(Next(s, CountSet(p))) == Places(s);
  }

  lemma ReleaseConserves(s: State, p: Proc)
    requires Conserved(s) && p in s.held
    ensures Conserved(Next(s, CountReleased(p)))
  {
    assert Places(Next(s, CountReleased(p))) == Places(s);
  }

  lemma PushConserves(s: State, p: Proc)
    requires Conserved(s) && Enabled(s, Push(p))
    ensures Conserved(Next(s, Push(p)))
  {
    assert multiset(s.warm + [p]) == multiset(s.warm) + multiset{p};
    assert Places(Next(s, Push(p))) == Places(s);
  }

  lemma TakeConserves(s: State)
    requires Conserved(s) && s.warm != []
    ensures Conserved(Next(s, Take)) && Conserved(Next(s, Peek))
  {
    assert s.warm == [s.warm[0]] + s.warm[1..];
    assert multiset(s.warm) == multiset{s.warm[0]} + multiset(s.warm[1..]);
    assert Places(Next(s, Take)) == Places(s);
    assert Places(Next(s, Peek)) == Places(s);
  }

  lemma JudgeConserves(s: State, p: Proc, alive: bool)
    requires Conserved(s) && p in s.leaving
    ensures Conserved(Next(s, Judge(p, alive)))
  {
    assert Places(Next(s, Judge(p, alive))) == Places(s);
  }

  lemma OfferConserves(s: State, p: Proc)
    requires Conserved(s) && p in s.releasing
    ensures Conserved(Next(s, Offer(p)))
  {
    assert multiset(s.warm + [p]) == multiset(s.warm) + multiset{p};
    assert Places(Next(s, Offer(p))) == Places(s);
  }

  lemma PutBackConserves(s: State, p: Proc)
    requires Conserved(s) && Enabled(s, PutBack(p))
    ensures Conserved(Next(s, PutBack(p)))
  {
    assert multiset(s.warm + [p]) == multiset(s.warm) + multiset{p};
    assert Places(Next(s, PutBack(p))) == Places(s);
  }

  lemma StepConserves(s: State, step: Step)
    requires Conserved(s) && Enabled(s, step)
    ensures Conserved(Next(s, step))
  {
    match step
    case CountSpawned(p) => EnterConserves(s, p);
    case CountSet(p) => SetConserves(s, p);
    case Push(p) => PushConserves(s, p);
    case Take => TakeConserves(s);
    case Judge(p, alive) => JudgeConserves(s, p, alive);
    case CountReleased(p) => ReleaseConserves(s, p);
    case Offer(p) => OfferConserves(s, p);
    case Peek => TakeConserves(s);
    case PutBack(p) => PutBackConserves(s, p);
  }

  predicate Possible(s: State, steps: seq<Step>)
    decreases |steps|
  {
    steps != [] ==> Enabled(s, steps[0]) && Possible(Next(s, steps[0]), steps[1..])
  }

  function Run(s: State, steps: seq<Step>): State
    requires Possible(s, steps)
    decreases |steps|
  {
    if steps == [] then s else Run(Next(s, steps[0]), steps[1..])
  }

  lemma {:induction false} RunConserves(s: State, steps: seq<Step>)
    requires Conserved(s) && Possible(s, steps)
    ensures Conserved(Run(s, steps))
    decreases |steps|
  {
    if steps != [] {
      StepConserves(s, steps[0]);
      RunConserves(Next(s, steps[0]), steps[1..]);
    }
  }

  /** No method of the pool is under way. */
  predicate Quiescent(s: State) {
    s.entering == s.releasing == s.leaving == s.peeked == multiset{}
  }

  predicate InExactlyOne(a: bool, b: bool, c: bool) {
    (a && !b && !c) || (!a && b && !c) || (!a && !b && c)
  }

  /** Between methods: each process is warm, held or discarded, once; the size is warm plus discarded. */
  lemma OwnershipIsExclusive(s: State, p: Proc)
    requires Conserved(s) && Quiescent(s)
    ensures p in s.spawned ==> InExactlyOne(p in s.warm, p in s.held, p in s.discarded)
    ensures s.held[p] <= 1 && multiset(s.warm)[p] <= 1
    ensures s.currentSize == |s.warm| + |s.discarded|
  {
    assert Places(s)[p] == multiset(s.spawned)[p];
    assert p in s.warm <==> p in multiset(s.warm);
  }

  /** From an empty pool, every run keeps every process in exactly one place. */
  lemma EveryRunConserves(capacity: nat, steps: seq<Step>)
    requires var empty := Empty(capacity); Possible(empty, steps)
    ensures Conserved(Run(Empty(capacity), steps))
  {
    RunConserves(Empty(capacity), steps);
  }

  function Empty(capacity: nat): State {
    State(capacity, [], multiset{}, multiset{}, multiset{}, multiset{}, multiset{}, multiset{}, {}, 0)
  }

  // ---------- The methods, one at a time ----------

  /** A whole TryAcquireWarm on a non-empty queue. */
  function Acquired(s: State, alive: bool): State
    requires s.warm != []
  {
    var t := s.(warm := s.warm[1..]);
    if alive then t.(held := t.held + multiset{s.warm[0]}, currentSize := t.currentSize - 1)
    else t.(discarded := t.discarded + multiset{s.warm[0]})
  }

  function FirstAlive(queue: seq<Proc>, alive: Proc -> bool): (p: Option<Proc>)
    ensures p.None? <==> forall q | q in queue :: !alive(q)
    ensures p.Some? ==> p.value in queue && alive(p.value)
  {
    if queue == [] then None else if alive(queue[0]) then Some(queue[0]) else FirstAlive(queue[1..], alive)
  }

  /** How many dead processes stand before the first live one. */
  function DeadPrefix(queue: seq<Proc>, alive: Proc -> bool): (i: nat)
    ensures i <= |queue|
    ensures forall k | 0 <= k < i :: !alive(queue[k])
    ensures i < |queue| ==> alive(queue[i]) && FirstAlive(queue, alive) == Some(queue[i])
    ensures i == |queue| ==> FirstAlive(queue, alive).None?
  {
    if queue == [] || alive(queue[0]) then 0 else 1 + DeadPrefix(queue[1..], alive)
  }

  lemma PrefixWithHead(queue: seq<Proc>, i: nat)
    requires 0 < i <= |queue|
    ensures multiset(queue[..i]) == multiset{queue[0]} + multiset(queue[1..][..i - 1])
  {
    assert queue[..i] == [queue[0]] + queue[1..][..i - 1];
  }

  /** The first `i` processes of the queue found dead. */
  function Dropped(s: State, i: nat): State
    requires i <= |s.warm|
  {
    s.(warm := s.warm[i..], discarded := s.discarded + multiset(s.warm[..i]))
  }

  lemma DropOneMore(s: State, i: nat)
    requires 0 < i <= |s.warm|
    ensures Dropped(Acquired(s, false), i - 1) == Dropped(s, i)
  {
    PrefixWithHead(s.warm, i);
  }

  /** A whole ReleaseWarm. */
  function Released(s: State, p: Proc): State {
    if |s.warm| < s.capacity
    then s.(held := s.held - multiset{p}, currentSize := s.currentSize + 1, warm := s.warm + [p])
    else s.(held := s.held - multiset{p}, currentSize := s.currentSize + 1, discarded := s.discarded + multiset{p})
  }

  /** A new process, counted and queued. */
  function Spawned(s: State, p: Proc): State {
    s.(warm := s.warm + [p], spawned := s.spawned + {p}, currentSize := s.currentSize + 1)
  }

  /** A whole spawn is a CountSpawned followed by a Push. */
  lemma SpawnIsTwoSteps(s: State, p: Proc)
    requires Conserved(s) && p !in s.spawned && |s.warm| < s.capacity
    ensures Next(Next(s, CountSpawned(p)), Push(p)) == Spawned(s, p)
    ensures Conserved(Spawned(s, p))
  {
    EnterConserves(s, p);
    PushConserves(Next(s, CountSpawned(p)), p);
    assert s.entering + multiset{p} - multiset{p} == s.entering;
  }

  lemma LiveHeadIsAcquired(s: State)
    requires Conserved(s) && s.warm != []
    ensures Next(Next(s, Take), Judge(s.warm[0], true)) == Acquired(s, true)
  {
    assert s.leaving + multiset{s.warm[0]} - multiset{s.warm[0]} == s.leaving;
  }

  lemma DeadHeadIsDiscarded(s: State)
    requires Conserved(s) && s.warm != []
    ensures Next(Next(s, Take), Judge(s.warm[0], false)) == Acquired(s, false)
  {
    assert s.leaving + multiset{s.warm[0]} - multiset{s.warm[0]} == s.leaving;
  }

  /** A whole acquire is a Take followed by a Judge. */
  lemma AcquireIsTwoSteps(s: State, alive: bool)
    requires Conserved(s) && s.warm != []
    ensures Next(Next(s, Take), Judge(s.warm[0], alive)) == Acquired(s, alive)
    ensures Conserved(Acquired(s, alive))
  {
    if alive {
      LiveHeadIsAcquired(s);
    } else {
      DeadHeadIsDiscarded(s);
    }
    TakeConserves(s);
    JudgeConserves(Next(s, Take), s.warm[0], alive);
  }

  /** A whole release is a CountReleased followed by an Offer. */
  lemma ReleaseIsTwoSteps(s: State, p: Proc)
    requires Conserved(s) && p in s.held
    ensures Next(Next(s, CountReleased(p)), Offer(p)) == Released(s, p)
    ensures Conserved(Released(s, p))
  {
    ReleaseConserves(s, p);
    OfferConserves(Next(s, CountReleased(p)), p);
    assert s.releasing + multiset{p} - multiset{p} == s.releasing;
  }

  /** A release requeues the process at the end while there is room, and only kills it when there is none. */
  lemma ReleaseRequeuesWhileThereIsRoom(s: State, p: Proc)
    requires p in s.held
    ensures var t := Released(s, p);
            && t.held == s.held - multiset{p} && t.currentSize == s.currentSize + 1
            && (|s.warm| < s.capacity ==> t.warm == s.warm + [p] && t.discarded == s.discarded)
            && (|s.warm| >= s.capacity ==> t.warm == s.warm && t.discarded == s.discarded + multiset{p})
    ensures p in s.releasing ==>
              var t := Next(s, Offer(p));
              && (|s.warm| < s.capacity ==> t.warm == s.warm + [p] && t.discarded == s.discarded)
              && (|s.warm| >= s.capacity ==> t.warm == s.warm && t.discarded == s.discarded + multiset{p})
  {}

  /** The queue is first in, first out, for the steps of every method. */
  lemma QueueIsFirstInFirstOut(s: State, p: Proc)
    ensures Enabled(s, Push(p)) ==> Next(s, Push(p)).warm == s.warm + [p]
    ensures Enabled(s, PutBack(p)) ==> Next(s, PutBack(p)).warm == s.warm + [p]
    ensures s.warm != [] ==> [s.warm[0]] + Next(s, Take).warm == s.warm && Next(s, Take).leaving == s.leaving + multiset{s.warm[0]}
    ensures s.warm != [] ==> [s.warm[0]] + Next(s, Peek).warm == s.warm && Next(s, Peek).peeked == s.peeked + multiset{s.warm[0]}
  {}

  /** An acquire takes the head: alive, it is held and no longer counted; dead, it is discarded and stays counted. */
  lemma AcquireTakesTheHead(s: State, alive: bool)
    requires s.warm != []
    ensures var t := Acquired(s, alive);
            && s.warm == [s.warm[0]] + t.warm
            && (alive ==> t.held == s.held + multiset{s.warm[0]} && t.discarded == s.discarded && t.currentSize == s.currentSize - 1)
            && (!alive ==> t.held == s.held && t.discarded == s.discarded + multiset{s.warm[0]} && t.currentSize == s.currentSize)
  {}

  // ---------- Waiting for a process ----------

  /** A whole method that another goroutine runs; without effect when it cannot run. */
  datatype Other = OtherSpawns(p: Proc) | OtherAcquires(alive: bool) | OtherReleases(p: Proc)

  function Meddled(s: State, o: Other): State {
    match o
    case OtherSpawns(p) => if p !in s.spawned && |s.warm| < s.capacity then Spawned(s, p) else s
    case OtherAcquires(alive) => if s.warm != [] then Acquired(s, alive) else s
    case OtherReleases(p) => if p in s.held then Released(s, p) else s
  }

  predicate CanRun(s: State, o: Other) {
    match o
    case OtherSpawns(p) => p !in s.spawned && |s.warm| < s.capacity
    case OtherAcquires(_) => true
    case OtherReleases(p) => p in s.held
  }

  /** One turn of the waiting loop: what others do before it, whether the breaker is open, and who is alive. */
  datatype Poll = Poll(others: seq<Other>, tripped: bool, alive: Proc -> bool)

  function MeddledAll(s: State, others: seq<Other>): State {
    if others == [] then s else Meddled(MeddledAll(s, others[..|others| - 1]), others[|others| - 1])
  }

  predicate CanRunAll(s: State, others: seq<Other>) {
    others != [] ==>
      && CanRunAll(s, others[..|others| - 1])
      && CanRun(MeddledAll(s, others[..|others| - 1]), others[|others| - 1])
  }

  lemma {:induction false} CanRunPrefix(s: State, others: seq<Other>, i: nat)
    requires CanRunAll(s, others) && i <= |others|
    ensures CanRunAll(s, others[..i])
  {
    if i < |others| {
      CanRunPrefix(s, others[..|others| - 1], i);
      assert others[..|others| - 1][..i] == others[..i];
    } else {
      assert others[..i] == others;
    }
  }

  datatype WaitResult = Got(p: Proc) | Unavailable | TimedOut

  /** The turn's result, if it ends the wait. */
  function Turn(s: State, poll: Poll): Option<WaitResult> {
    var t := MeddledAll(s, poll.others);
    if poll.tripped then Some(Unavailable)
    else if t.warm != [] && poll.alive(t.warm[0]) then Some(Got(t.warm[0]))
    else None
  }

  function AfterTurn(s: State, poll: Poll): State {
    var t := MeddledAll(s, poll.others);
    if poll.tripped || t.warm == [] then t else Acquired(t, poll.alive(t.warm[0]))
  }

  /** The turns up to the deadline; `tripped` is the breaker after the last. */
  function Waited(s: State, polls: seq<Poll>, tripped: bool): (State, WaitResult)
    decreases |polls|
  {
    if polls == [] then (s, if tripped then Unavailable else TimedOut)
    else
      match Turn(s, polls[0])
      case Some(result) => (AfterTurn(s, polls[0]), result)
      case None => Waited(AfterTurn(s, polls[0]), polls[1..], tripped)
  }

  /** What others do in the turns can be done when its time comes. */
  predicate Playable(s: State, polls: seq<Poll>)
    decreases |polls|
  {
    polls != [] ==>
      && CanRunAll(s, polls[0].others)
      && (Turn(s, polls[0]).None? ==> Playable(AfterTurn(s, polls[0]), polls[1..]))
  }

  lemma MeddlingConserves(s: State, o: Other)
    requires Conserved(s)
    ensures Conserved(Meddled(s, o)) && Meddled(s, o).capacity == s.capacity
  {
    match o
    case OtherSpawns(p) =>
      if p !in s.spawned && |s.warm| < s.capacity {
        SpawnIsTwoSteps(s, p);
      }
    case OtherAcquires(alive) =>
      if s.warm != [] {
        AcquireIsTwoSteps(s, alive);
      }
    case OtherReleases(p) =>
      if p in s.held {
        ReleaseIsTwoSteps(s, p);
      }
  }

  lemma {:induction false} AllMeddlingConserves(s: State, others: seq<Other>)
    requires Conserved(s)
    ensures Conserved(MeddledAll(s, others)) && MeddledAll(s, others).capacity == s.capacity
  {
    if others != [] {
      AllMeddlingConserves(s, others[..|others| - 1]);
      MeddlingConserves(MeddledAll(s, others[..|others| - 1]), others[|others| - 1]);
    }
  }

  lemma TurnConserves(s: State, poll: Poll)
    requires Conserved(s)
    ensures Conserved(AfterTurn(s, poll)) && AfterTurn(s, poll).capacity == s.capacity
    ensures Turn(s, poll).Some? && Turn(s, poll).value.Got? ==> Turn(s, poll).value.p in AfterTurn(s, poll).held
  {
    AllMeddlingConserves(s, poll.others);
    var t := MeddledAll(s, poll.others);
    if !poll.tripped && t.warm != [] {
      AcquireIsTwoSteps(t, poll.alive(t.warm[0]));
    }
  }

  /**
   Whatever others do meanwhile: processes are conserved, a process handed out was alive and is held,
   the backend is called unavailable only if the breaker was seen open, and a timeout means that it
   never was.
   */
  lemma {:induction false} WaitingIsSound(s: State, polls: seq<Poll>, tripped: bool)
    requires Conserved(s)
    ensures var (t, result) := Waited(s, polls, tripped);
            && Conserved(t)
            && (result.Got? ==> result.p in t.held && exists poll | poll in polls :: !poll.tripped && poll.alive(result.p))
            && (result.Unavailable? ==> tripped || exists poll | poll in polls :: poll.tripped)
            && (result.TimedOut? ==> !tripped && forall poll | poll in polls :: !poll.tripped)
    decreases |polls|
  {
    if polls != [] {
      TurnConserves(s, polls[0]);
      assert polls[0] in polls;
      if Turn(s, polls[0]).None? {
        WaitingIsSound(AfterTurn(s, polls[0]), polls[1..], tripped);
        assert forall poll | poll in polls :: poll == polls[0] || poll in polls[1..];
      }
    }
  }

  /** Turns of a wait that nobody disturbs. */
  ghost predicate Undisturbed(polls: seq<Poll>, alive: Proc -> bool) {
    forall k | 0 <= k < |polls| :: polls[k].others == [] && !polls[k].tripped && polls[k].alive == alive
  }

  lemma UndisturbedTurn(s: State, polls: seq<Poll>, alive: Proc -> bool)
    requires Undisturbed(polls, alive) && polls != []
    ensures Undisturbed(polls[1..], alive)
    ensures Waited(s, polls, false) ==
              if s.warm == [] then Waited(s, polls[1..], false)
              else if alive(s.warm[0]) then (Acquired(s, true), Got(s.warm[0]))
              else Waited(Acquired(s, false), polls[1..], false)
  {
    assert polls[0].others == [] && polls[0].alive == alive;
    assert MeddledAll(s, []) == s;
  }

  /**
   Left alone with the queue and given a turn for each process in it, waiting hands out the first live
   process; exactly the dead ones before it are discarded, and stay counted.
   */
  lemma {:induction false} WaitingDiscardsTheDead(s: State, polls: seq<Poll>, alive: Proc -> bool)
    requires Undisturbed(polls, alive) && |polls| >= |s.warm|
    ensures var i := DeadPrefix(s.warm, alive);
            Waited(s, polls, false) ==
              if i == |s.warm| then (Dropped(s, i), TimedOut) else (Acquired(Dropped(s, i), true), Got(s.warm[i]))
    decreases |polls|
  {
    var i := DeadPrefix(s.warm, alive);
    if s.warm == [] {
      NoneDropped(s);
      NothingToWaitFor(s, polls, alive);
    } else if alive(s.warm[0]) {
      NoneDropped(s);
      UndisturbedTurn(s, polls, alive);
    } else {
      UndisturbedTurn(s, polls, alive);
      WaitingDiscardsTheDead(Acquired(s, false), polls[1..], alive);
      DropOneMore(s, i);
    }
  }

  lemma NoneDropped(s: State)
    ensures Dropped(s, 0) == s
  {
    assert s.discarded + multiset(s.warm[..0]) == s.discarded;
  }

  lemma {:induction false} NothingToWaitFor(s: State, polls: seq<Poll>, alive: Proc -> bool)
    requires Undisturbed(polls, alive) && s.warm == []
    ensures Waited(s, polls, false) == (s, TimedOut)
    decreases |polls|
  {
    if polls != [] {
      UndisturbedTurn(s, polls, alive);
      NothingToWaitFor(s, polls[1..], alive);
    }
  }

  class Pool {
    const capacity: nat
    var warm: seq<Proc>
    var currentSize: int
    ghost var held: multiset<Proc>
    ghost var discarded: multiset<Proc>
    ghost var spawned: set<Proc>

    ghost function Value(): State
      reads this
    {
      State(capacity, warm, held, discarded, multiset{}, multiset{}, multiset{}, multiset{}, spawned, currentSize)
    }

    constructor (maxPoolSize: nat)
      ensures Value() == Empty(capacity) && Conserved(Value())
      ensures capacity == Max(maxPoolSize, 1)
    {
      capacity := if maxPoolSize < 1 then 1 else maxPoolSize;
      warm, currentSize, held, discarded, spawned := [], 0, multiset{}, multiset{}, {};
    }

    method AddSpawned(p: Proc)
      requires Conserved(Value()) && p !in spawned && |warm| < capacity
      modifies this
      ensures Conserved(Value())
      ensures Value() == Spawned(old(Value()), p)
    {
      SpawnIsTwoSteps(Value(), p);
      currentSize := currentSize + 1;
      warm := warm + [p];
      spawned := spawned + {p};
      assert Value() == Spawned(old(Value()), p);
    }

    /** None when the queue is empty or its head has died; a dead head is discarded and stays counted. */
    method TryAcquireWarm(alive: bool) returns (proc: Option<Proc>)
      requires Conserved(Value())
      modifies this
      ensures Conserved(Value())
      ensures proc.Some? <==> old(warm) != [] && alive
      ensures proc.Some? ==> proc.value == old(warm)[0]
      ensures Value() == if old(warm) == [] then old(Value()) else Acquired(old(Value()), alive)
    {
      if |warm| == 0 {
        return None;
      }
      AcquireIsTwoSteps(Value(), alive);
      proc := TakeHead(alive);
    }

    method TakeHead(alive: bool) returns (proc: Option<Proc>)
      requires warm != []
      modifies this
      ensures proc == if alive then Some(old(warm)[0]) else None
      ensures Value() == Acquired(old(Value()), alive)
    {
      var p := warm[0];
      warm := warm[1..];
      if !alive {
        discarded := discarded + multiset{p};
        return None;
      }
      currentSize := currentSize - 1;
      held := held + multiset{p};
      return Some(p);
    }

    /** A release into a full queue kills the process, which stays counted. */
    method ReleaseWarm(p: Proc)
      requires Conserved(Value()) && p in held
      modifies this
      ensures Value() == Released(old(Value()), p)
      ensures Conserved(Value())
    {
      ReleaseIsTwoSteps(Value(), p);
      GiveBack(p);
    }

    method GiveBack(p: Proc)
      modifies this
      ensures Value() == Released(old(Value()), p)
    {
      currentSize := currentSize + 1;
      held := held - multiset{p};
      if |warm| < capacity {
        warm := warm + [p];
      } else {
        discarded := discarded + multiset{p};
      }
    }

    /** Runs a whole method of another goroutine. */
    method Meddle(o: Other)
      requires Conserved(Value()) && CanRun(Value(), o)
      modifies this
      ensures Conserved(Value()) && Value() == Meddled(old(Value()), o)
    {
      match o {
        case OtherSpawns(p) => AddSpawned(p);
        case OtherAcquires(alive) => var proc := TryAcquireWarm(alive);
        case OtherReleases(p) => ReleaseWarm(p);
      }
    }

    method MeddleAll(others: seq<Other>)
      requires Conserved(Value()) && CanRunAll(Value(), others)
      modifies this
      ensures Conserved(Value()) && Value() == MeddledAll(old(Value()), others)
    {
      ghost var start := Value();
      for i := 0 to |others|
        invariant Conserved(Value()) && Value() == MeddledAll(start, others[..i])
      {
        CanRunPrefix(start, others, i + 1);
        assert others[..i + 1][..i] == others[..i];
        Meddle(others[i]);
      }
      assert others[..|others|] == others;
    }

    /** One turn: gives up when the breaker is open, otherwise tries to acquire. */
    method TakeTurn(poll: Poll) returns (result: Option<WaitResult>)
      requires Conserved(Value()) && CanRunAll(Value(), poll.others)
      modifies this
      ensures Conserved(Value())
      ensures result == Turn(old(Value()), poll) && Value() == AfterTurn(old(Value()), poll)
    {
      MeddleAll(poll.others);
      if poll.tripped {
        return Some(Unavailable);
      }
      var proc := TryAcquireWarm(|warm| > 0 && poll.alive(warm[0]));
      return if proc.Some? then Some(Got(proc.value)) else None;
    }

    /** Turns until a process, an open breaker, or the deadline. */
    method WaitForWarmWithMax(polls: seq<Poll>, tripped: bool) returns (result: WaitResult)
      requires Conserved(Value()) && Playable(Value(), polls)
      modifies this
      ensures Conserved(Value()) && (Value(), result) == Waited(old(Value()), polls, tripped)
      ensures result.Got? ==> result.p in held
    {
      ghost var start := Value();
      WaitingIsSound(start, polls, tripped);
      var left := polls;
      while left != []
        invariant Conserved(Value()) && Playable(Value(), left)
        invariant Waited(start, polls, tripped) == Waited(Value(), left, tripped)
        decreases |left|
      {
        var done := TakeTurn(left[0]);
        if done.Some? {
          return done.value;
        }
        left := left[1..];
      }
      return if tripped then Unavailable else TimedOut;
    }
  }
}
