/** The early-terminal journal as interleaved steps: any number of appends and
    one replay task (src/early_request.rs:67-107, 125-168;
    src/proxy_lifecycle.rs:24-77). A record is named by the append that made it. */
module EarlyJournal {
  import opened StableSort

  const MAX_PENDING_WRITES := 64
  const REPLAY_BATCH := 64

  /** Where a running append stands: it holds a permit, then also the writer. */
  datatype Phase = AwaitingWriter | Writing

  /** The replay task: between rounds, writing a batch, about to put the rest
      back, or dropping the guards of what it committed. */
  datatype Replay =
    | Idle
    | Committing(batch: seq<nat>, index: nat)
    | Returning(batch: seq<nat>, index: nat)
    | Dropping(guards: nat)

  /** `arrived`, `direct` and `committed` are what happened so far: records
      deferred in order, records an append wrote itself, records replay wrote. */
  datatype State = State(
    appends: map<nat, Phase>,
    results: map<nat, bool>,
    queue: seq<nat>,
    replay: Replay,
    accepted: nat,
    inflight: int,
    arrived: seq<nat>,
    direct: set<nat>,
    committed: seq<nat>)

  datatype Event =
    | Begin(id: nat)            // append called; takes a permit or is refused
    | WriterReady(id: nat)      // the writer lock came in time
    | WriterTimeout(id: nat)
    | Written(id: nat)          // the database answered in time
    | Deferred(id: nat)         // the database failed or ran out of time
    | Cancelled(id: nat)        // the append future was dropped
    | TakeBatch
    | Replayed                  // the next record of the batch was written
    | ReplayFailed              // the database failed: the rest of the batch is kept
    | PutBack                   // the rest goes to the front of the queue
    | BatchDone                 // the whole batch is written
    | DropGuard                 // one committed record's guard is dropped
    | RoundOver

  const Init := State(map[], map[], [], Idle, 0, 0, [], {}, [])

  predicate WriterFree(s: State)
  {
    forall id | id in s.appends :: s.appends[id] != Writing
  }

  predicate Enabled(s: State, e: Event)
  {
    match e
    case Begin(id) => id !in s.appends && id !in s.results && id !in s.arrived && id !in s.direct
    case WriterReady(id) => id in s.appends && s.appends[id] == AwaitingWriter && WriterFree(s)
    case WriterTimeout(id) => id in s.appends && s.appends[id] == AwaitingWriter
    case Written(id) => id in s.appends && s.appends[id] == Writing
    case Deferred(id) => id in s.appends && s.appends[id] == Writing
    case Cancelled(id) => id in s.appends
    case TakeBatch => s.replay.Idle?
    case Replayed => s.replay.Committing? && s.replay.index < |s.replay.batch|
    case ReplayFailed => s.replay.Committing? && s.replay.index < |s.replay.batch|
    case PutBack => s.replay.Returning? && s.replay.index <= |s.replay.batch|
    case BatchDone => s.replay.Committing? && s.replay.index == |s.replay.batch|
    case DropGuard => s.replay.Dropping? && s.replay.guards > 0 && s.accepted > 0
    case RoundOver => s.replay == Dropping(0)
  }

  function Next(s: State, e: Event): State
    requires Enabled(s, e)
  {
    match e
    case Begin(id) =>
      if |s.appends| < MAX_PENDING_WRITES then s.(appends := s.appends[id := AwaitingWriter])
      else s.(results := s.results[id := false])
    case WriterReady(id) => s.(appends := s.appends[id := Writing])
    case WriterTimeout(id) => s.(appends := s.appends - {id}, results := s.results[id := false])
    case Written(id) => s.(appends := s.appends - {id}, results := s.results[id := true], direct := s.direct + {id})
    case Deferred(id) =>
      s.(appends := s.appends - {id}, results := s.results[id := true], queue := s.queue + [id],
         arrived := s.arrived + [id], accepted := s.accepted + 1)
    case Cancelled(id) => s.(appends := s.appends - {id})
    case TakeBatch =>
      var count := if |s.queue| < REPLAY_BATCH then |s.queue| else REPLAY_BATCH;
      s.(queue := s.queue[count..], replay := Committing(s.queue[..count], 0), inflight := s.inflight + count)
    case Replayed =>
      s.(replay := Committing(s.replay.batch, s.replay.index + 1), inflight := s.inflight - 1,
         committed := s.committed + [s.replay.batch[s.replay.index]])
    case ReplayFailed =>
      s.(replay := Returning(s.replay.batch, s.replay.index),
         inflight := s.inflight - (|s.replay.batch| - s.replay.index))
    case PutBack =>
      s.(queue := s.replay.batch[s.replay.index..] + s.queue, replay := Dropping(s.replay.index))
    case BatchDone => s.(replay := Dropping(|s.replay.batch|))
    case DropGuard => s.(replay := Dropping(s.replay.guards - 1), accepted := s.accepted - 1)
    case RoundOver => s.(replay := Idle)
  }

  /** Records the replay task has taken and not committed. */
  function Unfinished(r: Replay): seq<nat>
  {
    match r
    case Committing(batch, index) => if index <= |batch| then batch[index..] else []
    case Returning(batch, index) => if index <= |batch| then batch[index..] else []
    case _ => []
  }

  /** Guards the replay task holds. */
  function Held(r: Replay): nat
  {
    match r
    case Idle => 0
    case Committing(batch, _) => |batch|
    case Returning(batch, _) => |batch|
    case Dropping(n) => n
  }

  /** No deferred record is lost, repeated or reordered, and each one is held by
      a guard until it is committed. */
  ghost predicate OrderInv(s: State)
  {
    && s.arrived == s.committed + Unfinished(s.replay) + s.queue
    && s.accepted == |s.queue| + Held(s.replay)
    && (s.replay.Committing? || s.replay.Returning? ==> s.replay.index <= |s.replay.batch| <= REPLAY_BATCH)
    && s.inflight == (if s.replay.Committing? then |Unfinished(s.replay)| else 0)
  }

  /** An append answers true exactly when its record was written or deferred,
      never both, and false only for a record that is nowhere. */
  ghost predicate ResultInv(s: State)
  {
    && NoDup(s.arrived)
    && (forall id | id in s.appends :: id !in s.results && id !in s.arrived && id !in s.direct)
    && (forall id | id in s.arrived :: id !in s.direct && id in s.results && s.results[id])
    && (forall id | id in s.direct :: id in s.results && s.results[id])
    && (forall id | id in s.results && s.results[id] :: id in s.direct || id in s.arrived)
  }

  ghost predicate LimitInv(s: State)
  {
    && |s.appends| <= MAX_PENDING_WRITES
    && forall a, b | a in s.appends && b in s.appends && s.appends[a] == Writing && s.appends[b] == Writing :: a == b
  }

  lemma {:induction false} TakeKeepsOrder(s: State)
    requires OrderInv(s) && s.replay.Idle?
    ensures OrderInv(Next(s, TakeBatch))
  {
    var count := if |s.queue| < REPLAY_BATCH then |s.queue| else REPLAY_BATCH;
    assert s.queue == s.queue[..count] + s.queue[count..];
    assert s.queue[..count][0..] == s.queue[..count];
  }

  lemma {:induction false} ReplayedKeepsOrder(s: State)
    requires OrderInv(s) && Enabled(s, Replayed)
    ensures OrderInv(Next(s, Replayed))
  {
    var rest := s.replay.batch[s.replay.index..];
    assert rest == [s.replay.batch[s.replay.index]] + s.replay.batch[s.replay.index + 1..];
  }

  lemma {:induction false} PutBackKeepsOrder(s: State)
    requires OrderInv(s) && Enabled(s, PutBack)
    ensures OrderInv(Next(s, PutBack))
  {
    assert s.arrived == s.committed + (s.replay.batch[s.replay.index..] + s.queue);
  }

  lemma {:induction false} ReplayRestKeepsOrder(s: State, e: Event)
    requires OrderInv(s) && Enabled(s, e)
    requires e.ReplayFailed? || e.BatchDone? || e.DropGuard? || e.RoundOver?
    ensures OrderInv(Next(s, e))
  {
  }

  lemma {:induction false} AppendKeepsOrder(s: State, e: Event)
    requires OrderInv(s) && Enabled(s, e)
    requires e.Begin? || e.WriterReady? || e.WriterTimeout? || e.Written? || e.Deferred? || e.Cancelled?
    ensures OrderInv(Next(s, e))
  {
  }

  lemma {:induction false} StepKeepsOrder(s: State, e: Event)
    requires OrderInv(s) && Enabled(s, e)
    ensures OrderInv(Next(s, e))
  {
    match e
    case TakeBatch => TakeKeepsOrder(s);
    case Replayed => ReplayedKeepsOrder(s);
    case PutBack => PutBackKeepsOrder(s);
    case ReplayFailed => ReplayRestKeepsOrder(s, e);
    case BatchDone => ReplayRestKeepsOrder(s, e);
    case DropGuard => ReplayRestKeepsOrder(s, e);
    case RoundOver => ReplayRestKeepsOrder(s, e);
    case _ => AppendKeepsOrder(s, e);
  }

  lemma {:induction false} StepKeepsResults(s: State, e: Event)
    requires ResultInv(s) && Enabled(s, e)
    ensures ResultInv(Next(s, e))
  {
  }

  lemma {:induction false} RemoveKeepsLimits(s: State, id: nat)
    requires LimitInv(s) && id in s.appends
    ensures LimitInv(s.(appends := s.appends - {id}))
  {
    assert (s.appends - {id}).Keys == s.appends.Keys - {id};
    assert |(s.appends - {id}).Keys| == |s.appends - {id}| && |s.appends.Keys| == |s.appends|;
  }

  lemma {:induction false} AddKeepsLimits(s: State, id: nat)
    requires LimitInv(s)
    ensures |s.appends| < MAX_PENDING_WRITES ==> LimitInv(s.(appends := s.appends[id := AwaitingWriter]))
    ensures id in s.appends && WriterFree(s) ==> LimitInv(s.(appends := s.appends[id := Writing]))
  {
    KeysAfter(s.appends, id, AwaitingWriter);
    KeysAfter(s.appends, id, Writing);
  }

  lemma {:induction false} KeysAfter(m: map<nat, Phase>, id: nat, phase: Phase)
    ensures |m[id := phase]| == if id in m then |m| else |m| + 1
  {
    assert m[id := phase].Keys == m.Keys + {id};
    assert |m[id := phase].Keys| == |m[id := phase]| && |m.Keys| == |m|;
    if id in m { assert m.Keys + {id} == m.Keys; }
  }

  lemma {:induction false} StepKeepsLimits(s: State, e: Event)
    requires LimitInv(s) && Enabled(s, e)
    ensures LimitInv(Next(s, e))
  {
    match e
    case Begin(id) => AddKeepsLimits(s, id);
    case WriterReady(id) => AddKeepsLimits(s, id);
    case WriterTimeout(id) => RemoveKeepsLimits(s, id);
    case Written(id) => RemoveKeepsLimits(s, id);
    case Deferred(id) => RemoveKeepsLimits(s, id);
    case Cancelled(id) => RemoveKeepsLimits(s, id);
    case _ =>
  }

  // --------------------------------------------------------------- whole runs

  /** Each event is enabled where it happens. */
  predicate CanRun(s: State, events: seq<Event>)
    decreases |events|
  {
    events == [] || (Enabled(s, events[0]) && CanRun(Next(s, events[0]), events[1..]))
  }

  function Run(s: State, events: seq<Event>): State
    requires CanRun(s, events)
    decreases |events|
  {
    if events == [] then s else Run(Next(s, events[0]), events[1..])
  }

  ghost predicate Sound(s: State)
  {
    OrderInv(s) && ResultInv(s) && LimitInv(s)
  }

  lemma {:induction false} StepKeeps(s: State, e: Event)
    requires Sound(s) && Enabled(s, e)
    ensures Sound(Next(s, e))
  {
    StepKeepsOrder(s, e);
    StepKeepsResults(s, e);
    StepKeepsLimits(s, e);
  }

  lemma {:induction false} RunKeeps(s: State, events: seq<Event>)
    requires CanRun(s, events) && Sound(s)
    ensures Sound(Run(s, events))
    decreases |events|
  {
    if events != [] {
      StepKeeps(s, events[0]);
      RunKeeps(Next(s, events[0]), events[1..]);
    }
  }

  /** Some run from the start ends here. */
  ghost predicate Reachable(s: State)
  {
    exists events :: CanRun(Init, events) && Run(Init, events) == s
  }

  lemma {:induction false} RunSnoc(s: State, events: seq<Event>, e: Event)
    requires CanRun(s, events) && Enabled(Run(s, events), e)
    ensures CanRun(s, events + [e]) && Run(s, events + [e]) == Next(Run(s, events), e)
    decreases |events|
  {
    if events == [] {
      assert [] + [e] == [e] && [e][1..] == [];
    } else {
      RunSnoc(Next(s, events[0]), events[1..], e);
      assert (events + [e])[0] == events[0] && (events + [e])[1..] == events[1..] + [e];
    }
  }

  lemma {:induction false} ReachesNext(s: State, e: Event)
    requires Reachable(s) && Enabled(s, e)
    ensures Reachable(Next(s, e))
  {
    var events :| CanRun(Init, events) && Run(Init, events) == s;
    RunSnoc(Init, events, e);
  }

  lemma {:induction false} ReachableInvariant(s: State)
    requires Reachable(s)
    ensures Sound(s)
  {
    var events :| CanRun(Init, events) && Run(Init, events) == s;
    RunKeeps(Init, events);
  }

  /** In every interleaving the deferred records, in arrival order, are those
      replay committed, then the rest of its batch, then the queue. */
  lemma {:induction false} NothingLostOrReordered(s: State)
    requires Reachable(s)
    ensures s.arrived == s.committed + Unfinished(s.replay) + s.queue
    ensures NoDup(s.arrived) && s.committed <= s.arrived
  {
    ReachableInvariant(s);
  }

  lemma {:induction false} After(s: State, e: Event) returns (next: State)
    requires Reachable(s) && Enabled(s, e)
    ensures Reachable(next) && next == Next(s, e)
  {
    ReachesNext(s, e);
    next := Next(s, e);
  }

  /** `drain` waits for the guards: once it may return, every append that
      answered true has its record in the database. */
  lemma {:induction false} DrainedMeansCommitted(s: State)
    requires Reachable(s) && s.accepted == 0
    ensures s.committed == s.arrived
    ensures forall id | id in s.results && s.results[id] :: id in s.direct || id in s.committed
  {
    ReachableInvariant(s);
  }

  /** And it waits for nothing else: guards are gone exactly when the queue and
      the replay task are empty. */
  lemma {:induction false} DrainWaitsOnlyForGuards(s: State)
    requires Reachable(s)
    ensures s.accepted == 0 <==> s.queue == [] && Held(s.replay) == 0
    ensures s.replay.Dropping? && s.replay.guards > 0 ==> Enabled(s, DropGuard)
  {
    ReachableInvariant(s);
  }

  /** A refused append left its record neither in the queue nor in the database. */
  lemma {:induction false} RefusedIsNowhere(s: State, id: nat)
    requires Reachable(s) && id in s.results && !s.results[id]
    ensures id !in s.direct && id !in s.committed && id !in Unfinished(s.replay) && id !in s.queue
  {
    ReachableInvariant(s);
    assert forall x | x in s.committed || x in Unfinished(s.replay) || x in s.queue :: x in s.arrived;
  }

  lemma {:induction false} CanRunCons(s: State, e: Event, rest: seq<Event>)
    requires Enabled(s, e) && CanRun(Next(s, e), rest)
    ensures CanRun(s, [e] + rest) && Run(s, [e] + rest) == Run(Next(s, e), rest)
  {
    assert ([e] + rest)[1..] == rest;
  }

  /** The inflight counter could not stand in for the guards: it can be zero
      with an empty queue while a record is still on its way back. */
  lemma {:induction false} InflightIsNotEnough(id: nat) returns (s: State)
    ensures Reachable(s) && s.queue == [] && s.inflight == 0 && s.committed != s.arrived && s.accepted > 0
  {
    assert CanRun(Init, []) && Run(Init, []) == Init;
    s := After(Init, Begin(id));
    s := After(s, WriterReady(id));
    s := After(s, Deferred(id));
    s := After(s, TakeBatch);
    s := After(s, ReplayFailed);
  }

  // ------------------------------------------------------ the drain can always finish

  /** What the replay task does next while the database answers. */
  function ReplayStep(s: State): Event
  {
    match s.replay
    case Idle => TakeBatch
    case Committing(batch, index) => if index < |batch| then Replayed else BatchDone
    case Returning(_, _) => PutBack
    case Dropping(guards) => if guards > 0 then DropGuard else RoundOver
  }

  /** Bounds the steps left: five for each record in the queue. */
  function StepsLeft(s: State): nat
  {
    5 * |s.queue| +
    match s.replay
    case Idle => 0
    case Committing(batch, index) => (if index <= |batch| then |batch| - index else 0) + |batch| + 2
    case Returning(batch, index) => (if index <= |batch| then 5 * (|batch| - index) else 0) + index + 2
    case Dropping(guards) => guards + 1
  }

  lemma {:induction false} ReplayStepsOn(s: State)
    requires OrderInv(s) && s.accepted > 0
    ensures Enabled(s, ReplayStep(s)) && StepsLeft(Next(s, ReplayStep(s))) < StepsLeft(s)
  {
  }

  /** From every reachable state the replay task alone, with a database that answers,
      brings the drain to its end, and every deferred record is then committed. */
  lemma {:induction false} DrainCanFinish(s: State) returns (events: seq<Event>)
    requires Sound(s)
    ensures CanRun(s, events) && Run(s, events).accepted == 0 && Run(s, events).committed == s.arrived
    ensures forall e | e in events :: e in {TakeBatch, Replayed, BatchDone, PutBack, DropGuard, RoundOver}
    decreases StepsLeft(s)
  {
    if s.accepted == 0 {
      events := [];
    } else {
      var e := ReplayStep(s);
      ReplayStepsOn(s);
      StepKeeps(s, e);
      var rest := DrainCanFinish(Next(s, e));
      CanRunCons(s, e, rest);
      events := [e] + rest;
    }
  }

  // ------------------------------------------------------------- the journal

  /** How many of the first `count` records are written before the database fails. */
  function WrittenBefore(answers: nat -> bool, count: nat): (n: nat)
    ensures n <= count
    ensures forall i | 0 <= i < n :: answers(i)
    ensures n < count ==> !answers(n)
  {
    WrittenFrom(answers, 0, count)
  }

  function WrittenFrom(answers: nat -> bool, from: nat, count: nat): (n: nat)
    requires from <= count
    ensures from <= n <= count
    ensures forall i | from <= i < n :: answers(i)
    ensures n < count ==> !answers(n)
    decreases count - from
  {
    if from == count || !answers(from) then from else WrittenFrom(answers, from + 1, count)
  }

  lemma {:induction false} WrittenIs(answers: nat -> bool, n: nat, count: nat)
    requires n <= count && (forall i | 0 <= i < n :: answers(i)) && (n < count ==> !answers(n))
    ensures WrittenBefore(answers, count) == n
  {
  }

  /** An append that no other task interrupts, seen from its two ends. */
  function Appended(s: State, id: nat, answer: bool, written: bool): State
  {
    if !answer then s.(results := s.results[id := false])
    else if written then s.(results := s.results[id := true], direct := s.direct + {id})
    else s.(results := s.results[id := true], queue := s.queue + [id], arrived := s.arrived + [id],
            accepted := s.accepted + 1)
  }

  lemma {:induction false} PassageIs(s: State, id: nat, inTime: bool, written: bool)
    requires Enabled(s, Begin(id)) && WriterFree(s) && |s.appends| < MAX_PENDING_WRITES
    ensures var waiting := Next(s, Begin(id));
            && Enabled(waiting, WriterReady(id))
            && Next(waiting, WriterTimeout(id)) == Appended(s, id, false, written)
            && var writing := Next(waiting, WriterReady(id));
               && Next(writing, Written(id)) == Appended(s, id, true, true)
               && Next(writing, Deferred(id)) == Appended(s, id, true, false)
  {
    assert s.appends[id := AwaitingWriter] - {id} == s.appends;
    assert s.appends[id := AwaitingWriter][id := Writing] - {id} == s.appends;
  }

  /** `queued.drain(..count)`. */
  method DrainFront(queue: seq<nat>, count: nat) returns (batch: seq<nat>, rest: seq<nat>)
    requires count <= |queue|
    ensures batch == queue[..count] && rest == queue[count..]
  {
    batch, rest := [], queue;
    while |batch| < count
      invariant |batch| <= count && batch == queue[..|batch|] && rest == queue[|batch|..]
    {
      batch := batch + [rest[0]];
      rest := rest[1..];
    }
  }

  /** Pushes the records to the front one by one, the last one first. */
  method PushAllFront(records: seq<nat>, queue: seq<nat>) returns (all: seq<nat>)
    ensures all == records + queue
  {
    all := queue;
    for i := |records| downto 0
      invariant all == records[i..] + queue
    {
      all := [records[i]] + all;
    }
  }

  /** The journal's own fields. A step method is one atomic stretch of the source
      between two awaits; `Append` and `Replay` are whole passages that no other task
      interrupts. */
  class Journal {
    var appends: map<nat, Phase>
    var results: map<nat, bool>
    var deferred: seq<nat>
    var replay: Replay
    var accepted: nat
    var inflight: int
    ghost var arrived: seq<nat>
    ghost var direct: set<nat>
    ghost var committed: seq<nat>

    ghost function View(): State
      reads this
    {
      State(appends, results, deferred, replay, accepted, inflight, arrived, direct, committed)
    }

    ghost predicate Valid()
      reads this
    {
      Reachable(View())
    }

    constructor ()
      ensures Valid() && View() == Init
    {
      appends, results, deferred, replay, accepted, inflight := map[], map[], [], Idle, 0, 0;
      arrived, direct, committed := [], {}, [];
      new;
      assert CanRun(Init, []) && Run(Init, []) == View();
    }

    /** `append` up to its first await: no free permit is an immediate refusal. */
    method BeginAppend(id: nat) returns (refused: bool)
      requires Valid() && Enabled(View(), Begin(id))
      modifies this
      ensures Valid() && View() == Next(old(View()), Begin(id))
      ensures refused <==> |old(appends)| >= MAX_PENDING_WRITES
    {
      ReachesNext(View(), Begin(id));
      refused := |appends| >= MAX_PENDING_WRITES;
      if refused { results := results[id := false]; } else { appends := appends[id := AwaitingWriter]; }
    }

    /** The timed wait for the writer lock. */
    method WriterLock(id: nat, inTime: bool)
      requires Valid() && Enabled(View(), if inTime then WriterReady(id) else WriterTimeout(id))
      modifies this
      ensures Valid() && View() == Next(old(View()), if inTime then WriterReady(id) else WriterTimeout(id))
    {
      ReachesNext(View(), if inTime then WriterReady(id) else WriterTimeout(id));
      if inTime {
        appends := appends[id := Writing];
      } else {
        appends := appends - {id};
        results := results[id := false];
      }
    }

    /** The timed write: its failure defers the record, it never loses it. */
    method FinishWrite(id: nat, written: bool)
      requires Valid() && Enabled(View(), if written then Written(id) else Deferred(id))
      modifies this
      ensures Valid() && View() == Next(old(View()), if written then Written(id) else Deferred(id))
    {
      if written {
        ReachesNext(View(), Written(id));
        appends, results, direct := appends - {id}, results[id := true], direct + {id};
      } else {
        Defer(id);
      }
    }

    /** The record joins the queue with a guard, in the order of arrival. */
    method Defer(id: nat)
      requires Valid() && Enabled(View(), Deferred(id))
      modifies this
      ensures Valid() && View() == Next(old(View()), Deferred(id))
    {
      ReachesNext(View(), Deferred(id));
      accepted, deferred, arrived := accepted + 1, deferred + [id], arrived + [id];
      appends, results := appends - {id}, results[id := true];
    }

    /** `append`: true exactly when the record was written or is last in the queue,
        and false only when it is in neither. */
    method Append(id: nat, inTime: bool, written: bool) returns (answer: bool)
      requires Valid() && Enabled(View(), Begin(id)) && WriterFree(View())
      modifies this
      ensures Valid() && answer == (|old(appends)| < MAX_PENDING_WRITES && inTime)
      ensures View() == Appended(old(View()), id, answer, written)
    {
      if |appends| < MAX_PENDING_WRITES { PassageIs(View(), id, inTime, written); }
      var refused := BeginAppend(id);
      if refused { return false; }
      WriterLock(id, inTime);
      if inTime { FinishWrite(id, written); }
      answer := inTime;
    }

    /** Moves the oldest records out, under the lock. */
    method TakeReplayBatch()
      requires Valid() && Enabled(View(), TakeBatch)
      modifies this
      ensures Valid() && View() == Next(old(View()), TakeBatch)
    {
      ReachesNext(View(), TakeBatch);
      var batch;
      batch, deferred := DrainFront(deferred, if |deferred| < REPLAY_BATCH then |deferred| else REPLAY_BATCH);
      inflight := inflight + |batch|;
      replay := Committing(batch, 0);
    }

    /** One turn of the indexed loop: commit and advance, or keep the rest. */
    method ReplayRecord(ok: bool)
      requires Valid() && Enabled(View(), if ok then Replayed else ReplayFailed)
      modifies this
      ensures Valid() && View() == Next(old(View()), if ok then Replayed else ReplayFailed)
    {
      ReachesNext(View(), if ok then Replayed else ReplayFailed);
      var batch, index := replay.batch, replay.index;
      if ok {
        inflight := inflight - 1;
        committed := committed + [batch[index]];
        replay := Committing(batch, index + 1);
      } else {
        var retained := batch[index..];
        inflight := inflight - |retained|;
        replay := Returning(batch, index);
      }
    }

    /** The retained records go back in front of the queue, in their old order. */
    method ReturnRetained()
      requires Valid() && Enabled(View(), PutBack)
      modifies this
      ensures Valid() && View() == Next(old(View()), PutBack)
    {
      ReachesNext(View(), PutBack);
      deferred := PushAllFront(replay.batch[replay.index..], deferred);
      replay := Dropping(replay.index);
    }

    /** The batch vector goes out of scope: its guards are dropped one by one. */
    method DropBatch()
      requires Valid() && Enabled(View(), BatchDone)
      modifies this
      ensures Valid() && View() == Next(old(View()), BatchDone)
    {
      ReachesNext(View(), BatchDone);
      replay := Dropping(|replay.batch|);
    }

    method DropOneGuard()
      requires Valid() && Enabled(View(), DropGuard)
      modifies this
      ensures Valid() && View() == Next(old(View()), DropGuard)
    {
      ReachesNext(View(), DropGuard);
      accepted := accepted - 1;
      replay := Dropping(replay.guards - 1);
    }

    method EndRound()
      requires Valid() && Enabled(View(), RoundOver)
      modifies this
      ensures Valid() && View() == Next(old(View()), RoundOver)
    {
      ReachesNext(View(), RoundOver);
      replay := Idle;
    }

    /** The guards of a round's committed records go. */
    method DropGuards()
      requires Valid() && replay.Dropping?
      modifies this
      ensures Valid() && View() == old(View()).(replay := Idle, accepted := accepted)
      ensures accepted == old(accepted) - old(replay.guards)
    {
      while replay.guards > 0
        invariant Valid() && replay.Dropping?
        invariant View() == old(View()).(replay := replay, accepted := accepted)
        invariant accepted - replay.guards == old(accepted - replay.guards)
        decreases replay.guards
      {
        ReachableInvariant(View());
        DropOneGuard();
      }
      EndRound();
    }

    /** The indexed loop, up to the first record the database does not take. */
    method CommitRecords(answers: nat -> bool) returns (n: nat)
      requires Valid() && replay.Committing? && replay.index == 0
      modifies this
      ensures Valid() && n == WrittenBefore(answers, |old(replay).batch|)
      ensures View() == old(View()).(replay := Committing(old(replay).batch, n), inflight := inflight,
                                     committed := old(committed) + old(replay).batch[..n])
    {
      var batch := replay.batch;
      assert committed == old(committed) + batch[..0];
      n := 0;
      while n < |batch| && answers(n)
        invariant n <= |batch| && Valid() && replay == Committing(batch, n)
        invariant forall i | 0 <= i < n :: answers(i)
        invariant committed == old(committed) + batch[..n]
        invariant View() == old(View()).(replay := replay, inflight := inflight, committed := committed)
      {
        assert batch[..n + 1] == batch[..n] + [batch[n]];
        ReplayRecord(true);
        n := n + 1;
      }
      WrittenIs(answers, n, |batch|);
    }

    /** `replay` on the queue: commits the oldest records up to the first failure of
        the database, at most a batch, leaves the rest in their order, and frees one
        guard for each committed record and no other. */
    method Replay(answers: nat -> bool) returns (n: nat)
      requires Valid() && replay.Idle?
      modifies this
      ensures Valid() && replay.Idle?
      ensures n == WrittenBefore(answers, if |old(deferred)| < REPLAY_BATCH then |old(deferred)| else REPLAY_BATCH)
      ensures committed == old(committed) + old(deferred)[..n] && deferred == old(deferred)[n..]
      ensures accepted == old(accepted) - n
      ensures arrived == old(arrived) && direct == old(direct) && results == old(results) && appends == old(appends)
    {
      ghost var was := deferred;
      TakeReplayBatch();
      var batch := replay.batch;
      n := CommitRecords(answers);
      assert batch[..n] == was[..n] && batch[n..] + was[|batch|..] == was[n..];
      if n < |batch| {
        ReplayRecord(false);
        ReturnRetained();
      } else {
        DropBatch();
      }
      DropGuards();
    }

    /** `drain` may return: nothing is queued and every append that answered true has
        its record in the database. */
    method Drain() returns (idle: bool)
      requires Valid()
      ensures idle <==> accepted == 0
      ensures idle ==> deferred == [] && Held(replay) == 0 && committed == arrived
      ensures idle ==> forall id | id in results && results[id] :: id in direct || id in committed
    {
      ReachableInvariant(View());
      idle := accepted == 0;
    }
  }
}
