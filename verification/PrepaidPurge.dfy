/** Purging the events and daily rows of past weeks: while the clock does not run
    backwards nobody can tell (src/db/requests/settlement.rs:23-45). */
module PrepaidPurge {
  import opened Json
  import opened Limits
  import opened Money
  import opened PrepaidLedger
  import opened PrepaidBudgets

  /** The first day that a purge keeps. */
  function CutoffDay(now: nat): int
  {
    TruncatedDiv(now - WEEK, DAY)
  }

  /** One call of `delete_expired_budget_rollups`: some of the old rows go, as many as
      its limit lets it take. A row stays where its mark is true. */
  datatype Marks = Marks(charges: seq<bool>, rollups: seq<bool>)

  datatype Event = Do(o: Operation) | Purge(now: nat, marks: Marks)

  function Marked<T>(xs: seq<T>, marks: seq<bool>): seq<T>
    requires |marks| == |xs|
  {
    if xs == [] then [] else (if marks[0] then [xs[0]] else []) + Marked(xs[1..], marks[1..])
  }

  predicate Legal(s: Account, e: Event)
  {
    e.Purge? ==>
      && |e.marks.charges| == |s.charges| && |e.marks.rollups| == |s.rollups|
      && (forall i | 0 <= i < |s.charges| && !e.marks.charges[i] :: s.charges[i].at < CutoffDay(e.now) * DAY)
      && (forall i | 0 <= i < |s.rollups| && !e.marks.rollups[i] :: s.rollups[i].day < CutoffDay(e.now))
  }

  function Purged(s: Account, marks: Marks): Account
    requires |marks.charges| == |s.charges| && |marks.rollups| == |s.rollups|
  {
    s.(charges := Marked(s.charges, marks.charges), rollups := Marked(s.rollups, marks.rollups))
  }

  function ApplyEvent(p: Policies, s: Account, e: Event): Account
    requires Legal(s, e)
  {
    match e
    case Do(o) => Apply(p, s, o).0
    case Purge(_, marks) => Purged(s, marks)
  }

  // ------------------------------------------------------------------- the tables

  lemma {:induction false} SumCons<T>(x: T, xs: seq<T>, f: T -> int)
    ensures Sum([x] + xs, f) == f(x) + Sum(xs, f)
  {
    if xs == [] {
      assert ([x] + xs)[..0] == [];
    } else {
      var n := |xs| - 1;
      SumCons(x, xs[..n], f);
      assert ([x] + xs)[..n + 1] == [x] + xs[..n];
    }
  }

  lemma {:induction false} SumMarked<T>(xs: seq<T>, marks: seq<bool>, f: T -> int)
    requires |marks| == |xs| && forall i | 0 <= i < |xs| && !marks[i] :: f(xs[i]) == 0
    ensures Sum(Marked(xs, marks), f) == Sum(xs, f)
  {
    if xs != [] {
      SumMarked(xs[1..], marks[1..], f);
      SumCons(xs[0], xs[1..], f);
      SumCons(xs[0], Marked(xs[1..], marks[1..]), f);
      assert xs == [xs[0]] + xs[1..];
      assert [] + Marked(xs[1..], marks[1..]) == Marked(xs[1..], marks[1..]);
    }
  }

  lemma {:induction false} RowAtMarked(rollups: seq<Rollup>, marks: seq<bool>, k: Key, day: int)
    requires |marks| == |rollups| && forall i | 0 <= i < |rollups| && !marks[i] :: rollups[i].day < day
    ensures RowAt(Marked(rollups, marks), k, day) == RowAt(rollups, k, day)
  {
    if rollups != [] {
      var rest := Marked(rollups[1..], marks[1..]);
      RowAtMarked(rollups[1..], marks[1..], k, day);
      if marks[0] {
        assert ([rollups[0]] + rest)[1..] == rest;
      } else {
        assert [] + rest == rest;
      }
    }
  }

  /** Two accounts that differ at most in what is too old for any query from now on. */
  ghost predicate Agree(u: Account, s: Account, clock: nat)
  {
    && u == s.(charges := u.charges, rollups := u.rollups)
    && (forall k, from, to | from >= clock - WEEK ::
          Sum(u.charges, During(k, from, to)) == Sum(s.charges, During(k, from, to)))
    && (forall k, day | day >= CutoffDay(clock) :: RowAt(u.rollups, k, day) == RowAt(s.rollups, k, day))
    && (forall k, day | day >= CutoffDay(clock) ::
          Sum(u.rollups, RollupFrom(k, day)) == Sum(s.rollups, RollupFrom(k, day)))
  }

  lemma {:induction false} CutoffGrows(clock: nat, now: nat)
    requires clock <= now
    ensures CutoffDay(clock) <= CutoffDay(now) <= now / DAY
    ensures CutoffDay(clock) <= TruncatedDiv(now - WEEK, DAY) + 1
    ensures CutoffDay(now) > 0 ==> CutoffDay(now) * DAY <= now - WEEK
  {
  }

  lemma {:induction false} AgreeLater(u: Account, s: Account, clock: nat, now: nat)
    requires Agree(u, s, clock) && clock <= now
    ensures Agree(u, s, now)
  {
    CutoffGrows(clock, now);
  }

  /** No daily or weekly query sees the difference. */
  lemma {:induction false} QueriesAgree(u: Account, s: Account, k: Key, now: nat)
    requires Agree(u, s, now)
    ensures DailySettled(u, k, now) == DailySettled(s, k, now)
    ensures WeeklySettled(u, k, now) == WeeklySettled(s, k, now)
  {
    CutoffGrows(now, now);
  }

  lemma {:induction false} PurgedAgrees(u: Account, e: Event)
    requires e.Purge? && Legal(u, e)
    ensures Agree(Purged(u, e.marks), u, e.now)
  {
    CutoffGrows(e.now, e.now);
    forall k, from, to | from >= e.now - WEEK
      ensures Sum(Marked(u.charges, e.marks.charges), During(k, from, to)) == Sum(u.charges, During(k, from, to))
    {
      SumMarked(u.charges, e.marks.charges, During(k, from, to));
    }
    forall k, day | day >= CutoffDay(e.now)
      ensures RowAt(Marked(u.rollups, e.marks.rollups), k, day) == RowAt(u.rollups, k, day)
      ensures Sum(Marked(u.rollups, e.marks.rollups), RollupFrom(k, day)) == Sum(u.rollups, RollupFrom(k, day))
    {
      RowAtMarked(u.rollups, e.marks.rollups, k, day);
      SumMarked(u.rollups, e.marks.rollups, RollupFrom(k, day));
    }
  }

  /** A purge at one time changes no daily and no weekly query at that time or later. */
  lemma {:induction false} PurgeIsInvisible(s: Account, e: Event, k: Key, now: nat)
    requires e.Purge? && Legal(s, e) && e.now <= now
    ensures DailySettled(Purged(s, e.marks), k, now) == DailySettled(s, k, now)
    ensures WeeklySettled(Purged(s, e.marks), k, now) == WeeklySettled(s, k, now)
  {
    PurgedAgrees(s, e);
    AgreeLater(Purged(s, e.marks), s, e.now, now);
    QueriesAgree(Purged(s, e.marks), s, k, now);
  }

  /** An earlier clock can see it: a charge of the first day is gone on the ninth. */
  lemma {:induction false} EarlierClockSees(s: Account)
    requires s.charges == [Charge(0, 5, 0)] && s.rollups == [Rollup(0, 0, 5)]
    ensures var e := Purge(8 * DAY, Marks([false], [false]));
            Legal(s, e) && DailySettled(s, 0, 0) == 5 && DailySettled(Purged(s, e.marks), 0, 0) == 0
  {
    assert Marked(s.rollups, [false]) == [] + Marked([], []);
  }

  // ------------------------------------------------------------------------- runs

  lemma {:induction false} RecordAgrees(u: Account, s: Account, id: nat, actual: int, now: nat)
    requires Agree(u, s, now) && Active(s, id)
    ensures Active(u, id) && Agree(Record(u, id, actual, now), Record(s, id, actual, now), now)
  {
    var c := Charge(s.reservations[id].key, actual, now);
    forall k, from, to | from >= now - WEEK
      ensures Sum(u.charges + [c], During(k, from, to)) == Sum(s.charges + [c], During(k, from, to))
    {
      SumAppend(u.charges, c, During(k, from, to));
      SumAppend(s.charges, c, During(k, from, to));
    }
    forall k, day | day >= CutoffDay(now)
      ensures RowAt(Upsert(u.rollups, c.key, now / DAY, actual), k, day)
              == RowAt(Upsert(s.rollups, c.key, now / DAY, actual), k, day)
      ensures Sum(Upsert(u.rollups, c.key, now / DAY, actual), RollupFrom(k, day))
              == Sum(Upsert(s.rollups, c.key, now / DAY, actual), RollupFrom(k, day))
    {
      UpsertRow(u.rollups, c.key, now / DAY, actual, k, day);
      UpsertRow(s.rollups, c.key, now / DAY, actual, k, day);
      UpsertSum(u.rollups, c.key, now / DAY, actual, k, day);
      UpsertSum(s.rollups, c.key, now / DAY, actual, k, day);
    }
  }

  lemma {:induction false} MaximumAgrees(p: Policy, u: Account, s: Account, k: Key, held: int, now: nat)
    requires Agree(u, s, now) && k in s.keys
    ensures MaximumCharge(p, u, k, held, now) == MaximumCharge(p, s, k, held, now)
  {
    QueriesAgree(u, s, k, now);
  }

  lemma {:induction false} OverBudgetAgrees(p: Policy, u: Account, s: Account, k: Key, held: int, now: nat)
    requires Agree(u, s, now) && k in s.keys
    ensures OverBudget(p, u, k, held, now) == OverBudget(p, s, k, held, now)
  {
    QueriesAgree(u, s, k, now);
  }

  lemma {:induction false} SettleAgrees(p: Policies, u: Account, s: Account, id: nat, calculated: int, now: nat)
    requires Agree(u, s, now)
    ensures Settle(p, u, id, calculated, now).1 == Settle(p, s, id, calculated, now).1
    ensures Agree(Settle(p, u, id, calculated, now).0, Settle(p, s, id, calculated, now).0, now)
  {
    if Active(s, id) {
      var r := s.reservations[id];
      MaximumAgrees(p(r.key), u, s, r.key, r.amount, now);
      RecordAgrees(u, s, id, Least(calculated, MaximumCharge(p(r.key), s, r.key, r.amount, now)), now);
    }
  }

  lemma {:induction false} ReserveAgrees(p: Policy, u: Account, s: Account, k: Key, amount: I64, now: nat,
                                         admitted: bool)
    requires Agree(u, s, now)
    ensures Reserve(p, u, k, amount, now, admitted).1 == Reserve(p, s, k, amount, now, admitted).1
    ensures Agree(Reserve(p, u, k, amount, now, admitted).0, Reserve(p, s, k, amount, now, admitted).0, now)
  {
    if k in s.keys { OverBudgetAgrees(p, u, s, k, Sat(s.keys[k].reserved + amount), now); }
  }

  lemma {:induction false} ResizeAgrees(p: Policy, u: Account, s: Account, id: nat, expected: I64, amount: I64,
                                        retoken: bool, now: nat, admitted: bool)
    requires Agree(u, s, now)
    ensures Resize(p, u, id, expected, amount, retoken, now, admitted).1
            == Resize(p, s, id, expected, amount, retoken, now, admitted).1
    ensures Agree(Resize(p, u, id, expected, amount, retoken, now, admitted).0,
                  Resize(p, s, id, expected, amount, retoken, now, admitted).0, now)
  {
    if Active(s, id) {
      var k := s.reservations[id].key;
      OverBudgetAgrees(p, u, s, k, s.keys[k].reserved - expected + amount, now);
    }
  }

  /** An operation answers the same, and the accounts stay alike. */
  lemma {:induction false} StepAgrees(p: Policies, u: Account, s: Account, o: Operation, clock: nat)
    requires Agree(u, s, clock) && clock <= TimeOf(o, clock)
    ensures Apply(p, u, o).1 == Apply(p, s, o).1
    ensures Agree(Apply(p, u, o).0, Apply(p, s, o).0, TimeOf(o, clock))
  {
    AgreeLater(u, s, clock, TimeOf(o, clock));
    match o
    case ReserveOp(k, amount, now, admitted) => ReserveAgrees(p(k), u, s, k, amount, now, admitted);
    case ResizeOp(id, expected, amount, retoken, now, admitted) =>
      if id < |s.reservations| {
        ResizeAgrees(p(s.reservations[id].key), u, s, id, expected, amount, retoken, now, admitted);
      }
    case SettleOp(id, calculated, now) => SettleAgrees(p, u, s, id, calculated, now);
    case _ =>
  }

  /** What was done besides purging. */
  function Operations(events: seq<Event>): seq<Operation>
  {
    if events == [] then []
    else (if events[0].Do? then [events[0].o] else []) + Operations(events[1..])
  }

  function EventTime(e: Event, clock: nat): nat
  {
    match e
    case Do(o) => TimeOf(o, clock)
    case Purge(now, _) => now
  }

  /** The clock does not run backwards, and every purge takes old rows only. */
  predicate Sound(p: Policies, s: Account, events: seq<Event>, clock: nat)
    decreases |events|
  {
    events == [] ||
    (&& clock <= EventTime(events[0], clock) && Legal(s, events[0])
     && Sound(p, ApplyEvent(p, s, events[0]), events[1..], EventTime(events[0], clock)))
  }

  function RunEvents(p: Policies, s: Account, events: seq<Event>, clock: nat): Account
    requires Sound(p, s, events, clock)
    decreases |events|
  {
    if events == [] then s
    else RunEvents(p, ApplyEvent(p, s, events[0]), events[1..], EventTime(events[0], clock))
  }

  /** The answers to the operations, in order. */
  function Answers(p: Policies, s: Account, events: seq<Event>, clock: nat): seq<Outcome>
    requires Sound(p, s, events, clock)
    decreases |events|
  {
    if events == [] then []
    else
      (if events[0].Do? then [Apply(p, s, events[0].o).1] else [])
      + Answers(p, ApplyEvent(p, s, events[0]), events[1..], EventTime(events[0], clock))
  }

  function PlainAnswers(p: Policies, s: Account, ops: seq<Operation>): seq<Outcome>
    decreases |ops|
  {
    if ops == [] then [] else [Apply(p, s, ops[0]).1] + PlainAnswers(p, Apply(p, s, ops[0]).0, ops[1..])
  }

  function EndTime(events: seq<Event>, clock: nat): nat
    decreases |events|
  {
    if events == [] then clock else EndTime(events[1..], EventTime(events[0], clock))
  }

  /** Purging any old rows at any times answers every operation as if nothing had been
      purged, and leaves the accounts alike for every later query. */
  lemma {:induction false} PurgesAreInvisible(p: Policies, u: Account, s: Account, events: seq<Event>, clock: nat)
    requires Agree(u, s, clock) && Sound(p, u, events, clock)
    ensures Answers(p, u, events, clock) == PlainAnswers(p, s, Operations(events))
    ensures Agree(RunEvents(p, u, events, clock), Run(p, s, Operations(events)), EndTime(events, clock))
    decreases |events|
  {
    if events != [] {
      var e, rest := events[0], Operations(events[1..]);
      var next := ApplyEvent(p, u, e);
      if e.Do? {
        StepAgrees(p, u, s, e.o, clock);
        assert ([e.o] + rest)[0] == e.o && ([e.o] + rest)[1..] == rest;
        PurgesAreInvisible(p, next, Apply(p, s, e.o).0, events[1..], EventTime(e, clock));
      } else {
        AgreeLater(u, s, clock, e.now);
        PurgedAgrees(u, e);
        PurgesAreInvisible(p, next, s, events[1..], EventTime(e, clock));
        assert [] + rest == rest;
      }
    }
  }

  lemma {:induction false} AgreeSelf(s: Account, clock: nat)
    ensures Agree(s, s, clock)
  {
  }

  lemma {:induction false} PlainIsForward(p: Policies, s: Account, events: seq<Event>, clock: nat, plain: nat)
    requires Sound(p, s, events, clock) && plain <= clock
    ensures Forward(Operations(events), plain) && Clock(Operations(events), plain) <= EndTime(events, clock)
    decreases |events|
  {
    if events != [] {
      var e, rest := events[0], Operations(events[1..]);
      if e.Do? {
        assert ([e.o] + rest)[0] == e.o && ([e.o] + rest)[1..] == rest;
        PlainIsForward(p, ApplyEvent(p, s, e), events[1..], EventTime(e, clock), TimeOf(e.o, plain));
      } else {
        assert [] + rest == rest;
        PlainIsForward(p, ApplyEvent(p, s, e), events[1..], e.now, plain);
      }
    }
  }

  /** So a usage within its hold is charged in full also after any purges. */
  lemma {:induction false} HeldUsageIsChargedAfterPurges(p: Policies, start: Account, events: seq<Event>, id: nat,
                                                         calculated: int, now: nat)
    requires IsEmpty(start) && Sound(p, start, events, 0) && EndTime(events, 0) <= now
    requires forall o | o in Operations(events) :: Sensible(o)
    requires var u := RunEvents(p, start, events, 0);
             && id < |u.reservations| && u.reservations[id].actual.None?
             && Enforced(p(u.reservations[id].key)) && 0 <= calculated <= u.reservations[id].amount
    ensures Settle(p, RunEvents(p, start, events, 0), id, calculated, now).1 == Done(calculated)
  {
    var u, s := RunEvents(p, start, events, 0), Run(p, start, Operations(events));
    AgreeSelf(start, 0);
    PurgesAreInvisible(p, start, start, events, 0);
    PlainIsForward(p, start, events, 0, 0);
    HeldUsageIsCharged(p, start, Operations(events), s, id, calculated, now);
    AgreeLater(u, s, EndTime(events, 0), now);
    SettleAgrees(p, u, s, id, calculated, now);
  }
}
