/** Over every run, the charges of a key stay within its budgets, and what was held
    for a request can always be charged
    (src/db/requests/settlement.rs:721-801, 987-1040, 1390-1425). */
module PrepaidBudgets {
  import opened Json
  import opened Limits
  import opened Money
  import opened PrepaidLedger

  /** A budget at the 64-bit limit is no budget: the sums it is compared with
      saturate there. */
  predicate InBudget(total: int, budget: I64)
  {
    total == 0 || total <= budget || budget == MAX_I64
  }

  predicate Allows(budget: Option<I64>, total: int)
  {
    budget.Some? ==> InBudget(total, budget.value)
  }

  predicate KeyKept(p: Policy, s: Account, k: Key)
    requires k in s.keys
  {
    && Allows(p.lifetime, s.keys[k].settled + s.keys[k].reserved)
    && (p.maxConcurrency.Some? ==> Sum(s.reservations, CountOf(k)) <= p.maxConcurrency.value)
  }

  predicate DayKept(p: Policy, charges: seq<Charge>, k: Key, day: int)
  {
    p.daily.Some? ==> Sum(charges, During(k, day * DAY, (day + 1) * DAY)) <= NonNegative(p.daily.value)
  }

  predicate WeekKept(p: Policy, charges: seq<Charge>, k: Key, from: int)
  {
    p.weekly.Some? ==> Sum(charges, During(k, from, from + WEEK + 1)) <= NonNegative(p.weekly.value)
  }

  /** Charged and held money of a key stay within its lifetime budget, its charges
      of any day within the daily one and of any seven days, wherever they begin,
      within the weekly one; and no more reservations are active than allowed. */
  ghost predicate Kept(p: Policies, s: Account)
  {
    && (forall k | k in s.keys :: KeyKept(p(k), s, k))
    && (forall k, day :: DayKept(p(k), s.charges, k, day))
    && (forall k, from :: WeekKept(p(k), s.charges, k, from))
  }

  lemma {:induction false} KeyNonNegative(s: Account, k: Key, now: nat)
    requires Books(s) && k in s.keys
    ensures s.keys[k].reserved >= 0 && s.keys[k].settled >= 0
    ensures DailySettled(s, k, now) >= 0 && WeeklySettled(s, k, now) >= 0
  {
    assert KeyBalanced(s, k);
    SumNonNegative(s.reservations, OpenOf(k));
    SettledNonNegative(s, k, now);
  }

  lemma {:induction false} ChargeKeepsDay(p: Policy, s: Account, c: Charge, k: Key, day: int)
    requires Books(s) && c.key in s.keys && DayKept(p, s.charges, k, day)
    requires c.key == k && c.amount > 0 && p.daily.Some? ==> DailySettled(s, k, c.at) + c.amount <= p.daily.value
    requires c.amount >= 0
    ensures DayKept(p, s.charges + [c], k, day)
  {
    SumAppend(s.charges, c, During(k, day * DAY, (day + 1) * DAY));
    DaysOf(c.at, day);
    DaysOf(c.at, day + 1);
  }

  /** The seven days that hold a new charge lie within the seven days before it, up
      to charges still to come. */
  lemma {:induction false} ChargeKeepsWeek(p: Policy, s: Account, c: Charge, k: Key, from: int)
    requires Books(s) && c.key in s.keys && WeekKept(p, s.charges, k, from)
    requires c.key == k && c.amount > 0 && p.weekly.Some? ==> WeeklySettled(s, k, c.at) + c.amount <= p.weekly.value
    requires c.amount >= 0
    ensures WeekKept(p, s.charges + [c], k, from)
  {
    var window := During(k, from, from + WEEK + 1);
    SumAppend(s.charges, c, window);
    if from <= c.at <= from + WEEK {
      WeeklyIsRolling(s, k, c.at);
      SumLe(s.charges, window, Since(k, c.at - WEEK));
    }
  }

  lemma {:induction false} SettleKeepsBudgets(p: Policies, s: Account, id: nat, calculated: int, now: nat)
    requires Books(s) && Kept(p, s)
    ensures Kept(p, Settle(p, s, id, calculated, now).0)
  {
    if calculated >= 0 && Active(s, id) {
      var r := s.reservations[id];
      var most := MaximumCharge(p(r.key), s, r.key, r.amount, now);
      var actual := Least(calculated, most);
      var t := Record(s, id, actual, now);
      HeldByKey(s, id);
      MaximumChargeBounds(p(r.key), s, id, now);
      SettledNonNegative(s, r.key, now);
      forall k | k in t.keys
        ensures KeyKept(p(k), t, k)
      {
        assert KeyKept(p(k), s, k);
        SumUpdate(s.reservations, id, r.(actual := Some(actual)), CountOf(k));
      }
      forall k, day ensures DayKept(p(k), t.charges, k, day) {
        ChargeKeepsDay(p(k), s, Charge(r.key, actual, now), k, day);
      }
      forall k, from ensures WeekKept(p(k), t.charges, k, from) {
        ChargeKeepsWeek(p(k), s, Charge(r.key, actual, now), k, from);
      }
    }
  }

  lemma {:induction false} ReserveKeepsBudgets(p: Policies, s: Account, k: Key, amount: I64, now: nat, admitted: bool)
    requires Books(s) && Kept(p, s) && amount >= 0
    ensures Kept(p, Reserve(p(k), s, k, amount, now, admitted).0)
  {
    var (t, outcome) := Reserve(p(k), s, k, amount, now, admitted);
    if outcome.Done? {
      KeyNonNegative(s, k, now);
      forall other | other in t.keys
        ensures KeyKept(p(other), t, other)
      {
        assert KeyKept(p(other), s, other);
        SumAppend(s.reservations, Reservation(k, amount, None), CountOf(other));
      }
    }
  }

  lemma {:induction false} ResizeKeepsBudgets(p: Policies, s: Account, id: nat, expected: I64, amount: I64,
                                              retoken: bool, now: nat,
                                              admitted: bool)
    requires Books(s) && Kept(p, s) && id < |s.reservations|
    ensures Kept(p, Resize(p(s.reservations[id].key), s, id, expected, amount, retoken, now, admitted).0)
  {
    var (t, outcome) := Resize(p(s.reservations[id].key), s, id, expected, amount, retoken, now, admitted);
    if t != s {
      KeyNonNegative(s, s.reservations[id].key, now);
      forall other | other in t.keys
        ensures KeyKept(p(other), t, other)
      {
        assert KeyKept(p(other), s, other);
        SumUpdate(s.reservations, id, s.reservations[id].(amount := amount), CountOf(other));
      }
    }
  }

  lemma {:induction false} StepKeepsBudgets(p: Policies, s: Account, o: Operation)
    requires Books(s) && Kept(p, s) && Sensible(o)
    ensures Kept(p, Apply(p, s, o).0)
  {
    match o
    case GrantOp(micros) => SameKeysKept(p, s, Grant(s, micros).0);
    case ReverseOp(micros) => SameKeysKept(p, s, Reverse(s, micros).0);
    case AddKeyOp(k) =>
      if k !in s.keys {
        NoRowsOf(s.reservations, CountOf(k));
        var t := AddKey(s, k).0;
        forall other | other in t.keys ensures KeyKept(p(other), t, other) {
          assert other != k ==> KeyKept(p(other), s, other);
        }
      }
    case ReserveOp(k, amount, now, admitted) => ReserveKeepsBudgets(p, s, k, amount, now, admitted);
    case ResizeOp(id, expected, amount, retoken, now, admitted) =>
      if id < |s.reservations| { ResizeKeepsBudgets(p, s, id, expected, amount, retoken, now, admitted); }
    case SettleOp(id, calculated, now) => SettleKeepsBudgets(p, s, id, calculated, now);
  }

  lemma {:induction false} SameKeysKept(p: Policies, s: Account, t: Account)
    requires Kept(p, s) && t.keys == s.keys && t.reservations == s.reservations && t.charges == s.charges
    ensures Kept(p, t)
  {
    forall k | k in t.keys ensures KeyKept(p(k), t, k) { assert KeyKept(p(k), s, k); }
  }

  lemma {:induction false} EmptyIsSound(p: Policies, s: Account)
    requires IsEmpty(s)
    ensures Books(s) && Kept(p, s)
  {
    forall k, day ensures DayKept(p(k), s.charges, k, day) {}
    forall k, from ensures WeekKept(p(k), s.charges, k, from) {}
  }

  /** After any sequence of operations, in whatever order their clocks ran, the
      books balance and every budget was kept. */
  lemma {:induction false} RunKeeps(p: Policies, s: Account, ops: seq<Operation>)
    requires Books(s) && Kept(p, s) && forall o | o in ops :: Sensible(o)
    ensures Books(Run(p, s, ops)) && Kept(p, Run(p, s, ops))
    decreases |ops|
  {
    if ops != [] {
      StepKeepsBooks(p, s, ops[0]);
      StepKeepsBudgets(p, s, ops[0]);
      RunKeeps(p, Apply(p, s, ops[0]).0, ops[1..]);
    }
  }

  // ------------------------------------------------------- holds are chargeable

  /** What a key is charged and holds fits each of its budgets as they stand now. */
  predicate Headroom(p: Policy, s: Account, k: Key, now: nat)
    requires k in s.keys
  {
    && Allows(p.daily, DailySettled(s, k, now) + s.keys[k].reserved)
    && Allows(p.weekly, WeeklySettled(s, k, now) + s.keys[k].reserved)
    && Allows(p.lifetime, s.keys[k].settled + s.keys[k].reserved)
  }

  predicate Past(s: Account, now: nat)
  {
    forall c | c in s.charges :: c.at <= now
  }

  ghost predicate Steady(p: Policies, s: Account, now: nat)
  {
    Past(s, now) && forall k | k in s.keys :: Headroom(p(k), s, k, now)
  }

  /** As time passes the day and the week only forget charges. */
  lemma {:induction false} HeadroomLater(p: Policy, s: Account, k: Key, now: nat, later: nat)
    requires Books(s) && k in s.keys && Past(s, now) && now <= later && Headroom(p, s, k, now)
    ensures Headroom(p, s, k, later)
  {
    WeeklyIsRolling(s, k, now);
    WeeklyIsRolling(s, k, later);
    SumLe(s.charges, Since(k, later - WEEK), Since(k, now - WEEK));
    DaysOf(now, later / DAY);
    var today, before := During(k, later / DAY * DAY, (later / DAY + 1) * DAY),
                         During(k, now / DAY * DAY, (now / DAY + 1) * DAY);
    if later / DAY != now / DAY {
      assert now < later / DAY * DAY;
      NoRowsOf(s.charges, today);
      SumNonNegative(s.charges, before);
    }
    KeyNonNegative(s, k, now);
    KeyNonNegative(s, k, later);
  }

  lemma {:induction false} SteadyLater(p: Policies, s: Account, now: nat, later: nat)
    requires Books(s) && Steady(p, s, now) && now <= later
    ensures Steady(p, s, later)
  {
    forall k | k in s.keys ensures Headroom(p(k), s, k, later) {
      HeadroomLater(p(k), s, k, now, later);
    }
  }

  lemma {:induction false} SteadyReserve(p: Policies, s: Account, k: Key, amount: I64, now: nat, admitted: bool)
    requires Books(s) && Steady(p, s, now) && amount >= 0
    ensures Steady(p, Reserve(p(k), s, k, amount, now, admitted).0, now)
  {
    var (t, outcome) := Reserve(p(k), s, k, amount, now, admitted);
    if outcome.Done? {
      KeyNonNegative(s, k, now);
      forall other | other in t.keys ensures Headroom(p(other), t, other, now) {
        assert Headroom(p(other), s, other, now);
      }
    }
  }

  lemma {:induction false} SteadyResize(p: Policies, s: Account, id: nat, expected: I64, amount: I64, retoken: bool,
                                        now: nat, admitted: bool)
    requires Books(s) && Steady(p, s, now) && id < |s.reservations| && amount >= 0
    ensures Steady(p, Resize(p(s.reservations[id].key), s, id, expected, amount, retoken, now, admitted).0, now)
  {
    var (t, outcome) := Resize(p(s.reservations[id].key), s, id, expected, amount, retoken, now, admitted);
    if t != s {
      KeyNonNegative(s, s.reservations[id].key, now);
      forall other | other in t.keys ensures Headroom(p(other), t, other, now) {
        assert Headroom(p(other), s, other, now);
      }
    }
  }

  /** A charge moves what was held into what is settled. */
  lemma {:induction false} SettledGrow(s: Account, id: nat, actual: int, now: nat, k: Key)
    requires Books(s) && Active(s, id)
    ensures var t := Record(s, id, actual, now); var r := s.reservations[id];
            && DailySettled(t, k, now) == DailySettled(s, k, now) + (if k == r.key then actual else 0)
            && WeeklySettled(t, k, now) == WeeklySettled(s, k, now) + (if k == r.key then actual else 0)
  {
    var r, t := s.reservations[id], Record(s, id, actual, now);
    UpsertRow(s.rollups, r.key, now / DAY, actual, k, now / DAY);
    RecordRollups(s.rollups, s.charges, r.key, actual, now);
    WeeklyIsRolling(s, k, now);
    WeeklyIsRolling(t, k, now);
    SumAppend(s.charges, Charge(r.key, actual, now), Since(k, now - WEEK));
  }

  lemma {:induction false} SteadySettle(p: Policies, s: Account, id: nat, calculated: int, now: nat)
    requires Books(s) && Steady(p, s, now)
    ensures Steady(p, Settle(p, s, id, calculated, now).0, now)
  {
    if calculated >= 0 && Active(s, id) {
      var r := s.reservations[id];
      var actual := Least(calculated, MaximumCharge(p(r.key), s, r.key, r.amount, now));
      var t := Record(s, id, actual, now);
      HeldByKey(s, id);
      MaximumChargeBounds(p(r.key), s, id, now);
      forall k | k in t.keys ensures Headroom(p(k), t, k, now) {
        assert Headroom(p(k), s, k, now);
        SettledGrow(s, id, actual, now, k);
        KeyNonNegative(s, k, now);
      }
    }
  }

  /** The time an operation reads, if it reads one. */
  function TimeOf(o: Operation, clock: nat): nat
  {
    match o
    case ReserveOp(_, _, now, _) => now
    case ResizeOp(_, _, _, _, now, _) => now
    case SettleOp(_, _, now) => now
    case _ => clock
  }

  lemma {:induction false} StepKeepsSteady(p: Policies, s: Account, o: Operation, clock: nat)
    requires Books(s) && Steady(p, s, clock) && Sensible(o) && clock <= TimeOf(o, clock)
    ensures Steady(p, Apply(p, s, o).0, TimeOf(o, clock))
  {
    SteadyLater(p, s, clock, TimeOf(o, clock));
    match o
    case GrantOp(micros) => SameKeysSteady(p, s, Grant(s, micros).0, clock);
    case ReverseOp(micros) => SameKeysSteady(p, s, Reverse(s, micros).0, clock);
    case AddKeyOp(k) => SteadyAddKey(p, s, k, clock);
    case ReserveOp(k, amount, now, admitted) => SteadyReserve(p, s, k, amount, now, admitted);
    case ResizeOp(id, expected, amount, retoken, now, admitted) =>
      if id < |s.reservations| { SteadyResize(p, s, id, expected, amount, retoken, now, admitted); }
    case SettleOp(id, calculated, now) => SteadySettle(p, s, id, calculated, now);
  }

  lemma {:induction false} SameKeysSteady(p: Policies, s: Account, t: Account, now: nat)
    requires Steady(p, s, now)
    requires t.keys == s.keys && t.charges == s.charges && t.rollups == s.rollups
    ensures Steady(p, t, now)
  {
    forall k | k in t.keys ensures Headroom(p(k), t, k, now) { assert Headroom(p(k), s, k, now); }
  }

  lemma {:induction false} SteadyAddKey(p: Policies, s: Account, k: Key, now: nat)
    requires Books(s) && Steady(p, s, now)
    ensures Steady(p, AddKey(s, k).0, now)
  {
    var t := AddKey(s, k).0;
    if k !in s.keys {
      WeeklyIsRolling(s, k, now);
      NoRowsOf(s.charges, Since(k, now - WEEK));
      NoRowsOf(s.charges, During(k, now / DAY * DAY, (now / DAY + 1) * DAY));
      forall other | other in t.keys ensures Headroom(p(other), t, other, now) {
        assert other != k ==> Headroom(p(other), s, other, now);
      }
    }
  }

  predicate Forward(ops: seq<Operation>, clock: nat)
    decreases |ops|
  {
    ops == [] || (clock <= TimeOf(ops[0], clock) && Forward(ops[1..], TimeOf(ops[0], clock)))
  }

  function Clock(ops: seq<Operation>, clock: nat): nat
    decreases |ops|
  {
    if ops == [] then clock else Clock(ops[1..], TimeOf(ops[0], clock))
  }

  lemma {:induction false} RunKeepsSteady(p: Policies, s: Account, ops: seq<Operation>, clock: nat)
    requires Books(s) && Kept(p, s) && Steady(p, s, clock) && Forward(ops, clock)
    requires forall o | o in ops :: Sensible(o)
    ensures Books(Run(p, s, ops)) && Kept(p, Run(p, s, ops))
    ensures Steady(p, Run(p, s, ops), Clock(ops, clock))
    decreases |ops|
  {
    if ops != [] {
      StepKeepsBooks(p, s, ops[0]);
      StepKeepsBudgets(p, s, ops[0]);
      StepKeepsSteady(p, s, ops[0], clock);
      RunKeepsSteady(p, Apply(p, s, ops[0]).0, ops[1..], TimeOf(ops[0], clock));
    }
  }

  /** No budget at the 64-bit limit, where the checks saturate. */
  predicate Enforced(p: Policy)
  {
    && (p.daily.Some? ==> p.daily.value < MAX_I64)
    && (p.weekly.Some? ==> p.weekly.value < MAX_I64)
    && (p.lifetime.Some? ==> p.lifetime.value < MAX_I64)
  }

  lemma {:induction false} CappedCovers(charge: int, budget: Option<I64>, settled: int, others: int, held: I64)
    requires settled >= 0 && others >= 0 && 0 <= held <= charge
    requires budget.Some? ==> held == 0 || settled + others + held <= budget.value
    ensures Capped(charge, budget, settled, others) >= held
  {
  }

  lemma {:induction false} AllCover(p: Policy, funds: int, daily: int, weekly: int, lifetime: int, others: int,
                                    held: I64)
    requires daily >= 0 && weekly >= 0 && lifetime >= 0 && others >= 0 && 0 <= held <= funds && Enforced(p)
    requires Allows(p.daily, daily + others + held) && Allows(p.weekly, weekly + others + held)
    requires Allows(p.lifetime, lifetime + others + held)
    ensures AllCapped(p, funds, daily, weekly, lifetime, others) >= held
  {
    CappedCovers(funds, p.daily, daily, others, held);
    CappedCovers(Capped(funds, p.daily, daily, others), p.weekly, weekly, others, held);
    var capped := Capped(Capped(funds, p.daily, daily, others), p.weekly, weekly, others);
    CappedCovers(capped, p.lifetime, lifetime, others, held);
  }

  lemma {:induction false} HoldIsChargeable(p: Policy, s: Account, id: nat, now: nat)
    requires Books(s) && Active(s, id) && Enforced(p) && Headroom(p, s, s.reservations[id].key, now)
    ensures MaximumCharge(p, s, s.reservations[id].key, s.reservations[id].amount, now) >= s.reservations[id].amount
  {
    var r := s.reservations[id];
    HeldByKey(s, id);
    KeyNonNegative(s, r.key, now);
    var others := NonNegative(Sat(s.keys[r.key].reserved - r.amount));
    var funds := Sat(NonNegative(s.available) + r.amount);
    SmallerAllowed(p.daily, DailySettled(s, r.key, now), others, r.amount, s.keys[r.key].reserved);
    SmallerAllowed(p.weekly, WeeklySettled(s, r.key, now), others, r.amount, s.keys[r.key].reserved);
    SmallerAllowed(p.lifetime, s.keys[r.key].settled, others, r.amount, s.keys[r.key].reserved);
    AllCover(p, funds, DailySettled(s, r.key, now), WeeklySettled(s, r.key, now), s.keys[r.key].settled, others,
             r.amount);
  }

  lemma {:induction false} SmallerAllowed(budget: Option<I64>, settled: int, others: int, held: int, reserved: int)
    requires Allows(budget, settled + reserved) && settled >= 0 && others >= 0 && held >= 0 && others + held <= reserved
    ensures Allows(budget, settled + others + held)
  {
  }

  lemma {:induction false} ChargedInFull(p: Policies, s: Account, id: nat, calculated: int, now: nat)
    requires Books(s) && Steady(p, s, now) && Active(s, id) && Enforced(p(s.reservations[id].key))
    requires 0 <= calculated <= s.reservations[id].amount
    ensures Settle(p, s, id, calculated, now).1 == Done(calculated)
    ensures Settle(p, s, id, calculated, now).0.available == s.available + s.reservations[id].amount - calculated
  {
    HoldIsChargeable(p(s.reservations[id].key), s, id, now);
    HeldByKey(s, id);
  }

  lemma {:induction false} ReachedIsSteady(p: Policies, start: Account, ops: seq<Operation>, now: nat)
    requires Books(start) && Kept(p, start) && Steady(p, start, 0)
    requires Forward(ops, 0) && Clock(ops, 0) <= now && forall o | o in ops :: Sensible(o)
    ensures Books(Run(p, start, ops)) && Steady(p, Run(p, start, ops), now)
  {
    RunKeepsSteady(p, start, ops, 0);
    SteadyLater(p, Run(p, start, ops), Clock(ops, 0), now);
  }

  /** While the clock does not run backwards, a usage that costs no more than its
      hold is always charged in full, whatever ran before: it meets neither a
      budget nor an empty balance, and the rest of the hold is available again. */
  lemma {:induction false} HeldUsageIsCharged(p: Policies, start: Account, ops: seq<Operation>, s: Account, id: nat,
                                              calculated: int, now: nat)
    requires Forward(ops, 0) && Clock(ops, 0) <= now && forall o | o in ops :: Sensible(o)
    requires IsEmpty(start) && s == Run(p, start, ops)
    requires id < |s.reservations| && s.reservations[id].actual.None? && Enforced(p(s.reservations[id].key))
    requires 0 <= calculated <= s.reservations[id].amount
    ensures Settle(p, s, id, calculated, now).1 == Done(calculated)
    ensures Settle(p, s, id, calculated, now).0.available == s.available + s.reservations[id].amount - calculated
  {
    EmptyIsSound(p, start);
    ReachedIsSteady(p, start, ops, now);
    assert s.reservations[id] in s.reservations;
    ChargedInFull(p, s, id, calculated, now);
  }

  predicate SettledAs(s: Account, id: nat, micros: int)
  {
    id < |s.reservations| && s.reservations[id].actual == Some(micros) && s.reservations[id].key in s.keys
  }

  /** A settled reservation is settled once: nothing that follows changes what it
      was charged, and settling it again charges nothing. */
  lemma {:induction false} SettledOnce(p: Policies, s: Account, ops: seq<Operation>, id: nat, micros: int,
                                       again: nat, now: nat)
    requires SettledAs(s, id, micros)
    ensures SettledAs(Run(p, s, ops), id, micros)
    ensures Settle(p, Run(p, s, ops), id, again, now) == (Run(p, s, ops), Done(micros))
    decreases |ops|
  {
    if ops != [] {
      assert SettledAs(Apply(p, s, ops[0]).0, id, micros);
      SettledOnce(p, Apply(p, s, ops[0]).0, ops[1..], id, micros, again, now);
    }
  }
}
