/** The prepaid books of one account: holds, settlements and the budgets of its keys
    (src/db/requests/settlement.rs:408-430, 653-898, 900-1126, 1283-1623;
    src/db/billing/ledger.rs:138-334). Each operation is one transaction. */
module PrepaidLedger {
  import opened Json
  import opened Limits
  import opened Money

  const DAY := 86_400_000
  const WEEK := 7 * 86_400_000

  type Key = nat

  datatype Policy = Policy(daily: Option<I64>, weekly: Option<I64>, lifetime: Option<I64>, maxConcurrency: Option<nat>)

  type Policies = Key -> Policy

  /** A row of `usage_reservations`; its id is its position. */
  datatype Reservation = Reservation(key: Key, amount: I64, actual: Option<int>)

  /** A row of `key_budget_usage_events`. */
  datatype Charge = Charge(key: Key, amount: int, at: nat)

  /** A row of `key_budget_daily_rollups`. */
  datatype Rollup = Rollup(key: Key, day: int, settled: int)

  /** A row of `key_budget_state`. */
  datatype KeyBudget = KeyBudget(settled: int, reserved: int)

  datatype Account = Account(
    available: int,
    reserved: int,
    settled: int,
    keys: map<Key, KeyBudget>,
    reservations: seq<Reservation>,
    charges: seq<Charge>,
    rollups: seq<Rollup>,
    entries: seq<int>)

  // ---------------------------------------------------------------------- sums

  function Sum<T>(xs: seq<T>, f: T -> int): int
  {
    if xs == [] then 0 else Sum(xs[..|xs| - 1], f) + f(xs[|xs| - 1])
  }

  function Amount(x: int): int
  {
    x
  }

  function Open(): Reservation -> int
  {
    (r: Reservation) => if r.actual.None? then r.amount else 0
  }

  function OpenOf(k: Key): Reservation -> int
  {
    (r: Reservation) => if r.key == k && r.actual.None? then r.amount else 0
  }

  function CountOf(k: Key): Reservation -> int
  {
    (r: Reservation) => if r.key == k && r.actual.None? then 1 else 0
  }

  function ActualOf(k: Key): Reservation -> int
  {
    (r: Reservation) => if r.key == k && r.actual.Some? then r.actual.value else 0
  }

  function Actual(): Reservation -> int
  {
    (r: Reservation) => if r.actual.Some? then r.actual.value else 0
  }

  /** What a key was charged at or after a time. */
  function Since(k: Key, from: int): Charge -> int
  {
    (c: Charge) => if c.key == k && from <= c.at then c.amount else 0
  }

  /** What a key was charged from a time up to, and not at, another. */
  function During(k: Key, from: int, to: int): Charge -> int
  {
    (c: Charge) => if c.key == k && from <= c.at < to then c.amount else 0
  }

  function RollupFrom(k: Key, day: int): Rollup -> int
  {
    (r: Rollup) => if r.key == k && r.day >= day then r.settled else 0
  }

  lemma {:induction false} SumAppend<T>(xs: seq<T>, x: T, f: T -> int)
    ensures Sum(xs + [x], f) == Sum(xs, f) + f(x)
  {
    assert (xs + [x])[..|xs|] == xs;
  }

  lemma {:induction false} SumUpdate<T>(xs: seq<T>, i: nat, x: T, f: T -> int)
    requires i < |xs|
    ensures Sum(xs[i := x], f) == Sum(xs, f) - f(xs[i]) + f(x)
  {
    var n := |xs| - 1;
    if i == n {
      assert xs[i := x][..n] == xs[..n];
    } else {
      SumUpdate(xs[..n], i, x, f);
      assert xs[i := x][..n] == xs[..n][i := x];
    }
  }

  lemma {:induction false} SumLe<T>(xs: seq<T>, f: T -> int, g: T -> int)
    requires forall x | x in xs :: f(x) <= g(x)
    ensures Sum(xs, f) <= Sum(xs, g)
  {
    if xs != [] { SumLe(xs[..|xs| - 1], f, g); }
  }

  lemma {:induction false} SumSplit<T>(xs: seq<T>, f: T -> int, g: T -> int, h: T -> int)
    requires forall x | x in xs :: f(x) == g(x) + h(x)
    ensures Sum(xs, f) == Sum(xs, g) + Sum(xs, h)
  {
    if xs != [] { SumSplit(xs[..|xs| - 1], f, g, h); }
  }

  lemma {:induction false} SumAtLeast<T>(xs: seq<T>, i: nat, f: T -> int)
    requires i < |xs| && forall x | x in xs :: f(x) >= 0
    ensures Sum(xs, f) >= f(xs[i]) >= 0
  {
    var n := |xs| - 1;
    if i == n {
      SumLe(xs[..n], _ => 0, f);
      SumZero(xs[..n]);
    } else {
      SumAtLeast(xs[..n], i, f);
    }
  }

  lemma {:induction false} SumZero<T>(xs: seq<T>)
    ensures Sum(xs, (_: T) => 0) == 0
  {
    if xs != [] { SumZero(xs[..|xs| - 1]); }
  }

  // ------------------------------------------------------------------ settled

  /** The position of a key's row for a day, or the end. */
  function Position(rollups: seq<Rollup>, k: Key, day: int): (i: nat)
    ensures i <= |rollups|
    ensures i < |rollups| ==> rollups[i].key == k && rollups[i].day == day
    ensures forall j | 0 <= j < i :: !(rollups[j].key == k && rollups[j].day == day)
  {
    if rollups == [] then 0
    else if rollups[0].key == k && rollups[0].day == day then 0
    else 1 + Position(rollups[1..], k, day)
  }

  function RowAt(rollups: seq<Rollup>, k: Key, day: int): int
  {
    var i := Position(rollups, k, day);
    if i < |rollups| then rollups[i].settled else 0
  }

  /** `INSERT … ON CONFLICT DO UPDATE` of the daily row. */
  function Upsert(rollups: seq<Rollup>, k: Key, day: int, amount: int): seq<Rollup>
  {
    var i := Position(rollups, k, day);
    if i < |rollups| then rollups[i := rollups[i].(settled := rollups[i].settled + amount)]
    else rollups + [Rollup(k, day, amount)]
  }

  /** `key_budget_daily_settled`. */
  function DailySettled(s: Account, k: Key, now: nat): int
  {
    RowAt(s.rollups, k, now / DAY)
  }

  /** Rust's division rounds toward zero. */
  function TruncatedDiv(a: int, b: int): int
    requires b > 0
  {
    if a >= 0 then a / b else -(-a / b)
  }

  /** `key_budget_rolling_weekly_settled`: whole days from the rollups, the first
      partial day from the single charges. */
  function WeeklySettled(s: Account, k: Key, now: nat): int
  {
    var cutoff := now - WEEK;
    var firstFullDay := TruncatedDiv(cutoff, DAY) + 1;
    Sum(s.rollups, RollupFrom(k, firstFullDay)) + Sum(s.charges, During(k, cutoff, firstFullDay * DAY))
  }

  // ---------------------------------------------------------------- operations

  function Sat(x: int): int
  {
    if x > MAX_I64 then MAX_I64 else if x < MIN_I64 then MIN_I64 else x
  }

  function NonNegative(x: int): int
  {
    if x < 0 then 0 else x
  }

  function Least(a: int, b: int): int
  {
    if a < b then a else b
  }

  predicate Exceeds(budget: Option<I64>, total: int)
  {
    budget.Some? && total > budget.value
  }

  /** The three budget checks of a reservation. */
  predicate OverBudget(p: Policy, s: Account, k: Key, held: int, now: nat)
    requires k in s.keys
  {
    || Exceeds(p.daily, Sat(DailySettled(s, k, now) + held))
    || Exceeds(p.weekly, Sat(WeeklySettled(s, k, now) + held))
    || Exceeds(p.lifetime, Sat(s.keys[k].settled + held))
  }

  datatype Outcome = Done(micros: int) | Refused | Conflict | Missing | Fault

  /** `grant`: a positive amount. */
  function Grant(s: Account, amount: I64): (Account, Outcome)
  {
    if amount <= 0 then (s, Refused)
    else (s.(available := s.available + amount, entries := s.entries + [amount]), Done(amount))
  }

  /** The debit of `reverse_grant`. */
  function Reverse(s: Account, amount: I64): (Account, Outcome)
  {
    if amount <= 0 || s.available < amount then (s, Refused)
    else (s.(available := s.available - amount, entries := s.entries + [-amount]), Done(amount))
  }

  /** Key creation inserts an empty budget row. */
  function AddKey(s: Account, k: Key): (Account, Outcome)
  {
    if k in s.keys then (s, Conflict) else (s.(keys := s.keys[k := KeyBudget(0, 0)]), Done(0))
  }

  predicate TooManyActive(p: Policy, s: Account, k: Key)
  {
    p.maxConcurrency.Some? && Sum(s.reservations, CountOf(k)) >= p.maxConcurrency.value
  }

  /** `reserve_usage_contract_with_id_in_transaction`; `admitted` is the verdict of
      the per-minute limits. */
  function Reserve(p: Policy, s: Account, k: Key, amount: I64, now: nat, admitted: bool): (Account, Outcome)
  {
    if k !in s.keys then (s, Missing)
    else if OverBudget(p, s, k, Sat(s.keys[k].reserved + amount), now) then (s, Refused)
    else if TooManyActive(p, s, k) || !admitted || s.available < amount then (s, Refused)
    else
      (s.(available := s.available - amount, reserved := s.reserved + amount,
          keys := s.keys[k := s.keys[k].(reserved := s.keys[k].reserved + amount)],
          reservations := s.reservations + [Reservation(k, amount, None)]),
       Done(amount))
  }

  predicate Active(s: Account, id: nat)
  {
    id < |s.reservations| && s.reservations[id].actual.None? && s.reservations[id].key in s.keys
  }

  /** `resize_usage_reservation_in_transaction`; `expected` is the hold the caller
      knows of, `retoken` whether the token count changes. */
  function Resize(p: Policy, s: Account, id: nat, expected: I64, amount: I64, retoken: bool, now: nat, admitted: bool)
    : (Account, Outcome)
  {
    if !Active(s, id) || s.reservations[id].amount != expected then (s, Conflict)
    else if amount == expected && !retoken then (s, Done(amount))
    else
      var k := s.reservations[id].key;
      var others, delta := s.keys[k].reserved - expected, amount - expected;
      if others < 0 || others + amount > MAX_I64 || delta > MAX_I64 || delta < MIN_I64 then (s, Fault)
      else if OverBudget(p, s, k, others + amount, now) || !admitted then (s, Refused)
      else if s.available < NonNegative(delta) || s.reserved + delta < 0 then (s, Refused)
      else
        (s.(available := s.available - delta, reserved := s.reserved + delta,
            keys := s.keys[k := s.keys[k].(reserved := s.keys[k].reserved + delta)],
            reservations := s.reservations[id := s.reservations[id].(amount := amount)]),
         Done(amount))
  }

  /** One budget's cap on a charge. */
  function Capped(charge: int, budget: Option<I64>, settled: int, others: int): int
  {
    if budget.None? then charge else Least(charge, NonNegative(Sat(Sat(budget.value - settled) - others)))
  }

  function AllCapped(p: Policy, funds: int, daily: int, weekly: int, lifetime: int, others: int): int
  {
    Capped(Capped(Capped(funds, p.daily, daily, others), p.weekly, weekly, others), p.lifetime, lifetime, others)
  }

  /** The most a settlement may charge. */
  function MaximumCharge(p: Policy, s: Account, k: Key, held: int, now: nat): int
    requires k in s.keys
  {
    AllCapped(p, Sat(NonNegative(s.available) + held), DailySettled(s, k, now), WeeklySettled(s, k, now),
              s.keys[k].settled, NonNegative(Sat(s.keys[k].reserved - held)))
  }

  /** The rows one charge changes. */
  function Record(s: Account, id: nat, actual: int, now: nat): Account
    requires Active(s, id)
  {
    var r := s.reservations[id];
    var released, overage := NonNegative(r.amount - actual), NonNegative(actual - r.amount);
    s.(available := s.available + released - overage,
       reserved := s.reserved - r.amount,
       settled := s.settled + actual,
       keys := s.keys[r.key := KeyBudget(s.keys[r.key].settled + actual, s.keys[r.key].reserved - r.amount)],
       reservations := s.reservations[id := r.(actual := Some(actual))],
       charges := s.charges + [Charge(r.key, actual, now)],
       rollups := Upsert(s.rollups, r.key, now / DAY, actual),
       entries := s.entries + [-actual])
  }

  /** `settle_token_usage_with_explicit_charge` for a priced usage. */
  function Settle(p: Policies, s: Account, id: nat, calculated: int, now: nat): (Account, Outcome)
  {
    if calculated < 0 then (s, Fault)
    else if id >= |s.reservations| || s.reservations[id].key !in s.keys then (s, Missing)
    else if s.reservations[id].actual.Some? then (s, Done(s.reservations[id].actual.value))
    else
      var r := s.reservations[id];
      var actual := Least(calculated, MaximumCharge(p(r.key), s, r.key, r.amount, now));
      if s.keys[r.key].reserved < r.amount then (s, Fault) else (Record(s, id, actual, now), Done(actual))
  }

  datatype Operation =
    | GrantOp(micros: I64)
    | ReverseOp(micros: I64)
    | AddKeyOp(key: Key)
    | ReserveOp(key: Key, amount: I64, now: nat, admitted: bool)
    | ResizeOp(id: nat, expected: I64, amount: I64, retoken: bool, now: nat, admitted: bool)
    | SettleOp(id: nat, calculated: int, now: nat)

  function Apply(p: Policies, s: Account, o: Operation): (Account, Outcome)
  {
    match o
    case GrantOp(micros) => Grant(s, micros)
    case ReverseOp(micros) => Reverse(s, micros)
    case AddKeyOp(k) => AddKey(s, k)
    case ReserveOp(k, amount, now, admitted) => Reserve(p(k), s, k, amount, now, admitted)
    case ResizeOp(id, expected, amount, retoken, now, admitted) =>
      if id < |s.reservations| then
        Resize(p(s.reservations[id].key), s, id, expected, amount, retoken, now, admitted)
      else (s, Conflict)
    case SettleOp(id, calculated, now) => Settle(p, s, id, calculated, now)
  }

  /** Holds are never negative: they are prices. */
  predicate Sensible(o: Operation)
  {
    (o.ReserveOp? ==> o.amount >= 0) && (o.ResizeOp? ==> o.amount >= 0)
  }

  function Run(p: Policies, s: Account, ops: seq<Operation>): Account
    decreases |ops|
  {
    if ops == [] then s else Run(p, Apply(p, s, ops[0]).0, ops[1..])
  }

  /** A new account. */
  predicate IsEmpty(s: Account)
  {
    && s.available == 0 && s.reserved == 0 && s.settled == 0
    && s.keys == map[] && s.reservations == [] && s.charges == [] && s.rollups == [] && s.entries == []
  }

  // ---------------------------------------------------------------- invariants

  predicate RowsSound(s: Account)
  {
    && (forall r | r in s.reservations ::
          r.key in s.keys && r.amount >= 0 && (r.actual.Some? ==> r.actual.value >= 0))
    && (forall c | c in s.charges :: c.key in s.keys && c.amount >= 0)
  }

  /** Every micro the ledger booked is either available or held, and the holds are
      the active reservations. */
  predicate Balanced(s: Account)
  {
    && s.available >= 0
    && s.available + s.reserved == Sum(s.entries, Amount)
    && s.reserved == Sum(s.reservations, Open())
    && s.settled == Sum(s.reservations, Actual())
  }

  predicate KeyBalanced(s: Account, k: Key)
    requires k in s.keys
  {
    && s.keys[k].reserved == Sum(s.reservations, OpenOf(k))
    && s.keys[k].settled == Sum(s.reservations, ActualOf(k)) == Sum(s.charges, Since(k, 0))
  }

  /** The daily rows add up to the charges of their days. */
  ghost predicate RollupsAgree(rollups: seq<Rollup>, charges: seq<Charge>)
  {
    && (forall k, day :: Sum(rollups, RollupFrom(k, day)) == Sum(charges, Since(k, day * DAY)))
    && (forall k, day :: RowAt(rollups, k, day) == Sum(charges, During(k, day * DAY, (day + 1) * DAY)))
  }

  ghost predicate Books(s: Account)
  {
    && RowsSound(s) && Balanced(s) && RollupsAgree(s.rollups, s.charges)
    && forall k | k in s.keys :: KeyBalanced(s, k)
  }

  lemma {:induction false} RecordSums(s: Account, id: nat, actual: int, k: Key)
    requires Active(s, id)
    ensures var r := s.reservations[id]; var rows := s.reservations[id := r.(actual := Some(actual))];
            && Sum(rows, Open()) == Sum(s.reservations, Open()) - r.amount
            && Sum(rows, Actual()) == Sum(s.reservations, Actual()) + actual
            && Sum(rows, OpenOf(k)) == Sum(s.reservations, OpenOf(k)) - (if r.key == k then r.amount else 0)
            && Sum(rows, ActualOf(k)) == Sum(s.reservations, ActualOf(k)) + (if r.key == k then actual else 0)
  {
    var r := s.reservations[id].(actual := Some(actual));
    SumUpdate(s.reservations, id, r, Open());
    SumUpdate(s.reservations, id, r, Actual());
    SumUpdate(s.reservations, id, r, OpenOf(k));
    SumUpdate(s.reservations, id, r, ActualOf(k));
  }

  lemma {:induction false} UpsertSum(rollups: seq<Rollup>, k: Key, day: int, amount: int, other: Key, from: int)
    ensures Sum(Upsert(rollups, k, day, amount), RollupFrom(other, from))
            == Sum(rollups, RollupFrom(other, from)) + (if other == k && day >= from then amount else 0)
  {
    var i := Position(rollups, k, day);
    if i < |rollups| {
      SumUpdate(rollups, i, rollups[i].(settled := rollups[i].settled + amount), RollupFrom(other, from));
    } else {
      SumAppend(rollups, Rollup(k, day, amount), RollupFrom(other, from));
    }
  }

  lemma {:induction false} PositionIs(rollups: seq<Rollup>, k: Key, day: int, i: nat)
    requires i <= |rollups|
    requires forall j | 0 <= j < i :: !(rollups[j].key == k && rollups[j].day == day)
    requires i < |rollups| ==> rollups[i].key == k && rollups[i].day == day
    ensures Position(rollups, k, day) == i
  {
    if i > 0 { PositionIs(rollups[1..], k, day, i - 1); }
  }

  lemma {:induction false} UpsertRow(rollups: seq<Rollup>, k: Key, day: int, amount: int, other: Key, at: int)
    ensures RowAt(Upsert(rollups, k, day, amount), other, at)
            == RowAt(rollups, other, at) + (if other == k && at == day then amount else 0)
  {
    var changed := Upsert(rollups, k, day, amount);
    var i := Position(rollups, other, at);
    if i == |rollups| && (other != k || at != day) {
      PositionIs(changed, other, at, |changed|);
    } else {
      PositionIs(changed, other, at, i);
    }
  }

  lemma {:induction false} DaysOf(at: nat, day: int)
    ensures day * DAY <= at <==> day <= at / DAY
  {
  }

  lemma {:induction false} RecordRollups(rollups: seq<Rollup>, charges: seq<Charge>, k: Key, amount: int, now: nat)
    requires RollupsAgree(rollups, charges)
    ensures RollupsAgree(Upsert(rollups, k, now / DAY, amount), charges + [Charge(k, amount, now)])
  {
    var c := Charge(k, amount, now);
    var changed := Upsert(rollups, k, now / DAY, amount);
    forall other, day
      ensures Sum(changed, RollupFrom(other, day)) == Sum(charges + [c], Since(other, day * DAY))
    {
      UpsertSum(rollups, k, now / DAY, amount, other, day);
      SumAppend(charges, c, Since(other, day * DAY));
      DaysOf(now, day);
    }
    forall other, day
      ensures RowAt(changed, other, day) == Sum(charges + [c], During(other, day * DAY, (day + 1) * DAY))
    {
      UpsertRow(rollups, k, now / DAY, amount, other, day);
      SumAppend(charges, c, During(other, day * DAY, (day + 1) * DAY));
      DaysOf(now, day);
      DaysOf(now, day + 1);
    }
  }

  lemma {:induction false} RecordKeeps(s: Account, id: nat, actual: int, now: nat)
    requires Books(s) && Active(s, id) && 0 <= actual
    requires NonNegative(actual - s.reservations[id].amount) <= s.available
    ensures Books(Record(s, id, actual, now))
  {
    var r, t := s.reservations[id], Record(s, id, actual, now);
    RecordRollups(s.rollups, s.charges, r.key, actual, now);
    SumAppend(s.entries, -actual, Amount);
    RecordSums(s, id, actual, r.key);
    forall k | k in t.keys
      ensures KeyBalanced(t, k)
    {
      assert KeyBalanced(s, k);
      RecordSums(s, id, actual, k);
      SumAppend(s.charges, Charge(r.key, actual, now), Since(k, 0));
    }
    assert r in s.reservations;
  }

  /** What one hold can never be more than: all holds of its key. */
  lemma {:induction false} HeldByKey(s: Account, id: nat)
    requires Books(s) && Active(s, id)
    ensures 0 <= s.reservations[id].amount <= s.keys[s.reservations[id].key].reserved
  {
    var r := s.reservations[id];
    assert r in s.reservations && KeyBalanced(s, r.key);
    SumAtLeast(s.reservations, id, OpenOf(r.key));
  }

  lemma {:induction false} CappedBounds(charge: int, budget: Option<I64>, settled: int, others: int)
    requires settled >= 0 && others >= 0 && charge >= 0
    ensures 0 <= Capped(charge, budget, settled, others) <= charge
    ensures budget.Some? && Capped(charge, budget, settled, others) > 0 ==>
      settled + others + Capped(charge, budget, settled, others) <= budget.value
  {
  }

  lemma {:induction false} SumNonNegative<T>(xs: seq<T>, f: T -> int)
    requires forall x | x in xs :: f(x) >= 0
    ensures Sum(xs, f) >= 0
  {
    SumZero(xs);
    SumLe(xs, _ => 0, f);
  }

  lemma {:induction false} AllCappedBounds(p: Policy, funds: int, daily: int, weekly: int, lifetime: int, others: int)
    requires funds >= 0 && daily >= 0 && weekly >= 0 && lifetime >= 0 && others >= 0
    ensures var m := AllCapped(p, funds, daily, weekly, lifetime, NonNegative(Sat(others)));
            && 0 <= m <= funds
            && (m > 0 && p.daily.Some? ==> daily + others + m <= p.daily.value)
            && (m > 0 && p.weekly.Some? ==> weekly + others + m <= p.weekly.value)
            && (m > 0 && p.lifetime.Some? ==> lifetime + others + m <= p.lifetime.value)
  {
    var rest := NonNegative(Sat(others));
    var a := Capped(funds, p.daily, daily, rest);
    var b := Capped(a, p.weekly, weekly, rest);
    CappedBounds(funds, p.daily, daily, rest);
    CappedBounds(a, p.weekly, weekly, rest);
    CappedBounds(b, p.lifetime, lifetime, rest);
  }

  /** The weekly query, rollups and all, is the plain sum of the charges of the
      last seven days. */
  lemma {:induction false} WeeklyIsRolling(s: Account, k: Key, now: nat)
    requires RollupsAgree(s.rollups, s.charges)
    ensures WeeklySettled(s, k, now) == Sum(s.charges, Since(k, now - WEEK))
  {
    var cutoff := now - WEEK;
    var day := TruncatedDiv(cutoff, DAY) + 1;
    assert cutoff < day * DAY;
    SumSplit(s.charges, Since(k, cutoff), Since(k, day * DAY), During(k, cutoff, day * DAY));
  }

  lemma {:induction false} SettledNonNegative(s: Account, k: Key, now: nat)
    requires Books(s) && k in s.keys
    ensures DailySettled(s, k, now) >= 0 && WeeklySettled(s, k, now) >= 0 && s.keys[k].settled >= 0
  {
    WeeklyIsRolling(s, k, now);
    SumNonNegative(s.charges, Since(k, now - WEEK));
    SumNonNegative(s.charges, During(k, now / DAY * DAY, (now / DAY + 1) * DAY));
    assert KeyBalanced(s, k);
    SumNonNegative(s.charges, Since(k, 0));
  }

  /** What a settlement may charge is covered by the account and by each budget. */
  lemma {:induction false} MaximumChargeBounds(p: Policy, s: Account, id: nat, now: nat)
    requires Books(s) && Active(s, id)
    ensures var r := s.reservations[id]; var m := MaximumCharge(p, s, r.key, r.amount, now);
            var others := s.keys[r.key].reserved - r.amount;
            && 0 <= m <= s.available + r.amount && others >= 0
            && (m > 0 && p.daily.Some? ==> DailySettled(s, r.key, now) + others + m <= p.daily.value)
            && (m > 0 && p.weekly.Some? ==> WeeklySettled(s, r.key, now) + others + m <= p.weekly.value)
            && (m > 0 && p.lifetime.Some? ==> s.keys[r.key].settled + others + m <= p.lifetime.value)
  {
    var r := s.reservations[id];
    HeldByKey(s, id);
    SettledNonNegative(s, r.key, now);
    AllCappedBounds(p, Sat(NonNegative(s.available) + r.amount), DailySettled(s, r.key, now),
                    WeeklySettled(s, r.key, now), s.keys[r.key].settled, s.keys[r.key].reserved - r.amount);
  }

  lemma {:induction false} ReserveKeeps(p: Policy, s: Account, k: Key, amount: I64, now: nat, admitted: bool)
    requires Books(s) && amount >= 0
    ensures Books(Reserve(p, s, k, amount, now, admitted).0)
  {
    var (t, outcome) := Reserve(p, s, k, amount, now, admitted);
    if outcome.Done? {
      var r := Reservation(k, amount, None);
      SumAppend(s.reservations, r, Open());
      SumAppend(s.reservations, r, Actual());
      forall other | other in t.keys
        ensures KeyBalanced(t, other)
      {
        assert KeyBalanced(s, other);
        SumAppend(s.reservations, r, OpenOf(other));
        SumAppend(s.reservations, r, ActualOf(other));
      }
    }
  }

  lemma {:induction false} ResizeKeeps(p: Policy, s: Account, id: nat, expected: I64, amount: I64, retoken: bool,
                                       now: nat, admitted: bool)
    requires Books(s) && amount >= 0
    ensures Books(Resize(p, s, id, expected, amount, retoken, now, admitted).0)
  {
    var (t, outcome) := Resize(p, s, id, expected, amount, retoken, now, admitted);
    if t != s {
      var r := s.reservations[id].(amount := amount);
      SumUpdate(s.reservations, id, r, Open());
      SumUpdate(s.reservations, id, r, Actual());
      forall other | other in t.keys ensures KeyBalanced(t, other) {
        ResizeKeepsKey(p, s, id, expected, amount, retoken, now, admitted, other);
      }
      assert s.reservations[id] in s.reservations;
    }
  }

  lemma {:induction false} ResizeKeepsKey(p: Policy, s: Account, id: nat, expected: I64, amount: I64, retoken: bool,
                                          now: nat, admitted: bool, key: Key)
    requires Books(s) && key in s.keys
    ensures var t := Resize(p, s, id, expected, amount, retoken, now, admitted).0;
            key in t.keys && KeyBalanced(t, key)
  {
    assert KeyBalanced(s, key);
    if Resize(p, s, id, expected, amount, retoken, now, admitted).0 != s {
      var r := s.reservations[id].(amount := amount);
      SumUpdate(s.reservations, id, r, OpenOf(key));
      SumUpdate(s.reservations, id, r, ActualOf(key));
    }
  }

  lemma {:induction false} SettleKeeps(p: Policies, s: Account, id: nat, calculated: int, now: nat)
    requires Books(s)
    ensures Books(Settle(p, s, id, calculated, now).0)
  {
    if calculated >= 0 && Active(s, id) {
      var r := s.reservations[id];
      MaximumChargeBounds(p(r.key), s, id, now);
      RecordKeeps(s, id, Least(calculated, MaximumCharge(p(r.key), s, r.key, r.amount, now)), now);
    }
  }

  lemma {:induction false} NoRowsOf<T>(xs: seq<T>, f: T -> int)
    requires forall x | x in xs :: f(x) == 0
    ensures Sum(xs, f) == 0
  {
    if xs != [] { NoRowsOf(xs[..|xs| - 1], f); }
  }

  lemma {:induction false} AddKeyKeeps(s: Account, k: Key)
    requires Books(s)
    ensures Books(AddKey(s, k).0)
  {
    if k !in s.keys {
      var t := AddKey(s, k).0;
      NoRowsOf(s.reservations, OpenOf(k));
      NoRowsOf(s.reservations, ActualOf(k));
      NoRowsOf(s.charges, Since(k, 0));
      forall other | other in t.keys
        ensures KeyBalanced(t, other)
      {
        assert other != k ==> KeyBalanced(s, other);
      }
    }
  }

  /** Each transaction keeps the books: the available and held money always add up
      to the ledger, and neither is ever overdrawn. */
  lemma {:induction false} StepKeepsBooks(p: Policies, s: Account, o: Operation)
    requires Books(s) && Sensible(o)
    ensures Books(Apply(p, s, o).0)
  {
    match o
    case GrantOp(micros) => GrantKeeps(s, micros);
    case ReverseOp(micros) => ReverseKeeps(s, micros);
    case AddKeyOp(k) => AddKeyKeeps(s, k);
    case ReserveOp(k, amount, now, admitted) => ReserveKeeps(p(k), s, k, amount, now, admitted);
    case ResizeOp(id, expected, amount, retoken, now, admitted) =>
      if id < |s.reservations| {
        ResizeKeeps(p(s.reservations[id].key), s, id, expected, amount, retoken, now, admitted);
      }
    case SettleOp(id, calculated, now) => SettleKeeps(p, s, id, calculated, now);
  }

  lemma {:induction false} GrantKeeps(s: Account, amount: I64)
    requires Books(s)
    ensures Books(Grant(s, amount).0)
  {
    SumAppend(s.entries, amount, Amount);
    var t := Grant(s, amount).0;
    forall k | k in t.keys ensures KeyBalanced(t, k) { assert KeyBalanced(s, k); }
  }

  lemma {:induction false} ReverseKeeps(s: Account, amount: I64)
    requires Books(s)
    ensures Books(Reverse(s, amount).0)
  {
    if amount > 0 { SumAppend(s.entries, -amount, Amount); }
    var t := Reverse(s, amount).0;
    forall k | k in t.keys ensures KeyBalanced(t, k) { assert KeyBalanced(s, k); }
  }
}
