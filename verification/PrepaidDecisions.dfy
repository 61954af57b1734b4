/** When a hold is taken, changed and settled, and for how much, told from the charges
    and the holds of the key alone (src/db/requests/settlement.rs:408-430, 653-898,
    900-1126, 1283-1623). */
module PrepaidDecisions {
  import opened Json
  import opened Limits
  import opened Money
  import opened PrepaidLedger

  /** What a key was charged at the times that count. */
  function Charged(charges: seq<Charge>, k: Key, counts: nat -> bool): int
  {
    if charges == [] then 0
    else
      var last := charges[|charges| - 1];
      Charged(charges[..|charges| - 1], k, counts) + if last.key == k && counts(last.at) then last.amount else 0
  }

  /** What a key holds now. */
  function Held(rows: seq<Reservation>, k: Key): int
  {
    if rows == [] then 0
    else
      var last := rows[|rows| - 1];
      Held(rows[..|rows| - 1], k) + if last.key == k && last.actual.None? then last.amount else 0
  }

  /** How many holds a key has now. */
  function Holds(rows: seq<Reservation>, k: Key): nat
  {
    if rows == [] then 0
    else
      var last := rows[|rows| - 1];
      Holds(rows[..|rows| - 1], k) + if last.key == k && last.actual.None? then 1 else 0
  }

  function Today(s: Account, k: Key, now: nat): int
  {
    Charged(s.charges, k, at => at / DAY == now / DAY)
  }

  function ThisWeek(s: Account, k: Key, now: nat): int
  {
    Charged(s.charges, k, at => now - WEEK <= at)
  }

  function Ever(s: Account, k: Key): int
  {
    Charged(s.charges, k, _ => true)
  }

  /** The largest budget is no budget: sums saturate at it. */
  predicate Within(budget: Option<I64>, total: int)
  {
    budget.None? || total <= budget.value || budget.value == MAX_I64
  }

  /** Holding so much leaves every budget of the key kept. */
  predicate Affordable(p: Policy, s: Account, k: Key, held: int, now: nat)
  {
    && Within(p.daily, Today(s, k, now) + held)
    && Within(p.weekly, ThisWeek(s, k, now) + held)
    && Within(p.lifetime, Ever(s, k) + held)
  }

  // --------------------------------------------------------------------- readings

  lemma {:induction false} ChargedIs(charges: seq<Charge>, k: Key, counts: nat -> bool, f: Charge -> int)
    requires forall c: Charge :: f(c) == if c.key == k && counts(c.at) then c.amount else 0
    ensures Charged(charges, k, counts) == Sum(charges, f)
  {
    if charges != [] { ChargedIs(charges[..|charges| - 1], k, counts, f); }
  }

  lemma {:induction false} HeldIs(rows: seq<Reservation>, k: Key)
    ensures Held(rows, k) == Sum(rows, OpenOf(k)) && Holds(rows, k) == Sum(rows, CountOf(k))
  {
    if rows != [] { HeldIs(rows[..|rows| - 1], k); }
  }

  lemma {:induction false} SameDay(at: nat, now: nat)
    ensures at / DAY == now / DAY <==> now / DAY * DAY <= at < (now / DAY + 1) * DAY
  {
    DaysOf(at, now / DAY);
    DaysOf(at, now / DAY + 1);
  }

  /** The code's three queries, the held total and the count are those sums. */
  lemma {:induction false} QueriesAre(s: Account, k: Key, now: nat)
    requires Books(s) && k in s.keys
    ensures DailySettled(s, k, now) == Today(s, k, now) >= 0
    ensures WeeklySettled(s, k, now) == ThisWeek(s, k, now) >= 0
    ensures s.keys[k].settled == Ever(s, k) >= 0
    ensures s.keys[k].reserved == Held(s.reservations, k)
    ensures Sum(s.reservations, CountOf(k)) == Holds(s.reservations, k)
  {
    SettledNonNegative(s, k, now);
    WeeklyIsRolling(s, k, now);
    assert KeyBalanced(s, k);
    HeldIs(s.reservations, k);
    var day := now / DAY;
    forall c: Charge
      ensures During(k, day * DAY, (day + 1) * DAY)(c) == if c.key == k && c.at / DAY == now / DAY then c.amount else 0
    {
      SameDay(c.at, now);
    }
    ChargedIs(s.charges, k, at => at / DAY == now / DAY, During(k, day * DAY, (day + 1) * DAY));
    ChargedIs(s.charges, k, at => now - WEEK <= at, Since(k, now - WEEK));
    ChargedIs(s.charges, k, _ => true, Since(k, 0));
  }

  lemma {:induction false} HeldNonNegative(s: Account, k: Key)
    requires Books(s)
    ensures Held(s.reservations, k) >= 0
  {
    HeldIs(s.reservations, k);
    SumNonNegative(s.reservations, OpenOf(k));
  }

  lemma {:induction false} OverBudgetIs(p: Policy, s: Account, k: Key, held: int, now: nat)
    requires Books(s) && k in s.keys && held >= 0
    ensures OverBudget(p, s, k, Sat(held), now) <==> !Affordable(p, s, k, held, now)
  {
    QueriesAre(s, k, now);
  }

  // -------------------------------------------------------------------- decisions

  /** A hold is taken exactly when the key is there and has a free place, the limits admit
      it, the balance covers it, and with it every budget is kept. It then moves that much
      from the balance into one new hold; otherwise nothing changes. */
  lemma {:induction false} ReserveExactly(p: Policy, s: Account, k: Key, amount: I64, now: nat, admitted: bool)
    requires Books(s) && amount >= 0
    ensures var (t, outcome) := Reserve(p, s, k, amount, now, admitted);
            && (outcome.Done? <==>
                  && k in s.keys && admitted && amount <= s.available
                  && (p.maxConcurrency.None? || Holds(s.reservations, k) < p.maxConcurrency.value)
                  && Affordable(p, s, k, Held(s.reservations, k) + amount, now))
            && (outcome.Missing? <==> k !in s.keys)
            && (if outcome.Done? then
                  && outcome == Done(amount) && t.available == s.available - amount && t.settled == s.settled
                  && t.reservations == s.reservations + [Reservation(k, amount, None)]
                  && t.charges == s.charges && t.rollups == s.rollups && t.entries == s.entries
                else t == s && (outcome.Missing? || outcome.Refused?))
  {
    if k in s.keys {
      QueriesAre(s, k, now);
      HeldNonNegative(s, k);
      OverBudgetIs(p, s, k, Held(s.reservations, k) + amount, now);
    }
  }

  /** A grant can be taken back, and then nothing but the two entries is left of it; a
      reversal goes through exactly while that much is available, and takes it. */
  lemma {:induction false} GrantsExactly(s: Account, amount: I64)
    requires s.available >= 0
    ensures Grant(s, amount).1 == if 1 <= amount then Done(amount) else Refused
    ensures Reverse(s, amount).1 == if 1 <= amount <= s.available then Done(amount) else Refused
    ensures Reverse(s, amount).1.Done? ==>
      Grant(Reverse(s, amount).0, amount).0 == s.(entries := s.entries + [-amount, amount])
      && Reverse(s, amount).0.available == s.available - amount
    ensures Grant(s, amount).1.Done? ==>
      Reverse(Grant(s, amount).0, amount) == (s.(entries := s.entries + [amount, -amount]), Done(amount))
      && Grant(s, amount).0.available == s.available + amount
  {
    if amount >= 1 {
      var credit: int, debit: int := amount, -amount;
      assert s.entries + [credit] + [debit] == s.entries + [credit, debit];
      assert s.entries + [debit] + [credit] == s.entries + [debit, credit];
    }
  }

  predicate Unsettled(s: Account, id: nat)
  {
    id < |s.reservations| && s.reservations[id].actual.None?
  }

  /** A hold is changed exactly when it is the one the caller knows, the limits admit the
      change, the balance covers what it grows by, and with it every budget is kept. */
  lemma {:induction false} ResizeExactly(p: Policy, s: Account, id: nat, expected: I64, amount: I64, retoken: bool,
                                         now: nat, admitted: bool)
    requires Books(s) && amount >= 0
    ensures var (t, outcome) := Resize(p, s, id, expected, amount, retoken, now, admitted);
            && (outcome.Conflict? <==> !Unsettled(s, id) || s.reservations[id].amount != expected)
            && (outcome.Done? && t != s ==> amount != expected || retoken)
            && (!outcome.Conflict? && amount == expected && !retoken ==> outcome == Done(amount) && t == s)
            && (!outcome.Conflict? && (amount != expected || retoken) ==>
                  var k := s.reservations[id].key;
                  var held := Held(s.reservations, k) - expected + amount;
                  && (outcome.Fault? <==> held > MAX_I64)
                  && (outcome.Done? <==>
                        && held <= MAX_I64 && Affordable(p, s, k, held, now) && admitted
                        && amount - expected <= s.available))
            && (if outcome.Done? then
                  && outcome == Done(amount) && t.available == s.available - (amount - expected)
                  && t.reservations == s.reservations[id := s.reservations[id].(amount := amount)]
                  && t.settled == s.settled && t.charges == s.charges && t.rollups == s.rollups
                  && t.entries == s.entries
                else t == s)
  {
    if Unsettled(s, id) && s.reservations[id].amount == expected {
      var r := s.reservations[id];
      assert r in s.reservations;
      QueriesAre(s, r.key, now);
      HeldByKey(s, id);
      SumAtLeast(s.reservations, id, Open());
      OverBudgetIs(p, s, r.key, Held(s.reservations, r.key) - expected + amount, now);
    }
  }

  /** A charge that funds and budgets can bear beside the key's other holds. */
  predicate Bearable(p: Policy, s: Account, id: nat, now: nat, charge: int)
    requires id < |s.reservations|
  {
    var r := s.reservations[id];
    var others := Held(s.reservations, r.key) - r.amount;
    && charge <= s.available + r.amount && charge <= MAX_I64
    && (p.daily.Some? ==> Today(s, r.key, now) + others + charge <= p.daily.value)
    && (p.weekly.Some? ==> ThisWeek(s, r.key, now) + others + charge <= p.weekly.value)
    && (p.lifetime.Some? ==> Ever(s, r.key) + others + charge <= p.lifetime.value)
  }

  lemma {:induction false} CapIs(charge: int, budget: Option<I64>, settled: int, others: int, x: int)
    requires settled >= 0 && others >= 0 && x > 0
    ensures x <= Capped(charge, budget, settled, NonNegative(Sat(others)))
            <==> x <= charge && (budget.Some? ==> settled + others + x <= budget.value)
  {
  }

  lemma {:induction false} MaximumIs(p: Policy, s: Account, id: nat, now: nat, x: int)
    requires Books(s) && Active(s, id) && x > 0
    ensures x <= MaximumCharge(p, s, s.reservations[id].key, s.reservations[id].amount, now)
            <==> Bearable(p, s, id, now, x)
  {
    var r := s.reservations[id];
    var daily, weekly, lifetime := DailySettled(s, r.key, now), WeeklySettled(s, r.key, now), s.keys[r.key].settled;
    var others := s.keys[r.key].reserved - r.amount;
    QueriesAre(s, r.key, now);
    HeldByKey(s, id);
    var funds := Sat(NonNegative(s.available) + r.amount);
    var rest := NonNegative(Sat(others));
    var a := Capped(funds, p.daily, daily, rest);
    CapIs(funds, p.daily, daily, others, x);
    CapIs(a, p.weekly, weekly, others, x);
    CapIs(Capped(a, p.weekly, weekly, rest), p.lifetime, lifetime, others, x);
  }

  /** The charge is the usage's price, or the most that can be borne of it, or nothing. */
  predicate IsCharge(p: Policy, s: Account, id: nat, now: nat, calculated: int, actual: int)
    requires id < |s.reservations|
  {
    && 0 <= actual <= calculated && (actual > 0 ==> Bearable(p, s, id, now, actual))
    && forall x | actual < x <= calculated :: !Bearable(p, s, id, now, x)
  }

  /** Settling fails only without a hold or with a negative price, charges once, and
      charges exactly that; the rest of the hold goes back to the balance. */
  lemma {:induction false} SettleExactly(p: Policies, s: Account, id: nat, calculated: int, now: nat)
    requires Books(s)
    ensures var (t, outcome) := Settle(p, s, id, calculated, now);
            && (outcome.Fault? <==> calculated < 0)
            && (outcome.Missing? <==> calculated >= 0 && id >= |s.reservations|)
            && (!outcome.Done? || !Unsettled(s, id) ==> t == s)
            && (calculated >= 0 && id < |s.reservations| && s.reservations[id].actual.Some? ==>
                  outcome == Done(s.reservations[id].actual.value))
            && (calculated >= 0 && Unsettled(s, id) ==>
                  var r := s.reservations[id];
                  && outcome.Done? && IsCharge(p(r.key), s, id, now, calculated, outcome.micros)
                  && t.available == s.available + r.amount - outcome.micros
                  && t.reservations == s.reservations[id := r.(actual := Some(outcome.micros))]
                  && t.charges == s.charges + [Charge(r.key, outcome.micros, now)])
  {
    if calculated >= 0 && id < |s.reservations| {
      var r := s.reservations[id];
      assert r in s.reservations;
      if r.actual.None? {
        HeldByKey(s, id);
        MaximumChargeBounds(p(r.key), s, id, now);
        forall x | x > 0
          ensures x <= MaximumCharge(p(r.key), s, r.key, r.amount, now) <==> Bearable(p(r.key), s, id, now, x)
        {
          MaximumIs(p(r.key), s, id, now, x);
        }
      }
    }
  }
}
