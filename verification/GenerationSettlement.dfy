/** From billed units to money: what a settled generation job is charged against what
    was held for it (src/db/generation/jobs.rs:235-244;
    src/db/generation/jobs/finish.rs:241-306). */
module GenerationSettlement {
  import opened Json
  import opened Limits
  import opened Money
  import GenerationBilling
  import PrepaidBudgets
  import PrepaidLedger
  import TokenPricing

  /** The price a job reserves and settles at: its units are output tokens. */
  function JobPrice(billingUnit: string, microsPerUnit: I64): TokenPricing.Price
    requires ReservationPrice(billingUnit, microsPerUnit).Some?
  {
    TokenPricing.Price(0, ReservationPrice(billingUnit, microsPerUnit).value, [])
  }

  function UnitsUsage(units: I64): TokenPricing.Usage
  {
    TokenPricing.Usage(0, 0, 0, units, None)
  }

  lemma {:induction false} HoldOfUnits(billingUnit: string, microsPerUnit: I64, units: I64)
    requires ReservationPrice(billingUnit, microsPerUnit).Some? && units >= 0
    ensures var price := JobPrice(billingUnit, microsPerUnit);
            var micros := PricedTokens(units, ReservationPrice(billingUnit, microsPerUnit).value);
            && micros >= 0
            && TokenPricing.ReservationCeiling(price, 0, units) == Some((micros, units))
            && TokenPricing.PriceUsage(price, UnitsUsage(units)) == Some(micros)
  {
    var price := JobPrice(billingUnit, microsPerUnit);
    PriceIsCeiling(units, price.output, 0);
    TokenPricing.PricesNonNegative(TokenPricing.TierFor(price, "default"), UnitsUsage(units));
    TokenPricing.FourParts(TokenPricing.UsageParts(TokenPricing.TierFor(price, "default"), UnitsUsage(units)));
  }

  /** Billing no more units than were estimated costs no more than was held for the
      estimate; at a per-unit price both are exactly units times price, saturated. */
  lemma {:induction false} UnitsWithinHold(billingUnit: string, microsPerUnit: I64, estimated: I64, billed: I64)
    requires ReservationPrice(billingUnit, microsPerUnit).Some? && microsPerUnit >= 0 && 0 <= billed <= estimated
    ensures var price := JobPrice(billingUnit, microsPerUnit);
            && TokenPricing.ReservationCeiling(price, 0, estimated).Some?
            && TokenPricing.PriceUsage(price, UnitsUsage(billed)).Some?
            && var held := TokenPricing.ReservationCeiling(price, 0, estimated).value.0;
               var cost := TokenPricing.PriceUsage(price, UnitsUsage(billed)).value;
               && 0 <= cost <= held
               && (!PricedPerMillion(billingUnit) ==>
                     cost == if billed * microsPerUnit <= MAX_I64 then billed * microsPerUnit else MAX_I64)
  {
    var p := ReservationPrice(billingUnit, microsPerUnit).value;
    HoldOfUnits(billingUnit, microsPerUnit, estimated);
    HoldOfUnits(billingUnit, microsPerUnit, billed);
    PriceMonotone(billed, estimated, p, p);
    UnitPriceExact(billingUnit, microsPerUnit, billed);
  }

  function UnitsOf(d: GenerationBilling.Decision): int
  {
    match d
    case Failure(billed) => billed
    case Success(billed) => billed
    case _ => 0
  }

  /** Whatever way a job ends, what it is billed costs no more than its hold, and if
      the books reached it by any run on a forward clock, that cost is charged in full:
      no budget and no balance stands in its way. */
  lemma {:induction false} EndingIsCharged(
      e: GenerationBilling.Ending, parse: string -> Option<int>,
      billingUnit: string, microsPerUnit: I64, estimated: I64,
      p: PrepaidLedger.Policies, start: PrepaidLedger.Account, ops: seq<PrepaidLedger.Operation>,
      s: PrepaidLedger.Account, id: nat, now: nat, cost: int)
    requires estimated >= 1 && microsPerUnit >= 0 && ReservationPrice(billingUnit, microsPerUnit).Some?
    requires PrepaidBudgets.Forward(ops, 0) && PrepaidBudgets.Clock(ops, 0) <= now
    requires forall o | o in ops :: PrepaidLedger.Sensible(o)
    requires PrepaidLedger.IsEmpty(start) && s == PrepaidLedger.Run(p, start, ops)
    requires id < |s.reservations| && s.reservations[id].actual.None?
    requires PrepaidBudgets.Enforced(p(s.reservations[id].key))
    requires var units := UnitsOf(GenerationBilling.Settle(e, estimated, parse));
             && MIN_I64 <= units <= MAX_I64
             && TokenPricing.PriceUsage(JobPrice(billingUnit, microsPerUnit), UnitsUsage(units)) == Some(cost)
    requires var hold := TokenPricing.ReservationCeiling(JobPrice(billingUnit, microsPerUnit), 0, estimated);
             hold.Some? && s.reservations[id].amount == hold.value.0
    ensures PrepaidLedger.Settle(p, s, id, cost, now).1 == PrepaidLedger.Done(cost)
    ensures PrepaidLedger.Settle(p, s, id, cost, now).0.available == s.available + s.reservations[id].amount - cost
  {
    var units := UnitsOf(GenerationBilling.Settle(e, estimated, parse));
    GenerationBilling.BilledWithinReservation(e, estimated, parse);
    UnitsWithinHold(billingUnit, microsPerUnit, estimated, units);
    PrepaidBudgets.HeldUsageIsCharged(p, start, ops, s, id, cost, now);
  }
}
