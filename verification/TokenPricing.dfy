/** What a token reservation holds and what the usage is charged
    (src/db/requests/settlement.rs:438-481, 1624-1692). */
module TokenPricing {
  import opened Json
  import opened Limits
  import opened Money

  datatype Tier = Tier(serviceTier: string, input: I64, cachedInput: I64, cacheWrite: I64, output: I64)

  datatype Price = Price(input: I64, output: I64, tiers: seq<Tier>)

  datatype Usage = Usage(input: I64, cachedInput: I64, cacheWrite: I64, output: I64, serviceTier: Option<string>)

  function Max(a: I64, b: I64): I64
  {
    if a < b then b else a
  }

  /** The greatest value of one column, or a fallback without tiers. */
  function Greatest(tiers: seq<Tier>, column: Tier -> I64, fallback: I64): I64
  {
    if tiers == [] then fallback
    else if |tiers| == 1 then column(tiers[0])
    else Max(column(tiers[0]), Greatest(tiers[1..], column, fallback))
  }

  lemma {:induction false} GreatestBounds(tiers: seq<Tier>, column: Tier -> I64, fallback: I64, bound: I64)
    ensures tiers != [] ==>
      (Greatest(tiers, column, fallback) <= bound <==> forall t | t in tiers :: column(t) <= bound)
  {
    if |tiers| > 1 {
      GreatestBounds(tiers[1..], column, fallback, bound);
      assert tiers == [tiers[0]] + tiers[1..];
    }
  }

  function DearestInput(t: Tier): I64
  {
    Max(Max(t.input, t.cachedInput), t.cacheWrite)
  }

  function MaximumInput(price: Price): I64
  {
    Max(Greatest(price.tiers, DearestInput, price.input), price.input)
  }

  function MaximumOutput(price: Price): I64
  {
    Max(Greatest(price.tiers, (t: Tier) => t.output, price.output), price.output)
  }

  function CheckedAdd(a: I64, b: I64): Option<I64>
  {
    if MIN_I64 <= a + b <= MAX_I64 then Some(a + b) else None
  }

  /** `reservation_ceiling_amounts`: the micros held and the tokens counted. */
  function ReservationCeiling(price: Price, inputCeiling: I64, outputCeiling: I64): Option<(I64, I64)>
  {
    if inputCeiling < 0 || outputCeiling < 0 then None
    else
      var micros := CheckedAdd(PricedTokens(inputCeiling, MaximumInput(price)),
                               PricedTokens(outputCeiling, MaximumOutput(price)));
      var tokens := CheckedAdd(inputCeiling, outputCeiling);
      if micros.None? || tokens.None? then None else Some((micros.value, tokens.value))
  }

  function FindTier(tiers: seq<Tier>, name: string): Option<Tier>
  {
    if tiers == [] then None
    else if tiers[0].serviceTier == name then Some(tiers[0])
    else FindTier(tiers[1..], name)
  }

  /** The tier that was used; of an unknown one, the dearest price per column. */
  function TierFor(price: Price, requested: string): Tier
  {
    if FindTier(price.tiers, requested).Some? then FindTier(price.tiers, requested).value
    else if price.tiers == [] then Tier("default", price.input, price.input, price.input, price.output)
    else Tier(requested,
              Greatest(price.tiers, (t: Tier) => t.input, price.input),
              Greatest(price.tiers, (t: Tier) => t.cachedInput, price.input),
              Greatest(price.tiers, (t: Tier) => t.cacheWrite, price.input),
              Greatest(price.tiers, (t: Tier) => t.output, price.output))
  }

  /** `try_fold(0, checked_add)`. */
  function CheckedSum(parts: seq<I64>): Option<I64>
  {
    if parts == [] then Some(0)
    else
      var n := |parts| - 1;
      var before := CheckedSum(parts[..n]);
      if before.None? then None else CheckedAdd(before.value, parts[n])
  }

  function UsageParts(tier: Tier, usage: Usage): seq<I64>
  {
    [PricedTokens(usage.input, tier.input), PricedTokens(usage.cachedInput, tier.cachedInput),
     PricedTokens(usage.cacheWrite, tier.cacheWrite), PricedTokens(usage.output, tier.output)]
  }

  /** `price_token_usage`. */
  function PriceUsage(price: Price, usage: Usage): Option<I64>
  {
    CheckedSum(UsageParts(TierFor(price, GetOr(usage.serviceTier, "default")), usage))
  }

  // -------------------------------------------------------------------- bounds

  lemma {:induction false} FindTierMember(tiers: seq<Tier>, name: string)
    ensures FindTier(tiers, name).Some? ==> FindTier(tiers, name).value in tiers
  {
    if tiers != [] { FindTierMember(tiers[1..], name); }
  }

  /** No tier is dearer than what was reserved for. */
  lemma {:induction false} TierWithinMaximum(price: Price, requested: string)
    ensures var t := TierFor(price, requested);
            && t.input <= MaximumInput(price) && t.cachedInput <= MaximumInput(price)
            && t.cacheWrite <= MaximumInput(price) && t.output <= MaximumOutput(price)
  {
    FindTierMember(price.tiers, requested);
    GreatestBounds(price.tiers, DearestInput, price.input, MaximumInput(price));
    GreatestBounds(price.tiers, (t: Tier) => t.output, price.output, MaximumOutput(price));
    GreatestBounds(price.tiers, (t: Tier) => t.input, price.input, MaximumInput(price));
    GreatestBounds(price.tiers, (t: Tier) => t.cachedInput, price.input, MaximumInput(price));
    GreatestBounds(price.tiers, (t: Tier) => t.cacheWrite, price.input, MaximumInput(price));
  }

  /** A count whose price is rounded up by itself at some price: no whole number of
      millions. */
  predicate Uneven(tokens: int)
  {
    tokens % 1_000_000 != 0
  }

  function Count(b: bool): int
  {
    if b then 1 else 0
  }

  /** How many of the separately priced input classes are uneven. */
  function UnevenClasses(usage: Usage): int
  {
    Count(Uneven(usage.input)) + Count(Uneven(usage.cachedInput)) + Count(Uneven(usage.cacheWrite))
  }

  lemma {:induction false} DivideOff(x: int, y: int)
    ensures (1_000_000 * x + y) / 1_000_000 == x + y / 1_000_000
  {
  }

  /** Whole millions are priced exactly, so they split off without rounding. */
  lemma {:induction false} EvenSplit(t: I64, u: I64, p: I64)
    requires t >= 0 && u >= 0 && t + u <= MAX_I64 && PricedTokens(t + u, p) < MAX_I64 && !Uneven(t)
    ensures PricedTokens(t, p) + PricedTokens(u, p) == PricedTokens(t + u, p)
  {
    var millions := t / 1_000_000;
    SplittingCosts(t, u, p);
    if t > 0 && u > 0 && p > 0 {
      assert t * p == 1_000_000 * (millions * p);
      assert (t + u) * p == 1_000_000 * (millions * p) + u * p;
      DivideOff(millions * p, u * p + 999_999);
      DivideOff(millions * p, 999_999);
      MulPositive(t + u, p);
      MulPositive(t, p);
      MulPositive(u, p);
    }
  }

  /** Rounding two parts up separately adds at most one micro, and none when one
      part is a whole number of millions. */
  lemma {:induction false} SplitExcess(t: I64, u: I64, p: I64)
    requires t >= 0 && u >= 0 && t + u <= MAX_I64 && PricedTokens(t + u, p) < MAX_I64
    ensures PricedTokens(t, p) + PricedTokens(u, p) <= PricedTokens(t + u, p) + Count(Uneven(t) && Uneven(u))
  {
    SplittingCosts(t, u, p);
    if !Uneven(t) { EvenSplit(t, u, p); }
    if !Uneven(u) { EvenSplit(u, t, p); }
  }

  /** One micro for each further of these. */
  function Further(classes: int): int
  {
    if classes == 0 then 0 else classes - 1
  }

  lemma {:induction false} InputPartsBound(a: I64, b: I64, c: I64, ceiling: I64, p: I64)
    requires a >= 0 && b >= 0 && c >= 0 && a + b + c <= ceiling && PricedTokens(ceiling, p) < MAX_I64
    ensures PricedTokens(a, p) + PricedTokens(b, p) + PricedTokens(c, p)
            <= PricedTokens(ceiling, p) + Further(Count(Uneven(a)) + Count(Uneven(b)) + Count(Uneven(c)))
  {
    PriceMonotone(a + b + c, ceiling, p, p);
    PriceMonotone(a + b, a + b + c, p, p);
    SplitExcess(a, b, p);
    SplitExcess(a + b, c, p);
    FurtherAdds(a, b, c);
  }

  lemma {:induction false} FurtherAdds(a: int, b: int, c: int)
    ensures Count(Uneven(a) && Uneven(b)) + Count(Uneven(a + b) && Uneven(c))
            <= Further(Count(Uneven(a)) + Count(Uneven(b)) + Count(Uneven(c)))
  {
    assert Uneven(a + b) ==> Uneven(a) || Uneven(b);
  }

  function Total(parts: seq<int>): int
    requires |parts| == 4
  {
    parts[0] + parts[1] + parts[2] + parts[3]
  }

  lemma {:induction false} FourParts(parts: seq<I64>)
    requires |parts| == 4 && forall x | x in parts :: x >= 0
    ensures CheckedSum(parts) == if Total(parts) <= MAX_I64 then Some(Total(parts)) else None
  {
    var a, b, c := parts[..3], parts[..2], parts[..1];
    assert a[..2] == b && b[..1] == c && c[..0] == [];
    assert parts[0] in parts && parts[1] in parts && parts[2] in parts && parts[3] in parts;
    assert CheckedSum(c) == Some(parts[0]);
    assert CheckedSum(b) == CheckedAdd(parts[0], parts[1]);
  }

  /** One micro for each further uneven input class. */
  function Excess(usage: Usage): int
  {
    Further(UnevenClasses(usage))
  }

  predicate WithinCeilings(usage: Usage, inputCeiling: int, outputCeiling: int)
  {
    && usage.input >= 0 && usage.cachedInput >= 0 && usage.cacheWrite >= 0 && usage.output >= 0
    && usage.input + usage.cachedInput + usage.cacheWrite <= inputCeiling && usage.output <= outputCeiling
  }

  lemma {:induction false} PartsWithinHold(tier: Tier, usage: Usage, inputCeiling: I64, outputCeiling: I64, p: I64,
                                           q: I64)
    requires WithinCeilings(usage, inputCeiling, outputCeiling)
    requires tier.input <= p && tier.cachedInput <= p && tier.cacheWrite <= p && tier.output <= q
    requires PricedTokens(inputCeiling, p) < MAX_I64
    ensures Total(UsageParts(tier, usage))
            <= PricedTokens(inputCeiling, p) + PricedTokens(outputCeiling, q) + Excess(usage)
  {
    PriceMonotone(usage.input, usage.input, tier.input, p);
    PriceMonotone(usage.cachedInput, usage.cachedInput, tier.cachedInput, p);
    PriceMonotone(usage.cacheWrite, usage.cacheWrite, tier.cacheWrite, p);
    PriceMonotone(usage.output, outputCeiling, tier.output, q);
    InputPartsBound(usage.input, usage.cachedInput, usage.cacheWrite, inputCeiling, p);
  }

  lemma {:induction false} PricesNonNegative(tier: Tier, usage: Usage)
    ensures forall x | x in UsageParts(tier, usage) :: x >= 0
  {
    PriceIsCeiling(usage.input, tier.input, 0);
    PriceIsCeiling(usage.cachedInput, tier.cachedInput, 0);
    PriceIsCeiling(usage.cacheWrite, tier.cacheWrite, 0);
    PriceIsCeiling(usage.output, tier.output, 0);
  }

  function Used(tokens: int): int
  {
    Count(tokens > 0)
  }

  function UsedClasses(usage: Usage): int
  {
    Used(usage.input) + Used(usage.cachedInput) + Used(usage.cacheWrite)
  }

  lemma {:induction false} OneClassFits(tier: Tier, usage: Usage)
    ensures var s := UsageParts(tier, usage); UsedClasses(usage) <= 1 ==> s[0] + s[1] + s[2] <= MAX_I64
  {
  }

  function Held(price: Price, inputCeiling: I64, outputCeiling: I64): I64
    requires ReservationCeiling(price, inputCeiling, outputCeiling).Some?
  {
    ReservationCeiling(price, inputCeiling, outputCeiling).value.0
  }

  /** Usage within the reserved ceilings is charged at most what was held plus one
      micro for each further uneven input class, so never more than two; pricing it
      overflows only at the 64-bit limit. */
  lemma {:induction false} UsageWithinHold(price: Price, usage: Usage, inputCeiling: I64, outputCeiling: I64)
    requires WithinCeilings(usage, inputCeiling, outputCeiling)
    requires ReservationCeiling(price, inputCeiling, outputCeiling).Some?
    ensures var held, cost := Held(price, inputCeiling, outputCeiling), PriceUsage(price, usage);
            if cost.Some? then cost.value <= held + Excess(usage)
            else held + Excess(usage) > MAX_I64 || (held == MAX_I64 && UsedClasses(usage) > 1)
  {
    var requested := GetOr(usage.serviceTier, "default");
    var tier := TierFor(price, requested);
    TierWithinMaximum(price, requested);
    PricesNonNegative(tier, usage);
    FourParts(UsageParts(tier, usage));
    PriceIsCeiling(outputCeiling, MaximumOutput(price), 0);
    if PricedTokens(inputCeiling, MaximumInput(price)) < MAX_I64 {
      PartsWithinHold(tier, usage, inputCeiling, outputCeiling, MaximumInput(price), MaximumOutput(price));
    } else {
      PriceMonotone(usage.output, outputCeiling, tier.output, MaximumOutput(price));
      OneClassFits(tier, usage);
    }
  }

  // ------------------------------------------------------- when a hold always covers

  /** `validate_token_usage`, which precedes every pricing. */
  predicate Reported(tokens: int)
  {
    0 <= tokens <= 1_000_000_000
  }

  predicate ValidUsage(usage: Usage)
  {
    Reported(usage.input) && Reported(usage.cachedInput) && Reported(usage.cacheWrite) && Reported(usage.output)
  }

  /** The hold covers the charge; below the 64-bit limit there is one. */
  predicate Covers(price: Price, usage: Usage, inputCeiling: I64, outputCeiling: I64)
    requires ReservationCeiling(price, inputCeiling, outputCeiling).Some?
  {
    var held, cost := Held(price, inputCeiling, outputCeiling), PriceUsage(price, usage);
    (cost.Some? ==> cost.value <= held) && (held < MAX_I64 ==> cost.Some?)
  }

  /** At every price and with any ceilings that cover the usage. */
  ghost predicate AlwaysCovered(usage: Usage)
  {
    forall price, inputCeiling: I64, outputCeiling: I64
      | WithinCeilings(usage, inputCeiling, outputCeiling)
        && ReservationCeiling(price, inputCeiling, outputCeiling).Some? ::
      Covers(price, usage, inputCeiling, outputCeiling)
  }

  /** A price at which two uneven parts cost more apart than together: one micro per
      million if their remainders fit one million, else one short of a million. */
  lemma {:induction false} UnevenPrice(a: I64, b: I64) returns (p: I64)
    requires Reported(a) && Reported(b) && Uneven(a) && Uneven(b)
    ensures p == 1 || p == 999_999
    ensures PricedTokens(a, p) + PricedTokens(b, p) > PricedTokens(a + b, p)
  {
    var x, y := a / 1_000_000, b / 1_000_000;
    var r, q := a % 1_000_000, b % 1_000_000;
    assert a == 1_000_000 * x + r && b == 1_000_000 * y + q;
    if r + q <= 1_000_000 {
      p := 1;
    } else {
      p := 999_999;
      OneShort(a);
      OneShort(b);
      OneShort(a + b);
    }
  }

  /** At one short of a million each token costs a micro, less one for each million. */
  lemma {:induction false} OneShort(tokens: I64)
    requires 0 < tokens <= 2_000_000_000
    ensures PricedTokens(tokens, 999_999) == tokens - tokens / 1_000_000
  {
    assert tokens * 999_999 + 999_999 == 1_000_000 * tokens + (999_999 - tokens);
    DivideOff(tokens, 999_999 - tokens);
  }

  lemma {:induction false} PriceFits(tokens: I64, p: I64)
    requires 0 <= tokens <= 3_000_000_000 && (p == 1 || p == 999_999)
    ensures PricedTokens(tokens, p) <= tokens
  {
  }

  /** The order of the three classes does not matter to the whole. */
  lemma {:induction false} UnevenExceeds(a: I64, b: I64, c: I64) returns (p: I64)
    requires Reported(a) && Reported(b) && Reported(c) && Uneven(a) && Uneven(b)
    ensures p == 1 || p == 999_999
    ensures PricedTokens(a, p) + PricedTokens(b, p) + PricedTokens(c, p) > PricedTokens(a + b + c, p)
  {
    p := UnevenPrice(a, b);
    SplittingCosts(a + b, c, p);
  }

  /** With two uneven classes there is a price and there are ceilings, the usage's
      own, at which the charge exceeds the hold. */
  lemma {:induction false} SomeHoldFails(usage: Usage)
    requires ValidUsage(usage) && UnevenClasses(usage) > 1
    ensures !AlwaysCovered(usage)
  {
    var p: I64;
    if !Uneven(usage.cacheWrite) || (Uneven(usage.input) && Uneven(usage.cachedInput)) {
      p := UnevenExceeds(usage.input, usage.cachedInput, usage.cacheWrite);
    } else if !Uneven(usage.cachedInput) {
      p := UnevenExceeds(usage.input, usage.cacheWrite, usage.cachedInput);
    } else {
      p := UnevenExceeds(usage.cachedInput, usage.cacheWrite, usage.input);
    }
    HoldAtPrice(usage, p);
  }

  lemma {:induction false} HoldAtPrice(usage: Usage, p: I64)
    requires ValidUsage(usage) && (p == 1 || p == 999_999)
    requires PricedTokens(usage.input, p) + PricedTokens(usage.cachedInput, p) + PricedTokens(usage.cacheWrite, p)
             > PricedTokens(usage.input + usage.cachedInput + usage.cacheWrite, p)
    ensures !AlwaysCovered(usage)
  {
    var price := Price(p, 0, []);
    var total: I64 := usage.input + usage.cachedInput + usage.cacheWrite;
    var tier := TierFor(price, GetOr(usage.serviceTier, "default"));
    PriceFits(total, p);
    PriceFits(usage.input, p);
    PriceFits(usage.cachedInput, p);
    PriceFits(usage.cacheWrite, p);
    PricesNonNegative(tier, usage);
    FourParts(UsageParts(tier, usage));
    assert ReservationCeiling(price, total, usage.output) == Some((PricedTokens(total, p), total + usage.output));
    assert !Covers(price, usage, total, usage.output);
    assert WithinCeilings(usage, total, usage.output);
  }

  /** The hold covers a usage at every price and with any covering ceilings exactly
      when at most one of its three input counts is not a whole number of millions. */
  lemma {:induction false} CoveredExactly(usage: Usage)
    requires ValidUsage(usage)
    ensures AlwaysCovered(usage) <==> UnevenClasses(usage) <= 1
  {
    if UnevenClasses(usage) <= 1 {
      forall price, inputCeiling: I64, outputCeiling: I64
        | WithinCeilings(usage, inputCeiling, outputCeiling)
          && ReservationCeiling(price, inputCeiling, outputCeiling).Some?
        ensures Covers(price, usage, inputCeiling, outputCeiling)
      {
        UsageWithinHold(price, usage, inputCeiling, outputCeiling);
      }
    } else {
      SomeHoldFails(usage);
    }
  }

  /** An excess of two is reached: one token of each input class at one micro per
      million costs three micros where one was held. */
  lemma {:induction false} ExcessIsReached(price: Price, usage: Usage)
    requires price == Price(1, 0, []) && usage == Usage(1, 1, 1, 0, None)
    ensures ReservationCeiling(price, 3, 0) == Some((1, 3))
    ensures PriceUsage(price, usage) == Some(3)
  {
    FourParts(UsageParts(TierFor(price, "default"), usage));
  }

  // ------------------------------------------------------------- the exact charge

  /** The least number of whole micros for so many tokens, or the largest there is. */
  predicate Costs(tokens: int, microsPerMillion: int, cost: int)
  {
    if tokens <= 0 || microsPerMillion <= 0 then cost == 0
    else
      && 0 < cost <= MAX_I64 && (cost - 1) * 1_000_000 < tokens * microsPerMillion
      && (tokens * microsPerMillion <= cost * 1_000_000 || cost == MAX_I64)
  }

  ghost predicate Dearest(tiers: seq<Tier>, column: Tier -> I64, price: I64)
  {
    (exists i :: 0 <= i < |tiers| && column(tiers[i]) == price)
    && forall i | 0 <= i < |tiers| :: column(tiers[i]) <= price
  }

  predicate Known(tiers: seq<Tier>, name: string)
  {
    exists i | 0 <= i < |tiers| :: tiers[i].serviceTier == name
  }

  /** The prices a service tier is charged at: its own, or the base prices without tiers,
      or the dearest of each column for a tier nobody knows. */
  ghost predicate ChargedAs(price: Price, name: string, tier: Tier)
  {
    if Known(price.tiers, name) then
      exists i :: 0 <= i < |price.tiers| && price.tiers[i] == tier && tier.serviceTier == name
                  && forall j | 0 <= j < i :: price.tiers[j].serviceTier != name
    else if price.tiers == [] then
      tier.input == tier.cachedInput == tier.cacheWrite == price.input && tier.output == price.output
    else
      && Dearest(price.tiers, (t: Tier) => t.input, tier.input)
      && Dearest(price.tiers, (t: Tier) => t.cachedInput, tier.cachedInput)
      && Dearest(price.tiers, (t: Tier) => t.cacheWrite, tier.cacheWrite)
      && Dearest(price.tiers, (t: Tier) => t.output, tier.output)
  }

  lemma {:induction false} GreatestIsDearest(tiers: seq<Tier>, column: Tier -> I64, fallback: I64)
    requires tiers != []
    ensures Dearest(tiers, column, Greatest(tiers, column, fallback))
  {
    if |tiers| > 1 {
      var rest := tiers[1..];
      GreatestIsDearest(rest, column, fallback);
      var i :| 0 <= i < |rest| && column(rest[i]) == Greatest(rest, column, fallback);
      assert column(tiers[i + 1]) == Greatest(rest, column, fallback);
      assert forall j | 0 < j < |tiers| :: tiers[j] == rest[j - 1];
    }
    assert column(tiers[0]) <= Greatest(tiers, column, fallback);
  }

  lemma {:induction false} FoundIsFirst(tiers: seq<Tier>, name: string)
    ensures FindTier(tiers, name).Some? <==> Known(tiers, name)
    ensures FindTier(tiers, name).Some? ==>
      exists i :: 0 <= i < |tiers| && tiers[i] == FindTier(tiers, name).value && tiers[i].serviceTier == name
                  && forall j | 0 <= j < i :: tiers[j].serviceTier != name
  {
    if tiers != [] && tiers[0].serviceTier != name {
      var rest := tiers[1..];
      FoundIsFirst(rest, name);
      assert tiers == [tiers[0]] + rest;
      if FindTier(rest, name).Some? {
        var i :| 0 <= i < |rest| && rest[i] == FindTier(rest, name).value && rest[i].serviceTier == name
                 && forall j | 0 <= j < i :: rest[j].serviceTier != name;
        assert tiers[i + 1] == FindTier(rest, name).value;
        forall j | 0 <= j < i + 1 ensures tiers[j].serviceTier != name {
          if j > 0 { assert tiers[j] == rest[j - 1]; }
        }
      }
    }
  }

  lemma {:induction false} TierIsTold(price: Price, name: string)
    ensures ChargedAs(price, name, TierFor(price, name))
  {
    FoundIsFirst(price.tiers, name);
    if price.tiers != [] {
      GreatestIsDearest(price.tiers, (t: Tier) => t.input, price.input);
      GreatestIsDearest(price.tiers, (t: Tier) => t.cachedInput, price.input);
      GreatestIsDearest(price.tiers, (t: Tier) => t.cacheWrite, price.input);
      GreatestIsDearest(price.tiers, (t: Tier) => t.output, price.output);
    }
  }

  lemma {:induction false} PriceIsCost(tokens: I64, microsPerMillion: I64)
    ensures Costs(tokens, microsPerMillion, PricedTokens(tokens, microsPerMillion))
  {
    var exact := ExactCost(tokens, microsPerMillion);
    var cost := PricedTokens(tokens, microsPerMillion);
    if tokens > 0 && microsPerMillion > 0 {
      MulPositive(tokens, microsPerMillion);
      assert exact == tokens * microsPerMillion;
      var micros := (exact + 999_999) / 1_000_000;
      assert (micros - 1) * 1_000_000 < exact <= micros * 1_000_000;
    }
  }

  /** The charge of a usage is the sum of its four costs at its tier's prices, each rounded
      up by itself; there is none exactly when that sum is too large. */
  lemma {:induction false} ChargeIsTold(price: Price, usage: Usage)
    returns (tier: Tier, input: int, cached: int, written: int, output: int)
    ensures ChargedAs(price, if usage.serviceTier.Some? then usage.serviceTier.value else "default", tier)
    ensures Costs(usage.input, tier.input, input) && Costs(usage.cachedInput, tier.cachedInput, cached)
    ensures Costs(usage.cacheWrite, tier.cacheWrite, written) && Costs(usage.output, tier.output, output)
    ensures PriceUsage(price, usage)
            == var sum := input + cached + written + output; if sum <= MAX_I64 then Some(sum) else None
  {
    var name := GetOr(usage.serviceTier, "default");
    tier := TierFor(price, name);
    TierIsTold(price, name);
    PriceIsCost(usage.input, tier.input);
    PriceIsCost(usage.cachedInput, tier.cachedInput);
    PriceIsCost(usage.cacheWrite, tier.cacheWrite);
    PriceIsCost(usage.output, tier.output);
    input, cached := PricedTokens(usage.input, tier.input), PricedTokens(usage.cachedInput, tier.cachedInput);
    written, output := PricedTokens(usage.cacheWrite, tier.cacheWrite), PricedTokens(usage.output, tier.output);
    FourParts(UsageParts(tier, usage));
  }

  /** The price is the base's or some tier's, and none of theirs is higher. */
  ghost predicate DearestOf(price: Price, column: Tier -> I64, base: I64, most: I64)
  {
    && base <= most && (forall t | t in price.tiers :: column(t) <= most)
    && (most == base || exists t :: t in price.tiers && column(t) == most)
  }

  lemma {:induction false} MaximumIsDearest(price: Price, column: Tier -> I64, base: I64)
    ensures DearestOf(price, column, base, Max(Greatest(price.tiers, column, base), base))
  {
    if price.tiers != [] {
      GreatestIsDearest(price.tiers, column, base);
      var most := Greatest(price.tiers, column, base);
      var i :| 0 <= i < |price.tiers| && column(price.tiers[i]) == most;
      assert price.tiers[i] in price.tiers;
    }
  }

  function HighestInput(t: Tier): I64
  {
    if t.input >= t.cachedInput && t.input >= t.cacheWrite then t.input
    else if t.cachedInput >= t.cacheWrite then t.cachedInput
    else t.cacheWrite
  }

  /** A hold is the cost of both ceilings at the dearest price of any input class and of the
      output; there is none exactly for a negative ceiling or too large a sum. */
  lemma {:induction false} HoldIsTold(price: Price, inputCeiling: I64, outputCeiling: I64)
    returns (input: I64, output: I64, held: int, heldOutput: int)
    ensures DearestOf(price, HighestInput, price.input, input)
    ensures DearestOf(price, (t: Tier) => t.output, price.output, output)
    ensures Costs(inputCeiling, input, held) && Costs(outputCeiling, output, heldOutput)
    ensures ReservationCeiling(price, inputCeiling, outputCeiling)
            == if inputCeiling < 0 || outputCeiling < 0 || held + heldOutput > MAX_I64
                  || inputCeiling + outputCeiling > MAX_I64 then None
               else Some((held + heldOutput, inputCeiling + outputCeiling))
  {
    input, output := MaximumInput(price), MaximumOutput(price);
    MaximumIsDearest(price, DearestInput, price.input);
    assert forall t: Tier :: HighestInput(t) == DearestInput(t);
    MaximumIsDearest(price, (t: Tier) => t.output, price.output);
    PriceIsCost(inputCeiling, input);
    PriceIsCost(outputCeiling, output);
    held, heldOutput := PricedTokens(inputCeiling, input), PricedTokens(outputCeiling, output);
  }
}
