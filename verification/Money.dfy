/** Exact money: token prices, unit prices and decimal text
    (src/model.rs:8, 1712-1728, 1886-1906). */
module Money {
  import opened Json
  import opened Limits
  import opened Text

  const MONEY_SCALE := 1_000_000

  type I64 = n: int | MIN_I64 <= n <= MAX_I64

  // -------------------------------------------------------------- token prices

  /** `priced_tokens`. The product of two 64-bit numbers fits 128 bits. */
  function PricedTokens(tokens: I64, microsPerMillion: I64): I64
  {
    if tokens <= 0 || microsPerMillion <= 0 then 0
    else
      MulPositive(tokens, microsPerMillion);
      var micros := (tokens * microsPerMillion + 999_999) / 1_000_000;
      if micros <= MAX_I64 then micros else MAX_I64
  }

  lemma {:induction false} MulPositive(a: int, b: int)
    requires a > 0 && b > 0
    ensures a * b > 0
  {
  }

  /** What the tokens cost, in millionths of a micro. */
  function ExactCost(tokens: int, microsPerMillion: int): (cost: int)
    ensures cost >= 0
  {
    if tokens <= 0 || microsPerMillion <= 0 then 0 else MulPositive(tokens, microsPerMillion); tokens * microsPerMillion
  }

  /** The price is the least number of whole micros that covers the exact cost,
      or the largest 64-bit number when that does not fit. */
  lemma {:induction false} PriceIsCeiling(tokens: I64, microsPerMillion: I64, c: int)
    requires 0 <= c < MAX_I64
    ensures PricedTokens(tokens, microsPerMillion) <= c <==> ExactCost(tokens, microsPerMillion) <= c * MONEY_SCALE
    ensures PricedTokens(tokens, microsPerMillion) >= 0
  {
    var cost := ExactCost(tokens, microsPerMillion);
    assert (cost + 999_999) / 1_000_000 <= c <==> cost <= c * 1_000_000;
  }

  lemma {:induction false} ExactCostMonotone(t: int, u: int, p: int, q: int)
    requires t <= u && p <= q
    ensures ExactCost(t, p) <= ExactCost(u, q)
  {
    if t > 0 && p > 0 { assert t * p <= u * p <= u * q; }
  }

  lemma {:induction false} PriceMonotone(t: I64, u: I64, p: I64, q: I64)
    requires t <= u && p <= q
    ensures PricedTokens(t, p) <= PricedTokens(u, q)
  {
    ExactCostMonotone(t, u, p, q);
    var c := PricedTokens(u, q);
    PriceIsCeiling(u, q, 0);
    if c < MAX_I64 {
      PriceIsCeiling(u, q, c);
      PriceIsCeiling(t, p, c);
    }
  }

  /** Billing usage in two parts never costs less than billing it at once, and
      costs at most one micro more while the whole is below the ceiling. */
  lemma {:induction false} SplittingCosts(t: I64, u: I64, p: I64)
    requires t >= 0 && u >= 0 && t + u <= MAX_I64
    ensures PricedTokens(t + u, p) <= PricedTokens(t, p) + PricedTokens(u, p)
    ensures PricedTokens(t + u, p) < MAX_I64 ==>
      PricedTokens(t, p) + PricedTokens(u, p) <= PricedTokens(t + u, p) + 1
  {
    assert ExactCost(t + u, p) == ExactCost(t, p) + ExactCost(u, p) by { assert (t + u) * p == t * p + u * p; }
  }

  // --------------------------------------------------------------- unit prices

  predicate PricedPerMillion(billingUnit: string)
  {
    billingUnit == "megapixel" || billingUnit == "million_tokens"
  }

  /** `reservation_price`; nothing when the scaled price overflows. */
  function ReservationPrice(billingUnit: string, microsPerUnit: I64): Option<I64>
  {
    if PricedPerMillion(billingUnit) then Some(microsPerUnit)
    else if MIN_I64 <= microsPerUnit * 1_000_000 <= MAX_I64 then Some(microsPerUnit * 1_000_000)
    else None
  }

  /** Per unit, the price of the units is exactly units times price; per million,
      whole millions cost exactly their price and a part is rounded up. */
  lemma {:induction false} UnitPriceExact(billingUnit: string, microsPerUnit: I64, units: I64)
    requires units >= 0 && microsPerUnit >= 0
    ensures ReservationPrice(billingUnit, microsPerUnit).None? <==>
      !PricedPerMillion(billingUnit) && microsPerUnit * MONEY_SCALE > MAX_I64
    ensures ReservationPrice(billingUnit, microsPerUnit).Some? && !PricedPerMillion(billingUnit) ==>
      PricedTokens(units, ReservationPrice(billingUnit, microsPerUnit).value)
      == if units * microsPerUnit <= MAX_I64 then units * microsPerUnit else MAX_I64
    ensures PricedPerMillion(billingUnit) && units * MONEY_SCALE <= MAX_I64 ==>
      PricedTokens(units * MONEY_SCALE, ReservationPrice(billingUnit, microsPerUnit).value)
      == if units * microsPerUnit <= MAX_I64 then units * microsPerUnit else MAX_I64
  {
    var exact := units * microsPerUnit;
    assert units * (microsPerUnit * 1_000_000) == exact * 1_000_000 == (units * 1_000_000) * microsPerUnit;
    assert (exact * 1_000_000 + 999_999) / 1_000_000 == exact;
    if units == 0 || microsPerUnit == 0 { assert exact == 0; }
  }

  // -------------------------------------------------------------- decimal text

  /** Zeros in front up to a width: `{:06}` for a width of six. */
  function Padded(digits: string, width: nat): (s: string)
    requires |digits| <= width
    ensures |s| == width
  {
    seq(width - |digits|, _ => '0') + digits
  }

  function TrimZeros(s: string): string
  {
    if s != "" && s[|s| - 1] == '0' then TrimZeros(s[..|s| - 1]) else s
  }

  /** `i64::unsigned_abs`, which has room for the most negative number. */
  function Magnitude(micros: int): nat
  {
    if micros < 0 then -micros else micros
  }

  function Signed(negative: bool, text: string): string
  {
    if negative then "-" + text else text
  }

  /** A sign, a whole part and the six decimals of a fraction that is not zero. */
  function Rendered(negative: bool, whole: string, fraction: nat, decimals: string): string
  {
    if fraction == 0 then Signed(negative, whole)
    else TrimZeros(Signed(negative, whole) + "." + decimals)
  }

  /** `micros_to_decimal_string`. */
  function DecimalString(micros: I64): string
  {
    var whole, fraction := Magnitude(micros) / MONEY_SCALE, Magnitude(micros) % MONEY_SCALE;
    DecimalLength(fraction, 6);
    Rendered(micros < 0, Decimal(whole), fraction, Padded(Decimal(fraction), 6))
  }

  predicate Digits(s: string)
  {
    forall c | c in s :: '0' <= c <= '9'
  }

  /** The number a run of digits makes when it follows others. */
  function Append(value: int, s: string): int
  {
    if s == "" then value else 10 * Append(value, s[..|s| - 1]) + DigitValue(s[|s| - 1])
  }

  /** Reads digits, one point and up to six decimals, scaled to micros; `places`
      counts decimals and is negative before the point. */
  function Scan(s: string, value: int, places: int): Option<int>
  {
    if s == "" then
      if places == 0 || places > 6 then None
      else Some(Append(value, seq(6 - (if places < 0 then 0 else places), _ => '0')))
    else if s[0] == '.' && places < 0 then Scan(s[1..], value, 0)
    else if '0' <= s[0] <= '9' then
      Scan(s[1..], 10 * value + DigitValue(s[0]), if places < 0 then places else places + 1)
    else None
  }

  /** An amount as decimal text: an optional minus, digits, and a point with one to
      six decimals. */
  function ReadMicros(s: string): Option<int>
  {
    var unsigned := if s != "" && s[0] == '-' then s[1..] else s;
    if unsigned == "" || unsigned[0] == '.' then None
    else
      var r := Scan(unsigned, 0, -1);
      if unsigned == s || r.None? then r else Some(-r.value)
  }

  lemma {:induction false} ScanDigits(digits: string, rest: string, value: int, places: int)
    requires Digits(digits)
    ensures Scan(digits + rest, value, places)
            == Scan(rest, Append(value, digits), if places < 0 then places else places + |digits|)
  {
    if digits == "" {
      assert digits + rest == rest;
    } else {
      var n := |digits| - 1;
      var front, c := digits[..n], digits[n];
      assert c in digits && forall d | d in front :: d in digits;
      assert digits + rest == front + ([c] + rest);
      ScanDigits(front, [c] + rest, value, places);
      assert ([c] + rest)[1..] == rest;
    }
  }

  lemma {:induction false} AppendConcat(value: int, a: string, b: string)
    ensures Append(value, a + b) == Append(Append(value, a), b)
  {
    if b == "" {
      assert a + b == a;
    } else {
      var n := |b| - 1;
      AppendConcat(value, a, b[..n]);
      assert (a + b)[..|a| + n] == a + b[..n];
    }
  }

  lemma {:induction false} AppendNumber(value: int, s: string)
    ensures Append(value, s) == value * Pow10(|s|) + Text.Number(s)
  {
    if s != "" { AppendNumber(value, s[..|s| - 1]); }
  }

  lemma {:induction false} ZerosAppend(n: nat)
    ensures Append(0, seq(n, _ => '0')) == 0
  {
    if n > 0 {
      assert seq(n, _ => '0')[..n - 1] == seq(n - 1, _ => '0');
      ZerosAppend(n - 1);
    }
  }

  /** Padded decimals after a whole part stand for the sum of the two. */
  lemma {:induction false} PaddedValue(whole: int, decimals: string, width: nat)
    requires |decimals| <= width
    ensures Append(whole, Padded(decimals, width)) == whole * Pow10(width) + Text.Number(decimals)
  {
    var zeros := seq(width - |decimals|, _ => '0');
    AppendNumber(whole, Padded(decimals, width));
    AppendNumber(0, Padded(decimals, width));
    AppendConcat(0, zeros, decimals);
    ZerosAppend(|zeros|);
    AppendNumber(0, decimals);
  }

  lemma {:induction false} PaddedDigits(decimals: string, width: nat)
    requires Digits(decimals) && |decimals| <= width
    ensures Digits(Padded(decimals, width))
  {
  }

  /** Trimming drops zeros only, and all of them. */
  lemma {:induction false} TrimmedFraction(head: string, fraction: string) returns (f: string)
    requires Digits(fraction) && Text.Number(fraction) > 0
    ensures TrimZeros(head + "." + fraction) == head + "." + f
    ensures 1 <= |f| <= |fraction| && f[|f| - 1] != '0'
    ensures f + seq(|fraction| - |f|, _ => '0') == fraction
  {
    var n := |fraction| - 1;
    var s, shorter := head + "." + fraction, fraction[..n];
    assert s[|s| - 1] == fraction[n] && s[..|s| - 1] == head + "." + shorter;
    if fraction[n] == '0' {
      assert forall c | c in shorter :: c in fraction;
      f := TrimmedFraction(head, shorter);
      assert fraction == shorter + ['0'];
    } else {
      f := fraction;
    }
  }

  /** What an unsigned text with a fraction reads as. */
  lemma {:induction false} ScanParts(whole: string, f: string)
    requires Digits(whole) && Digits(f) && 1 <= |f| <= 6
    ensures Scan(whole + "." + f, 0, -1) == Some(Append(Append(0, whole), f + seq(6 - |f|, _ => '0')))
  {
    assert whole + "." + f == whole + ("." + f) && ("." + f)[1..] == f && f + "" == f;
    ScanDigits(whole, "." + f, 0, -1);
    ScanDigits(f, "", Append(0, whole), 0);
    AppendConcat(Append(0, whole), f, seq(6 - |f|, _ => '0'));
  }

  lemma {:induction false} ScanWhole(whole: string)
    requires Digits(whole)
    ensures Scan(whole, 0, -1) == Some(Text.Number(whole) * MONEY_SCALE)
  {
    assert whole + "" == whole;
    ScanDigits(whole, "", 0, -1);
    AppendNumber(0, whole);
    AppendNumber(Text.Number(whole), seq(6, _ => '0'));
    AppendNumber(0, seq(6, _ => '0'));
    ZerosAppend(6);
    assert Pow10(6) == 1_000_000;
  }

  lemma {:induction false} ReadsSigned(negative: bool, whole: string, rest: string)
    requires Digits(whole) && whole != "" && Scan(whole + rest, 0, -1).Some?
    ensures ReadMicros(Signed(negative, whole) + rest)
            == Some(if negative then -Scan(whole + rest, 0, -1).value else Scan(whole + rest, 0, -1).value)
  {
    assert whole[0] in whole;
    assert ("-" + whole + rest)[1..] == whole + rest;
  }

  lemma {:induction false} PaddedFraction(whole: int, n: nat)
    requires n < MONEY_SCALE
    ensures |Decimal(n)| <= 6
    ensures var p := Padded(Decimal(n), 6);
            Digits(p) && Text.Number(p) == n && Append(whole, p) == whole * MONEY_SCALE + n
  {
    DecimalReads(n);
    DecimalLength(n, 6);
    PaddedDigits(Decimal(n), 6);
    PaddedValue(whole, Decimal(n), 6);
    PaddedValue(0, Decimal(n), 6);
    AppendNumber(0, Padded(Decimal(n), 6));
    assert Pow10(6) == 1_000_000;
  }

  /** A trimmed fraction reads back whatever sign and digits stand before it. */
  lemma {:induction false} TrimmedReadsBack(negative: bool, whole: string, fraction: string)
    requires Digits(whole) && whole != ""
    requires Digits(fraction) && |fraction| == 6 && Text.Number(fraction) > 0
    ensures var text := TrimZeros(Signed(negative, whole) + "." + fraction);
            var micros := Append(Append(0, whole), fraction);
            && ReadMicros(text) == Some(if negative then -micros else micros)
            && text != "" && text[|text| - 1] != '0'
  {
    var f := TrimmedFraction(Signed(negative, whole), fraction);
    assert Digits(f) by { assert forall c | c in f :: c in fraction; }
    ScanParts(whole, f);
    assert Signed(negative, whole) + "." + f == Signed(negative, whole) + ("." + f);
    assert whole + "." + f == whole + ("." + f);
    ReadsSigned(negative, whole, "." + f);
  }

  lemma {:induction false} RenderedReadsBack(negative: bool, whole: string, fraction: nat, decimals: string)
    requires Digits(whole) && whole != "" && Digits(decimals) && |decimals| == 6
    requires Text.Number(decimals) == fraction
    ensures var text := Rendered(negative, whole, fraction, decimals);
            var micros := Text.Number(whole) * MONEY_SCALE + fraction;
            && ReadMicros(text) == Some(if negative then -micros else micros)
            && text != "" && ('.' in text ==> text[|text| - 1] != '0')
  {
    AppendNumber(0, whole);
    AppendNumber(Text.Number(whole), decimals);
    assert Pow10(6) == 1_000_000;
    if fraction == 0 {
      ScanWhole(whole);
      assert whole + "" == whole && Signed(negative, whole) + "" == Signed(negative, whole);
      ReadsSigned(negative, whole, "");
    } else {
      TrimmedReadsBack(negative, whole, decimals);
    }
  }

  /** The text reads back as the same number, the most negative one included, and
      has no final zero after a point. */
  lemma {:induction false} DecimalStringReadsBack(micros: I64)
    ensures ReadMicros(DecimalString(micros)) == Some(micros)
    ensures '.' in DecimalString(micros) ==> DecimalString(micros)[|DecimalString(micros)| - 1] != '0'
  {
    var whole, fraction := Magnitude(micros) / MONEY_SCALE, Magnitude(micros) % MONEY_SCALE;
    DecimalReads(whole);
    PaddedFraction(0, fraction);
    RenderedReadsBack(micros < 0, Decimal(whole), fraction, Padded(Decimal(fraction), 6));
  }
}
