/** The vault's share price: what holders may claim is covered by what the vault has, up to
    bounded dust (contracts/ailiq_token/src/query.rs; EIP-4626, `convertToAssets`). */
module Vault {
  import opened Base
  import opened Decimals

  /** `compute_exchange_rate` for total assets `assets` and share supply `supply`. */
  function ExchangeRate(assets: nat, supply: nat): Result<nat, Error> {
    if supply == 0 then Ok(DECIMAL_FRACTIONAL)
    else
      var a :- Fit(assets * DECIMAL_FRACTIONAL);
      var s :- Fit(supply * DECIMAL_FRACTIONAL);
      Divide(a, s)
  }

  function ConvertToAssets(assets: nat, supply: nat, shares: nat): Result<nat, Error> {
    var rate :- ExchangeRate(assets, supply);
    var converted :- TimesDecimal(shares, rate);
    Narrow(converted)
  }

  function ConvertToShares(assets: nat, supply: nat, amount: nat): Result<nat, Error> {
    var rate :- ExchangeRate(assets, supply);
    var converted :- OverDecimal(amount, rate);
    Narrow(converted)
  }

  function Sum(xs: seq<nat>): nat {
    if xs == [] then 0 else xs[0] + Sum(xs[1..])
  }

  // ----- The rate

  lemma {:induction false} MulLess(x: nat, y: nat, a: nat, b: nat)
    requires x < a && y <= b && b > 0
    ensures x * y < a * b
  {
    assert x * y <= x * b;
    assert x * b < a * b;
  }

  lemma {:induction false} CancelFactor(x: nat, s: nat, f: nat)
    requires s > 0 && f > 0
    ensures (x * f) / (s * f) == x / s
  {
    var q := x / s;
    DivBounds(x, s);
    assert q * (s * f) == (q * s) * f;
    assert (q * s) * f <= x * f;
    assert x * f < (q * s + s) * f;
    assert (q * s + s) * f == q * (s * f) + s * f;
    QuotientIs(x * f, s * f, q);
  }

  lemma {:induction false} QuotientIs(x: nat, d: nat, q: nat)
    requires d > 0 && q * d <= x < q * d + d
    ensures x / d == q
  {
    var r := x / d;
    DivBounds(x, d);
    if r < q {
      MulMonotone(r + 1, q, d);
    } else if r > q {
      MulMonotone(q + 1, r, d);
    }
  }

  /** With 128-bit inputs no product overflows, and the rate is assets over shares, in
      18 decimals, rounded down. */
  lemma {:induction false} RateIs(assets: nat, supply: nat)
    requires assets < U128_LIMIT && 0 < supply < U128_LIMIT
    ensures ExchangeRate(assets, supply) == Ok(assets * DECIMAL_FRACTIONAL / supply)
  {
    assert DECIMAL_FRACTIONAL * DECIMAL_FRACTIONAL < U128_LIMIT;
    MulLess(assets, DECIMAL_FRACTIONAL * DECIMAL_FRACTIONAL, U128_LIMIT, U128_LIMIT);
    MulLess(supply, DECIMAL_FRACTIONAL, U128_LIMIT, U128_LIMIT);
    MulLess(assets, DECIMAL_FRACTIONAL, U128_LIMIT, U128_LIMIT);
    assert assets * DECIMAL_FRACTIONAL * DECIMAL_FRACTIONAL == assets * (DECIMAL_FRACTIONAL * DECIMAL_FRACTIONAL);
    CancelFactor(assets * DECIMAL_FRACTIONAL, supply, DECIMAL_FRACTIONAL);
  }

  lemma {:induction false} RateBounds(assets: nat, supply: nat)
    requires supply > 0
    ensures var rate := assets * DECIMAL_FRACTIONAL / supply;
            supply * rate <= assets * DECIMAL_FRACTIONAL < supply * rate + supply
  {
    DivBounds(assets * DECIMAL_FRACTIONAL, supply);
    Commutes(assets * DECIMAL_FRACTIONAL / supply, supply);
  }

  // ----- Claims

  /** One holder's claim succeeds and is shares times rate, rounded down. */
  lemma {:induction false} ClaimIs(assets: nat, supply: nat, shares: nat)
    requires assets < U128_LIMIT && 0 < supply < U128_LIMIT && shares <= supply
    ensures ConvertToAssets(assets, supply, shares) == Ok(shares * (assets * DECIMAL_FRACTIONAL / supply) / DECIMAL_FRACTIONAL)
  {
    var rate := assets * DECIMAL_FRACTIONAL / supply;
    RateIs(assets, supply);
    RateBounds(assets, supply);
    MulMonotone(shares, supply, rate);
    MulLess(assets, DECIMAL_FRACTIONAL, U128_LIMIT, U128_LIMIT);
    QuotientAtMost(shares * rate, DECIMAL_FRACTIONAL, assets);
    if shares == 0 || rate == 0 {
      assert shares * rate == 0;
    }
  }

  /** All holders' claims at one rate. */
  function Claims(rate: nat, balances: seq<nat>): seq<nat> {
    seq(|balances|, i requires 0 <= i < |balances| => balances[i] * rate / DECIMAL_FRACTIONAL)
  }

  lemma {:induction false} ClaimsSum(rate: nat, balances: seq<nat>)
    ensures var total := Sum(Claims(rate, balances)) * DECIMAL_FRACTIONAL;
            total <= Sum(balances) * rate <= total + |balances| * (DECIMAL_FRACTIONAL - 1)
  {
    if balances != [] {
      assert Claims(rate, balances)[1..] == Claims(rate, balances[1..]);
      ClaimsSum(rate, balances[1..]);
      DivBounds(balances[0] * rate, DECIMAL_FRACTIONAL);
      ClaimsStep(balances[0], Sum(balances[1..]), rate, balances[0] * rate / DECIMAL_FRACTIONAL,
                 Sum(Claims(rate, balances[1..])), |balances[1..]|);
    }
  }

  lemma {:induction false} ClaimsStep(b: nat, rest: nat, rate: nat, c: nat, claims: nat, n: nat)
    requires c * DECIMAL_FRACTIONAL <= b * rate < c * DECIMAL_FRACTIONAL + DECIMAL_FRACTIONAL
    requires claims * DECIMAL_FRACTIONAL <= rest * rate <= claims * DECIMAL_FRACTIONAL + n * (DECIMAL_FRACTIONAL - 1)
    ensures (c + claims) * DECIMAL_FRACTIONAL <= (b + rest) * rate
            <= (c + claims) * DECIMAL_FRACTIONAL + (n + 1) * (DECIMAL_FRACTIONAL - 1)
  {
    assert (b + rest) * rate == b * rate + rest * rate;
  }

  /** What a list of holders may claim. */
  function ClaimOf(assets: nat, supply: nat, shares: nat): nat {
    match ConvertToAssets(assets, supply, shares) case Ok(a) => a case Err(_) => 0
  }

  function ClaimsOf(assets: nat, supply: nat, balances: seq<nat>): seq<nat> {
    seq(|balances|, i requires 0 <= i < |balances| => ClaimOf(assets, supply, balances[i]))
  }

  lemma {:induction false} BalanceAtMostSum(balances: seq<nat>, i: nat)
    requires i < |balances|
    ensures balances[i] <= Sum(balances)
  {
    if i > 0 {
      BalanceAtMostSum(balances[1..], i - 1);
    }
  }

  lemma {:induction false} ClaimsSucceed(assets: nat, supply: nat, balances: seq<nat>)
    requires assets < U128_LIMIT && 0 < supply < U128_LIMIT
    requires forall i :: 0 <= i < |balances| ==> balances[i] <= supply
    ensures forall i :: 0 <= i < |balances| ==> ConvertToAssets(assets, supply, balances[i]).Ok?
  {
    forall i | 0 <= i < |balances| ensures ConvertToAssets(assets, supply, balances[i]).Ok? {
      ClaimIs(assets, supply, balances[i]);
    }
  }

  lemma {:induction false} ClaimsAtRate(assets: nat, supply: nat, balances: seq<nat>)
    requires assets < U128_LIMIT && 0 < supply < U128_LIMIT
    requires forall i :: 0 <= i < |balances| ==> balances[i] <= supply
    ensures ClaimsOf(assets, supply, balances) == Claims(assets * DECIMAL_FRACTIONAL / supply, balances)
  {
    var rate := assets * DECIMAL_FRACTIONAL / supply;
    forall i | 0 <= i < |balances|
      ensures ClaimOf(assets, supply, balances[i]) == balances[i] * rate / DECIMAL_FRACTIONAL
    {
      ClaimIs(assets, supply, balances[i]);
    }
  }

  /** Claims are made at one rate, within one share's worth of assets over supply. */
  lemma {:induction false} RateOfClaims(assets: nat, supply: nat, balances: seq<nat>) returns (rate: nat)
    requires assets < U128_LIMIT && 0 < supply < U128_LIMIT
    requires forall i :: 0 <= i < |balances| ==> balances[i] <= supply
    ensures ClaimsOf(assets, supply, balances) == Claims(rate, balances)
    ensures supply * rate <= assets * DECIMAL_FRACTIONAL < supply * rate + supply
  {
    rate := assets * DECIMAL_FRACTIONAL / supply;
    ClaimsAtRate(assets, supply, balances);
    RateBounds(assets, supply);
  }

  lemma {:induction false} Commutes(x: nat, y: nat)
    ensures x * y == y * x
  {
  }

  lemma {:induction false} ClaimsWithin(assets: nat, rate: nat, balances: seq<nat>)
    requires Sum(balances) > 0
    requires Sum(balances) * rate <= assets * DECIMAL_FRACTIONAL < Sum(balances) * rate + Sum(balances)
    ensures var total := Sum(Claims(rate, balances));
            && total <= assets
            && (assets - total) * DECIMAL_FRACTIONAL < |balances| * DECIMAL_FRACTIONAL + Sum(balances)
  {
    ClaimsSum(rate, balances);
    DustBound(assets, Sum(balances), Sum(balances) * rate, Sum(Claims(rate, balances)), |balances|);
  }

  /** Claims are covered with bounded dust: if balances add up to the supply, every holder's
      claim succeeds, together they stay within total assets, and what they leave is less than
      one unit per holder and one for each 10^18 shares. */
  lemma {:induction false} ClaimsCovered(assets: nat, balances: seq<nat>)
    requires assets < U128_LIMIT && 0 < Sum(balances) < U128_LIMIT
    ensures forall i :: 0 <= i < |balances| ==> ConvertToAssets(assets, Sum(balances), balances[i]).Ok?
    ensures var total := Sum(ClaimsOf(assets, Sum(balances), balances));
            && total <= assets
            && (assets - total) * DECIMAL_FRACTIONAL < |balances| * DECIMAL_FRACTIONAL + Sum(balances)
  {
    forall i | 0 <= i < |balances| ensures balances[i] <= Sum(balances) {
      BalanceAtMostSum(balances, i);
    }
    ClaimsSucceed(assets, Sum(balances), balances);
    var rate := RateOfClaims(assets, Sum(balances), balances);
    ClaimsWithin(assets, rate, balances);
  }

  lemma {:induction false} DustBound(assets: nat, supply: nat, worth: nat, total: nat, n: nat)
    requires supply > 0
    requires worth <= assets * DECIMAL_FRACTIONAL < worth + supply
    requires total * DECIMAL_FRACTIONAL <= worth <= total * DECIMAL_FRACTIONAL + n * (DECIMAL_FRACTIONAL - 1)
    ensures total <= assets
    ensures (assets - total) * DECIMAL_FRACTIONAL < n * DECIMAL_FRACTIONAL + supply
  {
  }

  // ----- Shares

  /** An amount buys as many whole shares as it pays for at the rate; none can be bought at a rate of
      nought. Before the first share, shares and assets are one for one. */
  lemma {:induction false} SharesAre(assets: nat, supply: nat, amount: nat)
    requires assets < U128_LIMIT && supply < U128_LIMIT && amount < U128_LIMIT
    ensures supply == 0 ==> ConvertToShares(assets, 0, amount) == Ok(amount) == ConvertToAssets(assets, 0, amount)
    ensures supply > 0 ==>
              var rate := assets * DECIMAL_FRACTIONAL / supply;
              var shares := ConvertToShares(assets, supply, amount);
              && (shares.Ok? <==> rate > 0 && amount * DECIMAL_FRACTIONAL < U128_LIMIT * rate)
              && (shares.Ok? ==> shares.value * rate <= amount * DECIMAL_FRACTIONAL < (shares.value + 1) * rate)
  {
    MulLess(amount, DECIMAL_FRACTIONAL, U128_LIMIT, U128_LIMIT);
    if supply > 0 {
      RateIs(assets, supply);
      var rate := assets * DECIMAL_FRACTIONAL / supply;
      if rate > 0 && amount > 0 {
        SharesAt(amount, rate);
      }
    } else if amount > 0 {
      SharesAt(amount, DECIMAL_FRACTIONAL);
      QuotientIs(amount * DECIMAL_FRACTIONAL, DECIMAL_FRACTIONAL, amount);
    }
  }

  lemma {:induction false} SharesAt(amount: nat, rate: nat)
    requires rate > 0
    ensures var q := amount * DECIMAL_FRACTIONAL / rate;
            && q * rate <= amount * DECIMAL_FRACTIONAL < (q + 1) * rate
            && (q < U128_LIMIT <==> amount * DECIMAL_FRACTIONAL < U128_LIMIT * rate)
  {
    var q := amount * DECIMAL_FRACTIONAL / rate;
    DivBounds(amount * DECIMAL_FRACTIONAL, rate);
    assert (q + 1) * rate == q * rate + rate;
    if q < U128_LIMIT {
      MulMonotone(q + 1, U128_LIMIT, rate);
    } else {
      MulMonotone(U128_LIMIT, q, rate);
    }
  }

  // ----- Converting back and forth

  /** Shares bought with an amount never convert back to more than the amount. */
  lemma {:induction false} NoGainFromShares(assets: nat, supply: nat, amount: nat)
    requires ConvertToShares(assets, supply, amount).Ok?
    requires ConvertToAssets(assets, supply, ConvertToShares(assets, supply, amount).value).Ok?
    ensures ConvertToAssets(assets, supply, ConvertToShares(assets, supply, amount).value).value <= amount
  {
    var rate := ExchangeRate(assets, supply).value;
    var shares := ConvertToShares(assets, supply, amount).value;
    if amount > 0 {
      DivBounds(amount * DECIMAL_FRACTIONAL, rate);
      QuotientAtMost(shares * rate, DECIMAL_FRACTIONAL, amount);
    }
  }

  /** Assets got for shares never convert back to more than the shares. */
  lemma {:induction false} NoGainFromAssets(assets: nat, supply: nat, shares: nat)
    requires ConvertToAssets(assets, supply, shares).Ok?
    requires ConvertToShares(assets, supply, ConvertToAssets(assets, supply, shares).value).Ok?
    ensures ConvertToShares(assets, supply, ConvertToAssets(assets, supply, shares).value).value <= shares
  {
    var rate := ExchangeRate(assets, supply).value;
    var amount := ConvertToAssets(assets, supply, shares).value;
    if amount > 0 {
      DivBounds(shares * rate, DECIMAL_FRACTIONAL);
      QuotientAtMost(amount * DECIMAL_FRACTIONAL, rate, shares);
    }
  }
}
