/**
 * The decision rules embedded in the single-option calculator page (Home.py):
 * unit conversion and the short-position sign of the cost, the short P&L
 * flip, strike suggestions, the moneyness label, the P&L summary, the maximum
 * profit and loss panel, and the strategy summary. The page's widgets and
 * session state are not modelled; their values arrive as parameters.
 *
 * The page spells the option type "Call" / "Put" and the position
 * "Long (Buy)" / "Short (Sell)", and compares those strings exactly.
 */
module Home {
  import opened Analytic
  import opened Text
  import opened BlackScholes

  const LongBuy: string := "Long (Buy)"
  const ShortSell: string := "Short (Sell)"

  /** Percent to fraction. */
  const Percent: real := 100.0

  // ---------------------------------------------------------------------------
  // calculate_metrics

  /** The page's inputs in the engine's units: days to years, percentages to fractions. */
  function ToParams(stockPrice: real, strikePrice: real, daysToExpiry: int, volatilityPct: real, riskFreePct: real): (p: Params)
    ensures p.S == stockPrice && p.K == strikePrice
    ensures p.T * DaysPerYear == daysToExpiry as real
    ensures p.sigma * Percent == volatilityPct && p.r * Percent == riskFreePct
  {
    Params(stockPrice, strikePrice, daysToExpiry as real / DaysPerYear, riskFreePct / Percent, volatilityPct / Percent)
  }

  /**
   * calculate_metrics: price the converted inputs with the lower-cased option
   * type; a short position turns the total cost into a (negative) premium
   * received.
   */
  function CalculateMetrics(
    m: Maths, stockPrice: real, strikePrice: real, daysToExpiry: int, volatilityPct: real,
    riskFreePct: real, optionType: string, contracts: int, position: string): (r: (Params, OptionMetrics))
    requires Lawful(m) && stockPrice > 0.0 && strikePrice > 0.0 && daysToExpiry > 0 && volatilityPct > 0.0
    ensures r.0 == ToParams(stockPrice, strikePrice, daysToExpiry, volatilityPct, riskFreePct)
    ensures InDomain(r.0)
    ensures r.1.optionPrice == OptionPrice(m, r.0, optionType)
    ensures var base := CalculateOptionMetrics(m, r.0, Lower(optionType), contracts);
      r.1.breakeven == base.breakeven && r.1.greeks == base.greeks && r.1.contracts == contracts
    ensures position != ShortSell ==> r.1.totalCost == r.1.optionPrice * contracts as real * ContractSize
    ensures position == ShortSell ==> r.1.totalCost == -(r.1.optionPrice * contracts as real * ContractSize)
  {
    var p := ToParams(stockPrice, strikePrice, daysToExpiry, volatilityPct, riskFreePct);
    assert InDomain(p);
    LowerIdempotent(optionType);
    assert IsCall(Lower(optionType)) == IsCall(optionType);
    var metrics := CalculateOptionMetrics(m, p, Lower(optionType), contracts);
    assert metrics.optionPrice == OptionPrice(m, p, optionType);
    assert metrics.totalCost == metrics.optionPrice * contracts as real * ContractSize;
    if position == ShortSell then (p, metrics.(totalCost := -metrics.totalCost)) else (p, metrics)
  }

  /** Going short changes the sign of the total cost and nothing else: price, breakeven and Greeks stay. */
  lemma ShortNegatesCostOnly(
    m: Maths, stockPrice: real, strikePrice: real, daysToExpiry: int, volatilityPct: real,
    riskFreePct: real, optionType: string, contracts: int)
    requires Lawful(m) && stockPrice > 0.0 && strikePrice > 0.0 && daysToExpiry > 0 && volatilityPct > 0.0
    ensures var long := CalculateMetrics(m, stockPrice, strikePrice, daysToExpiry, volatilityPct, riskFreePct, optionType, contracts, LongBuy);
      var short := CalculateMetrics(m, stockPrice, strikePrice, daysToExpiry, volatilityPct, riskFreePct, optionType, contracts, ShortSell);
      short.0 == long.0 && short.1 == long.1.(totalCost := -long.1.totalCost)
  {
    assert LongBuy != ShortSell;
  }

  // ---------------------------------------------------------------------------
  // The P&L chart

  /** The chart's P&L points: the engine's long P&L, each negated for a short position. */
  function PositionPnl(pnl: seq<real>, position: string): (r: seq<real>)
    ensures |r| == |pnl|
    ensures position != ShortSell ==> r == pnl
    ensures position == ShortSell ==> forall i :: 0 <= i < |pnl| ==> r[i] + pnl[i] == 0.0
  {
    if position == ShortSell then seq(|pnl|, i requires 0 <= i < |pnl| => -pnl[i]) else pnl
  }

  /** Flipping the short chart back gives the long chart. */
  lemma PositionPnlInvolution(pnl: seq<real>)
    ensures PositionPnl(PositionPnl(pnl, ShortSell), ShortSell) == pnl
  {
  }

  /** A short position never makes more than the premium it received. */
  lemma {:induction false} ShortPnlCeiling(optionType: string, K: real, price: real, contracts: int, stockPrices: seq<real>)
    requires contracts >= 0
    ensures var short := PositionPnl(seq(|stockPrices|, i requires 0 <= i < |stockPrices| =>
        ExpiryPnl(optionType, K, price, contracts, stockPrices[i])), ShortSell);
      forall i :: 0 <= i < |stockPrices| ==> short[i] <= price * contracts as real * ContractSize
  {
    forall i | 0 <= i < |stockPrices| {
      ExpiryPnlFloor(optionType, K, price, contracts, stockPrices[i]);
    }
  }

  /** The limit beyond which the page reports a profit or loss as unlimited. */
  const UnlimitedThreshold: real := 10000.0

  /**
   * The P&L summary under the chart: the largest point unless some point
   * reaches 10000, the size of the smallest unless some point reaches
   * -10000. `max` of an empty list raises, so the chart must have points.
   */
  function PnlSummary(pnl: seq<real>): (r: (Bound, Bound))
    requires |pnl| > 0
    ensures r.0.Unlimited? <==> exists i :: 0 <= i < |pnl| && pnl[i] >= UnlimitedThreshold
    ensures r.0.Amount? ==> r.0.value in pnl && forall i :: 0 <= i < |pnl| ==> pnl[i] <= r.0.value
    ensures r.1.Unlimited? <==> exists i :: 0 <= i < |pnl| && pnl[i] <= -UnlimitedThreshold
    ensures r.1.Amount? ==> exists i :: 0 <= i < |pnl| && r.1.value == Abs(pnl[i]) && forall k :: 0 <= k < |pnl| ==> pnl[i] <= pnl[k]
    ensures r.1.Amount? ==> forall i :: 0 <= i < |pnl| ==> pnl[i] >= -r.1.value
  {
    var maxPnl, minPnl := MaxOf(pnl), MinOf(pnl);
    assert exists i :: 0 <= i < |pnl| && pnl[i] == minPnl;
    (if maxPnl < UnlimitedThreshold then Amount(maxPnl) else Unlimited,
     if minPnl > -UnlimitedThreshold then Amount(Abs(minPnl)) else Unlimited)
  }

  // ---------------------------------------------------------------------------
  // Quick strike selection and the moneyness indicator

  /**
   * The five quick strikes: at the money, 5% and 10% out of the money, 5% and
   * 10% in the money. Out of the money lies above the price for a call and
   * below it for a put.
   */
  function StrikeSuggestions(currentPrice: real, optionType: string): (s: seq<(string, real)>)
    ensures |s| == 5
    ensures s[0] == ("ATM", currentPrice)
    ensures s[1].0 == "5% OTM" && s[2].0 == "10% OTM" && s[3].0 == "5% ITM" && s[4].0 == "10% ITM"
    ensures currentPrice > 0.0 && optionType == "Call" ==>
      currentPrice < s[1].1 < s[2].1 && s[4].1 < s[3].1 < currentPrice
    ensures currentPrice > 0.0 && optionType != "Call" ==>
      s[2].1 < s[1].1 < currentPrice && currentPrice < s[3].1 < s[4].1
  {
    var call := optionType == "Call";
    [("ATM", currentPrice),
     ("5% OTM", if call then currentPrice * 1.05 else currentPrice * 0.95),
     ("10% OTM", if call then currentPrice * 1.10 else currentPrice * 0.90),
     ("5% ITM", if call then currentPrice * 0.95 else currentPrice * 1.05),
     ("10% ITM", if call then currentPrice * 0.90 else currentPrice * 1.10)]
  }

  datatype Moneyness = InTheMoney | AtTheMoney | OutOfTheMoney

  const UpperBand: real := 1.02
  const LowerBand: real := 0.98

  /**
   * The moneyness label from the ratio stock / strike: a call is in the
   * money above 1.02 and out of it below 0.98, a put the other way round,
   * and anything in between is at the money.
   */
  function ClassifyMoneyness(stockPrice: real, strikePrice: real, optionType: string): (verdict: Moneyness)
    requires strikePrice != 0.0
    ensures var ratio := stockPrice / strikePrice;
      && (verdict == AtTheMoney <==> LowerBand <= ratio <= UpperBand)
      && (optionType == "Call" ==> (verdict == InTheMoney <==> ratio > UpperBand) && (verdict == OutOfTheMoney <==> ratio < LowerBand))
      && (optionType != "Call" ==> (verdict == InTheMoney <==> ratio < LowerBand) && (verdict == OutOfTheMoney <==> ratio > UpperBand))
  {
    var moneyness := stockPrice / strikePrice;
    if optionType == "Call" then
      if moneyness > UpperBand then InTheMoney
      else if moneyness < LowerBand then OutOfTheMoney
      else AtTheMoney
    else
      if moneyness < LowerBand then InTheMoney
      else if moneyness > UpperBand then OutOfTheMoney
      else AtTheMoney
  }

  /** A call and a put at the same strike get mirrored labels. */
  lemma MoneynessMirror(stockPrice: real, strikePrice: real)
    requires strikePrice != 0.0
    ensures var call, put := ClassifyMoneyness(stockPrice, strikePrice, "Call"), ClassifyMoneyness(stockPrice, strikePrice, "Put");
      && (call == InTheMoney <==> put == OutOfTheMoney)
      && (call == OutOfTheMoney <==> put == InTheMoney)
      && (call == AtTheMoney <==> put == AtTheMoney)
  {
  }

  /** Every suggested strike other than the first gets the moneyness label its button promises. */
  lemma {:induction false} SuggestionsAgreeWithMoneyness(currentPrice: real, optionType: string)
    requires currentPrice > 0.0
    ensures var s := StrikeSuggestions(currentPrice, optionType);
      && ClassifyMoneyness(currentPrice, s[1].1, optionType) == OutOfTheMoney
      && ClassifyMoneyness(currentPrice, s[2].1, optionType) == OutOfTheMoney
      && ClassifyMoneyness(currentPrice, s[3].1, optionType) == InTheMoney
      && ClassifyMoneyness(currentPrice, s[4].1, optionType) == InTheMoney
  {
    var c := currentPrice;
    assert c / (c * 1.05) == 1.0 / 1.05;
    assert c / (c * 1.10) == 1.0 / 1.10;
    assert c / (c * 0.95) == 1.0 / 0.95;
    assert c / (c * 0.90) == 1.0 / 0.90;
  }

  // ---------------------------------------------------------------------------
  // Strategy analysis tab

  /**
   * The maximum profit and loss panel as the page computes it, from the
   * (already sign-adjusted) total cost. For a short put the loss shown is
   * the strike value alone, without the premium received.
   */
  function MaxProfitLossAsWritten(optionType: string, position: string, strikePrice: real, contracts: int, totalCost: real): (r: (Bound, Bound))
    ensures optionType != "Call" && position != LongBuy ==> r.1 == Amount(strikePrice * contracts as real * ContractSize)
  {
    var strikeValue := strikePrice * contracts as real * ContractSize;
    if optionType == "Call" then
      if position == LongBuy then (Unlimited, Amount(totalCost))
      else (Amount(Abs(totalCost)), Unlimited)
    else
      if position == LongBuy then (Amount(strikeValue - totalCost), Amount(totalCost))
      else (Amount(Abs(totalCost)), Amount(strikeValue))
  }

  /** The panel with the short put's loss net of the premium received. */
  function MaxProfitLoss(optionType: string, position: string, strikePrice: real, contracts: int, totalCost: real): (r: (Bound, Bound))
    ensures r.0 == MaxProfitLossAsWritten(optionType, position, strikePrice, contracts, totalCost).0
    ensures !(optionType != "Call" && position != LongBuy) ==> r == MaxProfitLossAsWritten(optionType, position, strikePrice, contracts, totalCost)
  {
    var strikeValue := strikePrice * contracts as real * ContractSize;
    if optionType == "Call" then
      if position == LongBuy then (Unlimited, Amount(totalCost))
      else (Amount(Abs(totalCost)), Unlimited)
    else
      if position == LongBuy then (Amount(strikeValue - totalCost), Amount(totalCost))
      else (Amount(Abs(totalCost)), Amount(strikeValue - Abs(totalCost)))
  }

  /** The P&L at expiry of a position in `contracts` contracts bought or sold at `price`. */
  function PositionExpiryPnl(optionType: string, position: string, K: real, price: real, contracts: int, s: real): (v: real)
    ensures position != ShortSell ==> v == ExpiryPnl(optionType, K, price, contracts, s)
    ensures position == ShortSell ==> v + ExpiryPnl(optionType, K, price, contracts, s) == 0.0
  {
    var long := ExpiryPnl(optionType, K, price, contracts, s);
    if position == ShortSell then -long else long
  }

  /**
   * The corrected panel is exact for the two bounded extremes of a put: over
   * every share price s >= 0 the P&L never leaves [-loss, profit], and the
   * bound is reached when the share goes to zero.
   */
  lemma {:induction false} PutExtremesAreExact(position: string, K: real, price: real, contracts: int, s: real)
    requires position == LongBuy || position == ShortSell
    requires K > 0.0 && price >= 0.0 && contracts >= 0 && s >= 0.0
    ensures var premium := price * contracts as real * ContractSize;
      var totalCost := if position == ShortSell then -premium else premium;
      var r := MaxProfitLoss("Put", position, K, contracts, totalCost);
      && r.0.Amount? && r.1.Amount?
      && -r.1.value <= PositionExpiryPnl("put", position, K, price, contracts, s) <= r.0.value
      && (position == ShortSell ==> PositionExpiryPnl("put", position, K, price, contracts, 0.0) == -r.1.value)
      && (position == LongBuy ==> PositionExpiryPnl("put", position, K, price, contracts, 0.0) == r.0.value)
  {
    var premium := price * contracts as real * ContractSize;
    assert premium >= 0.0 by { ScaleMonotone(0.0, price, contracts as real); }
    assert Abs(-premium) == premium;
    ExpiryPnlFloor("put", K, price, contracts, s);
    PutPnlCeiling(K, price, contracts, s);
  }

  /** A long put's P&L at expiry is largest, strike value less premium, when the share ends at zero. */
  lemma PutPnlCeiling(K: real, price: real, contracts: int, s: real)
    requires K > 0.0 && contracts >= 0 && s >= 0.0
    ensures ExpiryPnl("put", K, price, contracts, s) <= ExpiryPnl("put", K, price, contracts, 0.0)
    ensures ExpiryPnl("put", K, price, contracts, 0.0) == K * contracts as real * ContractSize - price * contracts as real * ContractSize
  {
    assert !IsCall("put") by { CallSpellings(); }
    var a := Intrinsic("put", K, s);
    assert a <= K;
    assert Intrinsic("put", K, 0.0) == K;
    var c := contracts as real;
    ScaleMonotone(a, K, c);
    ScaleMonotone(a * c, K * c, ContractSize);
  }

  /**
   * For a call the panel is exact too: the bounded side is the premium, hit
   * when the share ends at the strike.
   */
  lemma {:induction false} CallExtremesAreExact(position: string, K: real, price: real, contracts: int, s: real)
    requires position == LongBuy || position == ShortSell
    requires price >= 0.0 && contracts >= 0
    ensures var premium := price * contracts as real * ContractSize;
      var totalCost := if position == ShortSell then -premium else premium;
      var r := MaxProfitLoss("Call", position, K, contracts, totalCost);
      && (position == LongBuy ==> r == (Unlimited, Amount(premium)) && -premium <= PositionExpiryPnl("call", position, K, price, contracts, s))
      && (position == ShortSell ==> r == (Amount(premium), Unlimited) && PositionExpiryPnl("call", position, K, price, contracts, s) <= premium)
      && PositionExpiryPnl("call", position, K, price, contracts, K) == -totalCost
  {
    var premium := price * contracts as real * ContractSize;
    assert premium >= 0.0 by { ScaleMonotone(0.0, price, contracts as real); }
    assert Abs(-premium) == premium;
    ExpiryPnlFloor("call", K, price, contracts, s);
    ExpiryPnlAtStrike("call", K, price, contracts);
  }

  /** Why a long call's profit is reported as unlimited: it exceeds any bound once the share rises far enough. */
  lemma CallProfitUnbounded(K: real, price: real, contracts: int, bound: real)
    requires K >= 0.0 && price >= 0.0 && contracts > 0
    ensures exists s :: s >= 0.0 && ExpiryPnl("call", K, price, contracts, s) > bound
  {
    assert IsCall("call") by { CallSpellings(); }
    var gain := Abs(bound) + 1.0;
    var s := K + price + gain;
    assert Intrinsic("call", K, s) == price + gain;
    var c := contracts as real;
    assert ExpiryPnl("call", K, price, contracts, s) == gain * c * ContractSize;
    ScaleMonotone(1.0, c, gain);
    assert gain * c * ContractSize >= gain;
  }

  /**
   * The page overstates the short put's worst loss by exactly the premium
   * received: with strike 100, one contract and a price of 2, it shows 10000
   * while the position can lose at most 9800.
   */
  lemma ShortPutLossOverstated(K: real, price: real, contracts: int)
    ensures var premium := price * contracts as real * ContractSize;
      var shown := MaxProfitLossAsWritten("Put", ShortSell, K, contracts, -premium).1;
      var worst := PositionExpiryPnl("put", ShortSell, K, price, contracts, 0.0);
      shown.Amount? && (K >= 0.0 ==> shown.value + worst == premium)
    ensures MaxProfitLossAsWritten("Put", ShortSell, 100.0, 1, -200.0).1 == Amount(10000.0)
    ensures PositionExpiryPnl("put", ShortSell, 100.0, 2.0, 1, 0.0) == -9800.0
  {
    assert !IsCall("put") by { CallSpellings(); }
  }

  /** The strategy summary cards. */
  datatype StrategySummary = StrategySummary(outlook: string, risk: string, timeDecay: string)

  /**
   * The classification of the four (type, position) pairs; any pair that is
   * not one of the first three falls to the short-put branch.
   */
  function ClassifyStrategy(optionType: string, position: string): (r: StrategySummary)
    ensures r.timeDecay == "Negative" <==> (optionType == "Call" || optionType == "Put") && position == LongBuy
    ensures r.timeDecay == "Positive" <==> !((optionType == "Call" || optionType == "Put") && position == LongBuy)
    ensures r.risk == "Limited" <==> (optionType == "Call" || optionType == "Put") && position == LongBuy
    ensures r.risk == "Unlimited" <==> optionType == "Call" && position == ShortSell
    ensures optionType == "Call" && position == LongBuy ==> r.outlook == "Bullish"
    ensures optionType == "Put" && position == LongBuy ==> r.outlook == "Bearish"
  {
    if optionType == "Call" && position == LongBuy then StrategySummary("Bullish", "Limited", "Negative")
    else if optionType == "Call" && position == ShortSell then StrategySummary("Bearish/Neutral", "Unlimited", "Positive")
    else if optionType == "Put" && position == LongBuy then StrategySummary("Bearish", "Limited", "Negative")
    else StrategySummary("Bullish/Neutral", "High", "Positive")
  }
}
