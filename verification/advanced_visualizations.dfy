/**
 * The sweeps of the advanced visualizations page: the simulated volatility
 * smile, the default strikes of the multi-strike panel, the multi-expiry P&L
 * curves, the long call / long put / long straddle curves of the strategy
 * builder, and the strategy summary table. Each is a loop that appends to a
 * list; the page's widgets and charts are not modelled.
 *
 * On this page the option type is always one of "call" / "put" and is
 * compared exactly; P&L is per unit of the underlying, without the
 * 100-share contract multiplier.
 */
module AdvancedVisualizations {
  import opened Analytic
  import opened BlackScholes

  // ---------------------------------------------------------------------------
  // Volatility smile

  const SmileLow: real := 0.95
  const SmileHigh: real := 1.05
  const SmileScale: real := 0.02

  /**
   * The smile's vol adjustment for a strike at moneyness k/S: zero inside
   * [0.95, 1.05], 0.02 * sqrt(|m - 1|) outside.
   */
  function SmileAdjustment(maths: Maths, moneyness: real): (adj: real)
    requires Lawful(maths)
    ensures adj >= 0.0
    ensures adj == 0.0 <==> SmileLow <= moneyness <= SmileHigh
  {
    if moneyness < SmileLow || moneyness > SmileHigh then SmileScale * maths.sqrt(Abs(moneyness - 1.0)) else 0.0
  }

  /** The simulated smile: one vol per strike, never below the at-the-money vol and above it exactly away from the money. */
  method VolatilitySmile(maths: Maths, strikes: seq<real>, stockPrice: real, atmVol: real) returns (vols: seq<real>)
    requires Lawful(maths) && stockPrice > 0.0
    ensures |vols| == |strikes|
    ensures forall i :: 0 <= i < |strikes| ==> vols[i] == atmVol + SmileAdjustment(maths, strikes[i] / stockPrice)
    ensures forall i :: 0 <= i < |strikes| ==> vols[i] >= atmVol
    ensures forall i :: 0 <= i < |strikes| ==> (vols[i] == atmVol <==> SmileLow <= strikes[i] / stockPrice <= SmileHigh)
  {
    vols := [];
    for i := 0 to |strikes|
      invariant |vols| == i
      invariant forall k :: 0 <= k < i ==> vols[k] == atmVol + SmileAdjustment(maths, strikes[k] / stockPrice)
    {
      var moneyness := strikes[i] / stockPrice;
      var volAdjustment := if moneyness < SmileLow || moneyness > SmileHigh then SmileScale * maths.sqrt(Abs(moneyness - 1.0)) else 0.0;
      vols := vols + [atmVol + volAdjustment];
    }
  }

  // ---------------------------------------------------------------------------
  // Multi-strike defaults

  const StrikeStep: real := 5.0

  /** The default strike inputs: 5 apart, the second one at the current price. */
  method DefaultStrikes(stockPrice: real, numStrikes: nat) returns (strikes: seq<real>)
    ensures |strikes| == numStrikes
    ensures numStrikes >= 2 ==> strikes[1] == stockPrice && strikes[0] == stockPrice - StrikeStep
    ensures forall i :: 0 < i < numStrikes ==> strikes[i] - strikes[i - 1] == StrikeStep
    ensures forall i :: 0 <= i < numStrikes ==> strikes[i] == stockPrice + (i - 1) as real * StrikeStep
  {
    strikes := [];
    for i := 0 to numStrikes
      invariant |strikes| == i
      invariant forall k :: 0 <= k < i ==> strikes[k] == stockPrice + (k - 1) as real * StrikeStep
    {
      strikes := strikes + [stockPrice + (i - 1) as real * StrikeStep];
    }
  }

  // ---------------------------------------------------------------------------
  // Per-unit expiry P&L

  /** Payoff per share at expiry, choosing the call side only for the exact spelling "call". */
  function UnitIntrinsic(optionType: string, K: real, s: real): (v: real)
    ensures v >= 0.0
    ensures optionType == "call" ==> (v > 0.0 <==> s > K)
    ensures optionType != "call" ==> (v > 0.0 <==> s < K)
  {
    if optionType == "call" then PositivePart(s - K) else PositivePart(K - s)
  }

  /** P&L per share at expiry of an option bought for `premium`. */
  function UnitPnl(optionType: string, K: real, premium: real, s: real): real {
    UnitIntrinsic(optionType, K, s) - premium
  }

  /** Per-share P&L is the engine's expiry P&L of one contract divided by the contract size. */
  lemma UnitPnlIsOneContract(optionType: string, K: real, premium: real, s: real)
    requires optionType == "call" || optionType == "put"
    ensures UnitPnl(optionType, K, premium, s) * ContractSize == ExpiryPnl(optionType, K, premium, 1, s)
  {
    CallSpellings();
  }

  /** A bought option loses at most its premium, and loses all of it when the share ends at the strike. */
  lemma UnitPnlFloor(optionType: string, K: real, premium: real, s: real)
    ensures UnitPnl(optionType, K, premium, s) >= -premium
    ensures UnitPnl(optionType, K, premium, K) == -premium
  {
  }

  // ---------------------------------------------------------------------------
  // Multi-expiry analysis

  /** The premium the multi-expiry panel pays for an expiry `days` away, priced at today's share price. */
  function ExpiryPremium(maths: Maths, S: real, K: real, r: real, vol: real, optionType: string, days: int): (v: real)
    requires Lawful(maths) && S > 0.0 && K > 0.0 && vol > 0.0 && days > 0
    ensures optionType == "call" ==> v <= S
    ensures optionType != "call" ==> v <= K * Discount(maths, Params(S, K, days as real / DaysPerYear, r, vol))
  {
    var p := Params(S, K, days as real / DaysPerYear, r, vol);
    if optionType == "call" then CallPrice(maths, p) else PutPrice(maths, p)
  }

  /** For the two spellings the page offers, the premium is the engine's option price at that expiry. */
  lemma ExpiryPremiumIsEnginePrice(maths: Maths, S: real, K: real, r: real, vol: real, optionType: string, days: int)
    requires Lawful(maths) && S > 0.0 && K > 0.0 && vol > 0.0 && days > 0
    requires optionType == "call" || optionType == "put"
    ensures ExpiryPremium(maths, S, K, r, vol, optionType, days) == OptionPrice(maths, Params(S, K, days as real / DaysPerYear, r, vol), optionType)
  {
    CallSpellings();
  }

  /** The curve for one expiry: one P&L point per share price, in order. */
  method UnitPnlCurve(optionType: string, K: real, premium: real, stockRange: seq<real>) returns (pnlValues: seq<real>)
    ensures |pnlValues| == |stockRange|
    ensures forall j :: 0 <= j < |stockRange| ==> pnlValues[j] == UnitPnl(optionType, K, premium, stockRange[j])
  {
    pnlValues := [];
    for j := 0 to |stockRange|
      invariant |pnlValues| == j
      invariant forall k :: 0 <= k < j ==> pnlValues[k] == UnitPnl(optionType, K, premium, stockRange[k])
    {
      var s := stockRange[j];
      var intrinsic := if optionType == "call" then PositivePart(s - K) else PositivePart(K - s);
      pnlValues := pnlValues + [intrinsic - premium];
    }
  }

  /**
   * One curve per expiry, each against the premium for that expiry; within
   * a curve the premium is fixed and the points follow the share range.
   */
  method MultiExpiryPnl(maths: Maths, S: real, K: real, r: real, vol: real, optionType: string,
                        expiryDays: seq<int>, stockRange: seq<real>) returns (curves: seq<seq<real>>)
    requires Lawful(maths) && S > 0.0 && K > 0.0 && vol > 0.0
    requires forall i :: 0 <= i < |expiryDays| ==> expiryDays[i] > 0
    ensures |curves| == |expiryDays|
    ensures forall i :: 0 <= i < |expiryDays| ==> |curves[i]| == |stockRange|
    ensures forall i, j :: 0 <= i < |expiryDays| && 0 <= j < |stockRange| ==>
      curves[i][j] == UnitPnl(optionType, K, ExpiryPremium(maths, S, K, r, vol, optionType, expiryDays[i]), stockRange[j])
  {
    curves := [];
    for i := 0 to |expiryDays|
      invariant |curves| == i
      invariant forall k :: 0 <= k < i ==> |curves[k]| == |stockRange|
      invariant forall k, j :: 0 <= k < i && 0 <= j < |stockRange| ==>
        curves[k][j] == UnitPnl(optionType, K, ExpiryPremium(maths, S, K, r, vol, optionType, expiryDays[k]), stockRange[j])
    {
      var initialPrice := ExpiryPremium(maths, S, K, r, vol, optionType, expiryDays[i]);
      var pnlValues := UnitPnlCurve(optionType, K, initialPrice, stockRange);
      curves := curves + [pnlValues];
    }
  }

  // ---------------------------------------------------------------------------
  // Strategy builder

  /** The long call curve: premium priced once at today's share price, then one point per share price. */
  method LongCallPnl(maths: Maths, S: real, K: real, T: real, r: real, vol: real, stockRange: seq<real>)
    returns (premium: real, pnl: seq<real>)
    requires Lawful(maths) && InDomain(Params(S, K, T, r, vol))
    ensures premium == CallPrice(maths, Params(S, K, T, r, vol))
    ensures |pnl| == |stockRange|
    ensures forall j :: 0 <= j < |stockRange| ==> pnl[j] == UnitPnl("call", K, premium, stockRange[j])
  {
    premium := CallPrice(maths, Params(S, K, T, r, vol));
    pnl := [];
    for j := 0 to |stockRange|
      invariant |pnl| == j
      invariant forall k :: 0 <= k < j ==> pnl[k] == UnitPnl("call", K, premium, stockRange[k])
    {
      var intrinsic := PositivePart(stockRange[j] - K);
      pnl := pnl + [intrinsic - premium];
    }
  }

  /** The long put curve, the mirror of the long call. */
  method LongPutPnl(maths: Maths, S: real, K: real, T: real, r: real, vol: real, stockRange: seq<real>)
    returns (premium: real, pnl: seq<real>)
    requires Lawful(maths) && InDomain(Params(S, K, T, r, vol))
    ensures premium == PutPrice(maths, Params(S, K, T, r, vol))
    ensures |pnl| == |stockRange|
    ensures forall j :: 0 <= j < |stockRange| ==> pnl[j] == UnitPnl("put", K, premium, stockRange[j])
  {
    premium := PutPrice(maths, Params(S, K, T, r, vol));
    pnl := [];
    for j := 0 to |stockRange|
      invariant |pnl| == j
      invariant forall k :: 0 <= k < j ==> pnl[k] == UnitPnl("put", K, premium, stockRange[k])
    {
      var intrinsic := PositivePart(K - stockRange[j]);
      pnl := pnl + [intrinsic - premium];
    }
  }

  /** A long straddle's P&L per share: both payoffs less both premiums. */
  function StraddlePnl(K: real, callPremium: real, putPremium: real, s: real): (v: real)
    ensures v + (callPremium + putPremium) == Abs(s - K)
  {
    PositivePart(s - K) + PositivePart(K - s) - (callPremium + putPremium)
  }

  /**
   * The straddle is the sum of its two legs; its payoff is the distance
   * from the strike, so it loses at most the total premium, and loses all
   * of it exactly when the share ends at the strike.
   */
  lemma StraddleFacts(K: real, callPremium: real, putPremium: real, s: real)
    ensures StraddlePnl(K, callPremium, putPremium, s) == UnitPnl("call", K, callPremium, s) + UnitPnl("put", K, putPremium, s)
    ensures StraddlePnl(K, callPremium, putPremium, s) == Abs(s - K) - (callPremium + putPremium)
    ensures StraddlePnl(K, callPremium, putPremium, s) >= -(callPremium + putPremium)
    ensures StraddlePnl(K, callPremium, putPremium, s) == -(callPremium + putPremium) <==> s == K
  {
  }

  /** The long straddle curve: a call and a put at one strike, both premiums priced once. */
  method LongStraddlePnl(maths: Maths, S: real, K: real, T: real, r: real, vol: real, stockRange: seq<real>)
    returns (totalPremium: real, pnl: seq<real>)
    requires Lawful(maths) && InDomain(Params(S, K, T, r, vol))
    ensures totalPremium == CallPrice(maths, Params(S, K, T, r, vol)) + PutPrice(maths, Params(S, K, T, r, vol))
    ensures |pnl| == |stockRange|
    ensures forall j :: 0 <= j < |stockRange| ==>
      pnl[j] == StraddlePnl(K, CallPrice(maths, Params(S, K, T, r, vol)), PutPrice(maths, Params(S, K, T, r, vol)), stockRange[j])
    ensures forall j :: 0 <= j < |stockRange| ==> pnl[j] >= -totalPremium
  {
    var callPremium := CallPrice(maths, Params(S, K, T, r, vol));
    var putPremium := PutPrice(maths, Params(S, K, T, r, vol));
    totalPremium := callPremium + putPremium;
    pnl := [];
    for j := 0 to |stockRange|
      invariant |pnl| == j
      invariant forall k :: 0 <= k < j ==> pnl[k] == StraddlePnl(K, callPremium, putPremium, stockRange[k])
      invariant forall k :: 0 <= k < j ==> pnl[k] >= -totalPremium
    {
      var s := stockRange[j];
      var totalIntrinsic := PositivePart(s - K) + PositivePart(K - s);
      pnl := pnl + [totalIntrinsic - totalPremium];
    }
  }

  // ---------------------------------------------------------------------------
  // Strategy summary

  /** The threshold past which the summary reports a profit or loss as unlimited. */
  const SummaryThreshold: real := 1000.0
  /** A P&L point closer to zero than this counts as a breakeven crossing. */
  const NearZero: real := 0.1

  /** How many points of the curve lie within 0.1 of zero. */
  function NearZeroCount(pnl: seq<real>): (c: nat)
    ensures c <= |pnl|
  {
    if |pnl| == 0 then 0
    else NearZeroCount(pnl[..|pnl| - 1]) + (if Abs(pnl[|pnl| - 1]) < NearZero then 1 else 0)
  }

  /** The positions of the near-zero points. */
  function NearZeroIndices(pnl: seq<real>): set<int> {
    set i | 0 <= i < |pnl| && Abs(pnl[i]) < NearZero
  }

  /** The count is the number of distinct near-zero positions. */
  lemma {:induction false} NearZeroCountIsCardinality(pnl: seq<real>)
    ensures NearZeroCount(pnl) == |NearZeroIndices(pnl)|
    decreases |pnl|
  {
    if |pnl| > 0 {
      var n := |pnl| - 1;
      var front := pnl[..n];
      NearZeroCountIsCardinality(front);
      assert forall i :: 0 <= i < n ==> front[i] == pnl[i];
      if Abs(pnl[n]) < NearZero {
        assert NearZeroIndices(pnl) == NearZeroIndices(front) + {n};
        assert n !in NearZeroIndices(front);
      } else {
        assert NearZeroIndices(pnl) == NearZeroIndices(front);
      }
    }
  }

  /** One row of the summary table. */
  datatype SummaryRow = SummaryRow(strategy: string, maxProfit: Bound, maxLoss: Bound, breakeven: string)

  /**
   * The row for one curve: the largest point unless it reaches 1000, the
   * smallest point (signed) unless it reaches -1000, and "Multiple"
   * breakevens when more than two points are near zero.
   */
  function SummarizeStrategy(name: string, pnl: seq<real>): (row: SummaryRow)
    requires |pnl| > 0
    ensures row.strategy == name
    ensures row.maxProfit.Unlimited? <==> exists i :: 0 <= i < |pnl| && pnl[i] >= SummaryThreshold
    ensures row.maxProfit.Amount? ==> row.maxProfit.value in pnl && forall i :: 0 <= i < |pnl| ==> pnl[i] <= row.maxProfit.value
    ensures row.maxLoss.Unlimited? <==> exists i :: 0 <= i < |pnl| && pnl[i] <= -SummaryThreshold
    ensures row.maxLoss.Amount? ==> row.maxLoss.value in pnl && forall i :: 0 <= i < |pnl| ==> row.maxLoss.value <= pnl[i]
    ensures row.breakeven == "Multiple" <==> |NearZeroIndices(pnl)| > 2
    ensures row.breakeven == "Single" <==> |NearZeroIndices(pnl)| <= 2
  {
    NearZeroCountIsCardinality(pnl);
    var maxProfit, maxLoss := MaxOf(pnl), MinOf(pnl);
    SummaryRow(
      name,
      if maxProfit < SummaryThreshold then Amount(maxProfit) else Unlimited,
      if maxLoss > -SummaryThreshold then Amount(maxLoss) else Unlimited,
      if NearZeroCount(pnl) > 2 then "Multiple" else "Single")
  }

  /** The summary table: one row per selected strategy, in the order they were added. */
  method StrategySummaryTable(strategies: seq<(string, seq<real>)>) returns (rows: seq<SummaryRow>)
    requires forall i :: 0 <= i < |strategies| ==> |strategies[i].1| > 0
    ensures |rows| == |strategies|
    ensures forall i :: 0 <= i < |strategies| ==> rows[i] == SummarizeStrategy(strategies[i].0, strategies[i].1)
  {
    rows := [];
    for i := 0 to |strategies|
      invariant |rows| == i
      invariant forall k :: 0 <= k < i ==> rows[k] == SummarizeStrategy(strategies[k].0, strategies[k].1)
    {
      rows := rows + [SummarizeStrategy(strategies[i].0, strategies[i].1)];
    }
  }

  /** A long straddle's curve never reaches the loss threshold when its total premium is below 1000. */
  lemma StraddleLossIsBounded(K: real, callPremium: real, putPremium: real, stockRange: seq<real>)
    requires |stockRange| > 0 && callPremium + putPremium < SummaryThreshold
    ensures var pnl := seq(|stockRange|, j requires 0 <= j < |stockRange| => StraddlePnl(K, callPremium, putPremium, stockRange[j]));
      SummarizeStrategy("Long Straddle", pnl).maxLoss.Amount?
  {
    var pnl := seq(|stockRange|, j requires 0 <= j < |stockRange| => StraddlePnl(K, callPremium, putPremium, stockRange[j]));
    forall j | 0 <= j < |stockRange|
      ensures pnl[j] > -SummaryThreshold
    {
      StraddleFacts(K, callPremium, putPremium, stockRange[j]);
    }
  }
}
