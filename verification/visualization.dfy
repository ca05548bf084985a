/**
 * The numeric part of the chart builders in utils/visualization.py: every
 * surface and heatmap is a 2-D array, preallocated with zeros, whose row i
 * belongs to the i-th volatility (or days-to-expiry) value and whose column j
 * belongs to the j-th stock price; the dashboard and multi-strike charts build
 * lists point by point. Figure construction is not modelled.
 */
module Visualization {
  import opened Analytic
  import opened Text
  import opened BlackScholes

  predicate AllPositive(xs: seq<real>) {
    forall i :: 0 <= i < |xs| ==> xs[i] > 0.0
  }

  predicate AllPositiveDays(days: seq<int>) {
    forall i :: 0 <= i < |days| ==> days[i] > 0
  }

  /** days / 365.0: the time to expiry in years. */
  function Years(days: int): (t: real)
    ensures days > 0 ==> t > 0.0
  {
    days as real / DaysPerYear
  }

  /**
   * The loop shared by the surface and heatmap builders: a rows-by-cols
   * array of zeros, then every cell [i, j] computed in row-major order.
   */
  method Tabulate(rows: nat, cols: nat, cell: (int, int) -> real) returns (grid: array2<real>)
    ensures fresh(grid)
    ensures grid.Length0 == rows && grid.Length1 == cols
    ensures forall i, j :: 0 <= i < rows && 0 <= j < cols ==> grid[i, j] == cell(i, j)
  {
    grid := new real[rows, cols]((i, j) => 0.0);
    for i := 0 to rows
      invariant forall i', j' :: 0 <= i' < i && 0 <= j' < cols ==> grid[i', j'] == cell(i', j')
    {
      for j := 0 to cols
        invariant forall i', j' :: 0 <= i' < i && 0 <= j' < cols ==> grid[i', j'] == cell(i', j')
        invariant forall j' :: 0 <= j' < j ==> grid[i, j'] == cell(i, j')
      {
        grid[i, j] := cell(i, j);
      }
    }
  }

  /** create_3d_option_surface: cell [i, j] prices the option at stock_prices[j] and volatilities[i]. */
  method OptionPriceSurface(
    m: Maths, stockPrices: seq<real>, volatilities: seq<real>,
    timeToExpiry: real, strikePrice: real, riskFreeRate: real, optionType: string)
    returns (optionPrices: array2<real>)
    requires Lawful(m) && AllPositive(stockPrices) && AllPositive(volatilities)
    requires timeToExpiry > 0.0 && strikePrice > 0.0
    ensures optionPrices.Length0 == |volatilities| && optionPrices.Length1 == |stockPrices|
    ensures forall i, j :: 0 <= i < |volatilities| && 0 <= j < |stockPrices| ==>
      optionPrices[i, j] == OptionPrice(m, Params(stockPrices[j], strikePrice, timeToExpiry, riskFreeRate, volatilities[i]), optionType)
  {
    optionPrices := Tabulate(|volatilities|, |stockPrices|,
      (i: int, j: int) =>
        if 0 <= i < |volatilities| && 0 <= j < |stockPrices|
        then OptionPrice(m, Params(stockPrices[j], strikePrice, timeToExpiry, riskFreeRate, volatilities[i]), optionType)
        else 0.0);
  }

  /**
   * The value a Greek surface holds for one pricer: the Greek named by
   * greek.lower(), or the array's initial 0 when the name is none of the five.
   */
  function GreekCell(m: Maths, p: Params, greek: string, optionType: string): (v: real)
    requires Lawful(m) && InDomain(p)
    ensures Lower(greek) == "delta" ==> -1.0 <= v <= 1.0
    ensures Lower(greek) == "gamma" || Lower(greek) == "vega" ==> v >= 0.0
    ensures Lower(greek) !in {"delta", "gamma", "theta", "vega", "rho"} ==> v == 0.0
  {
    var g := Lower(greek);
    if g == "delta" then Delta(m, p, optionType)
    else if g == "gamma" then Gamma(m, p)
    else if g == "theta" then Theta(m, p, optionType)
    else if g == "vega" then Vega(m, p)
    else if g == "rho" then Rho(m, p, optionType)
    else 0.0
  }

  /** The Greek is chosen ignoring case, and a name that is not one of the five gives 0. */
  lemma GreekCellByName(m: Maths, p: Params, greek: string, optionType: string)
    requires Lawful(m) && InDomain(p)
    ensures GreekCell(m, p, greek, optionType) == GreekCell(m, p, Lower(greek), optionType)
    ensures Lower(greek) !in {"delta", "gamma", "theta", "vega", "rho"} ==> GreekCell(m, p, greek, optionType) == 0.0
  {
    LowerIdempotent(greek);
  }

  /** Each of the five names, in any case, selects the corresponding Greek. */
  lemma GreekCellNames(m: Maths, p: Params, optionType: string)
    requires Lawful(m) && InDomain(p)
    ensures forall greek :: Lower(greek) == "delta" ==> GreekCell(m, p, greek, optionType) == Delta(m, p, optionType)
    ensures forall greek :: Lower(greek) == "gamma" ==> GreekCell(m, p, greek, optionType) == Gamma(m, p)
    ensures forall greek :: Lower(greek) == "theta" ==> GreekCell(m, p, greek, optionType) == Theta(m, p, optionType)
    ensures forall greek :: Lower(greek) == "vega" ==> GreekCell(m, p, greek, optionType) == Vega(m, p)
    ensures forall greek :: Lower(greek) == "rho" ==> GreekCell(m, p, greek, optionType) == Rho(m, p, optionType)
  {
  }

  /** create_greeks_3d_surface: same indexing as the price surface; unknown Greek names leave the zeros. */
  method GreekSurface(
    m: Maths, stockPrices: seq<real>, volatilities: seq<real>,
    timeToExpiry: real, strikePrice: real, riskFreeRate: real, greek: string, optionType: string)
    returns (greekValues: array2<real>)
    requires Lawful(m) && AllPositive(stockPrices) && AllPositive(volatilities)
    requires timeToExpiry > 0.0 && strikePrice > 0.0
    ensures greekValues.Length0 == |volatilities| && greekValues.Length1 == |stockPrices|
    ensures forall i, j :: 0 <= i < |volatilities| && 0 <= j < |stockPrices| ==>
      greekValues[i, j] == GreekCell(m, Params(stockPrices[j], strikePrice, timeToExpiry, riskFreeRate, volatilities[i]), greek, optionType)
  {
    greekValues := Tabulate(|volatilities|, |stockPrices|,
      (i: int, j: int) =>
        if 0 <= i < |volatilities| && 0 <= j < |stockPrices|
        then GreekCell(m, Params(stockPrices[j], strikePrice, timeToExpiry, riskFreeRate, volatilities[i]), greek, optionType)
        else 0.0);
  }

  /** create_time_decay_heatmap: row i uses T = days[i] / 365, column j the j-th stock price. */
  method TimeDecayMatrix(
    m: Maths, stockPrices: seq<real>, daysToExpiryRange: seq<int>,
    strikePrice: real, volatility: real, riskFreeRate: real, optionType: string)
    returns (optionMatrix: array2<real>)
    requires Lawful(m) && AllPositive(stockPrices) && AllPositiveDays(daysToExpiryRange)
    requires strikePrice > 0.0 && volatility > 0.0
    ensures optionMatrix.Length0 == |daysToExpiryRange| && optionMatrix.Length1 == |stockPrices|
    ensures forall i, j :: 0 <= i < |daysToExpiryRange| && 0 <= j < |stockPrices| ==>
      optionMatrix[i, j] == OptionPrice(m, Params(stockPrices[j], strikePrice, Years(daysToExpiryRange[i]), riskFreeRate, volatility), optionType)
  {
    optionMatrix := Tabulate(|daysToExpiryRange|, |stockPrices|,
      (i: int, j: int) =>
        if 0 <= i < |daysToExpiryRange| && 0 <= j < |stockPrices|
        then OptionPrice(m, Params(stockPrices[j], strikePrice, Years(daysToExpiryRange[i]), riskFreeRate, volatility), optionType)
        else 0.0);
  }

  /** The day counts as floats, as numpy holds them. */
  function DaysAsReals(days: seq<int>): (xs: seq<real>)
    ensures |xs| == |days|
    ensures forall i :: 0 <= i < |days| ==> xs[i] == days[i] as real
  {
    seq(|days|, i requires 0 <= i < |days| => days[i] as real)
  }

  /** `position.lower() == 'long'`; every other position is treated as short. */
  predicate IsLong(position: string) {
    Lower(position) == "long"
  }

  /** One P&L heatmap cell: the option's value change, from the holder's side when long. */
  function PnlCell(initialPrice: real, currentPrice: real, position: string): (v: real)
    ensures IsLong(position) ==> initialPrice + v == currentPrice
    ensures !IsLong(position) ==> currentPrice + v == initialPrice
    ensures currentPrice == initialPrice ==> v == 0.0
  {
    if IsLong(position) then currentPrice - initialPrice else initialPrice - currentPrice
  }

  /** The long and the short heatmaps are entrywise negations of each other. */
  lemma PnlLongShortNegation(initialPrice: real, currentPrice: real, position: string)
    requires !IsLong(position)
    ensures PnlCell(initialPrice, currentPrice, position) == -PnlCell(initialPrice, currentPrice, "long")
    ensures PnlCell(initialPrice, currentPrice, "Long") == PnlCell(initialPrice, currentPrice, "long")
  {
    assert Lower("long") == "long";
    assert Lower("Long") == "long";
  }

  /** The entry price of the P&L heatmap: priced once at the current stock price and the longest expiry. */
  function HeatmapEntryPrice(
    m: Maths, daysToExpiryRange: seq<int>, currentStockPrice: real,
    strikePrice: real, volatility: real, riskFreeRate: real, optionType: string): (price: real)
    requires Lawful(m) && |daysToExpiryRange| > 0 && AllPositiveDays(daysToExpiryRange)
    requires currentStockPrice > 0.0 && strikePrice > 0.0 && volatility > 0.0
    ensures exists i ::
      && 0 <= i < |daysToExpiryRange|
      && (forall k :: 0 <= k < |daysToExpiryRange| ==> daysToExpiryRange[k] <= daysToExpiryRange[i])
      && price == OptionPrice(m, Params(currentStockPrice, strikePrice, Years(daysToExpiryRange[i]), riskFreeRate, volatility), optionType)
  {
    var longest := MaxOf(DaysAsReals(daysToExpiryRange));
    LongestIsLargestDay(daysToExpiryRange);
    assert longest > 0.0;
    OptionPrice(m, Params(currentStockPrice, strikePrice, longest / DaysPerYear, riskFreeRate, volatility), optionType)
  }

  /** The longest expiry in years is that of a day count no other in the range exceeds. */
  lemma LongestIsLargestDay(days: seq<int>)
    requires |days| > 0
    ensures exists i ::
      && 0 <= i < |days|
      && (forall k :: 0 <= k < |days| ==> days[k] <= days[i])
      && Years(days[i]) == MaxOf(DaysAsReals(days)) / DaysPerYear
  {
    var xs := DaysAsReals(days);
    var longest := MaxOf(xs);
    var i :| 0 <= i < |xs| && xs[i] == longest;
    forall k | 0 <= k < |days|
      ensures days[k] <= days[i]
    {
      assert xs[k] <= xs[i];
    }
    assert Years(days[i]) == xs[i] / DaysPerYear;
  }

  /**
   * create_pnl_heatmap: cell [i, j] is the P&L of a position opened at the
   * entry price, revalued at stock_prices[j] with days[i] left.
   */
  method PnlMatrix(
    m: Maths, stockPrices: seq<real>, daysToExpiryRange: seq<int>, currentStockPrice: real,
    strikePrice: real, volatility: real, riskFreeRate: real, optionType: string, position: string)
    returns (pnlMatrix: array2<real>)
    requires Lawful(m) && AllPositive(stockPrices) && |daysToExpiryRange| > 0 && AllPositiveDays(daysToExpiryRange)
    requires currentStockPrice > 0.0 && strikePrice > 0.0 && volatility > 0.0
    ensures pnlMatrix.Length0 == |daysToExpiryRange| && pnlMatrix.Length1 == |stockPrices|
    ensures forall i, j :: 0 <= i < |daysToExpiryRange| && 0 <= j < |stockPrices| ==>
      pnlMatrix[i, j] == PnlCell(
        HeatmapEntryPrice(m, daysToExpiryRange, currentStockPrice, strikePrice, volatility, riskFreeRate, optionType),
        OptionPrice(m, Params(stockPrices[j], strikePrice, Years(daysToExpiryRange[i]), riskFreeRate, volatility), optionType),
        position)
  {
    var initialPrice := HeatmapEntryPrice(m, daysToExpiryRange, currentStockPrice, strikePrice, volatility, riskFreeRate, optionType);
    pnlMatrix := Tabulate(|daysToExpiryRange|, |stockPrices|,
      (i: int, j: int) =>
        if 0 <= i < |daysToExpiryRange| && 0 <= j < |stockPrices|
        then PnlCell(initialPrice,
          OptionPrice(m, Params(stockPrices[j], strikePrice, Years(daysToExpiryRange[i]), riskFreeRate, volatility), optionType),
          position)
        else 0.0);
  }

  /**
   * create_multi_strike_pnl: one series per strike, one point per stock price,
   * each the unit payoff less a premium priced at the FIRST point of the range.
   */
  method MultiStrikePnl(
    m: Maths, stockPrices: seq<real>, strikes: seq<real>,
    timeToExpiry: real, volatility: real, riskFreeRate: real, optionType: string)
    returns (series: seq<seq<real>>)
    requires Lawful(m) && AllPositive(strikes) && timeToExpiry > 0.0 && volatility > 0.0
    requires |strikes| > 0 ==> |stockPrices| > 0 && stockPrices[0] > 0.0
    ensures |series| == |strikes|
    ensures forall i :: 0 <= i < |series| ==> |series[i]| == |stockPrices|
    ensures forall i, j :: 0 <= i < |series| && 0 <= j < |stockPrices| ==>
      series[i][j] == Intrinsic(optionType, strikes[i], stockPrices[j])
        - OptionPrice(m, Params(stockPrices[0], strikes[i], timeToExpiry, riskFreeRate, volatility), optionType)
  {
    series := [];
    for i := 0 to |strikes|
      invariant |series| == i
      invariant forall i' :: 0 <= i' < i ==> |series[i']| == |stockPrices|
      invariant forall i', j :: 0 <= i' < i && 0 <= j < |stockPrices| ==>
        series[i'][j] == Intrinsic(optionType, strikes[i'], stockPrices[j])
          - OptionPrice(m, Params(stockPrices[0], strikes[i'], timeToExpiry, riskFreeRate, volatility), optionType)
    {
      var strike := strikes[i];
      var bs := Params(stockPrices[0], strike, timeToExpiry, riskFreeRate, volatility);
      var initialPrice := if IsCall(optionType) then CallPrice(m, bs) else PutPrice(m, bs);
      var pnlValues := [];
      for j := 0 to |stockPrices|
        invariant |pnlValues| == j
        invariant forall j' :: 0 <= j' < j ==> pnlValues[j'] == Intrinsic(optionType, strike, stockPrices[j']) - initialPrice
      {
        var stockPrice := stockPrices[j];
        var intrinsic := if IsCall(optionType) then PositivePart(stockPrice - strike) else PositivePart(strike - stockPrice);
        pnlValues := pnlValues + [intrinsic - initialPrice];
      }
      series := series + [pnlValues];
    }
  }

  /**
   * create_greeks_dashboard: six lists of one entry per point of the stock
   * range, in range order: delta, gamma, theta, vega, rho and the price.
   */
  method GreeksDashboard(
    m: Maths, stockRange: seq<real>, strikePrice: real, timeToExpiry: real,
    riskFreeRate: real, volatility: real, optionType: string)
    returns (deltas: seq<real>, gammas: seq<real>, thetas: seq<real>, vegas: seq<real>, rhos: seq<real>, prices: seq<real>)
    requires Lawful(m) && AllPositive(stockRange) && strikePrice > 0.0 && timeToExpiry > 0.0 && volatility > 0.0
    ensures |deltas| == |gammas| == |thetas| == |vegas| == |rhos| == |prices| == |stockRange|
    ensures forall i :: 0 <= i < |stockRange| ==>
      var bs := Params(stockRange[i], strikePrice, timeToExpiry, riskFreeRate, volatility);
      && deltas[i] == Delta(m, bs, optionType)
      && gammas[i] == Gamma(m, bs)
      && thetas[i] == Theta(m, bs, optionType)
      && vegas[i] == Vega(m, bs)
      && rhos[i] == Rho(m, bs, optionType)
      && prices[i] == OptionPrice(m, bs, optionType)
    ensures forall i :: 0 <= i < |stockRange| ==> gammas[i] >= 0.0 && vegas[i] >= 0.0 && (gammas[i] > 0.0 <==> vegas[i] > 0.0)
  {
    deltas, gammas, thetas, vegas, rhos, prices := [], [], [], [], [], [];
    for k := 0 to |stockRange|
      invariant |deltas| == |gammas| == |thetas| == |vegas| == |rhos| == |prices| == k
      invariant forall i :: 0 <= i < k ==>
        var bs := Params(stockRange[i], strikePrice, timeToExpiry, riskFreeRate, volatility);
        && deltas[i] == Delta(m, bs, optionType)
        && gammas[i] == Gamma(m, bs)
        && thetas[i] == Theta(m, bs, optionType)
        && vegas[i] == Vega(m, bs)
        && rhos[i] == Rho(m, bs, optionType)
        && prices[i] == OptionPrice(m, bs, optionType)
    {
      var bs := Params(stockRange[k], strikePrice, timeToExpiry, riskFreeRate, volatility);
      deltas := deltas + [Delta(m, bs, optionType)];
      gammas := gammas + [Gamma(m, bs)];
      thetas := thetas + [Theta(m, bs, optionType)];
      vegas := vegas + [Vega(m, bs)];
      rhos := rhos + [Rho(m, bs, optionType)];
      if IsCall(optionType) {
        prices := prices + [CallPrice(m, bs)];
      } else {
        prices := prices + [PutPrice(m, bs)];
      }
    }
  }

  /** The moneyness line of create_volatility_smile: strike / stock price, elementwise. */
  function SmileMoneyness(strikePrices: seq<real>, stockPrice: real): (moneyness: seq<real>)
    requires stockPrice != 0.0
    ensures |moneyness| == |strikePrices|
    ensures forall i :: 0 <= i < |strikePrices| ==> moneyness[i] * stockPrice == strikePrices[i]
  {
    seq(|strikePrices|, i requires 0 <= i < |strikePrices| => strikePrices[i] / stockPrice)
  }
}
