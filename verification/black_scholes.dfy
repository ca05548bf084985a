/**
 * The Black-Scholes valuation engine (utils/black_scholes.py): d1 and d2, the
 * call and put prices, the five Greeks in their display units, the option
 * metrics bundle, the P&L sweep at expiry and the Newton-Raphson
 * implied-volatility solver.
 */
module BlackScholes {
  import opened Analytic
  import opened Text

  /** Shares per option contract. */
  const ContractSize: real := 100.0
  /** Theta is reported per calendar day. */
  const DaysPerYear: real := 365.0
  /** Vega and rho are reported per percentage point. */
  const PerPercent: real := 100.0

  /**
   * The five parameters a pricer is built from: spot S, strike K, time to
   * expiry T in years, risk-free rate r and volatility sigma, as decimals.
   */
  datatype Params = Params(S: real, K: real, T: real, r: real, sigma: real)

  /** Where the closed-form formulas are defined: they take ln(S/K) and divide by sigma*sqrt(T). */
  predicate InDomain(p: Params) {
    p.S > 0.0 && p.K > 0.0 && p.T > 0.0 && p.sigma > 0.0
  }

  /** `option_type.lower() == 'call'`; every other string selects the put formulas. */
  predicate IsCall(optionType: string) {
    Lower(optionType) == "call"
  }

  /** The side test ignores case, and 'put' is not a call. */
  lemma CallSpellings()
    ensures IsCall("call") && IsCall("Call") && IsCall("CALL")
    ensures !IsCall("put") && !IsCall("Put")
  {
    assert Lower("call") == "call";
    assert Lower("Call") == "call";
    assert Lower("CALL") == "call";
    assert Lower("put")[0] == 'p';
    assert Lower("Put")[0] == 'p';
  }

  /** sigma * sqrt(T) */
  function SigmaRootT(m: Maths, p: Params): (v: real)
    requires Lawful(m) && InDomain(p)
    ensures v > 0.0
  {
    var root := m.sqrt(p.T);
    assert root > 0.0;
    p.sigma * root
  }

  /** exp(-r T), the discount factor to expiry. */
  function Discount(m: Maths, p: Params): (v: real)
    requires Lawful(m)
    ensures v > 0.0
  {
    m.exp(-p.r * p.T)
  }

  /**
   * _d1: (ln(S/K) + (r + sigma^2/2) T) / (sigma sqrt(T)). At the money
   * (ln(S/K) = 0) with a rate that is not negative, d1 is positive.
   */
  function D1(m: Maths, p: Params): (d1: real)
    requires Lawful(m) && InDomain(p)
    ensures d1 * SigmaRootT(m, p) == m.ln(p.S / p.K) + (p.r + 0.5 * p.sigma * p.sigma) * p.T
    ensures m.ln(p.S / p.K) == 0.0 && p.r >= 0.0 ==> d1 > 0.0
  {
    (m.ln(p.S / p.K) + (p.r + 0.5 * p.sigma * p.sigma) * p.T) / SigmaRootT(m, p)
  }

  /** _d2: d1 less sigma*sqrt(T), so strictly below d1. */
  function D2(m: Maths, p: Params): (d2: real)
    requires Lawful(m) && InDomain(p)
    ensures D1(m, p) - d2 == SigmaRootT(m, p)
    ensures d2 < D1(m, p)
  {
    D1(m, p) - p.sigma * m.sqrt(p.T)
  }

  /** call_price: never worth more than the share itself. */
  function CallPrice(m: Maths, p: Params): (v: real)
    requires Lawful(m) && InDomain(p)
    ensures v <= p.S
  {
    var n1, n2 := m.cdf(D1(m, p)), m.cdf(D2(m, p));
    assert p.S * n1 <= p.S * 1.0;
    assert p.K * Discount(m, p) * n2 >= 0.0;
    p.S * n1 - p.K * Discount(m, p) * n2
  }

  /** put_price: never worth more than the discounted strike. */
  function PutPrice(m: Maths, p: Params): (v: real)
    requires Lawful(m) && InDomain(p)
    ensures v <= p.K * Discount(m, p)
  {
    var n2, n1 := m.cdf(-D2(m, p)), m.cdf(-D1(m, p));
    var kd := p.K * Discount(m, p);
    assert kd > 0.0;
    assert kd * n2 <= kd * 1.0;
    assert p.S * n1 >= 0.0;
    kd * n2 - p.S * n1
  }

  /** Put-call parity: call - put = S - K exp(-rT). */
  lemma PutCallParity(m: Maths, p: Params)
    requires Lawful(m) && Symmetric(m) && InDomain(p)
    ensures CallPrice(m, p) - PutPrice(m, p) == p.S - p.K * Discount(m, p)
  {
    CdfSymmetry(m, D1(m, p));
    CdfSymmetry(m, D2(m, p));
  }

  /**
   * The price of the side the option type selects: a call is never worth
   * more than the share, a put never more than the discounted strike.
   */
  function OptionPrice(m: Maths, p: Params, optionType: string): (v: real)
    requires Lawful(m) && InDomain(p)
    ensures IsCall(optionType) ==> v <= p.S
    ensures !IsCall(optionType) ==> v <= p.K * Discount(m, p)
  {
    if IsCall(optionType) then CallPrice(m, p) else PutPrice(m, p)
  }

  /** delta: Phi(d1) for a call, in [0, 1]; Phi(d1) - 1 for a put, in [-1, 0]. */
  function Delta(m: Maths, p: Params, optionType: string): (v: real)
    requires Lawful(m) && InDomain(p)
    ensures IsCall(optionType) ==> 0.0 <= v <= 1.0
    ensures !IsCall(optionType) ==> -1.0 <= v <= 0.0
  {
    var n1 := m.cdf(D1(m, p));
    if IsCall(optionType) then n1 else n1 - 1.0
  }

  /** A put's delta is the call's delta less one, whatever the non-call spelling. */
  lemma DeltaParity(m: Maths, p: Params, optionType: string)
    requires Lawful(m) && InDomain(p)
    requires !IsCall(optionType)
    ensures Delta(m, p, optionType) == Delta(m, p, "call") - 1.0
  {
    CallSpellings();
  }

  /**
   * gamma: the same for both sides and never negative; it is positive
   * exactly when the density at d1 is (it is zero once norm.pdf underflows).
   */
  function Gamma(m: Maths, p: Params): (v: real)
    requires Lawful(m) && InDomain(p)
    ensures v >= 0.0
    ensures v > 0.0 <==> m.pdf(D1(m, p)) > 0.0
  {
    var density := m.pdf(D1(m, p));
    var scale := p.S * SigmaRootT(m, p);
    assert scale > 0.0;
    density / scale
  }

  /**
   * The time-decay term shared by both sides of theta, before the /365:
   * never positive, and negative exactly when the density at d1 is positive.
   */
  function DecayTerm(m: Maths, p: Params): (v: real)
    requires Lawful(m) && InDomain(p)
    ensures v <= 0.0
    ensures v < 0.0 <==> m.pdf(D1(m, p)) > 0.0
  {
    var root := m.sqrt(p.T);
    var num := p.S * m.pdf(D1(m, p)) * p.sigma;
    assert num >= 0.0;
    assert num > 0.0 <==> m.pdf(D1(m, p)) > 0.0;
    assert 2.0 * root > 0.0;
    -num / (2.0 * root)
  }

  /**
   * theta, per calendar day. A call never gains value with time when r >= 0,
   * and a put never does when r <= 0; either strictly loses value while the
   * density at d1 is positive.
   */
  function Theta(m: Maths, p: Params, optionType: string): (v: real)
    requires Lawful(m) && InDomain(p)
    ensures IsCall(optionType) && p.r >= 0.0 ==> v <= 0.0
    ensures !IsCall(optionType) && p.r <= 0.0 ==> v <= 0.0
    ensures IsCall(optionType) && p.r >= 0.0 && m.pdf(D1(m, p)) > 0.0 ==> v < 0.0
    ensures !IsCall(optionType) && p.r <= 0.0 && m.pdf(D1(m, p)) > 0.0 ==> v < 0.0
  {
    var carry := p.r * p.K * Discount(m, p);
    var decay := DecayTerm(m, p);
    assert p.K * Discount(m, p) > 0.0;
    if IsCall(optionType) then
      var tail := carry * m.cdf(D2(m, p));
      assert p.r >= 0.0 ==> tail >= 0.0 by {
        if p.r >= 0.0 {
          assert carry >= 0.0;
        }
      }
      (decay - tail) / DaysPerYear
    else
      var tail := carry * m.cdf(-D2(m, p));
      assert p.r <= 0.0 ==> tail <= 0.0 by {
        if p.r <= 0.0 {
          assert carry <= 0.0;
        }
      }
      (decay + tail) / DaysPerYear
  }

  /** Theta parity: the call's daily theta exceeds the put's by -r K exp(-rT) / 365. */
  lemma ThetaParity(m: Maths, p: Params)
    requires Lawful(m) && Symmetric(m) && InDomain(p)
    ensures Theta(m, p, "call") - Theta(m, p, "put") == -p.r * p.K * Discount(m, p) / DaysPerYear
  {
    CallSpellings();
    CdfSymmetry(m, D2(m, p));
  }

  /**
   * vega, per percentage point of volatility: the same for both sides, never
   * negative, and positive exactly when the density at d1 is.
   */
  function Vega(m: Maths, p: Params): (v: real)
    requires Lawful(m) && InDomain(p)
    ensures v >= 0.0
    ensures v > 0.0 <==> m.pdf(D1(m, p)) > 0.0
  {
    var root := m.sqrt(p.T);
    var density := m.pdf(D1(m, p));
    assert p.S * density >= 0.0;
    assert p.S * density * root > 0.0 <==> density > 0.0;
    p.S * density * root / PerPercent
  }

  /** rho, per percentage point of rate: never negative for a call, never positive for a put. */
  function Rho(m: Maths, p: Params, optionType: string): (v: real)
    requires Lawful(m) && InDomain(p)
    ensures IsCall(optionType) ==> v >= 0.0
    ensures !IsCall(optionType) ==> v <= 0.0
  {
    var weight := p.K * p.T * Discount(m, p);
    assert weight > 0.0;
    if IsCall(optionType) then
      assert weight * m.cdf(D2(m, p)) >= 0.0;
      weight * m.cdf(D2(m, p)) / PerPercent
    else
      assert weight * m.cdf(-D2(m, p)) >= 0.0;
      -weight * m.cdf(-D2(m, p)) / PerPercent
  }

  /** Rho parity: the call's rho exceeds the put's by K T exp(-rT) / 100. */
  lemma RhoParity(m: Maths, p: Params)
    requires Lawful(m) && Symmetric(m) && InDomain(p)
    ensures Rho(m, p, "call") - Rho(m, p, "put") == p.K * p.T * Discount(m, p) / PerPercent
  {
    CallSpellings();
    CdfSymmetry(m, D2(m, p));
  }

  datatype Greeks = Greeks(delta: real, gamma: real, theta: real, vega: real, rho: real)

  /** get_all_greeks */
  function GetAllGreeks(m: Maths, p: Params, optionType: string): (g: Greeks)
    requires Lawful(m) && InDomain(p)
    ensures g.gamma >= 0.0 && g.vega >= 0.0
    ensures g.gamma > 0.0 <==> g.vega > 0.0
    ensures IsCall(optionType) ==> 0.0 <= g.delta <= 1.0 && g.rho >= 0.0
    ensures !IsCall(optionType) ==> -1.0 <= g.delta <= 0.0 && g.rho <= 0.0
  {
    Greeks(Delta(m, p, optionType), Gamma(m, p), Theta(m, p, optionType), Vega(m, p), Rho(m, p, optionType))
  }

  datatype OptionMetrics = OptionMetrics(
    optionPrice: real,
    totalCost: real,
    breakeven: real,
    greeks: Greeks,
    contracts: int
  )

  /**
   * calculate_option_metrics. The total cost is what a long position loses
   * when the share finishes at the strike, and (for a non-negative price) the
   * position ends exactly flat at the breakeven.
   */
  function CalculateOptionMetrics(m: Maths, p: Params, optionType: string, contracts: int): (om: OptionMetrics)
    requires Lawful(m) && InDomain(p)
    ensures om.optionPrice == OptionPrice(m, p, optionType)
    ensures om.breakeven == Breakeven(optionType, p.K, om.optionPrice)
    ensures om.greeks == GetAllGreeks(m, p, optionType)
    ensures om.contracts == contracts
    ensures om.totalCost == -ExpiryPnl(optionType, p.K, om.optionPrice, contracts, p.K)
    ensures om.optionPrice >= 0.0 ==> ExpiryPnl(optionType, p.K, om.optionPrice, contracts, om.breakeven) == 0.0
  {
    var optionPrice := OptionPrice(m, p, optionType);
    ExpiryPnlAtStrike(optionType, p.K, optionPrice, contracts);
    BreakevenIsFlat(optionType, p.K, optionPrice, contracts);
    OptionMetrics(
      optionPrice,
      optionPrice * contracts as real * ContractSize,
      Breakeven(optionType, p.K, optionPrice),
      GetAllGreeks(m, p, optionType),
      contracts)
  }

  /** The payoff of one unit at expiry when the share ends at s: max(0, s - K) or max(0, K - s). */
  function Intrinsic(optionType: string, K: real, s: real): (v: real)
    ensures v >= 0.0
    ensures IsCall(optionType) ==> (v > 0.0 <==> s > K)
    ensures !IsCall(optionType) ==> (v > 0.0 <==> s < K)
  {
    if IsCall(optionType) then PositivePart(s - K) else PositivePart(K - s)
  }

  /**
   * The breakeven price: strike plus premium for a call, strike minus premium
   * for a put. At it the unit payoff recovers exactly a non-negative premium.
   */
  function Breakeven(optionType: string, K: real, price: real): (b: real)
    ensures IsCall(optionType) ==> b - K == price
    ensures !IsCall(optionType) ==> K - b == price
    ensures price >= 0.0 ==> Intrinsic(optionType, K, b) == price
  {
    if IsCall(optionType) then K + price else K - price
  }

  /** The P&L at expiry of `contracts` long contracts bought at `price`, the share ending at s. */
  function ExpiryPnl(optionType: string, K: real, price: real, contracts: int, s: real): real {
    Intrinsic(optionType, K, s) * contracts as real * ContractSize - price * contracts as real * ContractSize
  }

  /** A long position bought at a non-negative price neither gains nor loses when the share ends at the breakeven. */
  lemma BreakevenIsFlat(optionType: string, K: real, price: real, contracts: int)
    ensures price >= 0.0 ==> ExpiryPnl(optionType, K, price, contracts, Breakeven(optionType, K, price)) == 0.0
  {
    if price >= 0.0 {
      assert Intrinsic(optionType, K, Breakeven(optionType, K, price)) == price;
    }
  }

  /** calculate_pnl_at_expiry: one P&L point per terminal price, in order, against a premium priced once. */
  method CalculatePnlAtExpiry(m: Maths, p: Params, stockPrices: seq<real>, optionType: string, contracts: int)
    returns (pnl: seq<real>)
    requires Lawful(m) && InDomain(p)
    ensures |pnl| == |stockPrices|
    ensures forall i :: 0 <= i < |pnl| ==>
      pnl[i] == ExpiryPnl(optionType, p.K, OptionPrice(m, p, optionType), contracts, stockPrices[i])
  {
    var optionPrice := if IsCall(optionType) then CallPrice(m, p) else PutPrice(m, p);
    var premiumPaid := optionPrice * contracts as real * ContractSize;
    pnl := [];
    for i := 0 to |stockPrices|
      invariant |pnl| == i
      invariant forall k :: 0 <= k < i ==>
        pnl[k] == ExpiryPnl(optionType, p.K, optionPrice, contracts, stockPrices[k])
    {
      var price := stockPrices[i];
      var intrinsicValue :=
        if IsCall(optionType) then PositivePart(price - p.K) * contracts as real * ContractSize
        else PositivePart(p.K - price) * contracts as real * ContractSize;
      pnl := pnl + [intrinsicValue - premiumPaid];
    }
  }

  /** A long position can lose no more than the premium paid. */
  lemma ExpiryPnlFloor(optionType: string, K: real, price: real, contracts: int, s: real)
    requires contracts >= 0
    ensures ExpiryPnl(optionType, K, price, contracts, s) >= -(price * contracts as real * ContractSize)
  {
    var x := Intrinsic(optionType, K, s);
    assert x * contracts as real >= 0.0;
  }

  /** At the strike the option expires worthless and the whole premium is lost. */
  lemma ExpiryPnlAtStrike(optionType: string, K: real, price: real, contracts: int)
    ensures ExpiryPnl(optionType, K, price, contracts, K) == -(price * contracts as real * ContractSize)
  {
  }

  lemma ScaleMonotone(x: real, y: real, k: real)
    requires x <= y && k >= 0.0
    ensures x * k <= y * k
  {
  }

  /** The call's expiry P&L never falls as the share rises, the put's never rises. */
  lemma {:induction false} ExpiryPnlMonotone(optionType: string, K: real, price: real, contracts: int, s: real, s': real)
    requires contracts >= 0 && s <= s'
    ensures IsCall(optionType) ==> ExpiryPnl(optionType, K, price, contracts, s) <= ExpiryPnl(optionType, K, price, contracts, s')
    ensures !IsCall(optionType) ==> ExpiryPnl(optionType, K, price, contracts, s) >= ExpiryPnl(optionType, K, price, contracts, s')
  {
    var a, b := Intrinsic(optionType, K, s), Intrinsic(optionType, K, s');
    var c := contracts as real;
    var premium := price * c * ContractSize;
    assert c >= 0.0;
    assert ExpiryPnl(optionType, K, price, contracts, s) == a * c * ContractSize - premium;
    assert ExpiryPnl(optionType, K, price, contracts, s') == b * c * ContractSize - premium;
    if IsCall(optionType) {
      assert a <= b;
      ScaleMonotone(a, b, c * ContractSize);
      assert a * c * ContractSize <= b * c * ContractSize;
    } else {
      assert b <= a;
      ScaleMonotone(b, a, c * ContractSize);
      assert b * c * ContractSize <= a * c * ContractSize;
    }
  }

  // ---------------------------------------------------------------------------
  // calculate_implied_volatility

  const InitialGuess: real := 0.2
  const Tolerance: real := 0.000001
  const MaxIterations: nat := 100
  /** The floor a Newton step is clamped to when it would leave the positive reals. */
  const VolFloor: real := 0.01

  /** Why the solver stopped. */
  datatype Stop = Converged | FlatVega | Exhausted

  /** The volatility the solver returns, why it stopped, and how many Newton updates it made. */
  datatype Solution = Solution(vol: real, stop: Stop, steps: nat)

  /** One Newton update vol - diff / vega, clamped to 0.01 when it is not positive. */
  function NewtonStep(vol: real, diff: real, vega: real): (next: real)
    requires vega != 0.0
    ensures next > 0.0
    ensures vol - diff / vega > 0.0 ==> next == vol - diff / vega
    ensures vol - diff / vega <= 0.0 ==> next == VolFloor
  {
    var v := vol - diff / vega;
    if v <= 0.0 then VolFloor else v
  }

  /**
   * The solver's run from volatility `vol` after `done` updates, for any
   * price curve and (full, unscaled) vega curve. It stops when the price is
   * within the tolerance of the market, when vega is exactly zero, or after
   * 100 iterations; it never fails, and what it returns is always positive.
   */
  function NewtonFrom(price: real -> real, vega: real -> real, market: real, vol: real, done: nat): (s: Solution)
    requires vol > 0.0 && done <= MaxIterations
    ensures s.vol > 0.0
    ensures done <= s.steps <= MaxIterations
    ensures s.stop == Converged ==> Abs(price(s.vol) - market) < Tolerance
    ensures s.stop == FlatVega ==> vega(s.vol) == 0.0 && Abs(price(s.vol) - market) >= Tolerance
    ensures s.stop == Exhausted ==> s.steps == MaxIterations
    decreases MaxIterations - done
  {
    if done == MaxIterations then Solution(vol, Exhausted, done)
    else
      var diff := price(vol) - market;
      if Abs(diff) < Tolerance then Solution(vol, Converged, done)
      else
        var slope := vega(vol);
        if slope == 0.0 then Solution(vol, FlatVega, done)
        else NewtonFrom(price, vega, market, NewtonStep(vol, diff, slope), done + 1)
  }

  /** The bounded Newton-Raphson loop, for any price and vega curves. */
  method NewtonRaphson(price: real -> real, vega: real -> real, market: real) returns (vol: real)
    ensures vol > 0.0
    ensures vol == NewtonFrom(price, vega, market, InitialGuess, 0).vol
  {
    vol := InitialGuess;
    for i := 0 to MaxIterations
      invariant vol > 0.0
      invariant NewtonFrom(price, vega, market, vol, i) == NewtonFrom(price, vega, market, InitialGuess, 0)
    {
      var priceDiff := price(vol) - market;
      if Abs(priceDiff) < Tolerance {
        return;
      }
      var slope := vega(vol);
      if slope == 0.0 {
        break;
      }
      vol := vol - priceDiff / slope;
      if vol <= 0.0 {
        vol := VolFloor;
      }
    }
  }

  /**
   * bs_price: the model price at volatility v. The solver only asks at v > 0;
   * the value elsewhere is never consulted.
   */
  function PriceCurve(m: Maths, S: real, K: real, T: real, r: real, optionType: string): (price: real -> real)
    requires Lawful(m) && S > 0.0 && K > 0.0 && T > 0.0
    ensures forall v :: v > 0.0 ==> price(v) == OptionPrice(m, Params(S, K, T, r, v), optionType)
  {
    v => if v > 0.0 then OptionPrice(m, Params(S, K, T, r, v), optionType) else 0.0
  }

  /**
   * bs_vega: vega rescaled by 100 to the full sensitivity, at volatility
   * v > 0. It is never negative, and zero exactly where the density at d1 is.
   */
  function VegaCurve(m: Maths, S: real, K: real, T: real, r: real): (vega: real -> real)
    requires Lawful(m) && S > 0.0 && K > 0.0 && T > 0.0
    ensures forall v :: v > 0.0 ==> vega(v) == Vega(m, Params(S, K, T, r, v)) * PerPercent
    ensures forall v :: v > 0.0 ==> vega(v) >= 0.0 && (vega(v) == 0.0 <==> m.pdf(D1(m, Params(S, K, T, r, v))) == 0.0)
  {
    v => if v > 0.0 then Vega(m, Params(S, K, T, r, v)) * PerPercent else 0.0
  }

  /** calculate_implied_volatility */
  method CalculateImpliedVolatility(
    m: Maths, marketPrice: real, S: real, K: real, T: real, r: real, optionType: string)
    returns (vol: real)
    requires Lawful(m) && S > 0.0 && K > 0.0 && T > 0.0
    ensures vol > 0.0
    ensures vol == NewtonFrom(PriceCurve(m, S, K, T, r, optionType), VegaCurve(m, S, K, T, r), marketPrice, InitialGuess, 0).vol
  {
    vol := NewtonRaphson(PriceCurve(m, S, K, T, r, optionType), VegaCurve(m, S, K, T, r), marketPrice);
  }

  /**
   * With the engine's curves the solver takes the `vega == 0` exit only where
   * the density at d1 has underflowed to zero; with a density that is
   * positive everywhere it converges or runs out of iterations.
   */
  lemma EngineFlatVega(m: Maths, marketPrice: real, S: real, K: real, T: real, r: real, optionType: string)
    requires Lawful(m) && S > 0.0 && K > 0.0 && T > 0.0
    ensures var s := NewtonFrom(PriceCurve(m, S, K, T, r, optionType), VegaCurve(m, S, K, T, r), marketPrice, InitialGuess, 0);
      s.stop == FlatVega ==> m.pdf(D1(m, Params(S, K, T, r, s.vol))) == 0.0
    ensures DensityPositive(m) ==>
      NewtonFrom(PriceCurve(m, S, K, T, r, optionType), VegaCurve(m, S, K, T, r), marketPrice, InitialGuess, 0).stop != FlatVega
  {
    var s := NewtonFrom(PriceCurve(m, S, K, T, r, optionType), VegaCurve(m, S, K, T, r), marketPrice, InitialGuess, 0);
    if s.stop == FlatVega {
      assert VegaCurve(m, S, K, T, r)(s.vol) == 0.0;
      assert Vega(m, Params(S, K, T, r, s.vol)) == 0.0;
    }
  }
}
