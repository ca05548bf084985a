# Options Guru in Dafny

A model of the computational core of Options Guru, a Streamlit application for
pricing and analysing single-leg equity options. It covers:

- the Black-Scholes engine (`utils/black_scholes.py`): prices, the Greeks, option
  metrics, the P&L at expiry and the Newton-Raphson implied-volatility solver;
- the numeric sweeps behind the charts (`utils/visualization.py`);
- the provider manager with its name resolution and ordered fallback
  (`utils/data_provider.py`);
- the local S&P 500 table with its lookups and search (`utils/stock_data.py`);
- the decision rules written inline in the two Streamlit pages (`Home.py`,
  `pages/01_Advanced_Visualizations.py`).

Files and modules:

| file | module | models |
|---|---|---|
| `analytic.dfy` | `Analytic` | Φ, φ, exp, ln, sqrt as a record of functions with their sign laws; `abs`, `max(0, x)`, `max`/`min` of a list |
| `text.dfy` | `Text` | `str.lower`, `str.upper`, substring containment |
| `wrappers.dfy` | `Wrappers` | `Option` |
| `black_scholes.dfy` | `BlackScholes` | the pricing engine |
| `visualization.dfy` | `Visualization` | surfaces and heatmaps as `array2<real>` filled in nested loops; the dashboard and multi-strike series |
| `data_provider.dfy` | `DataProvider` | `DataProviderManager` as a class whose `currentProvider` changes in place; each back end is a parameter `outcome` that says, per provider name, what the call returns or that it raised |
| `stock_data.dfy` | `StockData` | the symbol table as an insertion-ordered list of pairs, with Python dict semantics |
| `home.dfy` | `Home` | the calculator page's rules |
| `advanced_visualizations.dfy` | `AdvancedVisualizations` | the advanced page's loops |

Transcendental functions are not computed. Every pricing member takes a
`Maths` value and assumes `Lawful(m)`: 0 ≤ Φ ≤ 1, φ ≥ 0, exp > 0, and
sqrt(t) > 0 for t > 0. The density is only required to be non-negative
because `norm.pdf` underflows to exactly 0 in floating point once |x| exceeds
about 38.6. The sign facts that need φ > 0 are stated conditionally: they hold
where the density at d1 is positive, and for every input when
`DensityPositive(m)` holds, which is the real-arithmetic density. The parity
laws also assume `Symmetric(m)`, that is Φ(x) + Φ(−x) = 1.
`LawfulIsSatisfiable` shows that these assumptions can hold together, and
that `Lawful` also admits a density that underflows.

## Model

| member | source | states |
|---|---|---|
| Analytic.LawfulIsSatisfiable | utils/black_scholes.py:43-44 | the laws assumed of Φ, φ, exp and sqrt are consistent: some record satisfies `Lawful`, `Symmetric` and `DensityPositive`, and some satisfies `Lawful` and `Symmetric` with a density that vanishes somewhere |
| Analytic.CdfSymmetry | utils/black_scholes.py:52-53 | Φ(−x) = 1 − Φ(x), which the put formulas rely on |
| Analytic.MaxOf | Home.py:516 | Python's `max` of a non-empty list: the result is an element and bounds every element from above |
| Analytic.MinOf | Home.py:517 | Python's `min` of a non-empty list: the result is an element and bounds every element from below |
| Text.Lower | utils/black_scholes.py:60 | `str.lower` keeps the length and maps each character through the ASCII lower-case table |
| Text.Upper | utils/stock_data.py:123 | `str.upper` keeps the length and maps each character through the ASCII upper-case table |
| Text.LowerIdempotent | utils/visualization.py:105 | lower-casing twice is the same as lower-casing once |
| Text.UpperIdempotent | utils/stock_data.py:131 | upper-casing twice is the same as upper-casing once |
| Text.UpperOfLower | utils/stock_data.py:123 | upper-casing erases an earlier lower-casing |
| Text.ContainsEmpty | utils/stock_data.py:135 | the empty query occurs in every string |
| BlackScholes.CallSpellings | utils/black_scholes.py:60 | the side test ignores case: "call", "Call" and "CALL" select the call; "put" and "Put" do not |
| BlackScholes.SigmaRootT | utils/black_scholes.py:32 | σ√T is strictly positive inside the domain |
| BlackScholes.Discount | utils/black_scholes.py:44 | exp(−rT) is strictly positive |
| BlackScholes.D1 | utils/black_scholes.py:28-31 | d1 · σ√T = ln(S/K) + (r + σ²/2)·T; at the money with r ≥ 0, d1 > 0 |
| BlackScholes.D2 | utils/black_scholes.py:34-36 | d1 − d2 = σ√T, so d2 < d1 |
| BlackScholes.CallPrice | utils/black_scholes.py:38-45 | a call is never worth more than the share |
| BlackScholes.PutPrice | utils/black_scholes.py:47-54 | a put is never worth more than the discounted strike |
| BlackScholes.PutCallParity | utils/black_scholes.py:38-54 | call − put = S − K·exp(−rT) |
| BlackScholes.OptionPrice | utils/black_scholes.py:110-113 | the side the lower-cased type selects: a call is worth at most S, anything else is priced as a put and is worth at most K·exp(−rT) |
| BlackScholes.Delta | utils/black_scholes.py:56-63 | delta lies in [0, 1] for a call and in [−1, 0] for a put; any other spelling selects the put |
| BlackScholes.DeltaParity | utils/black_scholes.py:56-63 | a put's delta is the call's delta less one |
| BlackScholes.Gamma | utils/black_scholes.py:65-68 | gamma is ≥ 0, and > 0 exactly when φ(d1) > 0 |
| BlackScholes.DecayTerm | utils/black_scholes.py:76 | the volatility part of theta is ≤ 0, and < 0 exactly when φ(d1) > 0 |
| BlackScholes.Theta | utils/black_scholes.py:70-82 | daily theta is ≤ 0 for a call when r ≥ 0 and for a put when r ≤ 0, and < 0 in those cases when φ(d1) > 0 |
| BlackScholes.ThetaParity | utils/black_scholes.py:70-82 | theta(call) − theta(put) = −r·K·exp(−rT) / 365 |
| BlackScholes.Vega | utils/black_scholes.py:84-87 | vega per percentage point is ≥ 0, and > 0 exactly when φ(d1) > 0 |
| BlackScholes.Rho | utils/black_scholes.py:89-96 | rho is ≥ 0 for a call and ≤ 0 for a put |
| BlackScholes.RhoParity | utils/black_scholes.py:89-96 | rho(call) − rho(put) = K·T·exp(−rT) / 100 |
| BlackScholes.GetAllGreeks | utils/black_scholes.py:98-106 | the Greek record has gamma and vega ≥ 0, both positive or both zero, and the delta and rho signs of the chosen side |
| BlackScholes.CalculateOptionMetrics | utils/black_scholes.py:108-130 | the record holds the selected side's price, the breakeven for that price, the Greeks of that side and the contract count; the total cost is the premium of `contracts` × 100 shares, which is exactly what the position loses when the share ends at the strike; the P&L at the breakeven is zero |
| BlackScholes.Intrinsic | utils/black_scholes.py:143-146 | the unit payoff is ≥ 0; it is positive iff s > K for a call and iff s < K for a put |
| BlackScholes.Breakeven | utils/black_scholes.py:118-122 | breakeven is K + price for a call and K − price for a put; there the payoff equals a non-negative premium |
| BlackScholes.BreakevenIsFlat | utils/black_scholes.py:118-122 | the P&L at expiry is zero at the breakeven |
| BlackScholes.CalculatePnlAtExpiry | utils/black_scholes.py:132-151 | one point per price, in order: the payoff of `contracts` × 100 shares less a premium priced once |
| BlackScholes.ExpiryPnlFloor | utils/black_scholes.py:139-148 | a long position loses at most the premium paid |
| BlackScholes.ExpiryPnlAtStrike | utils/black_scholes.py:139-148 | at the strike the whole premium is lost |
| BlackScholes.ScaleMonotone | utils/black_scholes.py:144-146 | scaling a payoff by the non-negative contract count keeps its order |
| BlackScholes.ExpiryPnlMonotone | utils/black_scholes.py:142-149 | the call's P&L never falls as the share rises; the put's never rises |
| BlackScholes.NewtonStep | utils/black_scholes.py:185-189 | the update vol − diff/vega is kept when positive and otherwise clamped to 0.01, so the result is always positive |
| BlackScholes.NewtonFrom | utils/black_scholes.py:170-191 | at most 100 updates; the result is positive; a converged stop is within 1e-6 of the market price; a flat-vega stop has vega 0 |
| BlackScholes.NewtonRaphson | utils/black_scholes.py:170-191 | the loop returns the solver's answer, which is positive |
| BlackScholes.PriceCurve | utils/black_scholes.py:159-164 | at every volatility v > 0, the engine's price of the lower-cased side |
| BlackScholes.VegaCurve | utils/black_scholes.py:166-168 | at every v > 0, vega × 100; it is ≥ 0 and is 0 exactly where φ(d1) is 0 |
| BlackScholes.CalculateImpliedVolatility | utils/black_scholes.py:154-191 | the engine's solver, with price and full vega (×100) at each volatility |
| BlackScholes.EngineFlatVega | utils/black_scholes.py:166-183 | with the engine's own vega, the `vega == 0` exit is taken only at a volatility where φ(d1) has underflowed to 0; with a density positive everywhere, it is never taken |
| Visualization.Years | utils/visualization.py:160 | days / 365 is positive for a positive day count |
| Visualization.Tabulate | utils/visualization.py:32-46 | the nested loops over a zero-filled array set every cell [i, j] to its value |
| Visualization.OptionPriceSurface | utils/visualization.py:29-46 | the surface is rows = volatilities by columns = prices, and cell [i, j] prices the option at price j and volatility i |
| Visualization.GreekCell | utils/visualization.py:105-114 | a delta cell lies in [−1, 1]; gamma and vega cells are ≥ 0; a name that is none of the five, after lower-casing, leaves 0 |
| Visualization.GreekCellByName | utils/visualization.py:105-114 | the Greek name is compared case-insensitively; an unknown name leaves the cell at 0 |
| Visualization.GreekCellNames | utils/visualization.py:105-114 | every string that lower-cases to delta, gamma, theta, vega or rho selects that Greek |
| Visualization.GreekSurface | utils/visualization.py:93-114 | the Greek surface has the same shape and cell meaning as the price surface |
| Visualization.TimeDecayMatrix | utils/visualization.py:157-172 | row i prices every stock price with days[i] / 365 years left |
| Visualization.HeatmapEntryPrice | utils/visualization.py:253-260 | the entry price is the engine's price of the lower-cased side at the current stock price and at a day count that is the largest in the range |
| Visualization.LongestIsLargestDay | utils/visualization.py:254 | max(days) / 365 is the year count of a day count that no other in the range exceeds |
| Visualization.PnlCell | utils/visualization.py:275-278 | a long cell is what the option gained since entry, a short cell what it lost; an unchanged price gives 0 |
| Visualization.PnlLongShortNegation | utils/visualization.py:275-278 | a short cell is the negation of the long cell, and the position name is compared case-insensitively |
| Visualization.PnlMatrix | utils/visualization.py:253-280 | cell [i, j] is the value change against an entry price priced once, at the current price and the longest expiry, revalued at price j with days[i] left |
| Visualization.MultiStrikePnl | utils/visualization.py:320-336 | one series per strike and one point per price: the unit payoff less a premium priced at the first point of the range |
| Visualization.GreeksDashboard | utils/visualization.py:387-401 | six parallel series, one point per price, each the engine's value there; every gamma and vega is ≥ 0, and at each point both are positive or both are zero |
| Visualization.SmileMoneyness | utils/visualization.py:207 | moneyness × S gives back each strike |
| DataProvider.OthersMembers | utils/data_provider.py:52-53 | the fallback loop visits exactly the keys other than the first choice |
| DataProvider.Attempts | utils/data_provider.py:47-55 | the search order starts with the resolved provider when it is a key, and visits exactly the keys |
| DataProvider.Fallback | utils/data_provider.py:47-60 | when the resolved provider answers, its answer is the result |
| DataProvider.FirstReturnedSpec | utils/data_provider.py:47-60 | the first non-raising result comes from one of the tried providers; there is none iff every one raised |
| DataProvider.CalledSpec | utils/data_provider.py:52-59 | the providers called are a prefix of the search order; all but the last raised; the search stops at the first that returns |
| DataProvider.TryFirst | utils/data_provider.py:54-59 | one step of the search: a provider that returns ends it, one that raises passes to the next |
| DataProvider.OthersStep | utils/data_provider.py:52-53 | one step of the loop over the keys |
| DataProvider.DataProviderManager.constructor | utils/data_provider.py:16-23 | three back ends in a fixed order; the current provider is the default, which is not checked |
| DataProvider.DataProviderManager.SetProvider | utils/data_provider.py:25-31 | a known name becomes current; an unknown one changes nothing |
| DataProvider.DataProviderManager.GetProvider | utils/data_provider.py:33-35 | the current provider, with a KeyError (None) iff the current name is not a key |
| DataProvider.DataProviderManager.GetAvailableProviders | utils/data_provider.py:37-39 | the keys in insertion order, without repeats |
| DataProvider.DataProviderManager.Resolve | utils/data_provider.py:43-45 | `provider or current`, replaced by the default when it is not a key, in all four cases; None and "" are falsy |
| DataProvider.DataProviderManager.WithFallback | utils/data_provider.py:47-60 | the resolved provider first, then every other key in order; the first non-raising result, or None |
| DataProvider.DataProviderManager.TryOthers | utils/data_provider.py:52-60 | the fallback loop's result and its calls |
| DataProvider.DataProviderManager.GetStockData | utils/data_provider.py:41-60 | get_stock_data is the fallback search |
| DataProvider.DataProviderManager.CalculateHistoricalVolatility | utils/data_provider.py:74-93 | the same fallback search for volatility |
| DataProvider.DataProviderManager.GetHistoricalData | utils/data_provider.py:62-72 | the resolved provider only, with no fallback; None when it raises |
| DataProvider.DataProviderManager.GetMarketOverview | utils/data_provider.py:95-105 | the resolved provider only; an empty dictionary when it raises |
| DataProvider.DataProviderManager.Optional | utils/data_provider.py:107-173 | an unknown default raises and gives the error value; a provider without the method gives the missing value; otherwise its result, or the error value when it raises |
| DataProvider.DataProviderManager.GetOptionsChain | utils/data_provider.py:107-122 | None unless the provider defines get_options_chain; a registered provider that defines it and answers gives its answer; None when it raises |
| DataProvider.DataProviderManager.SearchStocks | utils/data_provider.py:124-139 | an empty list unless the provider defines search_stocks; otherwise its answer; an empty list when it raises |
| DataProvider.DataProviderManager.GetCompanyInfo | utils/data_provider.py:141-156 | None unless the provider defines get_company_info; a registered provider that defines it and answers gives its answer; None when it raises |
| DataProvider.DataProviderManager.GetRiskFreeRate | utils/data_provider.py:158-173 | 5% unless Yahoo Finance is resolved and answers, in which case its rate |
| DataProvider.GetProviderNeverFails | utils/data_provider.py:22-35 | with a registered default, get_provider never raises |
| DataProvider.FallbackChosenAnswers | utils/data_provider.py:47-48 | when the chosen provider answers, its result comes back and no other provider is called |
| DataProvider.FallbackAllRaise | utils/data_provider.py:49-60 | when every provider raises, the result is None and each key was tried once |
| DataProvider.CalledAllRaise | utils/data_provider.py:52-59 | when every provider raises, all of them are called |
| DataProvider.FallbackSound | utils/data_provider.py:47-60 | a Some result is the answer of a registered provider |
| DataProvider.AttemptsDistinct | utils/data_provider.py:52-53 | no provider is tried twice |
| DataProvider.OthersDistinct | utils/data_provider.py:52-53 | the fallback order has no repeats |
| DataProvider.DistinctCons | utils/data_provider.py:52-53 | prepending the first choice keeps the search order free of repeats |
| DataProvider.GetCurrentPrice | utils/data_provider.py:181-184 | the price under key 'price' of the fallback's data; no data when it is None or empty; a KeyError when a non-empty dictionary lacks 'price' |
| StockData.Keys | utils/stock_data.py:119 | the keys in table order |
| StockData.Get | utils/stock_data.py:123 | lookup succeeds exactly for the keys |
| StockData.Insert | utils/stock_data.py:6-115 | a dict assignment keeps an existing key in its place and appends a new key |
| StockData.InsertGet | utils/stock_data.py:6-115 | after an assignment the key maps to the new value and every other key is unchanged |
| StockData.FromPairsFacts | utils/stock_data.py:6-115 | a dict display has no duplicate keys, and each key holds its last value in the display |
| StockData.FromPairsKeys | utils/stock_data.py:6-115 | a dict display's keys are exactly the keys written in it |
| StockData.FirstOccurrences | utils/stock_data.py:6-115 | each key once, at its first position: no repeats, and the same keys |
| StockData.FirstOccurrencesOfDistinct | utils/stock_data.py:6-115 | a display with no repeated key keeps its keys in the order written |
| StockData.FromPairsOrder | utils/stock_data.py:6-115 | a dict display lists its keys in the order of their first occurrence in the display |
| StockData.GetStockList | utils/stock_data.py:117-119 | the symbol list has no repeats, holds exactly the symbols of the table, and lists them in display order (first occurrences) |
| StockData.GetStockName | utils/stock_data.py:121-123 | the name listed for the upper-cased symbol, else the upper-cased symbol itself |
| StockData.GetStockNameIgnoresCase | utils/stock_data.py:121-123 | upper- or lower-casing the symbol first changes nothing |
| StockData.GetPopularStocks | utils/stock_data.py:125-127 | nine symbols, all in the table |
| StockData.PopularAreListed | utils/stock_data.py:125-127 | each popular symbol is a table key |
| StockData.Take | utils/stock_data.py:138 | `[:n]` keeps at most n elements, as a prefix, and keeps everything when there are at most n |
| StockData.Matching | utils/stock_data.py:132-136 | at most one match per row |
| StockData.SearchResult | utils/stock_data.py:129-138 | at most ten results, which are the first of the matches for the upper-cased query |
| StockData.SearchTable | utils/stock_data.py:131-138 | the loop collects, in table order, the symbols whose symbol or upper-cased name contains the upper-cased query, and returns the first ten |
| StockData.SearchStocks | utils/stock_data.py:129-138 | search_stocks is that loop over SP500_STOCKS |
| StockData.MatchingSound | utils/stock_data.py:134-136 | every match is a symbol of a row that satisfies the test |
| StockData.MatchingPrefix | utils/stock_data.py:132-136 | matches over a prefix of the table are a prefix of all matches |
| StockData.QualifyingRowMatches | utils/stock_data.py:134-136 | a row that satisfies the test contributes its symbol at its position among the matches |
| StockData.SearchResultFacts | utils/stock_data.py:129-138 | at most 10 results; each satisfies the test; a qualifying row is dropped only when ten matches come before it |
| StockData.SearchIgnoresCase | utils/stock_data.py:131 | the query's case does not matter |
| StockData.SearchEmptyQuery | utils/stock_data.py:129-138 | the empty query returns the first ten symbols |
| StockData.MatchingEverything | utils/stock_data.py:134-136 | the empty query matches every row |
| Home.ToParams | Home.py:153-163 | days become years (÷ 365) and percentages become fractions (÷ 100) |
| Home.CalculateMetrics | Home.py:151-174 | the inputs converted by ToParams, priced on the lower-cased type; price, breakeven, Greeks and contract count are the engine's metrics; the total cost is the premium, negated for "Short (Sell)" |
| Home.ShortNegatesCostOnly | Home.py:170-172 | going short negates the total cost and leaves price, breakeven and Greeks unchanged |
| Home.PositionPnl | Home.py:468-470 | the chart keeps the engine's points for a long position and negates each one for a short |
| Home.PositionPnlInvolution | Home.py:468-470 | negating the short chart again gives back the long chart |
| Home.ShortPnlCeiling | Home.py:462-470 | a short position's P&L never exceeds the premium received |
| Home.PnlSummary | Home.py:515-533 | the profit is unlimited iff some point reaches 10000, otherwise it is the largest point; the loss is unlimited iff some point reaches −10000, otherwise it is \|p\| for a point p that is the smallest of all |
| Home.StrikeSuggestions | Home.py:365-371 | five labelled strikes: at the money, then OTM above and ITM below the price for "Call", and the reverse otherwise |
| Home.ClassifyMoneyness | Home.py:398-419 | ATM iff 0.98 ≤ S/K ≤ 1.02; a call is ITM above the band and OTM below it; a put is the reverse |
| Home.MoneynessMirror | Home.py:398-419 | a call and a put at the same strike get mirrored labels |
| Home.SuggestionsAgreeWithMoneyness | Home.py:365-419 | each suggested OTM or ITM strike gets that label from the moneyness indicator |
| Home.MaxProfitLossAsWritten | Home.py:667-687 | the page's panel; for a short put it shows K·n·100 as the maximum loss |
| Home.MaxProfitLoss | Home.py:667-687 | the corrected panel: the same as the page except that the short put's loss is K·n·100 less the premium |
| Home.PositionExpiryPnl | Home.py:462-470 | the engine's expiry P&L for a long position, and its negation for "Short (Sell)" |
| Home.PutExtremesAreExact | Home.py:677-687 | for a long or short put the P&L stays within the corrected panel's bounds for every share price ≥ 0, and it reaches them at share price 0 |
| Home.PutPnlCeiling | Home.py:679 | a long put's P&L is largest when the share ends at zero, where it is K·n·100 less the premium |
| Home.CallExtremesAreExact | Home.py:668-676 | for a call the bounded side is the premium, and the P&L reaches it at the strike |
| Home.CallProfitUnbounded | Home.py:670 | a long call's profit exceeds any bound for a high enough share price, which is why it is reported as unlimited |
| Home.ShortPutLossOverstated | Home.py:683-687 | the page's short-put loss exceeds the true worst case by exactly the premium (10000 shown, 9800 at worst, for K = 100, n = 1, price 2) |
| Home.ClassifyStrategy | Home.py:715-730 | time decay is "Negative" iff the position is a long Call or Put, and "Positive" otherwise; risk is "Limited" for those, "Unlimited" only for a short call |
| AdvancedVisualizations.SmileAdjustment | pages/01_Advanced_Visualizations.py:159-163 | the adjustment is ≥ 0, and zero exactly inside 0.95 ≤ K/S ≤ 1.05 |
| AdvancedVisualizations.VolatilitySmile | pages/01_Advanced_Visualizations.py:155-165 | one vol per strike; it is never below the ATM vol, and it equals the ATM vol exactly inside the band |
| AdvancedVisualizations.DefaultStrikes | pages/01_Advanced_Visualizations.py:246-251 | strike i is S + (i − 1)·5: the strikes are 5 apart and the second is at the price |
| AdvancedVisualizations.UnitIntrinsic | pages/01_Advanced_Visualizations.py:287-291 | the unit payoff is ≥ 0; it is positive iff s > K for exactly "call" and iff s < K otherwise |
| AdvancedVisualizations.UnitPnlIsOneContract | pages/01_Advanced_Visualizations.py:287-293 | the per-share P&L × 100 is the engine's expiry P&L of one contract |
| AdvancedVisualizations.UnitPnlFloor | pages/01_Advanced_Visualizations.py:293 | a bought option loses at most its premium, and all of it at the strike |
| AdvancedVisualizations.ExpiryPremium | pages/01_Advanced_Visualizations.py:280-284 | the premium for exactly "call" is at most the share price; anything else is priced as a put, at most the discounted strike |
| AdvancedVisualizations.ExpiryPremiumIsEnginePrice | pages/01_Advanced_Visualizations.py:279-285 | for "call" and "put" the panel's premium is the engine's price with days / 365 years left |
| AdvancedVisualizations.UnitPnlCurve | pages/01_Advanced_Visualizations.py:281-294 | one P&L point per share price, in order |
| AdvancedVisualizations.MultiExpiryPnl | pages/01_Advanced_Visualizations.py:277-294 | one curve per expiry; each point is the payoff less that expiry's premium, priced at today's share price |
| AdvancedVisualizations.LongCallPnl | pages/01_Advanced_Visualizations.py:332-339 | the call premium is priced once; then one point per price, max(0, s − K) − premium |
| AdvancedVisualizations.LongPutPnl | pages/01_Advanced_Visualizations.py:351-358 | the put premium is priced once; then one point per price, max(0, K − s) − premium |
| AdvancedVisualizations.StraddlePnl | pages/01_Advanced_Visualizations.py:376-380 | the straddle's P&L plus the total premium is the distance \|s − K\| |
| AdvancedVisualizations.StraddleFacts | pages/01_Advanced_Visualizations.py:369-381 | the straddle is the sum of its legs, with payoff \|s − K\|; it loses at most the total premium, and all of it iff s = K |
| AdvancedVisualizations.LongStraddlePnl | pages/01_Advanced_Visualizations.py:365-381 | both premiums are priced once; each point is both payoffs less both premiums, never below −(total premium) |
| AdvancedVisualizations.NearZeroCount | pages/01_Advanced_Visualizations.py:404 | the count of points with \|p\| < 0.1 is at most the length |
| AdvancedVisualizations.NearZeroCountIsCardinality | pages/01_Advanced_Visualizations.py:404 | the count equals the number of distinct near-zero positions |
| AdvancedVisualizations.SummarizeStrategy | pages/01_Advanced_Visualizations.py:396-405 | the profit is unlimited iff some point reaches 1000, otherwise the largest point; the loss is unlimited iff some point reaches −1000, otherwise the smallest point (signed); breakeven is "Multiple" iff more than two points are near zero |
| AdvancedVisualizations.StrategySummaryTable | pages/01_Advanced_Visualizations.py:394-405 | one row per strategy, in order |
| AdvancedVisualizations.StraddleLossIsBounded | pages/01_Advanced_Visualizations.py:369-405 | a straddle whose total premium is below 1000 never has its loss reported as unlimited |

## Left out

- Numeric values of Φ, φ, exp, ln and sqrt are not computed. The proofs use only the sign laws of `Lawful` and, for the parity lemmas, `Symmetric`.
- IEEE floating point is not modelled: no NaN, no infinities, no rounding (`round(..., 2)` at Home.py:249 and Home.py:377, and the `:.2f` formatting). Numbers are `real`.
- BlackScholes.EngineFlatVega: under real arithmetic φ(d1) > 0 and the solver's `vega == 0` exit (utils/black_scholes.py:182) cannot be taken. In floating point `norm.pdf(d1)` underflows to 0 once |d1| exceeds about 38.6 (for example S = 100, K = 1, T = 1/365, where d1 ≈ 440). The model admits that case through `Lawful`, which requires only φ ≥ 0. The lemma states that the exit is taken only where the density has vanished. It does not say for which inputs the underflow happens.
- Visualization.MultiStrikePnl: the source reads `stock_prices[0]` (utils/visualization.py:321) and raises IndexError on an empty price list when some strike is given. The model requires a non-empty, positive price list whenever the strike list is non-empty, so that exception path is not modelled.
- Degenerate inputs T = 0 or σ = 0 are excluded by `InDomain`. The source divides by σ√T there and produces inf or nan.
- `np.linspace` ranges are not built. Every sweep takes its grid as a parameter.
- Plotly figures, Streamlit widgets, layout, `st.session_state` and `st.rerun` are not modelled. The values those widgets hold arrive as parameters.
- The back ends (`yfinance_utils.py`, `polygon_utils.py`, `alpaca_utils.py`) and their network calls are not part of this model. Each one is the `outcome` parameter, and whether a back end defines an optional method is the sets `SearchCapable` and `RateCapable`.
- Logging calls are not modelled.
- The module-level `data_provider` instance and the pass-through helpers `get_historical_volatility` and `get_risk_free_rate` (utils/data_provider.py:177, 187-194) are left out. They only forward to the manager's methods; `GetCurrentPrice` takes the manager as a parameter.
- DataProvider.DataProviderManager.WithFallback: the sequence of providers called is a ghost out-parameter that exists only to state the search order. The source does not return it.
- `create_strategy_comparison` (utils/visualization.py:425-460) only draws the curves it is given, so it is not modelled.
- Case mapping covers ASCII letters only. Python's Unicode `lower`/`upper` tables are not modelled.
- The label text `strategy_name` (Home.py:713), the CSS colours and the descriptive strings of the panels are not modelled.
- The Greeks interpretation thresholds on the advanced page (pages/01_Advanced_Visualizations.py:204-228) are display text outside the modelled sweeps, and are not modelled.
- The premium of the P&L heatmap is priced at the longest expiry, as the source does. It is not compared with any other pricing.
- Visualization.Tabulate: the surfaces are written through one shared loop that takes the cell computation as a function value. The source repeats the same nested loop in each builder.
- Convergence of the Newton-Raphson solver is not proved. The model proves the bound of 100 iterations and what each exit means.

## Findings

| source | as written | input that shows it | evidently intended | confidence | as-written member | corrected member |
|---|---|---|---|---|---|---|
| Home.py:683-687 | For a short put, the maximum loss shown is strike × contracts × 100. The premium received is not deducted. | strike 100, 1 contract, put price 2: the page shows a maximum loss of 10000, but the position loses at most 9800 (share at 0: the payoff of 10000 less the 200 received) | maximum loss = strike × contracts × 100 − premium received, in the same way that the long put's profit deducts the premium (Home.py:679) | not executed | Home.MaxProfitLossAsWritten, Home.ShortPutLossOverstated | Home.MaxProfitLoss, Home.PutExtremesAreExact |
