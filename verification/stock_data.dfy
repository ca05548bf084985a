/**
 * The symbol table of utils/stock_data.py and the lookups over it.
 *
 * `SP500_STOCKS` is a Python dictionary display. Building a dictionary from a
 * display inserts the pairs left to right: a new key is appended, a repeated
 * key keeps its first position and takes the later value. The model builds
 * the table the same way, so that its keys are distinct by construction and
 * iteration follows insertion order.
 */
module StockData {
  import opened Text
  import opened Wrappers

  /** An insertion-ordered dictionary from symbols to company names. */
  type Table = seq<(string, string)>

  function Keys(t: Table): (ks: seq<string>)
    ensures |ks| == |t| && forall i :: 0 <= i < |t| ==> ks[i] == t[i].0
  {
    seq(|t|, i requires 0 <= i < |t| => t[i].0)
  }

  /** `t.get(k)`: the value stored under k, if any. */
  function Get(t: Table, k: string): (v: Option<string>)
    ensures v.Some? <==> k in Keys(t)
  {
    if |t| == 0 then None
    else if t[0].0 == k then Some(t[0].1)
    else Get(t[1..], k)
  }

  /** `d[k] = v`: overwrite in place when k is present, append otherwise. */
  function Insert(t: Table, k: string, v: string): (u: Table)
    ensures Keys(u) == if k in Keys(t) then Keys(t) else Keys(t) + [k]
  {
    if |t| == 0 then [(k, v)]
    else if t[0].0 == k then [(k, v)] + t[1..]
    else [t[0]] + Insert(t[1..], k, v)
  }

  /** After `d[k] = v`, k maps to v and every other key keeps its value. */
  lemma {:induction false} InsertGet(t: Table, k: string, v: string, k': string)
    ensures Get(Insert(t, k, v), k') == if k' == k then Some(v) else Get(t, k')
  {
    if |t| > 0 && t[0].0 != k {
      InsertGet(t[1..], k, v, k');
      assert Insert(t, k, v)[1..] == Insert(t[1..], k, v);
    } else if |t| > 0 {
      assert Insert(t, k, v)[1..] == t[1..];
    }
  }

  /** The dictionary a display of `pairs` evaluates to. */
  function FromPairs(pairs: seq<(string, string)>): Table {
    if |pairs| == 0 then []
    else
      var last := pairs[|pairs| - 1];
      Insert(FromPairs(pairs[..|pairs| - 1]), last.0, last.1)
  }

  /** The value of the last pair with key k: the one a dictionary display keeps. */
  function LastValue(pairs: seq<(string, string)>, k: string): Option<string> {
    if |pairs| == 0 then None
    else if pairs[|pairs| - 1].0 == k then Some(pairs[|pairs| - 1].1)
    else LastValue(pairs[..|pairs| - 1], k)
  }

  /** A dictionary display has no repeated key, and looking a key up gives its last value. */
  lemma {:induction false} FromPairsFacts(pairs: seq<(string, string)>, k: string)
    ensures Distinct(Keys(FromPairs(pairs)))
    ensures Get(FromPairs(pairs), k) == LastValue(pairs, k)
  {
    if |pairs| > 0 {
      var init, last := pairs[..|pairs| - 1], pairs[|pairs| - 1];
      FromPairsFacts(init, k);
      InsertGet(FromPairs(init), last.0, last.1, k);
      var ks := Keys(FromPairs(init));
      if last.0 !in ks {
        assert Keys(FromPairs(pairs)) == ks + [last.0];
      }
    }
  }

  /** The keys of the dictionary are exactly the keys written in the display. */
  lemma {:induction false} FromPairsKeys(pairs: seq<(string, string)>)
    ensures forall k :: k in Keys(FromPairs(pairs)) <==> k in Keys(pairs)
  {
    if |pairs| > 0 {
      var init := pairs[..|pairs| - 1];
      FromPairsKeys(init);
      assert Keys(pairs) == Keys(init) + [pairs[|pairs| - 1].0];
    }
  }

  /** Each key once, at the position where it first occurs. */
  function FirstOccurrences(ks: seq<string>): (d: seq<string>)
    ensures Distinct(d)
    ensures forall k :: k in d <==> k in ks
  {
    if |ks| == 0 then []
    else
      var rest := FirstOccurrences(ks[..|ks| - 1]);
      var k := ks[|ks| - 1];
      assert forall x :: x in ks <==> x in ks[..|ks| - 1] || x == k;
      if k in rest then rest else rest + [k]
  }

  /** With no key repeated, every key occurs first where it stands: the order is kept as written. */
  lemma {:induction false} FirstOccurrencesOfDistinct(ks: seq<string>)
    requires Distinct(ks)
    ensures FirstOccurrences(ks) == ks
  {
    if |ks| > 0 {
      var init := ks[..|ks| - 1];
      assert Distinct(init);
      FirstOccurrencesOfDistinct(init);
      assert ks[|ks| - 1] !in init;
      assert ks == init + [ks[|ks| - 1]];
    }
  }

  /** A dictionary display lists its keys in the order they first occur in the display. */
  lemma {:induction false} FromPairsOrder(pairs: seq<(string, string)>)
    ensures Keys(FromPairs(pairs)) == FirstOccurrences(Keys(pairs))
  {
    if |pairs| > 0 {
      var init := pairs[..|pairs| - 1];
      FromPairsOrder(init);
      assert Keys(pairs)[..|pairs| - 1] == Keys(init);
    }
  }

  /**
   * The display of SP500_STOCKS, in source order: the seven largest
   * companies first, then the rest of the stocks, then five index funds.
   */
  const LargestCompanies: seq<(string, string)> := [
    ("AAPL", "Apple Inc."),
    ("MSFT", "Microsoft Corporation"),
    ("GOOGL", "Alphabet Inc. Class A"),
    ("AMZN", "Amazon.com Inc."),
    ("NVDA", "NVIDIA Corporation"),
    ("TSLA", "Tesla Inc."),
    ("META", "Meta Platforms Inc.")
  ]

  const OtherCompanies: seq<(string, string)> := [
    ("BRK.B", "Berkshire Hathaway Inc. Class B"),
    ("UNH", "UnitedHealth Group Incorporated"),
    ("JNJ", "Johnson & Johnson"),
    ("JPM", "JPMorgan Chase & Co."),
    ("V", "Visa Inc."),
    ("PG", "Procter & Gamble Company"),
    ("MA", "Mastercard Incorporated"),
    ("HD", "Home Depot Inc."),
    ("CVX", "Chevron Corporation"),
    ("LLY", "Eli Lilly and Company"),
    ("ABBV", "AbbVie Inc."),
    ("PFE", "Pfizer Inc."),
    ("KO", "Coca-Cola Company"),
    ("AVGO", "Broadcom Inc."),
    ("PEP", "PepsiCo Inc."),
    ("TMO", "Thermo Fisher Scientific Inc."),
    ("COST", "Costco Wholesale Corporation"),
    ("MRK", "Merck & Co. Inc."),
    ("WMT", "Walmart Inc."),
    ("BAC", "Bank of America Corporation"),
    ("NFLX", "Netflix Inc."),
    ("XOM", "Exxon Mobil Corporation"),
    ("DIS", "Walt Disney Company"),
    ("ABT", "Abbott Laboratories"),
    ("CRM", "Salesforce Inc."),
    ("VZ", "Verizon Communications Inc."),
    ("ADBE", "Adobe Inc."),
    ("NKE", "Nike Inc."),
    ("WFC", "Wells Fargo & Company"),
    ("T", "AT&T Inc."),
    ("PM", "Philip Morris International Inc."),
    ("INTC", "Intel Corporation"),
    ("UPS", "United Parcel Service Inc."),
    ("IBM", "International Business Machines Corporation"),
    ("GS", "Goldman Sachs Group Inc."),
    ("MS", "Morgan Stanley"),
    ("CAT", "Caterpillar Inc."),
    ("GE", "General Electric Company"),
    ("AMD", "Advanced Micro Devices Inc."),
    ("QCOM", "QUALCOMM Incorporated"),
    ("INTU", "Intuit Inc."),
    ("ISRG", "Intuitive Surgical Inc."),
    ("BKNG", "Booking Holdings Inc."),
    ("TXN", "Texas Instruments Incorporated"),
    ("AMGN", "Amgen Inc."),
    ("HON", "Honeywell International Inc."),
    ("SPGI", "S&P Global Inc."),
    ("LOW", "Lowe's Companies Inc."),
    ("AXP", "American Express Company"),
    ("BLK", "BlackRock Inc."),
    ("BA", "Boeing Company"),
    ("DE", "Deere & Company"),
    ("MDT", "Medtronic plc"),
    ("C", "Citigroup Inc."),
    ("GILD", "Gilead Sciences Inc."),
    ("TJX", "TJX Companies Inc."),
    ("SCHW", "Charles Schwab Corporation"),
    ("LMT", "Lockheed Martin Corporation"),
    ("ADP", "Automatic Data Processing Inc."),
    ("SYK", "Stryker Corporation"),
    ("TMUS", "T-Mobile US Inc."),
    ("CVS", "CVS Health Corporation"),
    ("MO", "Altria Group Inc."),
    ("ZTS", "Zoetis Inc."),
    ("FIS", "Fidelity National Information Services Inc."),
    ("REGN", "Regeneron Pharmaceuticals Inc."),
    ("PLD", "Prologis Inc."),
    ("MMM", "3M Company"),
    ("NOW", "ServiceNow Inc."),
    ("PYPL", "PayPal Holdings Inc."),
    ("SO", "Southern Company"),
    ("DUK", "Duke Energy Corporation"),
    ("CL", "Colgate-Palmolive Company"),
    ("ITW", "Illinois Tool Works Inc."),
    ("BSX", "Boston Scientific Corporation"),
    ("EOG", "EOG Resources Inc."),
    ("ICE", "Intercontinental Exchange Inc."),
    ("FCX", "Freeport-McMoRan Inc."),
    ("NSC", "Norfolk Southern Corporation"),
    ("SHW", "Sherwin-Williams Company"),
    ("USB", "U.S. Bancorp"),
    ("AON", "Aon plc"),
    ("PNC", "PNC Financial Services Group Inc."),
    ("CME", "CME Group Inc."),
    ("GD", "General Dynamics Corporation"),
    ("TGT", "Target Corporation"),
    ("F", "Ford Motor Company"),
    ("EMR", "Emerson Electric Co."),
    ("COF", "Capital One Financial Corporation"),
    ("FISV", "Fiserv Inc."),
    ("CSX", "CSX Corporation"),
    ("GM", "General Motors Company"),
    ("WM", "Waste Management Inc."),
    ("TFC", "Truist Financial Corporation"),
    ("BDX", "Becton Dickinson and Company"),
    ("NOC", "Northrop Grumman Corporation")
  ]

  const IndexFunds: seq<(string, string)> := [
    ("SPY", "SPDR S&P 500 ETF Trust"),
    ("QQQ", "Invesco QQQ Trust"),
    ("IWM", "iShares Russell 2000 ETF"),
    ("VTI", "Vanguard Total Stock Market ETF"),
    ("VOO", "Vanguard S&P 500 ETF")
  ]

  const Sp500Pairs: seq<(string, string)> := LargestCompanies + OtherCompanies + IndexFunds

  /** SP500_STOCKS */
  const Sp500Stocks: Table := FromPairs(Sp500Pairs)

  /**
   * get_stock_list: the symbols in table order, none repeated, exactly those
   * written in the display; the order is that of each symbol's first
   * occurrence in the display.
   */
  function GetStockList(): (symbols: seq<string>)
    ensures Distinct(symbols)
    ensures forall k :: k in symbols <==> k in Keys(Sp500Pairs)
    ensures symbols == FirstOccurrences(Keys(Sp500Pairs))
  {
    FromPairsFacts(Sp500Pairs, "");
    FromPairsKeys(Sp500Pairs);
    FromPairsOrder(Sp500Pairs);
    Keys(Sp500Stocks)
  }

  /**
   * get_stock_name: for a listed symbol (after upper-casing) the name written
   * beside it in the display, otherwise the upper-cased symbol itself.
   */
  function GetStockName(symbol: string): (name: string)
    ensures Upper(symbol) in Keys(Sp500Pairs) ==> Some(name) == LastValue(Sp500Pairs, Upper(symbol))
    ensures Upper(symbol) !in Keys(Sp500Pairs) ==> name == Upper(symbol)
  {
    FromPairsFacts(Sp500Pairs, Upper(symbol));
    FromPairsKeys(Sp500Pairs);
    match Get(Sp500Stocks, Upper(symbol))
    case Some(n) => n
    case None => Upper(symbol)
  }

  /** The name lookup ignores the case of the symbol. */
  lemma GetStockNameIgnoresCase(symbol: string)
    ensures GetStockName(Upper(symbol)) == GetStockName(symbol)
    ensures GetStockName(Lower(symbol)) == GetStockName(symbol)
  {
    UpperIdempotent(symbol);
    UpperOfLower(symbol);
  }

  /** get_popular_stocks: nine symbols, every one of them listed in the table. */
  function GetPopularStocks(): (symbols: seq<string>)
    ensures |symbols| == 9
    ensures forall s :: s in symbols ==> s in GetStockList()
  {
    var popular := ["AAPL", "MSFT", "GOOGL", "AMZN", "NVDA", "TSLA", "META", "SPY", "QQQ"];
    PopularAreListed(popular);
    popular
  }

  lemma PopularAreListed(popular: seq<string>)
    requires popular == ["AAPL", "MSFT", "GOOGL", "AMZN", "NVDA", "TSLA", "META", "SPY", "QQQ"]
    ensures forall s :: s in popular ==> s in GetStockList()
  {
    var at := [0, 1, 2, 3, 4, 5, 6, 103, 104];
    assert forall k :: 0 <= k < 9 ==> Sp500Pairs[at[k]].0 == popular[k];
    assert forall k :: 0 <= k < 9 ==> popular[k] in Keys(Sp500Pairs);
  }

  // ---------------------------------------------------------------------------
  // search_stocks

  /** The cap on the number of search results. */
  const MaxResults: nat := 10

  /** A row qualifies when the (upper-cased) query occurs in its symbol or its upper-cased name. */
  predicate Qualifies(row: (string, string), q: string) {
    Contains(row.0, q) || Contains(Upper(row.1), q)
  }

  /** The symbols of the qualifying rows, in table order. */
  function Matching(t: Table, q: string): (ms: seq<string>)
    ensures |ms| <= |t|
  {
    if |t| == 0 then []
    else
      var row := t[|t| - 1];
      Matching(t[..|t| - 1], q) + (if Qualifies(row, q) then [row.0] else [])
  }

  /** Python's `s[:n]`. */
  function Take(s: seq<string>, n: nat): (r: seq<string>)
    ensures |r| <= n && |r| <= |s| && r == s[..|r|]
    ensures |s| <= n ==> r == s
  {
    if |s| <= n then s else s[..n]
  }

  /** What search_stocks returns for a query. */
  function SearchResult(t: Table, query: string): (r: seq<string>)
    ensures |r| <= MaxResults
    ensures |r| <= |Matching(t, Upper(query))| && r == Matching(t, Upper(query))[..|r|]
  {
    Take(Matching(t, Upper(query)), MaxResults)
  }

  /** search_stocks */
  method SearchStocks(query: string) returns (result: seq<string>)
    ensures result == SearchResult(Sp500Stocks, query)
  {
    result := SearchTable(Sp500Stocks, query);
  }

  /** The loop of search_stocks, over the rows of a table in order. */
  method SearchTable(t: Table, query: string) returns (result: seq<string>)
    ensures result == SearchResult(t, query)
  {
    var q := Upper(query);
    var matches := [];
    for i := 0 to |t|
      invariant matches == Matching(t[..i], q)
    {
      var (symbol, name) := t[i];
      assert t[..i + 1][..i] == t[..i];
      if Contains(symbol, q) || Contains(Upper(name), q) {
        matches := matches + [symbol];
      }
    }
    assert t[..|t|] == t;
    result := if |matches| <= MaxResults then matches else matches[..MaxResults];
  }

  /** Every result is a symbol of a qualifying row. */
  lemma {:induction false} MatchingSound(t: Table, q: string)
    ensures forall s :: s in Matching(t, q) ==> exists i :: 0 <= i < |t| && t[i].0 == s && Qualifies(t[i], q)
  {
    if |t| > 0 {
      var init := t[..|t| - 1];
      MatchingSound(init, q);
      forall s | s in Matching(init, q)
        ensures exists i :: 0 <= i < |t| && t[i].0 == s && Qualifies(t[i], q)
      {
        var i :| 0 <= i < |init| && init[i].0 == s && Qualifies(init[i], q);
        assert t[i] == init[i];
      }
    }
  }

  /** The matches of a prefix of the table are a prefix of the matches of the table. */
  lemma {:induction false} MatchingPrefix(t: Table, n: nat, q: string)
    requires n <= |t|
    ensures |Matching(t[..n], q)| <= |Matching(t, q)|
    ensures Matching(t[..n], q) == Matching(t, q)[..|Matching(t[..n], q)|]
  {
    if n < |t| {
      var init := t[..|t| - 1];
      assert init[..n] == t[..n];
      MatchingPrefix(init, n, q);
      var m := |Matching(t[..n], q)|;
      assert Matching(t, q)[..m] == Matching(init, q)[..m];
    } else {
      assert t[..n] == t;
    }
  }

  /** A qualifying row's symbol is among the matches, after the matches of the rows before it. */
  lemma QualifyingRowMatches(t: Table, i: int, q: string)
    requires 0 <= i < |t| && Qualifies(t[i], q)
    ensures var before := |Matching(t[..i], q)|;
      before < |Matching(t, q)| && Matching(t, q)[before] == t[i].0
  {
    MatchingPrefix(t, i + 1, q);
    var upto := t[..i + 1];
    assert upto[..i] == t[..i] && upto[i] == t[i];
    assert Matching(upto, q) == Matching(t[..i], q) + [t[i].0];
  }

  /**
   * The properties search_stocks promises: at most ten results, each of them
   * a qualifying symbol, and no qualifying row skipped unless ten earlier
   * matches already fill the result.
   */
  lemma SearchResultFacts(t: Table, query: string, i: int)
    requires 0 <= i < |t|
    ensures |SearchResult(t, query)| <= MaxResults
    ensures forall s :: s in SearchResult(t, query) ==>
      exists k :: 0 <= k < |t| && t[k].0 == s && Qualifies(t[k], Upper(query))
    ensures Qualifies(t[i], Upper(query)) && |Matching(t[..i], Upper(query))| < MaxResults ==>
      t[i].0 in SearchResult(t, query)
  {
    var q := Upper(query);
    var all := Matching(t, q);
    var r := SearchResult(t, query);
    MatchingSound(t, q);
    assert forall s :: s in r ==> s in all;
    if Qualifies(t[i], q) && |Matching(t[..i], q)| < MaxResults {
      QualifyingRowMatches(t, i, q);
      var before := |Matching(t[..i], q)|;
      assert SearchResult(t, query)[before] == t[i].0;
    }
  }

  /** Searching ignores the case of the query. */
  lemma SearchIgnoresCase(t: Table, query: string)
    ensures SearchResult(t, query) == SearchResult(t, Upper(query))
    ensures SearchResult(t, query) == SearchResult(t, Lower(query))
  {
    UpperIdempotent(query);
    UpperOfLower(query);
  }

  /** An empty query matches every row: the first ten symbols in table order. */
  lemma {:induction false} SearchEmptyQuery(t: Table)
    ensures SearchResult(t, "") == Take(Keys(t), MaxResults)
  {
    assert Upper("") == "";
    MatchingEverything(t);
  }

  lemma {:induction false} MatchingEverything(t: Table)
    ensures Matching(t, "") == Keys(t)
  {
    if |t| > 0 {
      MatchingEverything(t[..|t| - 1]);
      ContainsEmpty(t[|t| - 1].0);
    }
  }
}
