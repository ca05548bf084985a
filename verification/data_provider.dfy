/**
 * The provider manager of utils/data_provider.py: a registry of three market
 * data back ends keyed by name, a current choice that only a known name can
 * replace, name resolution that falls back to the default, and an ordered
 * try-each-provider fallback.
 *
 * A back end's network call is not modelled; what one call to it does is a
 * parameter `outcome: string -> Reply<...>` giving, for every provider name,
 * either the value that provider's method returns or the fact that it raised.
 * A provider object is represented by its key.
 */
module DataProvider {
  import opened Text
  import opened Wrappers

  /** What calling a provider's method does: return a value, or raise. */
  datatype Reply<T> = Returned(value: T) | Raised

  /** The keys of `self.providers`, in insertion order. */
  const ProviderNames: seq<string> := ["yfinance", "polygon", "alpaca"]

  /** The constructor's default for `default_provider`. */
  const DefaultProviderName: string := "yfinance"

  /** The risk-free rate used when the provider cannot supply one. */
  const DefaultRiskFreeRate: real := 0.05

  /** The providers that define get_options_chain, search_stocks and get_company_info. */
  const SearchCapable: set<string> := {"yfinance", "polygon"}

  /** The providers that define get_risk_free_rate. */
  const RateCapable: set<string> := {"yfinance"}

  /** The names of `names` other than `skip`, in order. */
  function Others(names: seq<string>, skip: string): seq<string> {
    if |names| == 0 then []
    else (if names[0] != skip then [names[0]] else []) + Others(names[1..], skip)
  }

  /** Others keeps exactly the names other than skip. */
  lemma {:induction false} OthersMembers(names: seq<string>, skip: string)
    ensures forall n :: n in Others(names, skip) <==> n in names && n != skip
  {
    if |names| > 0 {
      OthersMembers(names[1..], skip);
      assert forall n :: n in names <==> n == names[0] || n in names[1..];
    }
  }

  /** The value of the first provider in `names` that does not raise, or Raised if they all do. */
  function FirstReturned<T>(names: seq<string>, outcome: string -> Reply<T>): Reply<T> {
    if |names| == 0 then Raised
    else if outcome(names[0]).Returned? then outcome(names[0])
    else FirstReturned(names[1..], outcome)
  }

  /** The providers actually called when trying `names` in order: up to and including the first that returns. */
  function Called<T>(names: seq<string>, outcome: string -> Reply<T>): seq<string> {
    if |names| == 0 then []
    else if outcome(names[0]).Returned? then [names[0]]
    else [names[0]] + Called(names[1..], outcome)
  }

  /**
   * The full try-each-provider search in the order the source uses: the
   * chosen provider (skipped without a call when it is not a key, since the
   * dictionary lookup raises inside the `try`), then every other key in
   * insertion order.
   */
  function Attempts(providers: seq<string>, chosen: string): (a: seq<string>)
    ensures chosen in providers ==> |a| > 0 && a[0] == chosen
    ensures forall n :: n in a <==> n in providers
  {
    OthersMembers(providers, chosen);
    (if chosen in providers then [chosen] else []) + Others(providers, chosen)
  }

  /** What the fallback methods return: the first non-raising result (even when it is None), else None. */
  function Fallback<T>(providers: seq<string>, chosen: string, outcome: string -> Reply<Option<T>>): (r: Option<T>)
    ensures chosen in providers && outcome(chosen).Returned? ==> r == outcome(chosen).value
  {
    match FirstReturned(Attempts(providers, chosen), outcome)
    case Returned(v) => v
    case Raised => None
  }

  /**
   * The first non-raising result is the result of one of the names, and
   * there is none exactly when every name raises.
   */
  lemma {:induction false} FirstReturnedSpec<T>(names: seq<string>, outcome: string -> Reply<T>)
    ensures var r := FirstReturned(names, outcome);
      && (r.Returned? ==> exists k :: 0 <= k < |names| && outcome(names[k]) == r)
      && (r.Raised? <==> forall k :: 0 <= k < |names| ==> outcome(names[k]).Raised?)
  {
    if |names| > 0 && outcome(names[0]).Raised? {
      FirstReturnedSpec(names[1..], outcome);
      var r := FirstReturned(names, outcome);
      if r.Returned? {
        var k :| 0 <= k < |names[1..]| && outcome(names[1..][k]) == r;
        assert outcome(names[k + 1]) == r;
      }
      assert forall k :: 1 <= k < |names| ==> names[k] == names[1..][k - 1];
    }
  }

  /**
   * The providers called are a prefix of the search order, every one of them
   * but the last raised, and the search stops at the first that returns.
   */
  lemma {:induction false} CalledSpec<T>(names: seq<string>, outcome: string -> Reply<T>)
    ensures var calls := Called(names, outcome);
      && |calls| <= |names| && calls == names[..|calls|]
      && (forall k :: 0 <= k < |calls| - 1 ==> outcome(calls[k]).Raised?)
      && (|calls| < |names| ==> |calls| > 0 && outcome(calls[|calls| - 1]).Returned?)
  {
    if |names| > 0 && outcome(names[0]).Raised? {
      CalledSpec(names[1..], outcome);
      var rest := Called(names[1..], outcome);
      assert Called(names, outcome) == [names[0]] + rest;
      assert forall k :: 1 <= k < |rest| + 1 ==> ([names[0]] + rest)[k] == rest[k - 1];
    }
  }

  /** Trying x before the names in rest. */
  lemma TryFirst<T>(x: string, rest: seq<string>, outcome: string -> Reply<T>)
    ensures FirstReturned([x] + rest, outcome) == if outcome(x).Returned? then outcome(x) else FirstReturned(rest, outcome)
    ensures Called([x] + rest, outcome) == if outcome(x).Returned? then [x] else [x] + Called(rest, outcome)
  {
    assert ([x] + rest)[1..] == rest;
  }

  lemma {:induction false} OthersStep(names: seq<string>, k: nat, skip: string)
    requires k < |names|
    ensures Others(names[k..], skip) == (if names[k] != skip then [names[k]] else []) + Others(names[k + 1..], skip)
  {
    assert names[k..][1..] == names[k + 1..];
  }

  class DataProviderManager {
    /** The keys of `self.providers`. */
    const providers: seq<string>
    const defaultProvider: string
    var currentProvider: string

    /** The current provider is a key, or is still the (unchecked) default. */
    predicate Valid()
      reads this
    {
      providers == ProviderNames && (currentProvider in providers || currentProvider == defaultProvider)
    }

    /** __init__: the three back ends in a fixed order; the default is not checked against them. */
    constructor (defaultProvider: string)
      ensures Valid()
      ensures this.providers == ["yfinance", "polygon", "alpaca"]
      ensures this.defaultProvider == defaultProvider && currentProvider == defaultProvider
    {
      providers := ProviderNames;
      this.defaultProvider := defaultProvider;
      currentProvider := defaultProvider;
    }

    /** set_provider: a known name becomes current; an unknown one changes nothing. */
    method SetProvider(providerName: string)
      requires Valid()
      modifies this
      ensures Valid()
      ensures providerName in providers ==> currentProvider == providerName
      ensures providerName !in providers ==> currentProvider == old(currentProvider)
    {
      if providerName in providers {
        currentProvider := providerName;
      }
    }

    /** get_provider: the current provider, or None where `self.providers[...]` raises KeyError. */
    function GetProvider(): (p: Option<string>)
      reads this
      ensures p.Some? ==> p.value in providers && p.value == currentProvider
      ensures p.None? <==> currentProvider !in providers
    {
      if currentProvider in providers then Some(currentProvider) else None
    }

    /** get_available_providers: the keys in insertion order. */
    function GetAvailableProviders(): (names: seq<string>)
      reads this
      requires Valid()
      ensures names == ["yfinance", "polygon", "alpaca"]
      ensures Distinct(names)
    {
      providers
    }

    /**
     * `provider or self.current_provider`, then the default when that is not
     * a key. None and the empty string are falsy.
     */
    function Resolve(provider: Option<string>): (name: string)
      reads this
      ensures name in providers || name == defaultProvider
      ensures provider.Some? && provider.value != "" && provider.value in providers ==> name == provider.value
      ensures (provider.None? || provider.value == "") && currentProvider in providers ==> name == currentProvider
      ensures provider.Some? && provider.value != "" && provider.value !in providers ==> name == defaultProvider
      ensures (provider.None? || provider.value == "") && currentProvider !in providers ==> name == defaultProvider
    {
      var requested := if provider.Some? && provider.value != "" then provider.value else currentProvider;
      if requested in providers then requested else defaultProvider
    }

    /**
     * The body shared by get_stock_data and calculate_historical_volatility:
     * try the resolved provider, then (in the `except` branch) each other key
     * in order, returning the first result that is not an exception. `calls`
     * records which providers were called.
     */
    method WithFallback<T>(provider: Option<string>, outcome: string -> Reply<Option<T>>)
      returns (r: Option<T>, ghost calls: seq<string>)
      ensures r == Fallback(providers, Resolve(provider), outcome)
      ensures calls == Called(Attempts(providers, Resolve(provider)), outcome)
    {
      var providerName := Resolve(provider);
      ghost var others := Others(providers, providerName);
      if providerName in providers {
        assert Attempts(providers, providerName) == [providerName] + others;
        TryFirst(providerName, others, outcome);
        var first := outcome(providerName);
        if first.Returned? {
          return first.value, [providerName];
        }
        r, calls := TryOthers(providerName, outcome);
        calls := [providerName] + calls;
      } else {
        assert Attempts(providers, providerName) == others;
        r, calls := TryOthers(providerName, outcome);
      }
    }

    /** The fallback loop: every key except `skip`, in order, until one does not raise. */
    method TryOthers<T>(skip: string, outcome: string -> Reply<Option<T>>)
      returns (r: Option<T>, ghost calls: seq<string>)
      ensures r == match FirstReturned(Others(providers, skip), outcome) case Returned(v) => v case Raised => None
      ensures calls == Called(Others(providers, skip), outcome)
    {
      ghost var others := Others(providers, skip);
      calls := [];
      assert providers[0..] == providers;
      for k := 0 to |providers|
        invariant FirstReturned(others, outcome) == FirstReturned(Others(providers[k..], skip), outcome)
        invariant Called(others, outcome) == calls + Called(Others(providers[k..], skip), outcome)
      {
        OthersStep(providers, k, skip);
        ghost var later := Others(providers[k + 1..], skip);
        if providers[k] != skip {
          assert Others(providers[k..], skip) == [providers[k]] + later;
          TryFirst(providers[k], later, outcome);
          calls := calls + [providers[k]];
          var next := outcome(providers[k]);
          if next.Returned? {
            return next.value, calls;
          }
        } else {
          assert Others(providers[k..], skip) == later;
        }
      }
      assert providers[|providers|..] == [];
      r := None;
    }

    /** get_stock_data */
    method GetStockData<T>(provider: Option<string>, outcome: string -> Reply<Option<T>>)
      returns (r: Option<T>, ghost calls: seq<string>)
      ensures r == Fallback(providers, Resolve(provider), outcome)
      ensures calls == Called(Attempts(providers, Resolve(provider)), outcome)
    {
      r, calls := WithFallback(provider, outcome);
    }

    /** calculate_historical_volatility: the same fallback as get_stock_data. */
    method CalculateHistoricalVolatility(provider: Option<string>, outcome: string -> Reply<Option<real>>)
      returns (r: Option<real>, ghost calls: seq<string>)
      ensures r == Fallback(providers, Resolve(provider), outcome)
      ensures calls == Called(Attempts(providers, Resolve(provider)), outcome)
    {
      r, calls := WithFallback(provider, outcome);
    }

    /** get_historical_data: the resolved provider only, None when it raises. */
    function GetHistoricalData<T>(provider: Option<string>, outcome: string -> Reply<Option<T>>): (r: Option<T>)
      reads this
      ensures var name := Resolve(provider);
        && (name in providers && outcome(name).Returned? ==> r == outcome(name).value)
        && (name !in providers || outcome(name).Raised? ==> r == None)
    {
      var name := Resolve(provider);
      if name in providers && outcome(name).Returned? then outcome(name).value else None
    }

    /** get_market_overview: the resolved provider's overview, or an empty dictionary when it raises. */
    function GetMarketOverview<T>(provider: Option<string>, outcome: string -> Reply<map<string, T>>): (r: map<string, T>)
      reads this
      ensures var name := Resolve(provider);
        && (name in providers && outcome(name).Returned? ==> r == outcome(name).value)
        && (name !in providers || outcome(name).Raised? ==> r == map[])
    {
      var name := Resolve(provider);
      if name in providers && outcome(name).Returned? then outcome(name).value else map[]
    }

    /**
     * The shape of the optional operations: call the resolved provider when it
     * defines the method, else use `missing`; an exception (including the
     * KeyError of an unknown default) gives `failed`.
     */
    function Optional<T>(provider: Option<string>, capable: set<string>, outcome: string -> Reply<T>, missing: T, failed: T): (r: T)
      reads this
      ensures var name := Resolve(provider);
        && (name !in providers ==> r == failed)
        && (name in providers && name !in capable ==> r == missing)
        && (name in providers && name in capable ==> r == if outcome(name).Returned? then outcome(name).value else failed)
    {
      var name := Resolve(provider);
      if name !in providers then failed
      else if name !in capable then missing
      else if outcome(name).Returned? then outcome(name).value
      else failed
    }

    /** get_options_chain */
    function GetOptionsChain<T>(provider: Option<string>, outcome: string -> Reply<Option<T>>): (r: Option<T>)
      reads this
      ensures Resolve(provider) !in SearchCapable ==> r == None
      ensures Resolve(provider) in providers && Resolve(provider) in SearchCapable && outcome(Resolve(provider)).Returned? ==>
        r == outcome(Resolve(provider)).value
      ensures outcome(Resolve(provider)).Raised? ==> r == None
    {
      Optional(provider, SearchCapable, outcome, None, None)
    }

    /** search_stocks (the provider's own search, not the local table's) */
    function SearchStocks<T>(provider: Option<string>, outcome: string -> Reply<seq<T>>): (r: seq<T>)
      reads this
      ensures Resolve(provider) !in SearchCapable ==> r == []
      ensures Resolve(provider) in providers && Resolve(provider) in SearchCapable && outcome(Resolve(provider)).Returned? ==>
        r == outcome(Resolve(provider)).value
      ensures outcome(Resolve(provider)).Raised? ==> r == []
    {
      Optional(provider, SearchCapable, outcome, [], [])
    }

    /** get_company_info */
    function GetCompanyInfo<T>(provider: Option<string>, outcome: string -> Reply<Option<T>>): (r: Option<T>)
      reads this
      ensures Resolve(provider) !in SearchCapable ==> r == None
      ensures Resolve(provider) in providers && Resolve(provider) in SearchCapable && outcome(Resolve(provider)).Returned? ==>
        r == outcome(Resolve(provider)).value
      ensures outcome(Resolve(provider)).Raised? ==> r == None
    {
      Optional(provider, SearchCapable, outcome, None, None)
    }

    /** get_risk_free_rate: only Yahoo Finance supplies a rate; every other path gives 5%. */
    function GetRiskFreeRate(provider: Option<string>, outcome: string -> Reply<real>): (rate: real)
      reads this
      ensures Resolve(provider) != "yfinance" ==> rate == DefaultRiskFreeRate
      ensures outcome("yfinance").Raised? ==> rate == DefaultRiskFreeRate
      ensures Valid() && Resolve(provider) == "yfinance" && outcome("yfinance").Returned? ==> rate == outcome("yfinance").value
    {
      Optional(provider, RateCapable, outcome, DefaultRiskFreeRate, DefaultRiskFreeRate)
    }
  }

  /** With a default that is a key, the current provider is always a key, so get_provider never raises. */
  lemma GetProviderNeverFails(dpm: DataProviderManager)
    requires dpm.Valid() && dpm.defaultProvider in dpm.providers
    ensures dpm.GetProvider().Some?
  {
  }

  /** The chosen provider answers: its result comes back and no other provider is called. */
  lemma FallbackChosenAnswers<T>(providers: seq<string>, chosen: string, outcome: string -> Reply<Option<T>>)
    requires chosen in providers && outcome(chosen).Returned?
    ensures Fallback(providers, chosen, outcome) == outcome(chosen).value
    ensures Called(Attempts(providers, chosen), outcome) == [chosen]
  {
  }

  /** Every provider raises: the result is None, and every key has been called once. */
  lemma {:induction false} FallbackAllRaise<T>(providers: seq<string>, chosen: string, outcome: string -> Reply<Option<T>>)
    requires forall n :: n in providers ==> outcome(n).Raised?
    ensures Fallback(providers, chosen, outcome) == None
    ensures Called(Attempts(providers, chosen), outcome) == Attempts(providers, chosen)
  {
    var attempts := Attempts(providers, chosen);
    OthersMembers(providers, chosen);
    assert forall k :: 0 <= k < |attempts| ==> attempts[k] in providers;
    FirstReturnedSpec(attempts, outcome);
    CalledAllRaise(attempts, outcome);
  }

  lemma {:induction false} CalledAllRaise<T>(names: seq<string>, outcome: string -> Reply<T>)
    requires forall k :: 0 <= k < |names| ==> outcome(names[k]).Raised?
    ensures Called(names, outcome) == names
  {
    if |names| > 0 {
      CalledAllRaise(names[1..], outcome);
    }
  }

  /** A Some result came from a provider that returned it; the fallback never invents data. */
  lemma FallbackSound<T>(providers: seq<string>, chosen: string, outcome: string -> Reply<Option<T>>)
    ensures Fallback(providers, chosen, outcome).Some? ==>
      exists n :: n in providers && outcome(n) == Returned(Fallback(providers, chosen, outcome))
  {
    var attempts := Attempts(providers, chosen);
    var r := FirstReturned(attempts, outcome);
    FirstReturnedSpec(attempts, outcome);
    OthersMembers(providers, chosen);
    if r.Returned? && r.value.Some? {
      var k :| 0 <= k < |attempts| && outcome(attempts[k]) == r;
      assert attempts[k] in providers;
    }
  }

  /** Each provider is tried at most once: the search order has no repeats. */
  lemma AttemptsDistinct(providers: seq<string>, chosen: string)
    requires Distinct(providers)
    ensures Distinct(Attempts(providers, chosen))
  {
    OthersDistinct(providers, chosen);
    OthersMembers(providers, chosen);
    var o := Others(providers, chosen);
    if chosen in providers {
      assert chosen !in o;
      DistinctCons(chosen, o);
    }
  }

  lemma {:induction false} OthersDistinct(names: seq<string>, skip: string)
    requires Distinct(names)
    ensures Distinct(Others(names, skip))
  {
    if |names| > 0 {
      assert Distinct(names[1..]) by {
        assert forall i :: 0 <= i < |names| - 1 ==> names[1..][i] == names[i + 1];
      }
      OthersDistinct(names[1..], skip);
      var o := Others(names[1..], skip);
      OthersMembers(names[1..], skip);
      if names[0] != skip {
        assert names[0] !in names[1..];
        assert names[0] !in o;
        DistinctCons(names[0], o);
      }
    }
  }

  lemma DistinctCons(x: string, rest: seq<string>)
    requires Distinct(rest) && x !in rest
    ensures Distinct([x] + rest)
  {
    var s := [x] + rest;
    forall i, j | 0 <= i < j < |s|
      ensures s[i] != s[j]
    {
      assert s[j] == rest[j - 1];
      if i > 0 {
        assert s[i] == rest[i - 1];
      }
    }
  }

  /** The outcome of get_current_price. */
  datatype PriceLookup = Price(price: real) | NoData | MissingPriceKey

  /**
   * get_current_price: `data['price'] if data else None` over the stock-data
   * dictionary the manager returns. An empty dictionary is falsy; a non-empty
   * one without 'price' raises KeyError, which the function does not catch.
   */
  method GetCurrentPrice(dpm: DataProviderManager, provider: Option<string>, outcome: string -> Reply<Option<map<string, real>>>)
    returns (r: PriceLookup)
    ensures var data := Fallback(dpm.providers, dpm.Resolve(provider), outcome);
      && (data.None? || data.value == map[] ==> r == NoData)
      && (data.Some? && "price" in data.value ==> r == Price(data.value["price"]))
      && (data.Some? && data.value != map[] && "price" !in data.value ==> r == MissingPriceKey)
  {
    var data, _ := dpm.GetStockData(provider, outcome);
    if data.None? || data.value == map[] {
      r := NoData;
    } else if "price" in data.value {
      r := Price(data.value["price"]);
    } else {
      r := MissingPriceKey;
    }
  }
}
